/** The hooked socket calls: which bridge each socket owns, and where its connects and sends end up. Every hook
    call is taken as one step. */
module HookBindings {
  import opened Bytes

  const AF_UNSPEC: int := 0
  const AF_INET: int := 2
  const AF_INET6: int := 23
  const SOCKADDR_IN: int := 16
  const SOCKADDR_IN6: int := 28
  const SOCKADDR_STORAGE: int := 128

  // ---- Addresses -------------------------------------------------------------------------------

  /** The memory an address pointer points to, and the length passed with it. */
  datatype RawAddress = RawAddress(memory: seq<byte>, len: int)

  type Address = a: RawAddress | |a.memory| == SOCKADDR_STORAGE
    witness RawAddress(seq(SOCKADDR_STORAGE, i => 0), 0)

  /** An address no longer than what the hook stores. */
  type Sockaddr = a: Address | a.len <= SOCKADDR_STORAGE
    witness RawAddress(seq(SOCKADDR_STORAGE, i => 0), 0)

  function Family(a: Address): int {
    a.memory[0] as int + a.memory[1] as int * 256
  }

  function Port(a: Address): int {
    FromBe16(a.memory[2..4])
  }

  /** The bytes that count as the peer: those within the length. */
  function Image(a: Sockaddr): seq<byte> {
    if a.len <= 0 then [] else a.memory[..a.len]
  }

  function Zeros(n: nat): seq<byte> {
    seq(n, i => 0)
  }

  /** An address copied into zeroed storage. */
  function Stored(a: Sockaddr): (r: Sockaddr)
    ensures a.len >= 0 ==> r.len == a.len && Image(r) == Image(a)
  {
    var image := Image(a);
    RawAddress(image + Zeros(SOCKADDR_STORAGE - |image|), |image|)
  }

  predicate IsLoopback(a: Address) {
    if Family(a) == AF_INET then a.memory[4] == 127
    else if Family(a) == AF_INET6 then a.memory[8..24] == Zeros(15) + [1]
    else false
  }

  datatype Tunnel = Tunnel(enabled: bool, port: int)

  predicate AtTunnelPort(tunnel: Tunnel, a: Address) {
    tunnel.enabled && Family(a) == AF_INET && Port(a) == tunnel.port
  }

  /** What a bridge is opened for. */
  datatype Target = Target(udp: bool, family: int, host: seq<byte>, port: int)

  function TargetOf(a: Address, udp: bool): Option<Target> {
    if a.len <= 0 || Port(a) == 0 then None
    else if Family(a) == AF_INET && a.len >= SOCKADDR_IN then Some(Target(udp, AF_INET, a.memory[4..8], Port(a)))
    else if Family(a) == AF_INET6 && a.len >= SOCKADDR_IN6 then Some(Target(udp, AF_INET6, a.memory[8..24], Port(a)))
    else None
  }

  /** Within its length an address fixes its target and whether it is loopback or at the tunnel's port. */
  lemma ImageDecides(a: Sockaddr, b: Sockaddr, udp: bool, tunnel: Tunnel)
    requires Image(a) == Image(b) && TargetOf(a, udp).Some?
    ensures TargetOf(b, udp) == TargetOf(a, udp)
    ensures IsLoopback(a) <==> IsLoopback(b)
    ensures AtTunnelPort(tunnel, a) <==> AtTunnelPort(tunnel, b)
  {
    assert a.len == b.len;
    assert forall i :: 0 <= i < a.len ==> a.memory[i] == Image(a)[i] && b.memory[i] == Image(b)[i];
    assert a.memory[2..4] == b.memory[2..4] && a.memory[4..8] == b.memory[4..8];
    if a.len >= SOCKADDR_IN6 {
      assert a.memory[8..24] == b.memory[8..24];
    }
  }

  // ---- State -----------------------------------------------------------------------------------

  datatype Kind = Udp | Tcp | Other

  datatype Binding = Binding(id: nat, udp: bool, peer: Sockaddr, port: nat)

  /** The hook's table of bridges; and, on the runtime's side, the bridges opened and not closed and every
      id given. */
  datatype Bridges = Bridges(bindings: map<nat, Binding>, live: map<nat, Target>, given: set<nat>)

  /** The runtime becomes ready once, and stays so. */
  datatype State = State(tunnel: Tunnel, ready: bool, sockets: map<nat, Kind>, peers: map<nat, Sockaddr>,
    bridges: Bridges)

  /** What the runtime would answer to an open request: the new bridge's id and local port. */
  datatype Offer = Offer(id: nat, port: nat)

  /** The runtime gives nonzero, unused ids and ports it has bound. */
  predicate Sound(given: set<nat>, offer: Option<Offer>) {
    offer.Some? ==> offer.value.id != 0 && offer.value.port != 0 && offer.value.id !in given
  }

  function CloseBinding(s: Bridges, sock: nat): Bridges {
    if sock !in s.bindings then s
    else Bridges(s.bindings - {sock}, s.live - {s.bindings[sock].id}, s.given)
  }

  function OpenBinding(s: Bridges, sock: nat, a: Sockaddr, udp: bool, offer: Option<Offer>)
    : (Bridges, Option<Binding>)
  {
    var target := TargetOf(a, udp);
    if target.None? || offer.None? then (s, None)
    else
      var b := Binding(offer.value.id, udp, Stored(a), offer.value.port);
      (Bridges(s.bindings[sock := b], s.live[b.id := target.value], s.given + {b.id}), Some(b))
  }

  /** The socket is bound to this very address, with this protocol. */
  predicate Bound(s: Bridges, sock: nat, a: Sockaddr, udp: bool) {
    sock in s.bindings && s.bindings[sock].udp == udp && Image(s.bindings[sock].peer) == Image(a)
  }

  /** Addresses no bridge is made for. */
  predicate Exempt(tunnel: Tunnel, a: Address) {
    IsLoopback(a) || AtTunnelPort(tunnel, a)
  }

  function Ensure(tunnel: Tunnel, s: Bridges, sock: nat, address: Option<Sockaddr>, udp: bool, offer: Option<Offer>)
    : (Bridges, Option<Binding>)
  {
    if address.None? || address.value.len <= 0 || Exempt(tunnel, address.value) then (s, None)
    else if Bound(s, sock, address.value, udp) then (s, Some(s.bindings[sock]))
    else OpenBinding(CloseBinding(s, sock), sock, address.value, udp, offer)
  }

  // ---- Hook calls ------------------------------------------------------------------------------

  /** What the caller's request became: passed on as it was, sent to a bridge's local port, refused, or
      answered without a system call. */
  datatype Action = Passed | Redirected(port: nat) | Refused | Done

  /** What a send hands over: one buffer, given or null, with its length (`send`, `sendto`), or the lengths of a
      list of buffers, or a null list (`WSASend`, `WSASendTo`). */
  datatype SendData = Plain(given: bool, len: int) | Gather(lengths: Option<seq<nat>>)

  /** The sends the hooks do not look at: empty ones, and lists of any number of buffers but one. */
  predicate Overlooked(data: SendData) {
    match data
    case Plain(given, len) => !given || len <= 0
    case Gather(lengths) => lengths.None? || |lengths.value| != 1 || lengths.value[0] == 0
  }

  /** The send carries at least one byte. */
  predicate Carries(data: SendData) {
    match data
    case Plain(given, len) => given && len > 0
    case Gather(lengths) => lengths.Some? && exists i :: 0 <= i < |lengths.value| && lengths.value[i] > 0
  }

  datatype Call =
    | Start
    | Register(sock: nat, kind: Kind)
    | Connect(sock: nat, name: Option<Address>, offer: Option<Offer>)
    | SendTo(sock: nat, to: Option<Sockaddr>, data: SendData, offer: Option<Offer>)
    | Send(sock: nat, data: SendData, offer: Option<Offer>)
    | CloseSocket(sock: nat)

  predicate Known(s: State, sock: nat, kind: Kind) {
    sock in s.sockets && s.sockets[sock] == kind
  }

  /** Ensure a bridge and send the request to its local port, or refuse. */
  function Redirect(s: State, sock: nat, address: Option<Sockaddr>, udp: bool, offer: Option<Offer>): (State, Action) {
    var (bridges, b) := Ensure(s.tunnel, s.bridges, sock, address, udp, offer);
    (s.(bridges := bridges), if b.Some? then Redirected(b.value.port) else Refused)
  }

  predicate Disconnects(s: State, sock: nat, name: Option<Address>) {
    Known(s, sock, Udp) && name.Some? && name.value.len >= 2 && Family(name.value) == AF_UNSPEC
  }

  /** A connect the hook leaves alone, whatever the state of the bridges. */
  predicate PassesConnect(s: State, sock: nat, name: Option<Address>) {
    || sock !in s.sockets || name.None? || name.value.len < 2
    || (Family(name.value) != AF_INET && Family(name.value) != AF_INET6)
    || name.value.len > SOCKADDR_STORAGE || Exempt(s.tunnel, name.value)
  }

  function ConnectStep(s: State, sock: nat, name: Option<Address>, offer: Option<Offer>)
    : (State, Action)
  {
    if Disconnects(s, sock, name) then (s.(peers := s.peers - {sock}), Done)
    else if PassesConnect(s, sock, name) then (s, Passed)
    else if !s.ready then (s, Refused)
    else
      match s.sockets[sock]
      case Tcp => Redirect(s, sock, name, false, offer)
      case Udp =>
        var noted := s.(peers := s.peers[sock := Stored(name.value)]);
        var (after, action) := Redirect(noted, sock, name, true, offer);
        (after, if action.Redirected? then Done else Refused)
      case Other => (s, Passed)
  }

  function SendToStep(s: State, sock: nat, to: Option<Sockaddr>, data: SendData, offer: Option<Offer>)
    : (State, Action)
  {
    if to.Some? && Exempt(s.tunnel, to.value) then (s, Passed)
    else if Overlooked(data) || !Known(s, sock, Udp) then (s, Passed)
    else if !s.ready then (s, Refused)
    else Redirect(s, sock, to, true, offer)
  }

  function SendStep(s: State, sock: nat, data: SendData, offer: Option<Offer>): (State, Action) {
    if Overlooked(data) || !Known(s, sock, Udp) || sock !in s.peers then (s, Passed)
    else if !s.ready then (s, Refused)
    else Redirect(s, sock, Some(s.peers[sock]), true, offer)
  }

  function CloseStep(s: State, sock: nat): State {
    State(s.tunnel, s.ready, s.sockets - {sock}, s.peers - {sock}, CloseBinding(s.bridges, sock))
  }

  function Next(s: State, call: Call): (State, Action) {
    match call
    case Start => (s.(ready := true), Done)
    case Register(sock, kind) => (s.(sockets := s.sockets[sock := kind]), Passed)
    case Connect(sock, name, offer) => ConnectStep(s, sock, name, offer)
    case SendTo(sock, to, data, offer) => SendToStep(s, sock, to, data, offer)
    case Send(sock, data, offer) => SendStep(s, sock, data, offer)
    case CloseSocket(sock) => (CloseStep(s, sock), Passed)
  }

  predicate SoundCall(s: State, call: Call) {
    match call
    case Connect(_, _, offer) => Sound(s.bridges.given, offer)
    case SendTo(_, _, _, offer) => Sound(s.bridges.given, offer)
    case Send(_, _, offer) => Sound(s.bridges.given, offer)
    case _ => true
  }

  // ---- Ownership -------------------------------------------------------------------------------

  /** A binding's bridge is open and was opened for the binding's peer, which is neither loopback nor an
      IPv4 host at the tunnel's port. */
  predicate Backed(tunnel: Tunnel, live: map<nat, Target>, b: Binding) {
    && b.id in live && TargetOf(b.peer, b.udp) == Some(live[b.id])
    && !Exempt(tunnel, b.peer) && b.port != 0
  }

  ghost predicate HasOwner(bindings: map<nat, Binding>, id: nat) {
    exists sock :: sock in bindings && bindings[sock].id == id
  }

  ghost predicate Owned(tunnel: Tunnel, s: Bridges) {
    && (forall sock :: sock in s.bindings ==> Backed(tunnel, s.live, s.bindings[sock]))
    && (forall k, l :: k in s.bindings && l in s.bindings && s.bindings[k].id == s.bindings[l].id ==> k == l)
    && (forall id :: id in s.live ==> id in s.given && HasOwner(s.bindings, id))
  }

  ghost predicate Valid(s: State) {
    && Owned(s.tunnel, s.bridges)
    && (forall sock :: sock in s.bridges.bindings ==> sock in s.sockets)
    && (forall sock :: sock in s.peers ==> sock in s.sockets)
    && (!s.ready ==> s.peers == map[] && s.bridges.bindings == map[])
  }

  function Init(tunnel: Tunnel): State {
    State(tunnel, false, map[], map[], Bridges(map[], map[], {}))
  }

  lemma CloseKeeps(tunnel: Tunnel, s: Bridges, sock: nat)
    requires Owned(tunnel, s)
    ensures var after := CloseBinding(s, sock);
      && Owned(tunnel, after) && after.given == s.given && after.bindings.Keys == s.bindings.Keys - {sock}
      && (sock in s.bindings ==> s.bindings[sock].id !in after.live)
  {
    var after := CloseBinding(s, sock);
    if sock in s.bindings {
      CloseHasOwners(s.bindings, sock);
      forall k | k in after.bindings ensures Backed(tunnel, after.live, after.bindings[k]) {
        assert Backed(tunnel, s.live, s.bindings[k]);
      }
    }
  }

  lemma CloseHasOwners(bindings: map<nat, Binding>, sock: nat)
    requires sock in bindings
    ensures forall id :: HasOwner(bindings, id) && id != bindings[sock].id ==> HasOwner(bindings - {sock}, id)
  {
    forall id | HasOwner(bindings, id) && id != bindings[sock].id ensures HasOwner(bindings - {sock}, id) {
      var k :| k in bindings && bindings[k].id == id;
      assert (bindings - {sock})[k].id == id;
    }
  }

  lemma OpenBacked(tunnel: Tunnel, s: Bridges, sock: nat, a: Sockaddr, udp: bool, offer: Option<Offer>)
    requires Owned(tunnel, s) && Sound(s.given, offer) && !Exempt(tunnel, a)
    ensures var (after, b) := OpenBinding(s, sock, a, udp, offer);
      b.Some? ==> forall k :: k in after.bindings ==> Backed(tunnel, after.live, after.bindings[k])
  {
    var (after, b) := OpenBinding(s, sock, a, udp, offer);
    if b.Some? {
      ImageDecides(a, b.value.peer, udp, tunnel);
      assert Backed(tunnel, after.live, b.value);
      forall k | k in after.bindings ensures Backed(tunnel, after.live, after.bindings[k]) {
        if k != sock {
          assert Backed(tunnel, s.live, s.bindings[k]);
        }
      }
    }
  }

  lemma OpenKeeps(tunnel: Tunnel, s: Bridges, sock: nat, a: Sockaddr, udp: bool, offer: Option<Offer>)
    requires Owned(tunnel, s) && sock !in s.bindings && Sound(s.given, offer) && !Exempt(tunnel, a)
    ensures Owned(tunnel, OpenBinding(s, sock, a, udp, offer).0)
  {
    var b := OpenBinding(s, sock, a, udp, offer).1;
    OpenBacked(tunnel, s, sock, a, udp, offer);
    if b.Some? {
      OpenHasOwners(tunnel, s, sock, b.value);
    }
  }

  lemma OpenHasOwners(tunnel: Tunnel, s: Bridges, sock: nat, b: Binding)
    requires Owned(tunnel, s) && sock !in s.bindings
    ensures forall id :: id in s.live || id == b.id ==> HasOwner(s.bindings[sock := b], id)
  {
    var after := s.bindings[sock := b];
    assert after[sock].id == b.id;
    forall id | id in s.live ensures HasOwner(after, id) {
      assert HasOwner(s.bindings, id);
      var k :| k in s.bindings && s.bindings[k].id == id;
      assert after[k].id == id;
    }
  }

  /** The socket owns an open bridge for that address and protocol, at that local port. */
  predicate Reaches(s: Bridges, sock: nat, a: Address, udp: bool, port: nat) {
    && sock in s.bindings && s.bindings[sock].udp == udp && s.bindings[sock].port == port
    && s.bindings[sock].id in s.live && TargetOf(a, udp) == Some(s.live[s.bindings[sock].id])
  }

  /** Ensuring a binding keeps the ownership, and a binding it gives reaches the address asked for. */
  lemma EnsureKeeps(tunnel: Tunnel, s: Bridges, sock: nat, address: Option<Sockaddr>, udp: bool, offer: Option<Offer>)
    requires Owned(tunnel, s) && Sound(s.given, offer)
    ensures var (after, b) := Ensure(tunnel, s, sock, address, udp, offer);
      && Owned(tunnel, after) && after.bindings.Keys <= s.bindings.Keys + {sock}
      && (b.Some? ==> address.Some? && Reaches(after, sock, address.value, udp, b.value.port))
  {
    if address.Some? && address.value.len > 0 && !Exempt(tunnel, address.value) {
      var a := address.value;
      if Bound(s, sock, a, udp) {
        assert Backed(tunnel, s.live, s.bindings[sock]);
        ImageDecides(s.bindings[sock].peer, a, udp, tunnel);
      } else {
        CloseKeeps(tunnel, s, sock);
        OpenKeeps(tunnel, CloseBinding(s, sock), sock, a, udp, offer);
      }
    }
  }

  lemma RedirectKeeps(s: State, sock: nat, address: Option<Sockaddr>, udp: bool, offer: Option<Offer>)
    requires Valid(s) && s.ready && sock in s.sockets && Sound(s.bridges.given, offer)
    ensures var (after, action) := Redirect(s, sock, address, udp, offer);
      && Valid(after) && after == s.(bridges := after.bridges)
      && (action.Redirected? ==> address.Some? && Reaches(after.bridges, sock, address.value, udp, action.port))
  {
    EnsureKeeps(s.tunnel, s.bridges, sock, address, udp, offer);
  }

  /** Where a call asks its data or connection to go. */
  function Destination(s: State, call: Call): Option<Address> {
    match call
    case Connect(_, name, _) => name
    case SendTo(_, to, _, _) => to
    case Send(sock, _, _) => if sock in s.peers then Some(s.peers[sock]) else None
    case _ => None
  }

  /** Every call keeps the ownership, and what it redirects goes to a bridge opened for the address it was
      meant for, with the socket's protocol. */
  lemma NextKeeps(s: State, call: Call)
    requires Valid(s) && SoundCall(s, call)
    ensures Valid(Next(s, call).0) && Next(s, call).0.tunnel == s.tunnel
    ensures Next(s, call).1.Redirected? ==>
        Destination(s, call).Some?
        && Reaches(Next(s, call).0.bridges, call.sock, Destination(s, call).value, !call.Connect?, Next(s, call).1.port)
  {
    match call
    case Start =>
    case Register(sock, kind) =>
    case Connect(sock, name, offer) => ConnectKeeps(s, sock, name, offer);
    case SendTo(sock, to, data, offer) =>
      if Known(s, sock, Udp) && s.ready {
        RedirectKeeps(s, sock, to, true, offer);
      }
    case Send(sock, data, offer) =>
      if Known(s, sock, Udp) && sock in s.peers && s.ready {
        RedirectKeeps(s, sock, Some(s.peers[sock]), true, offer);
      }
    case CloseSocket(sock) => CloseKeeps(s.tunnel, s.bridges, sock);
  }

  lemma ConnectKeeps(s: State, sock: nat, name: Option<Address>, offer: Option<Offer>)
    requires Valid(s) && Sound(s.bridges.given, offer)
    ensures var (after, action) := ConnectStep(s, sock, name, offer);
      && Valid(after) && after.tunnel == s.tunnel && after.sockets == s.sockets && after.ready == s.ready
      && (action.Redirected? ==> name.Some? && Reaches(after.bridges, sock, name.value, false, action.port))
  {
    if !Disconnects(s, sock, name) && !PassesConnect(s, sock, name) && s.ready {
      if s.sockets[sock] == Tcp {
        RedirectKeeps(s, sock, name, false, offer);
      } else if s.sockets[sock] == Udp {
        RedirectKeeps(s.(peers := s.peers[sock := Stored(name.value)]), sock, name, true, offer);
      }
    }
  }

  // ---- Whole runs ------------------------------------------------------------------------------

  function Run(s: State, run: seq<Call>): State
    decreases |run|
  {
    if run == [] then s else Run(Next(s, run[0]).0, run[1..])
  }

  /** The runtime's answers are sound all along the run. */
  predicate SoundRun(s: State, run: seq<Call>)
    decreases |run|
  {
    run == [] || (SoundCall(s, run[0]) && SoundRun(Next(s, run[0]).0, run[1..]))
  }

  lemma {:induction false} RunKeeps(s: State, run: seq<Call>)
    requires Valid(s) && SoundRun(s, run)
    ensures Valid(Run(s, run)) && Run(s, run).tunnel == s.tunnel
    decreases |run|
  {
    if run != [] {
      NextKeeps(s, run[0]);
      RunKeeps(Next(s, run[0]).0, run[1..]);
    }
  }

  /** Over every sequence of hook calls: the bridges the hook has opened and not yet closed are exactly those of the
      binding table, no two sockets share one, each was opened for its socket's peer, which is neither loopback nor
      an IPv4 host at the tunnel's port; and once the sockets are closed no bridge is left unclosed. */
  lemma Ownership(tunnel: Tunnel, run: seq<Call>)
    requires SoundRun(Init(tunnel), run)
    ensures var s := Run(Init(tunnel), run).bridges;
      && (forall id :: id in s.live <==> HasOwner(s.bindings, id))
      && (forall k, l :: k in s.bindings && l in s.bindings && k != l ==> s.bindings[k].id != s.bindings[l].id)
      && (forall sock :: sock in s.bindings ==> Backed(tunnel, s.live, s.bindings[sock]))
      && (Run(Init(tunnel), run).sockets == map[] ==> s.live == map[])
  {
    RunKeeps(Init(tunnel), run);
    var s := Run(Init(tunnel), run).bridges;
    forall id | HasOwner(s.bindings, id) ensures id in s.live {
      var sock :| sock in s.bindings && s.bindings[sock].id == id;
      assert Backed(tunnel, s.live, s.bindings[sock]);
    }
    if Run(Init(tunnel), run).sockets == map[] {
      forall id ensures id !in s.live {
        assert id in s.live ==> HasOwner(s.bindings, id);
      }
    }
  }

  /** And whatever any call of the run redirects goes to a bridge opened for the address it was meant for. */
  lemma RedirectsReach(tunnel: Tunnel, run: seq<Call>, call: Call)
    requires SoundRun(Init(tunnel), run) && SoundCall(Run(Init(tunnel), run), call)
    ensures var s := Run(Init(tunnel), run);
      var (after, action) := Next(s, call);
      action.Redirected? ==>
        && Destination(s, call).Some?
        && Reaches(after.bridges, call.sock, Destination(s, call).value, !call.Connect?, action.port)
        && Backed(tunnel, after.bridges.live, after.bridges.bindings[call.sock])
  {
    RunKeeps(Init(tunnel), run);
    NextKeeps(Run(Init(tunnel), run), call);
  }

  // ---- Which calls are redirected --------------------------------------------------------------

  /** A send on a hooked UDP socket to an address: it passes through exactly when the address is exempt or the hook
      does not look at the send; it is redirected exactly when a bridge can be opened for the address and is there
      or can be had; everything else is refused. */
  lemma SendToOutcome(s: State, sock: nat, to: Option<Sockaddr>, data: SendData, offer: Option<Offer>)
    requires Valid(s) && Known(s, sock, Udp)
    ensures var action := SendToStep(s, sock, to, data, offer).1;
      && (action.Redirected? <==>
          && !Overlooked(data) && s.ready && to.Some? && TargetOf(to.value, true).Some? && !Exempt(s.tunnel, to.value)
          && (Bound(s.bridges, sock, to.value, true) || offer.Some?))
      && (action.Passed? <==> (to.Some? && Exempt(s.tunnel, to.value)) || Overlooked(data))
      && action != Done
  {
    if to.Some? && Bound(s.bridges, sock, to.value, true) {
      assert Backed(s.tunnel, s.bridges.live, s.bridges.bindings[sock]);
      ImageDecides(s.bridges.bindings[sock].peer, to.value, true, s.tunnel);
    }
  }

  /** Data that leaves a hooked UDP socket past the bridges: bytes sent to an address pass through exactly when the
      address is loopback, or IPv4 at the tunnel's port whatever the host, or when they come as a list of several
      buffers. */
  lemma DataPasses(s: State, sock: nat, to: Option<Sockaddr>, data: SendData, offer: Option<Offer>)
    requires Valid(s) && Known(s, sock, Udp) && Carries(data)
    ensures SendToStep(s, sock, to, data, offer).1.Passed? <==>
        || (to.Some? && (IsLoopback(to.value) || AtTunnelPort(s.tunnel, to.value)))
        || (data.Gather? && |data.lengths.value| != 1)
  {
    SendToOutcome(s, sock, to, data, offer);
  }

  /** A TCP connect to an address a bridge can be opened for: left to the system exactly for loopback and for any
      IPv4 host at the tunnel's port, and else redirected exactly when the bridge is there or can be had. */
  lemma ConnectOutcome(s: State, sock: nat, name: Sockaddr, offer: Option<Offer>)
    requires Valid(s) && Known(s, sock, Tcp) && TargetOf(name, false).Some?
    ensures var action := ConnectStep(s, sock, Some(name), offer).1;
      && (action.Passed? <==> IsLoopback(name) || AtTunnelPort(s.tunnel, name))
      && (action.Redirected? <==>
          !Exempt(s.tunnel, name) && s.ready && (Bound(s.bridges, sock, name, false) || offer.Some?))
      && action != Done
  {
  }

  /** The connect is left to the system, and is no disconnect. */
  predicate LeftToSystem(s: State, sock: nat, name: Option<Address>) {
    PassesConnect(s, sock, name) && !Disconnects(s, sock, name)
  }

  /** The send goes where the connect pointed: through the system when the connect was left to the system, undone,
      or refused because there is no runtime yet; and else to nothing but a bridge for that very name. */
  predicate Follows(s: State, sock: nat, name: Option<Address>, after: State, sent: Action) {
    if PassesConnect(s, sock, name) || Disconnects(s, sock, name) || !s.ready then sent.Passed?
    else
      && !sent.Passed? && name.Some?
      && (sent.Redirected? ==> Reaches(after.bridges, sock, name.value, true, sent.port))
  }

  /** The hook takes the connect on: it notes the peer and sees to a bridge. */
  predicate TakesOn(s: State, sock: nat, name: Option<Address>) {
    s.ready && !Disconnects(s, sock, name) && !PassesConnect(s, sock, name)
  }

  /** A send the hook looks at, after a connect it took on: never past the bridges, and only to a bridge for its
      name. */
  lemma SendFollowsTaken(s: State, sock: nat, name: Option<Address>, data: SendData, offer: Option<Offer>,
      later: Option<Offer>)
    requires Valid(s) && Known(s, sock, Udp) && TakesOn(s, sock, name) && !Overlooked(data)
    requires Sound(s.bridges.given, offer) && Sound(ConnectStep(s, sock, name, offer).0.bridges.given, later)
    ensures var (after, sent) := SendStep(ConnectStep(s, sock, name, offer).0, sock, data, later);
      !sent.Passed? && (sent.Redirected? ==> Reaches(after.bridges, sock, name.value, true, sent.port))
  {
    ConnectKeeps(s, sock, name, offer);
    var noted := s.(peers := s.peers[sock := Stored(name.value)]);
    RedirectKeeps(noted, sock, name, true, offer);
    var mid := ConnectStep(s, sock, name, offer).0;
    assert mid == Redirect(noted, sock, name, true, offer).0;
    RedirectKeeps(mid, sock, Some(Stored(name.value)), true, later);
    var (after, sent) := SendStep(mid, sock, data, later);
    if sent.Redirected? {
      ImageDecides(Stored(name.value), name.value, true, s.tunnel);
    }
  }

  /** A send on a UDP socket follows the last connect, except in two cases that show before the calls: the connect
      is one the hook leaves to the system, while an earlier peer is still on record and the hook looks at the
      send; or the connect is one the hook takes on, and the send is one it does not look at. */
  lemma SendFollowsConnect(s: State, sock: nat, name: Option<Address>, data: SendData, offer: Option<Offer>,
      later: Option<Offer>)
    requires Valid(s) && Known(s, sock, Udp)
    requires Sound(s.bridges.given, offer) && Sound(ConnectStep(s, sock, name, offer).0.bridges.given, later)
    ensures var (after, sent) := SendStep(ConnectStep(s, sock, name, offer).0, sock, data, later);
      Follows(s, sock, name, after, sent) <==>
        if Overlooked(data) then !TakesOn(s, sock, name) else !(LeftToSystem(s, sock, name) && sock in s.peers)
  {
    if TakesOn(s, sock, name) && !Overlooked(data) {
      SendFollowsTaken(s, sock, name, data, offer, later);
    }
  }

  // ---- The exceptions happen -------------------------------------------------------------------

  function Ipv4(a: byte, b: byte, c: byte, d: byte, port: int): Sockaddr
    requires 0 <= port < U16
  {
    RawAddress([2, 0] + Be16(port) + [a, b, c, d] + Zeros(120), SOCKADDR_IN)
  }

  lemma Ipv4Facts(a: byte, b: byte, c: byte, d: byte, port: int, tunnel: Tunnel)
    requires 0 < port < U16
    ensures var address := Ipv4(a, b, c, d, port);
      && TargetOf(address, true).Some? && Image(Stored(address)) == Image(address)
      && (IsLoopback(address) <==> a == 127)
      && (AtTunnelPort(tunnel, address) <==> tunnel.enabled && port == tunnel.port)
      && (Exempt(tunnel, Stored(address)) <==> Exempt(tunnel, address))
  {
    var address := Ipv4(a, b, c, d, port);
    assert address.memory[2..4] == Be16(port);
    Be16RoundTrip(port);
    ImageDecides(address, Stored(address), true, tunnel);
  }

  /** A send of two buffers passes to any address at all, past any bridge. */
  lemma TwoBuffersPass(s: State, sock: nat, to: Option<Sockaddr>, first: nat, second: nat, offer: Option<Offer>)
    requires first > 0
    ensures var data := Gather(Some([first, second]));
      Carries(data) && SendToStep(s, sock, to, data, offer) == (s, Passed)
  {
    assert [first, second][0] > 0;
  }

  /** A public host addressed at the tunnel's port, 443 unless configured, is connected and sent to past the
      bridges, though one could be opened for it. */
  lemma TunnelPortPasses(s: State, sock: nat, data: SendData, offer: Option<Offer>)
    requires s.tunnel == Tunnel(true, 443)
    ensures var dns := Ipv4(8, 8, 8, 8, 443);
      && TargetOf(dns, true).Some? && !IsLoopback(dns)
      && SendToStep(s, sock, Some(dns), data, offer) == (s, Passed)
      && ConnectStep(s, sock, Some(dns), offer) == (s, Passed)
  {
    Ipv4Facts(8, 8, 8, 8, 443, s.tunnel);
  }

  /** The socket of a run that connects to a voice server, first hooked and then with the runtime up. */
  function VoiceConnected(): State {
    Run(Init(Tunnel(false, 0)),
      [Start, Register(1, Udp), Connect(1, Some(Ipv4(10, 0, 0, 1, 80)), Some(Offer(7, 5000)))])
  }

  lemma VoiceIsConnected()
    ensures var s := VoiceConnected();
      && s.ready && Known(s, 1, Udp) && s.tunnel == Tunnel(false, 0)
      && s.peers == map[1 := Stored(Ipv4(10, 0, 0, 1, 80))]
      && Bound(s.bridges, 1, Stored(Ipv4(10, 0, 0, 1, 80)), true) && s.bridges.bindings[1].port == 5000
  {
    var start, server := Init(Tunnel(false, 0)), Ipv4(10, 0, 0, 1, 80);
    var connect := Connect(1, Some(server), Some(Offer(7, 5000)));
    Ipv4Facts(10, 0, 0, 1, 80, start.tunnel);
    RunThree(start, Start, Register(1, Udp), connect);
    var known := Next(Next(start, Start).0, Register(1, Udp)).0;
    assert Bound(Next(known, connect).0.bridges, 1, Stored(server), true);
  }

  /** After connecting to a voice server and then to a local port, a send still goes to the voice server's
      bridge. */
  lemma StalePeer()
    ensures var local := Next(VoiceConnected(), Connect(1, Some(Ipv4(127, 0, 0, 1, 90)), None));
      local.1 == Passed && SendStep(local.0, 1, Plain(true, 1), None).1 == Redirected(5000)
  {
    VoiceIsConnected();
    Ipv4Facts(10, 0, 0, 1, 80, Tunnel(false, 0));
    Ipv4Facts(127, 0, 0, 1, 90, Tunnel(false, 0));
  }

  /** After connecting to a voice server through a bridge, data in two buffers goes to the system, on a socket that
      was never really connected. */
  lemma StrayBuffers()
    ensures var (s, data) := (VoiceConnected(), Gather(Some([1, 1])));
      && Bound(s.bridges, 1, Stored(Ipv4(10, 0, 0, 1, 80)), true) && Carries(data)
      && SendStep(s, 1, data, None) == (s, Passed)
  {
    VoiceIsConnected();
    assert [1, 1][0] > 0;
  }

  lemma RunThree(s: State, a: Call, b: Call, c: Call)
    ensures Run(s, [a, b, c]) == Next(Next(Next(s, a).0, b).0, c).0
  {
    var first := Next(s, a).0;
    var second := Next(first, b).0;
    assert [a, b, c][1..] == [b, c] && [b, c][1..] == [c] && [c][1..] == [];
    assert Run(first, [b, c]) == Run(second, [c]);
    assert Run(second, [c]) == Run(Next(second, c).0, []);
  }

  // ---- The hooks themselves ------------------------------------------------------------------

  /** The hook's global tables, with the runtime's bridges as they look from outside. */
  class Hooks {
    const tunnel: Tunnel
    var ready: bool
    var sockets: map<nat, Kind>
    var connectedPeers: map<nat, Sockaddr>
    var bindings: map<nat, Binding>
    var live: map<nat, Target>
    var given: set<nat>

    function Model(): State
      reads this
    {
      State(tunnel, ready, sockets, connectedPeers, Bridges(bindings, live, given))
    }

    constructor (tunnel: Tunnel)
      ensures Model() == Init(tunnel)
    {
      this.tunnel := tunnel;
      ready, sockets, connectedPeers, bindings, live, given := false, map[], map[], map[], map[], {};
    }

    /** The embedded runtime is up; nothing takes it down again. */
    method RuntimeStarts()
      modifies this`ready
      ensures Model() == Next(old(Model()), Start).0
    {
      ready := true;
    }

    /** A socket the application creates. */
    method Register(sock: nat, kind: Kind)
      modifies this`sockets
      ensures Model() == Next(old(Model()), Call.Register(sock, kind)).0
    {
      sockets := sockets[sock := kind];
    }

    method CloseBridgeBinding(sock: nat)
      modifies this`bindings, this`live
      ensures Model() == old(Model()).(bridges := CloseBinding(old(Model()).bridges, sock))
    {
      if sock !in bindings {
        return;
      }
      var id := bindings[sock].id;
      bindings := bindings - {sock};
      live := live - {id};
    }

    method OpenBridgeForSocket(sock: nat, a: Sockaddr, udp: bool, offer: Option<Offer>) returns (b: Option<Binding>)
      modifies this`bindings, this`live, this`given
      ensures var (bridges, expected) := OpenBinding(old(Model()).bridges, sock, a, udp, offer);
        Model() == old(Model()).(bridges := bridges) && b == expected
    {
      var target := TargetOf(a, udp);
      if target.None? || offer.None? {
        return None;
      }
      live, given := live[offer.value.id := target.value], given + {offer.value.id};
      var next := Binding(offer.value.id, udp, Stored(a), offer.value.port);
      bindings := bindings[sock := next];
      return Some(next);
    }

    method EnsureBridgeBinding(sock: nat, address: Option<Sockaddr>, udp: bool, offer: Option<Offer>)
      returns (b: Option<Binding>)
      modifies this`bindings, this`live, this`given
      ensures var (bridges, ensured) := Ensure(tunnel, old(Model()).bridges, sock, address, udp, offer);
        Model() == old(Model()).(bridges := bridges) && b == ensured
    {
      if address.None? || address.value.len <= 0 || Exempt(tunnel, address.value) {
        return None;
      }
      if sock in bindings && bindings[sock].udp == udp && Image(bindings[sock].peer) == Image(address.value) {
        return Some(bindings[sock]);
      }
      CloseBridgeBinding(sock);
      b := OpenBridgeForSocket(sock, address.value, udp, offer);
    }

    method Connect(sock: nat, name: Option<Address>, offer: Option<Offer>) returns (action: Action)
      modifies this`connectedPeers, this`bindings, this`live, this`given
      ensures (Model(), action) == ConnectStep(old(Model()), sock, name, offer)
    {
      if sock !in sockets || name.None? || name.value.len < 2 {
        return Passed;
      }
      var kind, family := sockets[sock], Family(name.value);
      if kind == Udp && family == AF_UNSPEC {
        connectedPeers := connectedPeers - {sock};
        return Done;
      }
      if (family != AF_INET && family != AF_INET6) || name.value.len > SOCKADDR_STORAGE
        || Exempt(tunnel, name.value) {
        return Passed;
      }
      if !ready {
        return Refused;
      }
      match kind {
        case Tcp =>
          var bridge := EnsureBridgeBinding(sock, name, false, offer);
          return if bridge.Some? then Redirected(bridge.value.port) else Refused;
        case Udp =>
          connectedPeers := connectedPeers[sock := Stored(name.value)];
          var bridge := EnsureBridgeBinding(sock, name, true, offer);
          return if bridge.Some? then Done else Refused;
        case Other =>
          return Passed;
      }
    }

    method SendTo(sock: nat, to: Option<Sockaddr>, data: SendData, offer: Option<Offer>)
      returns (action: Action)
      modifies this`bindings, this`live, this`given
      ensures (Model(), action) == SendToStep(old(Model()), sock, to, data, offer)
    {
      if to.Some? && Exempt(tunnel, to.value) {
        return Passed;
      }
      if !Overlooked(data) && sock in sockets && sockets[sock] == Udp {
        if !ready {
          return Refused;
        }
        var bridge := EnsureBridgeBinding(sock, to, true, offer);
        return if bridge.Some? then Redirected(bridge.value.port) else Refused;
      }
      return Passed;
    }

    method Send(sock: nat, data: SendData, offer: Option<Offer>) returns (action: Action)
      modifies this`bindings, this`live, this`given
      ensures (Model(), action) == SendStep(old(Model()), sock, data, offer)
    {
      if !Overlooked(data) && sock in sockets && sockets[sock] == Udp && sock in connectedPeers {
        if !ready {
          return Refused;
        }
        var bridge := EnsureBridgeBinding(sock, Some(connectedPeers[sock]), true, offer);
        return if bridge.Some? then Redirected(bridge.value.port) else Refused;
      }
      return Passed;
    }

    method CloseSocket(sock: nat)
      modifies this`sockets, this`connectedPeers, this`bindings, this`live
      ensures Model() == CloseStep(old(Model()), sock)
    {
      CloseBridgeBinding(sock);
      connectedPeers := connectedPeers - {sock};
      sockets := sockets - {sock};
    }
  }
}
