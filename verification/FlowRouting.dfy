/** The way back of a UDP payload: from the server's relay of a flow, through fragments, the client's
    flow map and route table, to the one local bridge that owns the flow. */
module FlowRouting {
  import opened Bytes
  import opened Fragments
  import opened Wire
  import opened Reassembly
  import opened DatagramRuns

  // ---- Flow ids ------------------------------------------------------------------------------

  /** The flow of the n-th bridge: a 32-bit counter from 1 that skips 0 when it wraps. */
  function FlowOf(nth: nat): (flow: int)
    ensures 1 <= flow < U32
  {
    if (nth + 1) % U32 == 0 then 1 else (nth + 1) % U32
  }

  /** The flows of a process's bridges are all different exactly when it opens fewer than 2^32 of them. */
  lemma FlowsDistinct(bridges: nat)
    ensures (forall i, j :: 0 <= i < j < bridges ==> FlowOf(i) != FlowOf(j)) <==> bridges < U32
  {
    if bridges >= U32 {
      assert FlowOf(0) == 1 && FlowOf(U32 - 1) == 1;
    }
  }

  // ---- The system ----------------------------------------------------------------------------

  datatype Bridge = Bridge(id: nat, flow: int)

  datatype Op = SendOp(id: nat, flow: int) | CloseOp(id: nat)

  datatype UdpEvent = UdpEvent(id: nat, flow: int, payload: seq<byte>)

  /** What a bridge sent to its local client. */
  datatype Handed = Handed(bridge: nat, payload: seq<byte>)

  datatype State = State(
    bridges: seq<Bridge>,        // every UDP bridge opened so far
    nextId: nat,                 // the runtime's session ids
    ops: seq<Op>,                // the channel to the transport driver
    flows: map<int, nat>,        // the transport's flow map
    emitted: seq<Message>,       // what the server's relays received and sent on
    table: Table,                // the client's fragment table
    whole: seq<Packet>,          // what came out of it so far
    events: seq<UdpEvent>,       // the egress queue
    routes: map<nat, seq<UdpEvent>>,  // the route table, with each bridge's waiting events
    handed: seq<Handed>)

  const START: State := State([], 1, [], map[], [], map[], [], [], map[], [])

  datatype Step =
    | OpenBridge
    | OpenOther                  // a TCP session takes an id
    | Send(bridge: nat)
    | Close(id: nat)
    | Drive                      // the driver applies the oldest op
    | Relay(packet: Packet)      // the relay of `packet.flow` receives a datagram from upstream
    | Arrive(arrival: Arrival)   // the network delivers one datagram of the server's
    | Dispatch                   // the dispatcher routes the oldest event
    | Take(bridge: nat)          // a bridge takes its oldest event
    | EndRoute(id: nat)

  function TrafficOf(codec: TextCodec, s: State): Traffic {
    Traffic(codec, ToClient, s.emitted)
  }

  /** The driver's side of `Transport::close`: every flow of the session is forgotten. */
  function Retain(flows: map<int, nat>, id: nat): map<int, nat> {
    map f | f in flows && flows[f] != id :: flows[f]
  }

  /** The transport's relay task: a packet that came out whole goes to the session of its flow, if any. */
  function Deliver(s: State, table: Table, outcome: Outcome): State {
    if outcome.Delivered? then
      var packet := outcome.packet;
      s.(table := table, whole := s.whole + [packet],
         events := if packet.flow in s.flows
                   then s.events + [UdpEvent(s.flows[packet.flow], packet.flow, packet.payload)] else s.events)
    else s.(table := table)
  }

  /** A step that is not possible in a state leaves it as it is. */
  function Next(codec: TextCodec, s: State, step: Step): State {
    match step
    case OpenBridge =>
      s.(bridges := s.bridges + [Bridge(s.nextId, FlowOf(|s.bridges|))], nextId := s.nextId + 1,
         routes := s.routes[s.nextId := []])
    case OpenOther => s.(nextId := s.nextId + 1)
    case Send(b) =>
      if b < |s.bridges| then s.(ops := s.ops + [SendOp(s.bridges[b].id, s.bridges[b].flow)]) else s
    case Close(id) => s.(ops := s.ops + [CloseOp(id)])
    case Drive =>
      if s.ops == [] then s
      else
        (match s.ops[0]
         case SendOp(id, flow) => s.(ops := s.ops[1..], flows := s.flows[flow := id])
         case CloseOp(id) => s.(ops := s.ops[1..], flows := Retain(s.flows, id)))
    case Relay(packet) => s.(emitted := s.emitted + [Message(packet, MessageId(|s.emitted|))])
    case Arrive(a) =>
      if TrafficOf(codec, s).Possible(a) then
        var (table, outcome) := TrafficOf(codec, s).Arrive(s.table, a);
        Deliver(s, table, outcome)
      else s
    case Dispatch =>
      if s.events == [] then s
      else
        var e := s.events[0];
        s.(events := s.events[1..],
           routes := if e.id in s.routes then s.routes[e.id := s.routes[e.id] + [e]] else s.routes)
    case Take(b) =>
      if b < |s.bridges| && s.bridges[b].id in s.routes && s.routes[s.bridges[b].id] != [] then
        var id := s.bridges[b].id;
        var e := s.routes[id][0];
        s.(routes := s.routes[id := s.routes[id][1..]],
           handed := if e.flow == s.bridges[b].flow then s.handed + [Handed(b, e.payload)] else s.handed)
      else s
    case EndRoute(id) => s.(routes := s.routes - {id})
  }

  // ---- The routing invariant -----------------------------------------------------------------

  ghost predicate OwnsFlow(s: State, id: nat, flow: int) {
    Bridge(id, flow) in s.bridges
  }

  /** The reassembler handed out `payload` under `flow`. */
  ghost predicate CameOut(s: State, flow: int, payload: seq<byte>) {
    exists p :: p in s.whole && p.flow == flow && p.payload == payload
  }

  ghost predicate GoodEvent(s: State, e: UdpEvent) {
    OwnsFlow(s, e.id, e.flow) && CameOut(s, e.flow, e.payload)
  }

  ghost predicate BridgesOk(s: State) {
    && (forall i :: 0 <= i < |s.bridges| ==> s.bridges[i].id < s.nextId && s.bridges[i].flow == FlowOf(i))
    && (forall i, j :: 0 <= i < j < |s.bridges| ==> s.bridges[i].id != s.bridges[j].id)
  }

  ghost predicate RoutingOk(s: State) {
    && (forall op :: op in s.ops && op.SendOp? ==> OwnsFlow(s, op.id, op.flow))
    && (forall f :: f in s.flows ==> OwnsFlow(s, s.flows[f], f))
    && (forall e :: e in s.events ==> GoodEvent(s, e))
    && (forall id, e :: id in s.routes && e in s.routes[id] ==> e.id == id && GoodEvent(s, e))
    && (forall h :: h in s.handed ==> h.bridge < |s.bridges| && CameOut(s, s.bridges[h.bridge].flow, h.payload))
  }

  lemma RoutingGrows(s: State, next: State)
    requires RoutingOk(s)
    requires s.bridges <= next.bridges && s.whole <= next.whole
    requires next.ops == s.ops && next.flows == s.flows && next.events == s.events && next.handed == s.handed
    requires forall id :: id in next.routes ==>
        next.routes[id] == [] || (id in s.routes && next.routes[id] == s.routes[id])
    ensures RoutingOk(next)
  {
    forall flow, payload | CameOut(s, flow, payload) ensures CameOut(next, flow, payload) {
    }
  }

  lemma EventKeeps(s: State, e: UdpEvent)
    requires RoutingOk(s) && GoodEvent(s, e)
    ensures RoutingOk(s.(events := s.events + [e]))
  {
    var next := s.(events := s.events + [e]);
    forall d: UdpEvent | GoodEvent(s, d) ensures GoodEvent(next, d) {
      assert CameOut(next, d.flow, d.payload) <==> CameOut(s, d.flow, d.payload);
    }
  }

  lemma DeliverKeeps(s: State, table: Table, outcome: Outcome)
    requires RoutingOk(s)
    ensures RoutingOk(Deliver(s, table, outcome))
  {
    if outcome.Delivered? {
      var packet := outcome.packet;
      var grown := s.(table := table, whole := s.whole + [packet]);
      RoutingGrows(s, grown);
      if packet.flow in s.flows {
        assert packet in grown.whole;
        EventKeeps(grown, UdpEvent(s.flows[packet.flow], packet.flow, packet.payload));
      }
    } else {
      RoutingGrows(s, s.(table := table));
    }
  }

  lemma DriveKeeps(s: State)
    requires RoutingOk(s) && s.ops != []
    ensures RoutingOk(match s.ops[0]
      case SendOp(id, flow) => s.(ops := s.ops[1..], flows := s.flows[flow := id])
      case CloseOp(id) => s.(ops := s.ops[1..], flows := Retain(s.flows, id)))
  {
  }

  lemma SendKeeps(s: State, op: Op)
    requires RoutingOk(s) && (op.SendOp? ==> OwnsFlow(s, op.id, op.flow))
    ensures RoutingOk(s.(ops := s.ops + [op]))
  {
  }

  lemma DispatchKeeps(s: State)
    requires RoutingOk(s) && s.events != []
    ensures RoutingOk(s.(events := s.events[1..],
      routes := if s.events[0].id in s.routes then s.routes[s.events[0].id := s.routes[s.events[0].id] + [s.events[0]]]
                else s.routes))
  {
    var e0, rest := s.events[0], s.events[1..];
    assert GoodEvent(s, e0);
    var routes := if e0.id in s.routes then s.routes[e0.id := s.routes[e0.id] + [e0]] else s.routes;
    var next := s.(events := rest, routes := routes);
    forall id, e: UdpEvent | id in routes && e in routes[id] ensures e.id == id && GoodEvent(next, e) {
      assert e == e0 || e in s.routes[id];
      assert GoodEvent(s, e);
    }
    forall e | e in rest ensures GoodEvent(next, e) {
      assert e in s.events;
      assert GoodEvent(s, e);
    }
  }

  /** An event waiting for a bridge carries that bridge's own flow: the bridge's filter never refuses one. */
  lemma FilterNeverRefuses(s: State, b: nat, e: UdpEvent)
    requires BridgesOk(s) && RoutingOk(s) && b < |s.bridges|
    requires s.bridges[b].id in s.routes && e in s.routes[s.bridges[b].id]
    ensures e.flow == s.bridges[b].flow && CameOut(s, s.bridges[b].flow, e.payload)
  {
  }

  lemma TakeKeeps(s: State, b: nat)
    requires BridgesOk(s) && RoutingOk(s)
    requires b < |s.bridges| && s.bridges[b].id in s.routes && s.routes[s.bridges[b].id] != []
    ensures var id := s.bridges[b].id; var e := s.routes[id][0];
      RoutingOk(s.(routes := s.routes[id := s.routes[id][1..]],
        handed := if e.flow == s.bridges[b].flow then s.handed + [Handed(b, e.payload)] else s.handed))
  {
  }

  lemma OpenKeeps(codec: TextCodec, s: State)
    requires BridgesOk(s) && RoutingOk(s)
    ensures BridgesOk(Next(codec, s, OpenBridge)) && RoutingOk(Next(codec, s, OpenBridge))
  {
    RoutingGrows(s, Next(codec, s, OpenBridge));
  }

  lemma RoutingArrives(codec: TextCodec, s: State, a: Arrival)
    requires BridgesOk(s) && RoutingOk(s)
    ensures BridgesOk(Next(codec, s, Arrive(a))) && RoutingOk(Next(codec, s, Arrive(a)))
  {
    if TrafficOf(codec, s).Possible(a) {
      var result := TrafficOf(codec, s).Arrive(s.table, a);
      DeliverKeeps(s, result.0, result.1);
    }
  }

  /** Every step, whatever the traffic, keeps every event and every route with its own flow. */
  lemma RoutingKeeps(codec: TextCodec, s: State, step: Step)
    requires BridgesOk(s) && RoutingOk(s)
    ensures BridgesOk(Next(codec, s, step)) && RoutingOk(Next(codec, s, step))
  {
    match step
    case OpenBridge => OpenKeeps(codec, s);
    case OpenOther => RoutingGrows(s, Next(codec, s, OpenOther));
    case Send(b) =>
      if b < |s.bridges| {
        SendKeeps(s, SendOp(s.bridges[b].id, s.bridges[b].flow));
      }
    case Close(id) => SendKeeps(s, CloseOp(id));
    case Drive =>
      if s.ops != [] {
        DriveKeeps(s);
      }
    case Relay(packet) => RoutingGrows(s, Next(codec, s, Relay(packet)));
    case Arrive(a) => RoutingArrives(codec, s, a);
    case Dispatch =>
      if s.events != [] {
        DispatchKeeps(s);
      }
    case Take(b) =>
      if b < |s.bridges| && s.bridges[b].id in s.routes && s.routes[s.bridges[b].id] != [] {
        TakeKeeps(s, b);
      }
    case EndRoute(id) => RoutingGrows(s, Next(codec, s, EndRoute(id)));
  }

  // ---- What comes out of the table, whatever the traffic -----------------------------------------

  /** The client reads this packet from a datagram the server sent: a fragment, or a packet sent whole. */
  ghost predicate SentAs(codec: TextCodec, emitted: seq<Message>, f: Packet) {
    exists i, j :: 0 <= i < |emitted| && 0 <= j < |emitted[i].Fragments()|
      && codec.OnWire(codec.FromWire(emitted[i].Fragments()[j])) == f
  }

  /** A datagram the server sent carries this body as fragment `index` of `count` under this key. */
  ghost predicate CarriedAs(codec: TextCodec, emitted: seq<Message>, key: Key, count: nat, index: nat,
    body: seq<byte>)
  {
    exists f :: SentAs(codec, emitted, f) && KeyOf(f, key.messageId) == key && HasMagic(f.payload)
      && ParseFragment(f.payload) == Some(Fragment(key.messageId, index, count, body))
  }

  ghost predicate AllCarriedAs(codec: TextCodec, emitted: seq<Message>, key: Key, bodies: seq<seq<byte>>) {
    forall i :: 0 <= i < |bodies| ==> CarriedAs(codec, emitted, key, |bodies|, i, bodies[i])
  }

  /** The payload came in datagrams the server sent for this flow, and in nothing else: whole in one of them, or
      its parts, each in its place, in fragments of one flow, host, port and message id. */
  ghost predicate MadeOn(codec: TextCodec, emitted: seq<Message>, flow: int, payload: seq<byte>) {
    || (exists f :: SentAs(codec, emitted, f) && f.flow == flow && f.payload == payload && !HasMagic(payload))
    || (exists key: Key, bodies: seq<seq<byte>> :: key.flow == flow && 2 <= |bodies| <= MAX_FRAGMENT_COUNT
          && payload == Flatten(bodies) && AllCarriedAs(codec, emitted, key, bodies))
  }

  /** Every filled slot holds a body carried under its assembly's key, in its place. */
  ghost predicate SlotsMade(codec: TextCodec, emitted: seq<Message>, key: Key, slots: Slots) {
    && 2 <= |slots| <= MAX_FRAGMENT_COUNT
    && forall i :: 0 <= i < |slots| && slots[i].Some? ==>
         CarriedAs(codec, emitted, key, |slots|, i, slots[i].value)
  }

  ghost predicate TableMade(codec: TextCodec, emitted: seq<Message>, table: Table) {
    forall k :: k in table ==> SlotsMade(codec, emitted, k, table[k])
  }

  ghost predicate OutMade(codec: TextCodec, s: State) {
    && TableMade(codec, s.emitted, s.table)
    && forall p :: p in s.whole ==> MadeOn(codec, s.emitted, p.flow, p.payload)
  }

  function Values(slots: Slots): (values: seq<seq<byte>>)
    requires None !in slots
    ensures |values| == |slots| && forall i :: 0 <= i < |slots| ==> Some(values[i]) == slots[i]
  {
    if slots == [] then []
    else
      assert slots[0] in slots;
      [slots[0].value] + Values(slots[1..])
  }

  lemma FullSlotsMade(codec: TextCodec, emitted: seq<Message>, key: Key, slots: Slots)
    requires None !in slots && SlotsMade(codec, emitted, key, slots)
    ensures MadeOn(codec, emitted, key.flow, Join(slots))
  {
    var bodies := Values(slots);
    JoinBodies(slots, bodies);
    assert AllCarriedAs(codec, emitted, key, bodies) by {
      forall i | 0 <= i < |bodies| ensures CarriedAs(codec, emitted, key, |bodies|, i, bodies[i]) {
        assert slots[i].Some? && slots[i].value == bodies[i];
      }
    }
  }

  /** One call of the reassembler with a packet read from a datagram: the table stays made of what it should be,
      and what comes out is of the packet's flow and made of that flow's datagrams. */
  lemma StepMade(codec: TextCodec, emitted: seq<Message>, table: Table, packet: Packet, victim: Key)
    requires TableMade(codec, emitted, table) && SentAs(codec, emitted, packet)
    ensures var (next, outcome) := ReassembleStep(table, packet, victim);
      && TableMade(codec, emitted, next)
      && (outcome.Delivered? ==> MadeOn(codec, emitted, outcome.packet.flow, outcome.packet.payload))
  {
    if FragmentIn(packet).Some? {
      var fragment := FragmentIn(packet).value;
      var room := if Evicts(table, packet) then table - {victim} else table;
      PlaceMade(codec, emitted, room, packet, fragment);
    }
  }

  lemma FragmentCarried(codec: TextCodec, emitted: seq<Message>, packet: Packet, fragment: Fragment)
    requires SentAs(codec, emitted, packet) && FragmentIn(packet) == Some(fragment)
    ensures CarriedAs(codec, emitted, KeyOf(packet, fragment.messageId), fragment.count, fragment.index, fragment.body)
  {
    assert KeyOf(packet, fragment.messageId).messageId == fragment.messageId;
  }

  lemma SlotsFill(codec: TextCodec, emitted: seq<Message>, key: Key, slots: Slots, index: nat, body: seq<byte>)
    requires SlotsMade(codec, emitted, key, slots) && index < |slots|
    requires CarriedAs(codec, emitted, key, |slots|, index, body)
    ensures SlotsMade(codec, emitted, key, slots[index := Some(body)])
  {
  }

  lemma TableChanges(codec: TextCodec, emitted: seq<Message>, table: Table, key: Key, slots: Slots)
    requires TableMade(codec, emitted, table)
    ensures TableMade(codec, emitted, table - {key})
    ensures SlotsMade(codec, emitted, key, slots) ==> TableMade(codec, emitted, table[key := slots])
  {
  }

  lemma NoSlotsMade(codec: TextCodec, emitted: seq<Message>, key: Key, count: nat)
    requires 2 <= count <= MAX_FRAGMENT_COUNT
    ensures SlotsMade(codec, emitted, key, seq(count, _ => None))
  {
  }

  lemma FilledMade(codec: TextCodec, emitted: seq<Message>, packet: Packet, fragment: Fragment, slots: Slots)
    requires SentAs(codec, emitted, packet) && FragmentIn(packet) == Some(fragment) && |slots| == fragment.count
    requires SlotsMade(codec, emitted, KeyOf(packet, fragment.messageId), slots)
    ensures var filled := slots[fragment.index := Some(fragment.body)];
      && SlotsMade(codec, emitted, KeyOf(packet, fragment.messageId), filled)
      && (None !in filled ==> MadeOn(codec, emitted, packet.flow, Join(filled)))
  {
    var key, filled := KeyOf(packet, fragment.messageId), slots[fragment.index := Some(fragment.body)];
    FragmentCarried(codec, emitted, packet, fragment);
    SlotsFill(codec, emitted, key, slots, fragment.index, fragment.body);
    if None !in filled {
      FullSlotsMade(codec, emitted, key, filled);
    }
  }

  lemma PlaceMade(codec: TextCodec, emitted: seq<Message>, table: Table, packet: Packet, fragment: Fragment)
    requires TableMade(codec, emitted, table) && SentAs(codec, emitted, packet) && FragmentIn(packet) == Some(fragment)
    ensures var (next, outcome) := Place(table, packet, fragment);
      && TableMade(codec, emitted, next)
      && (outcome.Delivered? ==> MadeOn(codec, emitted, outcome.packet.flow, outcome.packet.payload))
  {
    var key := KeyOf(packet, fragment.messageId);
    var slots: Slots := if key in table then table[key] else seq(fragment.count, _ => None);
    assert SlotsMade(codec, emitted, key, slots) by {
      NoSlotsMade(codec, emitted, key, fragment.count);
    }
    if |slots| == fragment.count {
      FilledMade(codec, emitted, packet, fragment, slots);
      TableChanges(codec, emitted, table, key, slots[fragment.index := Some(fragment.body)]);
    } else {
      TableChanges(codec, emitted, table, key, slots);
    }
  }

  /** What the client makes of a datagram: nothing, or a call of its reassembler with the packet it reads. */
  lemma ReceiveShape(codec: TextCodec, table: Table, f: Packet, victim: Key)
    requires Encodable(f)
    ensures var result := Receive(codec, ToClient, table, Envelope(f), victim);
      result == (table, Rejected) || result == ReassembleStep(table, codec.OnWire(codec.FromWire(f)), victim)
  {
    if codec.utf8(f.host) {
      ClientDecodeInverts(codec, Envelope(f), f);
    } else {
      ReceiveRefused(codec, ToClient, table, f, victim);
    }
  }

  lemma TableArrival(codec: TextCodec, s: State, a: Arrival)
    requires TableMade(codec, s.emitted, s.table) && TrafficOf(codec, s).Possible(a)
    ensures var (table, outcome) := TrafficOf(codec, s).Arrive(s.table, a);
      && TableMade(codec, s.emitted, table)
      && (outcome.Delivered? ==> MadeOn(codec, s.emitted, outcome.packet.flow, outcome.packet.payload))
  {
    var f := s.emitted[a.message].Fragments()[a.fragment];
    if Encodable(f) {
      var read := codec.OnWire(codec.FromWire(f));
      assert SentAs(codec, s.emitted, read);
      ReceiveShape(codec, s.table, f, a.victim);
      StepMade(codec, s.emitted, s.table, read, a.victim);
    }
  }

  lemma DeliverMade(codec: TextCodec, s: State, table: Table, outcome: Outcome)
    requires OutMade(codec, s) && TableMade(codec, s.emitted, table)
    requires outcome.Delivered? ==> MadeOn(codec, s.emitted, outcome.packet.flow, outcome.packet.payload)
    ensures OutMade(codec, Deliver(s, table, outcome))
  {
    var next := Deliver(s, table, outcome);
    assert next.emitted == s.emitted && next.table == table;
    assert next.whole == s.whole + if outcome.Delivered? then [outcome.packet] else [];
  }

  lemma ArriveMade(codec: TextCodec, s: State, a: Arrival)
    requires OutMade(codec, s) && TrafficOf(codec, s).Possible(a)
    ensures OutMade(codec, Next(codec, s, Arrive(a)))
  {
    var result := TrafficOf(codec, s).Arrive(s.table, a);
    TableArrival(codec, s, a);
    DeliverMade(codec, s, result.0, result.1);
    assert Next(codec, s, Arrive(a)) == Deliver(s, result.0, result.1);
  }

  lemma SentGrows(codec: TextCodec, emitted: seq<Message>, more: seq<Message>, f: Packet)
    requires emitted <= more && SentAs(codec, emitted, f)
    ensures SentAs(codec, more, f)
  {
    var i, j :| 0 <= i < |emitted| && 0 <= j < |emitted[i].Fragments()|
      && codec.OnWire(codec.FromWire(emitted[i].Fragments()[j])) == f;
    assert more[i] == emitted[i];
  }

  lemma CarriedGrows(codec: TextCodec, emitted: seq<Message>, more: seq<Message>, key: Key, count: nat, index: nat,
      body: seq<byte>)
    requires emitted <= more && CarriedAs(codec, emitted, key, count, index, body)
    ensures CarriedAs(codec, more, key, count, index, body)
  {
    var f :| SentAs(codec, emitted, f) && KeyOf(f, key.messageId) == key && HasMagic(f.payload)
      && ParseFragment(f.payload) == Some(Fragment(key.messageId, index, count, body));
    SentGrows(codec, emitted, more, f);
  }

  lemma MadeGrows(codec: TextCodec, emitted: seq<Message>, more: seq<Message>, flow: int, payload: seq<byte>)
    requires emitted <= more && MadeOn(codec, emitted, flow, payload)
    ensures MadeOn(codec, more, flow, payload)
  {
    if f :| SentAs(codec, emitted, f) && f.flow == flow && f.payload == payload && !HasMagic(payload) {
      SentGrows(codec, emitted, more, f);
    } else {
      var key: Key, bodies: seq<seq<byte>> :| key.flow == flow && 2 <= |bodies| <= MAX_FRAGMENT_COUNT
        && payload == Flatten(bodies) && AllCarriedAs(codec, emitted, key, bodies);
      forall i | 0 <= i < |bodies| ensures CarriedAs(codec, more, key, |bodies|, i, bodies[i]) {
        CarriedGrows(codec, emitted, more, key, |bodies|, i, bodies[i]);
      }
      assert AllCarriedAs(codec, more, key, bodies);
    }
  }

  lemma SlotsGrow(codec: TextCodec, emitted: seq<Message>, more: seq<Message>, key: Key, slots: Slots)
    requires emitted <= more && SlotsMade(codec, emitted, key, slots)
    ensures SlotsMade(codec, more, key, slots)
  {
    forall i | 0 <= i < |slots| && slots[i].Some? ensures CarriedAs(codec, more, key, |slots|, i, slots[i].value) {
      CarriedGrows(codec, emitted, more, key, |slots|, i, slots[i].value);
    }
  }

  lemma OutGrows(codec: TextCodec, s: State, next: State)
    requires OutMade(codec, s) && s.emitted <= next.emitted && next.table == s.table && next.whole == s.whole
    ensures OutMade(codec, next)
  {
    forall k | k in next.table ensures SlotsMade(codec, next.emitted, k, next.table[k]) {
      SlotsGrow(codec, s.emitted, next.emitted, k, s.table[k]);
    }
    forall p | p in next.whole ensures MadeOn(codec, next.emitted, p.flow, p.payload) {
      MadeGrows(codec, s.emitted, next.emitted, p.flow, p.payload);
    }
  }

  lemma OutKeeps(codec: TextCodec, s: State, step: Step)
    requires OutMade(codec, s)
    ensures OutMade(codec, Next(codec, s, step))
  {
    if step.Arrive? {
      if TrafficOf(codec, s).Possible(step.arrival) {
        ArriveMade(codec, s, step.arrival);
      }
    } else {
      OutGrows(codec, s, Next(codec, s, step));
    }
  }

  ghost predicate Inv(codec: TextCodec, s: State) {
    BridgesOk(s) && RoutingOk(s) && OutMade(codec, s)
  }

  /** Every step of relays, network, reassembler, driver, dispatcher and bridges keeps every event with its own
      flow and made of that flow's datagrams. */
  lemma StepKeeps(codec: TextCodec, s: State, step: Step)
    requires Inv(codec, s)
    ensures Inv(codec, Next(codec, s, step))
  {
    RoutingKeeps(codec, s, step);
    OutKeeps(codec, s, step);
  }

  // ---- Runs ----------------------------------------------------------------------------------

  function Reached(codec: TextCodec, steps: seq<Step>): State {
    if steps == [] then START else Next(codec, Reached(codec, steps[..|steps| - 1]), steps[|steps| - 1])
  }

  lemma {:induction false} RunKeeps(codec: TextCodec, steps: seq<Step>)
    ensures Inv(codec, Reached(codec, steps))
  {
    if steps != [] {
      RunKeeps(codec, steps[..|steps| - 1]);
      StepKeeps(codec, Reached(codec, steps[..|steps| - 1]), steps[|steps| - 1]);
    }
  }

  lemma HandedIsMade(codec: TextCodec, s: State, h: Handed)
    requires BridgesOk(s) && RoutingOk(s) && OutMade(codec, s) && h in s.handed
    ensures h.bridge < |s.bridges| && MadeOn(codec, s.emitted, s.bridges[h.bridge].flow, h.payload)
  {
    assert CameOut(s, s.bridges[h.bridge].flow, h.payload);
  }

  lemma FlowIsOwn(s: State, b: nat)
    requires BridgesOk(s) && |s.bridges| < U32 && b < |s.bridges|
    ensures forall c :: 0 <= c < |s.bridges| && c != b ==> s.bridges[c].flow != s.bridges[b].flow
  {
    FlowsDistinct(|s.bridges|);
    forall c | 0 <= c < |s.bridges| && c != b ensures s.bridges[c].flow != s.bridges[b].flow {
      assert FlowOf(if c < b then c else b) != FlowOf(if c < b then b else c);
    }
  }

  /** Flow isolation: in every run with fewer than 2^32 UDP bridges, whatever the traffic, a payload that a
      bridge hands to its local client is made of datagrams the server sent for that bridge's flow, a flow no
      other bridge has. Neither payloads that look like fragments nor message ids that come round can bring in
      another flow's bytes. */
  lemma FlowIsolation(codec: TextCodec, steps: seq<Step>, h: Handed)
    requires h in Reached(codec, steps).handed
    requires |Reached(codec, steps).bridges| < U32
    ensures var s := Reached(codec, steps);
      && h.bridge < |s.bridges|
      && MadeOn(codec, s.emitted, s.bridges[h.bridge].flow, h.payload)
      && (forall b :: 0 <= b < |s.bridges| && b != h.bridge ==> s.bridges[b].flow != s.bridges[h.bridge].flow)
  {
    RunKeeps(codec, steps);
    HandedIsMade(codec, Reached(codec, steps), h);
    FlowIsOwn(Reached(codec, steps), h.bridge);
  }

  // ---- Good traffic: whole payloads ------------------------------------------------------------

  /** The server's relay of `flow` received `payload` from upstream. */
  ghost predicate CameFrom(emitted: seq<Message>, flow: int, payload: seq<byte>) {
    exists i :: 0 <= i < |emitted| && emitted[i].packet.flow == flow && emitted[i].packet.payload == payload
  }

  ghost predicate Knows(emitted: seq<Message>, key: Key) {
    exists i :: 0 <= i < |emitted| && emitted[i].Split() && emitted[i].Assembly() == key
  }

  /** Every unfinished assembly is that of a message some relay emitted. */
  ghost predicate KeysKnown(emitted: seq<Message>, table: Table) {
    forall k :: k in table ==> Knows(emitted, k)
  }

  ghost predicate AllWhole(emitted: seq<Message>, whole: seq<Packet>) {
    forall p :: p in whole ==> CameFrom(emitted, p.flow, p.payload)
  }

  ghost predicate OutWhole(codec: TextCodec, s: State) {
    TrafficOf(codec, s).Genuine(s.table) && KeysKnown(s.emitted, s.table) && AllWhole(s.emitted, s.whole)
  }

  lemma TableWhole(codec: TextCodec, s: State, a: Arrival)
    requires OutWhole(codec, s) && TrafficOf(codec, s).Good() && TrafficOf(codec, s).Possible(a)
    ensures var (table, outcome) := TrafficOf(codec, s).Arrive(s.table, a);
      && TrafficOf(codec, s).Genuine(table) && KeysKnown(s.emitted, table)
      && (outcome.Delivered? ==> CameFrom(s.emitted, outcome.packet.flow, outcome.packet.payload))
  {
    var t := TrafficOf(codec, s);
    ArriveGenuine(t, s.table, a);
    ArriveKeys(t, s.table, a);
    assert s.emitted[a.message] == t.messages[a.message];
  }

  lemma ArriveWhole(codec: TextCodec, s: State, a: Arrival)
    requires OutWhole(codec, s) && TrafficOf(codec, s).Good() && TrafficOf(codec, s).Possible(a)
    ensures OutWhole(codec, Next(codec, s, Arrive(a)))
  {
    TableWhole(codec, s, a);
    var next := Next(codec, s, Arrive(a));
    assert TrafficOf(codec, next) == TrafficOf(codec, s);
  }

  lemma KnownGrows(emitted: seq<Message>, m: Message, key: Key)
    requires Knows(emitted, key)
    ensures Knows(emitted + [m], key)
  {
    var i :| 0 <= i < |emitted| && emitted[i].Split() && emitted[i].Assembly() == key;
    assert (emitted + [m])[i] == emitted[i];
  }

  lemma WholeGrows(emitted: seq<Message>, m: Message, whole: seq<Packet>)
    requires AllWhole(emitted, whole)
    ensures AllWhole(emitted + [m], whole)
  {
    forall p | p in whole ensures CameFrom(emitted + [m], p.flow, p.payload) {
      var i :| 0 <= i < |emitted| && emitted[i].packet.flow == p.flow && emitted[i].packet.payload == p.payload;
      assert (emitted + [m])[i] == emitted[i];
    }
  }

  /** A new message's key is in no table of known keys, so the table stays genuine. */
  lemma GenuineGrows(t: Traffic, more: Traffic, m: Message, table: Table)
    requires t.Genuine(table) && KeysKnown(t.messages, table)
    requires more == t.(messages := t.messages + [m]) && more.FreshKeys()
    ensures more.Genuine(table)
  {
    var n := |t.messages|;
    assert more.messages[n] == m && forall i :: 0 <= i < n ==> more.messages[i] == t.messages[i];
    assert m.Assembly() in table ==> Knows(t.messages, m.Assembly());
  }

  lemma RelayWhole(codec: TextCodec, s: State, packet: Packet)
    requires OutWhole(codec, s) && TrafficOf(codec, Next(codec, s, Relay(packet))).Good()
    ensures OutWhole(codec, Next(codec, s, Relay(packet)))
  {
    var next := Next(codec, s, Relay(packet));
    var m := Message(packet, MessageId(|s.emitted|));
    GenuineGrows(TrafficOf(codec, s), TrafficOf(codec, next), m, s.table);
    WholeGrows(s.emitted, m, s.whole);
    forall k | k in s.table ensures Knows(next.emitted, k) {
      KnownGrows(s.emitted, m, k);
    }
  }

  lemma WholeKeeps(codec: TextCodec, s: State, step: Step)
    requires OutWhole(codec, s) && TrafficOf(codec, Next(codec, s, step)).Good()
    ensures OutWhole(codec, Next(codec, s, step))
  {
    match step
    case Relay(packet) => RelayWhole(codec, s, packet);
    case Arrive(a) =>
      if TrafficOf(codec, s).Possible(a) {
        assert TrafficOf(codec, Next(codec, s, step)) == TrafficOf(codec, s);
        ArriveWhole(codec, s, a);
      }
    case _ =>
  }

  /** Traffic that is good is good at every earlier moment of the run. */
  lemma GoodBefore(t: Traffic, earlier: Traffic)
    requires t.Good() && earlier.messages <= t.messages && earlier == t.(messages := earlier.messages)
    ensures earlier.Good()
  {
  }

  lemma EmittedGrows(codec: TextCodec, s: State, step: Step)
    ensures s.emitted <= Next(codec, s, step).emitted
  {
  }

  lemma {:induction false} WholeRun(codec: TextCodec, steps: seq<Step>)
    requires TrafficOf(codec, Reached(codec, steps)).Good()
    ensures OutWhole(codec, Reached(codec, steps))
  {
    if steps != [] {
      var before := Reached(codec, steps[..|steps| - 1]);
      var last := steps[|steps| - 1];
      EmittedGrows(codec, before, last);
      GoodBefore(TrafficOf(codec, Next(codec, before, last)), TrafficOf(codec, before));
      WholeRun(codec, steps[..|steps| - 1]);
      WholeKeeps(codec, before, last);
    }
  }

  lemma HandedIsWhole(s: State, h: Handed)
    requires RoutingOk(s) && AllWhole(s.emitted, s.whole) && h in s.handed
    ensures h.bridge < |s.bridges| && CameFrom(s.emitted, s.bridges[h.bridge].flow, h.payload)
  {
    assert CameOut(s, s.bridges[h.bridge].flow, h.payload);
  }

  /** With good traffic (ids fresh within the run, host text readable, no whole payload that begins with the
      magic) what a bridge hands over is, whole and unaltered, a payload the relay of its flow received. */
  lemma GoodTrafficIsWhole(codec: TextCodec, steps: seq<Step>, h: Handed)
    requires TrafficOf(codec, Reached(codec, steps)).Good()
    requires h in Reached(codec, steps).handed
    ensures var s := Reached(codec, steps);
      h.bridge < |s.bridges| && CameFrom(s.emitted, s.bridges[h.bridge].flow, h.payload)
  {
    RunKeeps(codec, steps);
    WholeRun(codec, steps);
    HandedIsWhole(Reached(codec, steps), h);
  }
}
