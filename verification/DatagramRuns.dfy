/** Whole runs of the datagram layer: a sender that splits and encodes, a network that may lose,
    repeat, reorder and interleave, and a receiver that decodes and reassembles. */
module DatagramRuns {
  import opened Bytes
  import opened Wire
  import opened Fragments
  import opened Reassembly

  /** A packet given to a sender, with the message id the sender's counter gave it. */
  datatype Message = Message(packet: Packet, id: int) {
    predicate Sendable() {
      && ClientFragment(packet, id).Ok?
      && 0 <= packet.flow < U32 && 1 <= |packet.host| <= MAX_HOST_LEN && 1 <= packet.port < U16
    }

    predicate Split() {
      !FitsPlain(packet)
    }

    /** The datagrams that carry the message; none when the sender refuses it. */
    function Fragments(): (fragments: seq<Packet>) {
      match ClientFragment(packet, id)
      case Ok(fragments) => fragments
      case Err(_) => []
    }

    function Bodies(): seq<seq<byte>> {
      if Room(packet) > 0 then Chunks(packet.payload, Room(packet)) else []
    }

    function Assembly(): Key {
      KeyOf(packet, id % U32)
    }

    /** A message sent whole must not look like a fragment. */
    predicate Unambiguous() {
      Split() || !HasMagic(packet.payload)
    }
  }

  // ---- Message ids ---------------------------------------------------------------------------

  /** Both counters give 1 to the first message and wrap at 2^32. */
  function MessageId(nth: nat): (id: int)
    ensures 0 <= id < U32
  {
    (nth + 1) % U32
  }

  /** Two sends of one counter share an id exactly when they are a multiple of 2^32 sends apart. */
  lemma IdsRepeat(i: nat, j: nat)
    requires i <= j
    ensures MessageId(i) == MessageId(j) <==> (j - i) % U32 == 0
  {
  }

  // ---- One message and the assembly it fills -------------------------------------------------

  /** The slots hold only bodies of the message, each in its place. */
  ghost predicate HoldsBodiesOf(slots: Slots, m: Message) {
    && |slots| == |m.Bodies()|
    && forall i :: 0 <= i < |slots| && slots[i].Some? ==> slots[i].value == m.Bodies()[i]
  }

  /** Fragment `j` of a split message parses back to body `j` under the message's key. */
  lemma FragmentOf(m: Message, j: nat)
    requires m.Sendable() && m.Split() && j < |m.Fragments()|
    ensures |m.Bodies()| == |m.Fragments()| && 2 <= |m.Bodies()| <= MAX_FRAGMENT_COUNT
    ensures Flatten(m.Bodies()) == m.packet.payload
    ensures var f := m.Fragments()[j];
      && f == m.packet.(payload := f.payload) && Encodable(f) && HasMagic(f.payload)
      && FragmentIn(f) == Some(Fragment(m.id % U32, j, |m.Bodies()|, m.Bodies()[j]))
      && KeyOf(f, m.id % U32) == m.Assembly()
  {
    SplitShape(m.packet, m.id);
    ChunksRebuild(m.packet.payload, Room(m.packet));
    assert m.Fragments()[j] in m.Fragments();
    assert Fragments.Bodies(m.Fragments())[j] == m.Bodies()[j];
  }

  lemma JoinBodies(slots: Slots, bodies: seq<seq<byte>>)
    requires None !in slots && |slots| == |bodies|
    requires forall i :: 0 <= i < |slots| && slots[i].Some? ==> slots[i].value == bodies[i]
    ensures Join(slots) == Flatten(bodies)
  {
  }

  /** The slots of the message's assembly, all empty if it is not open yet. */
  function SlotsFor(table: Table, m: Message): Slots {
    if m.Assembly() in table then table[m.Assembly()] else seq(|m.Bodies()|, _ => None)
  }

  predicate Filled(table: Table, key: Key, j: nat) {
    key in table && j < |table[key]| && table[key][j].Some?
  }

  /** What a clean assembly does with body `j` of its message: it waits, or the whole message comes out. */
  function FillResult(table: Table, m: Message, j: nat): (Table, Outcome)
    requires j < |SlotsFor(table, m)| && j < |m.Bodies()|
  {
    var filled := SlotsFor(table, m)[j := Some(m.Bodies()[j])];
    if None in filled then (table[m.Assembly() := filled], Waiting)
    else (table - {m.Assembly()}, Delivered(m.packet))
  }

  lemma FillGenuine(table: Table, m: Message, j: nat)
    requires m.Sendable() && m.Split() && j < |m.Fragments()|
    requires m.Assembly() in table ==> HoldsBodiesOf(table[m.Assembly()], m)
    ensures FragmentIn(m.Fragments()[j]).Some? && |SlotsFor(table, m)| == |m.Bodies()| == |m.Fragments()|
    ensures Place(table, m.Fragments()[j], FragmentIn(m.Fragments()[j]).value) == FillResult(table, m, j)
  {
    FragmentOf(m, j);
    var filled := SlotsFor(table, m)[j := Some(m.Bodies()[j])];
    if None !in filled {
      JoinBodies(filled, m.Bodies());
      var f := m.Fragments()[j];
      assert f.(payload := m.packet.payload) == m.packet;
    }
  }

  /** A fill adds its own slot only; and the message comes out only when that was the last one missing. */
  lemma FillResultFills(table: Table, m: Message, j: nat, key: Key, i: nat)
    requires |SlotsFor(table, m)| == |m.Bodies()| >= 2 && j < |m.Bodies()|
    ensures var (next, outcome) := FillResult(table, m, j);
      && (Filled(next, key, i) ==> Filled(table, key, i) || (key == m.Assembly() && i == j))
      && (key == m.Assembly() && i < |m.Bodies()| && outcome.Delivered? ==>
            !Filled(next, key, i) && (i != j ==> Filled(table, key, i)))
  {
    var filled := SlotsFor(table, m)[j := Some(m.Bodies()[j])];
    if None !in filled {
      assert filled[if j == 0 then 1 else 0] in filled;
      if i < |filled| {
        assert filled[i] in filled;
      }
    }
  }

  // ---- One arrival ---------------------------------------------------------------------------

  datatype Direction = ToServer | ToClient

  /** A receiver decodes one datagram and reassembles it; what it cannot decode it drops. The client
      keys assemblies by the text of the address it parsed. */
  function Receive(codec: TextCodec, direction: Direction, table: Table, data: seq<byte>, victim: Key)
    : (r: (Table, Outcome))
  {
    match direction
    case ToServer =>
      (match ServerDecode(codec, data)
       case Ok(packet) => ReassembleStep(table, packet, victim)
       case Err(_) => (table, Rejected))
    case ToClient =>
      (match ClientDecode(codec, data)
       case Ok(packet) => ReassembleStep(table, codec.OnWire(packet), victim)
       case Err(_) => (table, Rejected))
  }

  /** Host text the receiver's decoder accepts. */
  predicate Accepts(codec: TextCodec, direction: Direction, host: seq<byte>) {
    match direction
    case ToServer => codec.idna(host)
    case ToClient => codec.utf8(host)
  }

  /** The client prints the address it parsed back as the same text; the server keeps the text. */
  predicate Canonical(codec: TextCodec, direction: Direction, host: seq<byte>) {
    direction.ToClient? ==> codec.AddressString(codec.ParseHost(host)) == host
  }

  /** A datagram whose host text the receiver does not accept changes nothing. */
  lemma ReceiveRefused(codec: TextCodec, direction: Direction, table: Table, f: Packet, victim: Key)
    requires Encodable(f) && !Accepts(codec, direction, f.host)
    ensures Receive(codec, direction, table, Envelope(f), victim) == (table, Rejected)
  {
    EnvelopeFields(f);
  }

  lemma ReceiveSent(codec: TextCodec, direction: Direction, table: Table, f: Packet, victim: Key)
    requires Encodable(f) && Accepts(codec, direction, f.host) && Canonical(codec, direction, f.host)
    ensures Receive(codec, direction, table, Envelope(f), victim) == ReassembleStep(table, f, victim)
  {
    match direction
    case ToServer => ServerDecodeInverts(codec, Envelope(f), f);
    case ToClient =>
      ClientDecodeInverts(codec, Envelope(f), f);
      assert codec.OnWire(codec.FromWire(f)) == f;
  }

  /** A packet sent whole is handed out as it is exactly when its payload does not begin with the magic:
      otherwise it is taken for a fragment. */
  lemma WholePacketPasses(packet: Packet, victim: Key)
    ensures ReassembleStep(map[], packet, victim).1 == Delivered(packet) <==> !HasMagic(packet.payload)
    ensures !HasMagic(packet.payload) ==>
        forall table :: ReassembleStep(table, packet, victim) == (table, Delivered(packet))
  {
    if FragmentIn(packet).Some? {
      var fragment := FragmentIn(packet).value;
      var filled: Slots := seq(fragment.count, _ => None)[fragment.index := Some(fragment.body)];
      assert filled[if fragment.index == 0 then 1 else 0] == None;
    }
  }

  /** Arrival of one datagram: which fragment of which message, and who goes if the table is full. */
  datatype Arrival = Arrival(message: nat, fragment: nat, victim: Key)

  /** The traffic of a run: everything the sender was given, and how the receiver reads it. */
  datatype Traffic = Traffic(codec: TextCodec, direction: Direction, messages: seq<Message>) {
    /** No two split messages of the run share a key: the ids do not come round within the run. */
    ghost predicate FreshKeys() {
      forall i, j :: 0 <= i < |messages| && 0 <= j < |messages| && i != j && messages[i].Split() && messages[j].Split()
        ==> messages[i].Assembly() != messages[j].Assembly()
    }

    /** The message's datagrams can be encoded, and the receiver accepts its host text. */
    predicate Heard(m: Message) {
      m.Sendable() && Accepts(codec, direction, m.packet.host)
    }

    /** Keys are fresh, and every message that is heard at all is unambiguous and spelled as the receiver
        spells it. */
    ghost predicate Good() {
      && FreshKeys()
      && forall i :: 0 <= i < |messages| && Heard(messages[i]) ==>
           messages[i].Unambiguous() && Canonical(codec, direction, messages[i].packet.host)
    }

    predicate Possible(a: Arrival) {
      a.message < |messages| && a.fragment < |messages[a.message].Fragments()|
    }

    function Arrive(table: Table, a: Arrival): (r: (Table, Outcome)) {
      if !Possible(a) || !Encodable(messages[a.message].Fragments()[a.fragment]) then (table, Rejected)
      else Receive(codec, direction, table, Envelope(messages[a.message].Fragments()[a.fragment]), a.victim)
    }

    /** The assembly of each split message holds only bodies of that message. */
    ghost predicate Genuine(table: Table) {
      forall i :: 0 <= i < |messages| && messages[i].Split() && messages[i].Assembly() in table
        ==> HoldsBodiesOf(table[messages[i].Assembly()], messages[i])
    }
  }

  /** The receiver's table when a datagram is placed: one assembly may have been pushed out. */
  function RoomFor(t: Traffic, table: Table, a: Arrival): Table
    requires t.Possible(a)
  {
    if Evicts(table, t.messages[a.message].Fragments()[a.fragment]) then table - {a.victim} else table
  }

  /** A counter that has not come round gives fresh keys: 2^32 messages are safe, whatever their addresses. */
  lemma CounterIsFresh(t: Traffic)
    requires |t.messages| <= U32
    requires forall i :: 0 <= i < |t.messages| ==> t.messages[i].id == MessageId(i)
    ensures t.FreshKeys()
  {
    forall i, j | 0 <= i < j < |t.messages|
      ensures t.messages[i].Assembly() != t.messages[j].Assembly()
    {
      IdsRepeat(i, j);
      assert t.messages[i].id % U32 == MessageId(i) && t.messages[j].id % U32 == MessageId(j);
    }
  }

  lemma UnheardArrival(t: Traffic, table: Table, a: Arrival)
    requires t.Possible(a) && !t.Heard(t.messages[a.message])
    ensures t.Arrive(table, a) == (table, Rejected)
  {
    var m := t.messages[a.message];
    var f := m.Fragments()[a.fragment];
    FragmentAddress(m, a.fragment);
    if Encodable(f) {
      ReceiveRefused(t.codec, t.direction, table, f, a.victim);
    }
  }

  /** A fragment is addressed as its message is, and can be encoded only if the message can be sent. */
  lemma FragmentAddress(m: Message, j: nat)
    requires j < |m.Fragments()|
    ensures var f := m.Fragments()[j];
      f == m.packet.(payload := f.payload) && (Encodable(f) ==> m.Sendable())
  {
  }

  lemma PlainArrival(t: Traffic, table: Table, a: Arrival)
    requires t.Good() && t.Possible(a) && t.Heard(t.messages[a.message]) && !t.messages[a.message].Split()
    ensures t.Arrive(table, a) == (table, Delivered(t.messages[a.message].packet))
  {
  }

  /** Arrival of a fragment is a fill of the message's assembly, after room was made. */
  lemma SplitArrival(t: Traffic, table: Table, a: Arrival)
    requires t.Good() && t.Genuine(table) && t.Possible(a)
    requires t.Heard(t.messages[a.message]) && t.messages[a.message].Split()
    ensures var m := t.messages[a.message]; var room := RoomFor(t, table, a);
            && |SlotsFor(room, m)| == |m.Bodies()| == |m.Fragments()| && 2 <= |m.Bodies()|
            && (m.Assembly() in room ==> HoldsBodiesOf(room[m.Assembly()], m))
            && t.Arrive(table, a) == FillResult(room, m, a.fragment)
  {
    var m := t.messages[a.message];
    FragmentOf(m, a.fragment);
    ReceiveSent(t.codec, t.direction, table, m.Fragments()[a.fragment], a.victim);
    FillGenuine(RoomFor(t, table, a), m, a.fragment);
  }

  lemma FillResultGenuine(t: Traffic, room: Table, i: nat, j: nat)
    requires t.Good() && t.Genuine(room) && i < |t.messages| && t.messages[i].Split()
    requires |SlotsFor(room, t.messages[i])| == |t.messages[i].Bodies()| && j < |t.messages[i].Bodies()|
    ensures t.Genuine(FillResult(room, t.messages[i], j).0)
  {
  }

  /** What may come of an arrival: nothing of a message that is not heard; else it waits, or the whole message
      comes out. */
  ghost predicate Proper(t: Traffic, a: Arrival, outcome: Outcome)
    requires t.Possible(a)
  {
    if t.Heard(t.messages[a.message]) then outcome == Waiting || outcome == Delivered(t.messages[a.message].packet)
    else outcome == Rejected
  }

  /** One arrival from good traffic: only the arriving message can come out, whole, and the table stays genuine. */
  lemma ArriveGenuine(t: Traffic, table: Table, a: Arrival)
    requires t.Good() && t.Genuine(table) && t.Possible(a)
    ensures t.Genuine(t.Arrive(table, a).0) && Proper(t, a, t.Arrive(table, a).1)
  {
    if !t.Heard(t.messages[a.message]) {
      UnheardArrival(t, table, a);
    } else if t.messages[a.message].Split() {
      SplitArrival(t, table, a);
      FillResultGenuine(t, RoomFor(t, table, a), a.message, a.fragment);
    } else {
      PlainArrival(t, table, a);
    }
  }

  /** One arrival opens at most the assembly of its own message. */
  lemma ArriveKeys(t: Traffic, table: Table, a: Arrival)
    requires t.Good() && t.Genuine(table) && t.Possible(a)
    ensures forall k :: k in t.Arrive(table, a).0 ==>
      k in table || (t.messages[a.message].Split() && k == t.messages[a.message].Assembly())
  {
    if !t.Heard(t.messages[a.message]) {
      UnheardArrival(t, table, a);
    } else if t.messages[a.message].Split() {
      SplitArrival(t, table, a);
    } else {
      PlainArrival(t, table, a);
    }
  }

  /** One arrival fills at most its own slot; and a split message comes out only when all its other
      slots are filled, and its assembly is then gone. */
  lemma ArriveFills(t: Traffic, table: Table, a: Arrival, i: nat, j: nat)
    requires t.Good() && t.Genuine(table) && t.Possible(a)
    requires i < |t.messages| && t.messages[i].Split() && j < |t.messages[i].Fragments()|
    ensures FillsOwnSlot(t, table, a, t.Arrive(table, a), i, j)
  {
    if !t.Heard(t.messages[a.message]) {
      UnheardArrival(t, table, a);
    } else if t.messages[a.message].Split() {
      SplitArrival(t, table, a);
      FillResultFills(RoomFor(t, table, a), t.messages[a.message], a.fragment, t.messages[i].Assembly(), j);
    } else {
      PlainArrival(t, table, a);
    }
  }

  ghost predicate FillsOwnSlot(t: Traffic, table: Table, a: Arrival, result: (Table, Outcome), i: nat, j: nat)
    requires i < |t.messages|
  {
    var key := t.messages[i].Assembly();
    && (Filled(result.0, key, j) ==> Filled(table, key, j) || (a.message == i && a.fragment == j))
    && (a.message == i && result.1.Delivered? ==>
          !Filled(result.0, key, j) && (a.fragment != j ==> Filled(table, key, j)))
  }

  // ---- Runs ----------------------------------------------------------------------------------

  /** What a machine answers to each of a sequence of inputs. */
  function Run<S, E, O>(step: (S, E) -> (S, O), state: S, events: seq<E>): (outcomes: seq<O>)
    ensures |outcomes| == |events|
  {
    if events == [] then []
    else
      var (next, outcome) := step(state, events[0]);
      [outcome] + Run(step, next, events[1..])
  }

  /** The receiver of the traffic, as a machine fed by arrivals. */
  function Receiver(t: Traffic): (Table, Arrival) -> (Table, Outcome) {
    (table, a) => t.Arrive(table, a)
  }

  ghost predicate Faithful(t: Traffic, step: (Table, Arrival) -> (Table, Outcome)) {
    forall table, a :: t.Genuine(table) && t.Possible(a) ==>
      t.Genuine(step(table, a).0) && Proper(t, a, step(table, a).1)
  }

  ghost predicate Frugal(t: Traffic, step: (Table, Arrival) -> (Table, Outcome), i: nat, j: nat)
    requires i < |t.messages|
  {
    forall table, a :: t.Genuine(table) && t.Possible(a) ==> FillsOwnSlot(t, table, a, step(table, a), i, j)
  }

  lemma {:induction false} FaithfulRun(t: Traffic, step: (Table, Arrival) -> (Table, Outcome), table: Table,
      run: seq<Arrival>, n: nat)
    requires Faithful(t, step) && t.Genuine(table) && (forall i :: 0 <= i < |run| ==> t.Possible(run[i]))
    requires n < |run|
    ensures t.Possible(run[n])
    ensures Proper(t, run[n], Run(step, table, run)[n])
    decreases |run|
  {
    var next := step(table, run[0]).0;
    assert t.Genuine(next) && Proper(t, run[0], step(table, run[0]).1);
    if n > 0 {
      FaithfulRun(t, step, next, run[1..], n - 1);
      assert Run(step, table, run)[n] == Run(step, next, run[1..])[n - 1];
    }
  }

  lemma ReceiverIsFaithful(t: Traffic)
    requires t.Good()
    ensures Faithful(t, Receiver(t))
  {
    forall table, a | t.Genuine(table) && t.Possible(a)
      ensures t.Genuine(t.Arrive(table, a).0) && Proper(t, a, t.Arrive(table, a).1)
    {
      ArriveGenuine(t, table, a);
    }
  }

  /** Safety: in every run, whatever is lost, repeated, reordered, interleaved or pushed out, each packet
      handed out is the packet of the very message that arrived, whole and unaltered. */
  lemma RunIsSafe(t: Traffic, table: Table, run: seq<Arrival>)
    requires t.Good() && t.Genuine(table) && (forall i :: 0 <= i < |run| ==> t.Possible(run[i]))
    ensures forall n :: 0 <= n < |run| ==> t.Possible(run[n]) && Proper(t, run[n], Run(Receiver(t), table, run)[n])
  {
    ReceiverIsFaithful(t);
    forall n | 0 <= n < |run| ensures t.Possible(run[n]) && Proper(t, run[n], Run(Receiver(t), table, run)[n]) {
      FaithfulRun(t, Receiver(t), table, run, n);
    }
  }

  /** Arrivals of fragment `j` of message `i`. */
  function ArrivalsOf(run: seq<Arrival>, i: nat, j: nat): nat {
    if run == [] then 0
    else (if run[0].message == i && run[0].fragment == j then 1 else 0) + ArrivalsOf(run[1..], i, j)
  }

  /** Times message `i` was handed out. */
  function DeliveriesOf(run: seq<Arrival>, outcomes: seq<Outcome>, i: nat): nat
    requires |run| == |outcomes|
  {
    if run == [] then 0
    else (if run[0].message == i && outcomes[0].Delivered? then 1 else 0) + DeliveriesOf(run[1..], outcomes[1..], i)
  }

  lemma {:induction false} FrugalRun(t: Traffic, step: (Table, Arrival) -> (Table, Outcome), table: Table,
      run: seq<Arrival>, i: nat, j: nat)
    requires i < |t.messages| && Faithful(t, step) && Frugal(t, step, i, j)
    requires t.Genuine(table) && (forall i :: 0 <= i < |run| ==> t.Possible(run[i]))
    ensures DeliveriesOf(run, Run(step, table, run), i)
         <= ArrivalsOf(run, i, j) + if Filled(table, t.messages[i].Assembly(), j) then 1 else 0
    decreases |run|
  {
    if run != [] {
      var next := step(table, run[0]).0;
      FrugalRun(t, step, next, run[1..], i, j);
      assert Run(step, table, run)[1..] == Run(step, next, run[1..]);
      assert FillsOwnSlot(t, table, run[0], step(table, run[0]), i, j);
    }
  }

  /** Conservation: from any table, a split message is handed out at most once for each arrival of each
      one of its fragments, counting a fragment the table already holds. So without duplication by the
      network every message is handed out at most once. */
  lemma RunConserves(t: Traffic, table: Table, run: seq<Arrival>, i: nat, j: nat)
    requires t.Good() && t.Genuine(table) && (forall i :: 0 <= i < |run| ==> t.Possible(run[i]))
    requires i < |t.messages| && t.messages[i].Split() && j < |t.messages[i].Fragments()|
    ensures DeliveriesOf(run, Run(Receiver(t), table, run), i)
         <= ArrivalsOf(run, i, j) + if Filled(table, t.messages[i].Assembly(), j) then 1 else 0
  {
    ReceiverIsFaithful(t);
    forall table, a | t.Genuine(table) && t.Possible(a)
      ensures FillsOwnSlot(t, table, a, t.Arrive(table, a), i, j)
    {
      ArriveFills(t, table, a, i, j);
    }
    FrugalRun(t, Receiver(t), table, run, i, j);
  }

  // ---- Bounded memory, whatever arrives ------------------------------------------------------

  /** The state a machine is left in after a sequence of inputs. */
  function Final<S, E, O>(step: (S, E) -> (S, O), state: S, events: seq<E>): S
    decreases |events|
  {
    if events == [] then state else Final(step, step(state, events[0]).0, events[1..])
  }

  /** Any bytes at all, with the receiver's way of choosing whom to push out. */
  datatype Datagram = Datagram(data: seq<byte>, pick: Table -> Key)

  function Listener(codec: TextCodec, direction: Direction): (Table, Datagram) -> (Table, Outcome) {
    (table, d: Datagram) => Receive(codec, direction, table, d.data, d.pick(table))
  }

  lemma ReceiveBounded(codec: TextCodec, direction: Direction, table: Table, data: seq<byte>, victim: Key)
    requires Bounded(table) && (table != map[] ==> victim in table)
    ensures Bounded(Receive(codec, direction, table, data, victim).0)
  {
    if direction.ToServer? && ServerDecode(codec, data).Ok? {
      StepBounded(table, ServerDecode(codec, data).value, victim);
    }
    if direction.ToClient? && ClientDecode(codec, data).Ok? {
      StepBounded(table, codec.OnWire(ClientDecode(codec, data).value), victim);
    }
  }

  ghost predicate KeepsBounds(step: (Table, Datagram) -> (Table, Outcome), possible: Datagram -> bool) {
    forall table, e :: Bounded(table) && possible(e) ==> Bounded(step(table, e).0)
  }

  lemma {:induction false} BoundedRun(step: (Table, Datagram) -> (Table, Outcome), possible: Datagram -> bool,
      table: Table, events: seq<Datagram>)
    requires KeepsBounds(step, possible) && Bounded(table) && (forall e :: e in events ==> possible(e))
    ensures Bounded(Final(step, table, events))
    decreases |events|
  {
    if events != [] {
      BoundedRun(step, possible, step(table, events[0]).0, events[1..]);
    }
  }

  ghost predicate PicksAKey(d: Datagram) {
    forall table: Table :: table != map[] ==> d.pick(table) in table
  }

  /** Whatever bytes arrive, the receiver ends every run with a bounded table: at most 128 unfinished
      assemblies of 2 to 64 slots, each partly filled. */
  lemma TableStaysBounded(codec: TextCodec, direction: Direction, datagrams: seq<Datagram>)
    requires forall d :: d in datagrams ==> PicksAKey(d)
    ensures Bounded(Final(Listener(codec, direction), map[], datagrams))
  {
    var possible: Datagram -> bool := d => d in datagrams;
    forall table, d | Bounded(table) && possible(d)
      ensures Bounded(Receive(codec, direction, table, d.data, d.pick(table)).0)
    {
      assert PicksAKey(d);
      ReceiveBounded(codec, direction, table, d.data, d.pick(table));
    }
    BoundedRun(Listener(codec, direction), possible, map[], datagrams);
  }

  // ---- Why ids must not come round -----------------------------------------------------------

  const NO_KEY: Key := Key(0, [], 0, 0)

  /** Packets 1 to `upTo` - 1 fed one by one to an empty receiver, which never has to make room for them. */
  function FeedTail(packets: seq<Packet>, upTo: nat): Table
    requires upTo <= |packets|
  {
    if upTo <= 1 then map[] else ReassembleStep(FeedTail(packets, upTo - 1), packets[upTo - 1], NO_KEY).0
  }

  /** The slots of a message that has lost its first fragment, after fragments 1 to `upTo` - 1. */
  function HeadlessSlots(bodies: seq<seq<byte>>, upTo: nat): (r: Slots)
    ensures |r| == |bodies|
  {
    seq(|bodies|, i requires 0 <= i < |bodies| => if 1 <= i < upTo then Some(bodies[i]) else None)
  }

  function HeadlessTable(key: Key, bodies: seq<seq<byte>>, upTo: nat): Table {
    if upTo <= 1 then map[] else map[key := HeadlessSlots(bodies, upTo)]
  }

  lemma HeadlessGrow(key: Key, bodies: seq<seq<byte>>, k: nat)
    requires 1 <= k < |bodies|
    ensures var (table, next) := (HeadlessTable(key, bodies, k), HeadlessTable(key, bodies, k + 1));
      var filled := (if key in table then table[key] else seq(|bodies|, _ => None))[k := Some(bodies[k])];
      table[key := filled] == next && None in filled
  {
    var filled := HeadlessSlots(bodies, k + 1);
    assert HeadlessSlots(bodies, 1) == seq(|bodies|, _ => None);
    assert HeadlessSlots(bodies, k)[k := Some(bodies[k])] == filled && filled[0] == None;
    assert HeadlessTable(key, bodies, k)[key := filled] == map[key := filled];
  }

  lemma HeadlessStep(m: Message, k: nat)
    requires m.Sendable() && m.Split() && 1 <= k < |m.Fragments()|
    ensures ReassembleStep(HeadlessTable(m.Assembly(), m.Bodies(), k), m.Fragments()[k], NO_KEY)
         == (HeadlessTable(m.Assembly(), m.Bodies(), k + 1), Waiting)
  {
    FragmentOf(m, k);
    FillGenuine(HeadlessTable(m.Assembly(), m.Bodies(), k), m, k);
    HeadlessGrow(m.Assembly(), m.Bodies(), k);
  }

  lemma {:induction false} FeedSteps(packets: seq<Packet>, key: Key, bodies: seq<seq<byte>>, upTo: nat)
    requires 1 <= upTo <= |packets|
    requires forall k :: 1 <= k < |packets| ==>
        ReassembleStep(HeadlessTable(key, bodies, k), packets[k], NO_KEY).0 == HeadlessTable(key, bodies, k + 1)
    ensures FeedTail(packets, upTo) == HeadlessTable(key, bodies, upTo)
  {
    if upTo > 1 {
      FeedSteps(packets, key, bodies, upTo - 1);
    }
  }

  lemma FeedHeadless(m: Message)
    requires m.Sendable() && m.Split() && m.Fragments() != []
    ensures FeedTail(m.Fragments(), |m.Fragments()|) == HeadlessTable(m.Assembly(), m.Bodies(), |m.Fragments()|)
  {
    var packets, key, bodies := m.Fragments(), m.Assembly(), m.Bodies();
    forall k | 1 <= k < |packets|
      ensures ReassembleStep(HeadlessTable(key, bodies, k), packets[k], NO_KEY).0 == HeadlessTable(key, bodies, k + 1)
    {
      HeadlessStep(m, k);
    }
    FeedSteps(packets, key, bodies, |packets|);
  }

  /** Two split messages that share a key and a count, with different first bodies and different rests:
      if the first loses its head and the second all but its head, the receiver hands out a packet that
      nobody sent. */
  lemma ReusedKeyMixes(a: Message, b: Message)
    requires a.Sendable() && a.Split() && b.Sendable() && b.Split()
    requires a.Assembly() == b.Assembly() && |a.Fragments()| == |b.Fragments()|
    requires a.Bodies()[0] != b.Bodies()[0] && Flatten(a.Bodies()[1..]) != Flatten(b.Bodies()[1..])
    ensures var outcome := ReassembleStep(FeedTail(a.Fragments(), |a.Fragments()|), b.Fragments()[0], NO_KEY).1;
            outcome.Delivered? && outcome.packet != a.packet && outcome.packet != b.packet
  {
    FragmentOf(a, 0);
    FeedHeadless(a);
    FirstBodyIsFull(a);
    FirstBodyIsFull(b);
    HeadCompletes(a, b);
  }

  /** The head of `b` completes the assembly that holds the rest of `a`. */
  lemma HeadCompletes(a: Message, b: Message)
    requires a.Sendable() && a.Split() && b.Sendable() && b.Split()
    requires a.Assembly() == b.Assembly() && |a.Fragments()| == |b.Fragments()|
    ensures a.Bodies() != [] && b.Bodies() != []
    ensures ReassembleStep(HeadlessTable(a.Assembly(), a.Bodies(), |a.Fragments()|), b.Fragments()[0], NO_KEY).1
         == Delivered(b.packet.(payload := b.Bodies()[0] + Flatten(a.Bodies()[1..])))
  {
    FragmentOf(a, 0);
    FragmentOf(b, 0);
    MixedJoin(HeadlessSlots(a.Bodies(), |a.Fragments()|)[0 := Some(b.Bodies()[0])], b.Bodies()[0], a.Bodies()[1..]);
    FirstBodyIsFull(a);
    FirstBodyIsFull(b);
    var f := b.Fragments()[0];
    var payload := b.Bodies()[0] + Flatten(a.Bodies()[1..]);
    assert f.(payload := payload) == b.packet.(payload := payload);
  }

  lemma MixedJoin(slots: Slots, head: seq<byte>, rest: seq<seq<byte>>)
    requires |slots| == 1 + |rest| && slots[0] == Some(head)
    requires forall i :: 1 <= i < |slots| ==> slots[i] == Some(rest[i - 1])
    ensures None !in slots && Join(slots) == head + Flatten(rest)
  {
    forall i | 0 <= i < |slots| ensures slots[i] == Some(([head] + rest)[i]) {
    }
    assert None !in slots;
    JoinBodies(slots, [head] + rest);
    assert ([head] + rest)[1..] == rest;
  }

  lemma FirstBodyIsFull(m: Message)
    requires m.Sendable() && m.Split()
    ensures m.Bodies() != [] && |m.Bodies()[0]| == Room(m.packet)
    ensures m.packet.payload == m.Bodies()[0] + Flatten(m.Bodies()[1..])
  {
    FragmentOf(m, 0);
  }
}
