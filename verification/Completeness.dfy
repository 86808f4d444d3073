/** When the server is sure to hand out a split message: its oldest-first eviction leaves an assembly
    alone until 128 others have been opened after it. */
module Completeness {
  import opened Bytes
  import opened Wire
  import opened Fragments
  import opened Reassembly
  import opened DatagramRuns

  predicate IsFragmentFor(packet: Packet, key: Key) {
    FragmentIn(packet).Some? && KeyOf(packet, FragmentIn(packet).value.messageId) == key
  }

  /** The packet starts an assembly other than `key`. */
  predicate OpensOther(table: Table, packet: Packet, key: Key) {
    FragmentIn(packet).Some? && !IsFragmentFor(packet, key)
    && KeyOf(packet, FragmentIn(packet).value.messageId) !in table
  }

  /** Entries younger than `key` in insertion order. */
  function Younger(order: seq<Key>, key: Key): nat {
    if order == [] then 0 else if order[0] == key then |order| - 1 else Younger(order[1..], key)
  }

  lemma YoungerAppend(order: seq<Key>, key: Key, other: Key)
    requires key in order
    ensures Younger(order + [other], key) == Younger(order, key) + 1
  {
    if order[0] != key {
      YoungerAppend(order[1..], key, other);
      assert (order + [other])[1..] == order[1..] + [other];
    }
  }

  lemma YoungerNew(order: seq<Key>, key: Key)
    requires key !in order
    ensures Younger(order + [key], key) == 0
  {
    if order != [] {
      YoungerNew(order[1..], key);
      assert (order + [key])[1..] == order[1..] + [key];
    }
  }

  lemma YoungerWithout(order: seq<Key>, key: Key, other: Key)
    requires key in order && other != key
    ensures key in Without(order, other)
    ensures Younger(Without(order, other), key) <= Younger(order, key)
  {
    if order[0] != key && order[0] != other {
      YoungerWithout(order[1..], key, other);
    }
    if order[0] == key {
      WithoutLength(order[1..], other);
    }
  }

  lemma WithoutLength<T>(s: seq<T>, x: T)
    ensures |Without(s, x)| <= |s|
  {
  }

  /** The server holds exactly the bodies of `m` seen so far, and at most `others` assemblies are younger. */
  ghost predicate Holding(state: Ordered, m: Message, seen: set<int>, others: nat) {
    var key := m.Assembly();
    && state.Valid()
    && (seen == {} ==> key !in state.table)
    && (seen != {} ==>
          key in state.table && HoldsSeen(state.table[key], m, seen) && Younger(state.order, key) <= others)
  }

  ghost predicate HoldsSeen(slots: Slots, m: Message, seen: set<int>) {
    HoldsThese(slots, m.Bodies(), seen)
  }

  ghost predicate HoldsThese(slots: Slots, bodies: seq<seq<byte>>, seen: set<int>) {
    && |slots| == |bodies|
    && forall i :: 0 <= i < |slots| ==> slots[i] == if i in seen then Some(bodies[i]) else None
  }

  /** An open assembly with fewer than 127 younger ones is not the oldest of a full table. */
  lemma NotOldest(state: Ordered, m: Message, seen: set<int>, others: nat)
    requires Holding(state, m, seen, others) && seen != {} && others < MAX_FRAGMENT_ASSEMBLIES - 1
    ensures |state.table| >= MAX_FRAGMENT_ASSEMBLIES ==> state.Oldest() != m.Assembly()
  {
  }

  lemma OpenOtherHolds(state: Ordered, m: Message, seen: set<int>, others: nat, other: Key, count: nat)
    requires Holding(state, m, seen, others) && other != m.Assembly() && other !in state.table
    requires others < MAX_FRAGMENT_ASSEMBLIES - 1
    ensures Holding(state.Open(other, count), m, seen, others + 1)
  {
    OpenValid(state, other, count);
    var key := m.Assembly();
    if seen != {} {
      NotOldest(state, m, seen, others);
      if |state.table| >= MAX_FRAGMENT_ASSEMBLIES {
        YoungerWithout(state.order, key, state.Oldest());
        YoungerAppend(Without(state.order, state.Oldest()), key, other);
      } else {
        YoungerAppend(state.order, key, other);
      }
    } else if |state.table| >= MAX_FRAGMENT_ASSEMBLIES {
      WithoutMembers(state.order, state.Oldest());
    }
  }

  lemma FillOtherHolds(state: Ordered, m: Message, seen: set<int>, others: nat, packet: Packet, fragment: Fragment,
      other: Key)
    requires Holding(state, m, seen, others) && other != m.Assembly() && other in state.table
    requires fragment.index < fragment.count
    ensures Holding(ServerFill(state, other, packet, fragment).0, m, seen, others)
  {
    var next := ServerFill(state, other, packet, fragment).0;
    ServerFillValid(state, other, packet, fragment);
    if seen != {} && next == state.Drop(other) {
      YoungerWithout(state.order, m.Assembly(), other);
    }
  }

  /** A packet that is not a fragment of the message leaves its assembly alone while fewer than 128
      others have been opened after it. */
  lemma OtherPacketHolds(state: Ordered, m: Message, seen: set<int>, others: nat, packet: Packet)
    requires Holding(state, m, seen, others) && !IsFragmentFor(packet, m.Assembly())
    requires OpensOther(state.table, packet, m.Assembly()) ==> others < MAX_FRAGMENT_ASSEMBLIES - 1
    ensures Holding(ServerStep(state, packet).0, m, seen,
              others + if OpensOther(state.table, packet, m.Assembly()) then 1 else 0)
  {
    if FragmentIn(packet).Some? {
      var fragment := FragmentIn(packet).value;
      var other := KeyOf(packet, fragment.messageId);
      if other in state.table {
        FillOtherHolds(state, m, seen, others, packet, fragment, other);
      } else {
        OpenOtherHolds(state, m, seen, others, other, fragment.count);
        FillOtherHolds(state.Open(other, fragment.count), m, seen, others + 1, packet, fragment, other);
      }
    }
  }

  lemma OpenOwnHolds(state: Ordered, m: Message, others: nat)
    requires Holding(state, m, {}, others)
    ensures var next := state.Open(m.Assembly(), |m.Bodies()|);
            next.Valid() && m.Assembly() in next.table && HoldsSeen(next.table[m.Assembly()], m, {})
            && Younger(next.order, m.Assembly()) == 0
  {
    OpenValid(state, m.Assembly(), |m.Bodies()|);
    WithoutMembers(state.order, state.Oldest());
    YoungerNew(if |state.table| >= MAX_FRAGMENT_ASSEMBLIES then Without(state.order, state.Oldest()) else state.order,
      m.Assembly());
  }

  lemma FillThese(slots: Slots, bodies: seq<seq<byte>>, seen: set<int>, j: nat)
    requires j < |bodies| && HoldsThese(slots, bodies, seen)
    ensures var filled := slots[j := Some(bodies[j])];
      && HoldsThese(filled, bodies, seen + {j})
      && if forall i :: 0 <= i < |bodies| ==> i == j || i in seen
         then None !in filled && Join(filled) == Flatten(bodies)
         else None in filled
  {
    var filled := slots[j := Some(bodies[j])];
    assert forall i :: 0 <= i < |filled| ==> filled[i] == if i == j || i in seen then Some(bodies[i]) else None;
    if forall i :: 0 <= i < |bodies| ==> i == j || i in seen {
      assert None !in filled;
      JoinBodies(filled, bodies);
    } else {
      var missing :| 0 <= missing < |bodies| && missing != j && missing !in seen;
      assert filled[missing] == None;
    }
  }

  lemma FillSeen(slots: Slots, m: Message, seen: set<int>, j: nat)
    requires m.Sendable() && m.Split() && j < |m.Fragments()| && HoldsSeen(slots, m, seen)
    ensures |m.Bodies()| == |m.Fragments()| && HoldsSeen(slots[j := Some(m.Bodies()[j])], m, seen + {j})
    ensures var filled := slots[j := Some(m.Bodies()[j])];
      if forall i :: 0 <= i < |m.Fragments()| ==> i == j || i in seen
      then None !in filled && Join(filled) == m.packet.payload
      else None in filled
  {
    FragmentOf(m, j);
    FillThese(slots, m.Bodies(), seen, j);
  }

  /** What the message's own fragment `j` does: the body goes to its slot, and the last one sets the message free. */
  lemma FillOwnSlot(state: Ordered, m: Message, j: nat)
    requires m.Sendable() && m.Split() && j < |m.Fragments()| && |m.Bodies()| == |m.Fragments()|
    requires state.Valid() && m.Assembly() in state.table && |state.table[m.Assembly()]| == |m.Bodies()|
    ensures FragmentIn(m.Fragments()[j]).Some?
    ensures var (f, key) := (m.Fragments()[j], m.Assembly());
      var filled := state.table[key][j := Some(m.Bodies()[j])];
      var (next, outcome) := ServerFill(state, key, f, FragmentIn(f).value);
      && (None in filled ==>
            next.Valid() && next.order == state.order && key in next.table && next.table[key] == filled)
      && (None !in filled && Join(filled) == m.packet.payload ==> outcome == Delivered(m.packet))
  {
    FragmentOf(m, j);
    assert m.Fragments()[j].(payload := m.packet.payload) == m.packet;
    UpdateValid(state, m.Assembly(), state.table[m.Assembly()][j := Some(m.Bodies()[j])]);
  }

  lemma FillOwn(state: Ordered, m: Message, seen: set<int>, others: nat, j: nat)
    requires m.Sendable() && m.Split() && j < |m.Fragments()|
    requires state.Valid() && m.Assembly() in state.table && HoldsSeen(state.table[m.Assembly()], m, seen)
    requires Younger(state.order, m.Assembly()) <= others
    ensures FragmentIn(m.Fragments()[j]).Some?
    ensures var f := m.Fragments()[j];
      var (next, outcome) := ServerFill(state, m.Assembly(), f, FragmentIn(f).value);
      if forall i :: 0 <= i < |m.Fragments()| ==> i == j || i in seen then outcome == Delivered(m.packet)
      else Holding(next, m, seen + {j}, others)
  {
    FillSeen(state.table[m.Assembly()], m, seen, j);
    FillOwnSlot(state, m, j);
  }

  /** A fragment of the message completes it, or is added to what the server holds of it. */
  lemma OwnFragment(state: Ordered, m: Message, seen: set<int>, others: nat, j: nat)
    requires m.Sendable() && m.Split() && j < |m.Fragments()|
    requires Holding(state, m, seen, others)
    ensures var (next, outcome) := ServerStep(state, m.Fragments()[j]);
      if forall i :: 0 <= i < |m.Fragments()| ==> i == j || i in seen then outcome == Delivered(m.packet)
      else Holding(next, m, seen + {j}, others)
  {
    FragmentOf(m, j);
    if seen == {} {
      OpenOwnHolds(state, m, others);
    }
    FillOwn(state.Open(m.Assembly(), |m.Bodies()|), m, seen, others, j);
  }

  // ---- Whole runs ----------------------------------------------------------------------------

  type Step = (Ordered, Packet) -> (Ordered, Outcome)

  /** The server's reassembler as a machine fed with decoded packets. */
  function Server(): Step {
    (state, packet) => ServerStep(state, packet)
  }

  /** How many packets of a run `opens` counts. */
  function Openings(step: Step, opens: (Ordered, Packet) -> bool, state: Ordered, packets: seq<Packet>): nat
    decreases |packets|
  {
    if packets == [] then 0
    else (if opens(state, packets[0]) then 1 else 0) + Openings(step, opens, step(state, packets[0]).0, packets[1..])
  }

  /** A machine that collects `fragments` into `whole`: `holds` says which it has seen and how many
      disturbing packets, those of `opens`, it has met since; it stands fewer than 128 of them. */
  datatype Collector = Collector(step: Step, fragments: seq<Packet>, whole: Packet,
    holds: (Ordered, set<int>, nat) -> bool, opens: (Ordered, Packet) -> bool, foreign: Packet -> bool)
  {
    predicate Ignores(state: Ordered, packet: Packet, seen: set<int>, others: nat) {
      holds(state, seen, others) && foreign(packet) && (opens(state, packet) ==> others < MAX_FRAGMENT_ASSEMBLIES - 1)
      ==> holds(step(state, packet).0, seen, others + if opens(state, packet) then 1 else 0)
    }

    predicate Gathers(state: Ordered, j: int, seen: set<int>, others: nat) {
      0 <= j < |fragments| && holds(state, seen, others) ==>
        var (next, outcome) := step(state, fragments[j]);
        if forall i :: 0 <= i < |fragments| ==> i == j || i in seen then outcome == Delivered(whole)
        else holds(next, seen + {j}, others)
    }

    ghost predicate Sound() {
      && NoRepeats(fragments)
      && (forall state, packet, seen, others :: Ignores(state, packet, seen, others))
      && (forall state, j, seen, others :: Gathers(state, j, seen, others))
    }
  }

  lemma {:induction false} CollectedRun(c: Collector, state: Ordered, packets: seq<Packet>, seen: set<int>, others: nat)
    requires c.Sound() && c.holds(state, seen, others)
    requires exists i :: 0 <= i < |c.fragments| && i !in seen
    requires forall i :: 0 <= i < |c.fragments| && i !in seen ==> c.fragments[i] in packets
    requires forall p :: p in packets ==> p in c.fragments || c.foreign(p)
    requires others + Openings(c.step, c.opens, state, packets) < MAX_FRAGMENT_ASSEMBLIES
    ensures Delivered(c.whole) in Run(c.step, state, packets)
    decreases |packets|
  {
    var packet, rest := packets[0], packets[1..];
    var (next, outcome) := c.step(state, packet);
    assert packets == [packet] + rest;
    if packet in c.fragments {
      var j :| 0 <= j < |c.fragments| && c.fragments[j] == packet;
      assert c.Gathers(state, j, seen, others);
      if exists i :: 0 <= i < |c.fragments| && i != j && i !in seen {
        var i :| 0 <= i < |c.fragments| && i != j && i !in seen;
        assert i !in seen + {j};
        CollectedRun(c, next, rest, seen + {j}, others);
      }
    } else {
      assert c.Ignores(state, packet, seen, others);
      CollectedRun(c, next, rest, seen, others + if c.opens(state, packet) then 1 else 0);
    }
  }

  /** The server as the collector of one message. */
  ghost function CollectorOf(m: Message): Collector {
    Collector(Server(), m.Fragments(), m.packet,
      (state, seen, others: nat) => Holding(state, m, seen, others),
      (state: Ordered, packet) => OpensOther(state.table, packet, m.Assembly()),
      packet => !IsFragmentFor(packet, m.Assembly()))
  }

  lemma DistinctFragments(m: Message)
    requires m.Sendable() && m.Split()
    ensures NoRepeats(m.Fragments()) && m.Fragments() != []
  {
    SplitShape(m.packet, m.id);
    forall i, j | 0 <= i < j < |m.Fragments()| ensures m.Fragments()[i] != m.Fragments()[j] {
      FragmentOf(m, i);
      FragmentOf(m, j);
    }
  }

  lemma ServerCollects(m: Message)
    requires m.Sendable() && m.Split()
    ensures CollectorOf(m).Sound()
  {
    var c := CollectorOf(m);
    DistinctFragments(m);
    forall state, packet, seen, others: nat ensures c.Ignores(state, packet, seen, others) {
      if c.holds(state, seen, others) && c.foreign(packet)
        && (c.opens(state, packet) ==> others < MAX_FRAGMENT_ASSEMBLIES - 1) {
        OtherPacketHolds(state, m, seen, others, packet);
      }
    }
    forall state, j, seen, others: nat ensures c.Gathers(state, j, seen, others) {
      if 0 <= j < |c.fragments| && c.holds(state, seen, others) {
        OwnFragment(state, m, seen, others, j);
      }
    }
  }

  lemma CollectedFromNothing(c: Collector, state: Ordered, packets: seq<Packet>)
    requires c.Sound() && c.fragments != [] && c.holds(state, {}, 0)
    requires forall f :: f in c.fragments ==> f in packets
    requires forall p :: p in packets ==> p in c.fragments || c.foreign(p)
    requires Openings(c.step, c.opens, state, packets) < MAX_FRAGMENT_ASSEMBLIES
    ensures Delivered(c.whole) in Run(c.step, state, packets)
  {
    var none: set<int> := {};
    assert 0 !in none;
    CollectedRun(c, state, packets, none, 0);
  }

  /** Completeness: if the server holds nothing of a split message, all its fragments arrive among any
      other packets (none a false fragment of it) in any order and however often, and fewer than 128
      other assemblies are opened meanwhile, then the message is handed out. */
  lemma MessageIsDelivered(m: Message, state: Ordered, packets: seq<Packet>)
    requires m.Sendable() && m.Split()
    requires state.Valid() && m.Assembly() !in state.table
    requires forall f :: f in m.Fragments() ==> f in packets
    requires forall p :: p in packets && IsFragmentFor(p, m.Assembly()) ==> p in m.Fragments()
    requires Openings(Server(), CollectorOf(m).opens, state, packets) < MAX_FRAGMENT_ASSEMBLIES
    ensures Delivered(m.packet) in Run(Server(), state, packets)
  {
    ServerCollects(m);
    DistinctFragments(m);
    CollectedFromNothing(CollectorOf(m), state, packets);
  }

  /** Every packet of the run opens an assembly other than `key`. */
  predicate AllOpenOthers(state: Ordered, packets: seq<Packet>, key: Key)
    decreases |packets|
  {
    packets != [] ==>
      OpensOther(state.table, packets[0], key) && AllOpenOthers(ServerStep(state, packets[0]).0, packets[1..], key)
  }

  lemma OpeningStep(state: Ordered, packet: Packet, key: Key)
    requires state.Valid() && OpensOther(state.table, packet, key)
    ensures var next := ServerStep(state, packet).0; var other := KeyOf(packet, FragmentIn(packet).value.messageId);
      && next.Valid() && other != key
      && next.order == (if |state.order| >= MAX_FRAGMENT_ASSEMBLIES then state.order[1..] else state.order) + [other]
  {
    ServerStepValid(state, packet);
    var fragment := FragmentIn(packet).value;
    var other := KeyOf(packet, fragment.messageId);
    var open := state.Open(other, fragment.count);
    var filled := open.table[other][fragment.index := Some(fragment.body)];
    assert filled[if fragment.index == 0 then 1 else 0] == None;
  }

  /** The bound is tight: however few assemblies are open, an assembly that is the oldest is lost once
      enough others have been opened to pass 128; for a lone assembly that takes exactly 128. */
  lemma {:induction false} OldestIsLost(state: Ordered, packets: seq<Packet>, key: Key)
    requires state.Valid() && AllOpenOthers(state, packets, key)
    requires key in state.table ==> state.order[0] == key
    ensures |state.order| <= MAX_FRAGMENT_ASSEMBLIES && key in state.table ==>
      (key in Final(Server(), state, packets).table <==> |state.order| + |packets| <= MAX_FRAGMENT_ASSEMBLIES)
    ensures key !in state.table ==> key !in Final(Server(), state, packets).table
    decreases |packets|
  {
    if packets != [] {
      OpeningStep(state, packets[0], key);
      var next := ServerStep(state, packets[0]).0;
      assert key in next.table <==> key in next.order;
      if key in state.order {
        assert key !in state.order[1..];
      }
      OldestIsLost(next, packets[1..], key);
    }
  }
}
