/** Putting fragments together again in a bounded table of unfinished messages. */
module Reassembly {
  import opened Bytes
  import opened Wire
  import opened Fragments

  const MAX_FRAGMENT_ASSEMBLIES: nat := 128
  /** The largest body a decoded fragment can carry: one datagram less envelope, host and header. */
  const MAX_BODY: nat := MAX_WIRE_DATAGRAM - 7 - 1 - FRAGMENT_HEADER_SIZE

  datatype Key = Key(flow: int, host: seq<byte>, port: int, messageId: int)

  type Slots = seq<Option<seq<byte>>>

  type Table = map<Key, Slots>

  datatype Outcome = Delivered(packet: Packet) | Waiting | Rejected

  function KeyOf(packet: Packet, messageId: int): Key {
    Key(packet.flow, packet.host, packet.port, messageId)
  }

  /** The fragment in a packet, when the packet holds an acceptable one. */
  function FragmentIn(packet: Packet): Option<Fragment> {
    if HasMagic(packet.payload) then ParseFragment(packet.payload) else None
  }

  function Join(slots: Slots): seq<byte>
    requires None !in slots
  {
    if slots == [] then [] else slots[0].value + Join(slots[1..])
  }

  /** Put one fragment into the assembly of its key, opening it if needed. */
  function Place(table: Table, packet: Packet, fragment: Fragment): (r: (Table, Outcome))
    requires fragment.index < fragment.count
  {
    var key := KeyOf(packet, fragment.messageId);
    var slots := if key in table then table[key] else seq(fragment.count, _ => None);
    if |slots| != fragment.count then (table - {key}, Rejected)
    else
      var filled := slots[fragment.index := Some(fragment.body)];
      if None in filled then (table[key := filled], Waiting)
      else if |Join(filled)| > MAX_DATAGRAM_PAYLOAD then (table - {key}, Rejected)
      else (table - {key}, Delivered(packet.(payload := Join(filled))))
  }

  /** A new assembly in a full table first pushes another one out. */
  predicate Evicts(table: Table, packet: Packet) {
    match FragmentIn(packet)
    case None => false
    case Some(fragment) => KeyOf(packet, fragment.messageId) !in table && |table| >= MAX_FRAGMENT_ASSEMBLIES
  }

  /** One call of the reassembler; `victim` is the assembly pushed out if one has to go. */
  function ReassembleStep(table: Table, packet: Packet, victim: Key): (r: (Table, Outcome)) {
    if !HasMagic(packet.payload) then (table, Delivered(packet))
    else
      match ParseFragment(packet.payload)
      case None => (table, Rejected)
      case Some(fragment) =>
        Place(if Evicts(table, packet) then table - {victim} else table, packet, fragment)
  }

  // ---- What the table can hold ---------------------------------------------------------------

  ghost predicate NoRepeats<T>(s: seq<T>) {
    forall i, j :: 0 <= i < j < |s| ==> s[i] != s[j]
  }

  /** An unfinished assembly: 2 to 64 slots, at least one filled, at least one empty, bodies of bounded size. */
  ghost predicate BoundedSlots(slots: Slots) {
    && 2 <= |slots| <= MAX_FRAGMENT_COUNT
    && None in slots
    && (exists i :: 0 <= i < |slots| && slots[i].Some?)
    && (forall i :: 0 <= i < |slots| && slots[i].Some? ==> |slots[i].value| <= MAX_BODY)
  }

  ghost predicate Bounded(table: Table) {
    |table| <= MAX_FRAGMENT_ASSEMBLIES && forall k :: k in table ==> BoundedSlots(table[k])
  }

  lemma FillBounded(slots: Slots, index: nat, body: seq<byte>)
    requires 2 <= |slots| <= MAX_FRAGMENT_COUNT && index < |slots| && |body| <= MAX_BODY
    requires forall i :: 0 <= i < |slots| && slots[i].Some? ==> |slots[i].value| <= MAX_BODY
    ensures var filled := slots[index := Some(body)]; None in filled ==> BoundedSlots(filled)
  {
    assert slots[index := Some(body)][index].Some?;
  }

  lemma PlaceBounded(table: Table, packet: Packet, fragment: Fragment)
    requires Bounded(table) && fragment.index < fragment.count
    requires 2 <= fragment.count <= MAX_FRAGMENT_COUNT && |fragment.body| <= MAX_BODY
    requires KeyOf(packet, fragment.messageId) in table || |table| < MAX_FRAGMENT_ASSEMBLIES
    ensures Bounded(Place(table, packet, fragment).0)
  {
    var key := KeyOf(packet, fragment.messageId);
    var slots: Slots := if key in table then table[key] else seq(fragment.count, _ => None);
    BoundedWithout(table, key);
    if |slots| == fragment.count {
      FillBounded(slots, fragment.index, fragment.body);
      if None in slots[fragment.index := Some(fragment.body)] {
        BoundedWith(table, key, slots[fragment.index := Some(fragment.body)]);
      }
    }
  }

  lemma BoundedWithout(table: Table, key: Key)
    requires Bounded(table)
    ensures Bounded(table - {key})
    ensures key in table ==> |table - {key}| < MAX_FRAGMENT_ASSEMBLIES
  {
  }

  lemma BoundedWith(table: Table, key: Key, slots: Slots)
    requires Bounded(table) && BoundedSlots(slots)
    requires key in table || |table| < MAX_FRAGMENT_ASSEMBLIES
    ensures Bounded(table[key := slots])
  {
  }

  /** Whatever decoded packet arrives, the table stays bounded, and what is rebuilt is a legal payload. */
  lemma StepBounded(table: Table, packet: Packet, victim: Key)
    requires Bounded(table) && |packet.payload| <= MAX_WIRE_DATAGRAM - 8
    requires Evicts(table, packet) ==> victim in table
    ensures var (next, outcome) := ReassembleStep(table, packet, victim);
      && Bounded(next)
      && (outcome.Delivered? ==>
            && outcome.packet == packet.(payload := outcome.packet.payload)
            && |outcome.packet.payload| <= MAX_DATAGRAM_PAYLOAD)
  {
    if FragmentIn(packet).Some? {
      BoundedWithout(table, victim);
      PlaceBounded(if Evicts(table, packet) then table - {victim} else table, packet, FragmentIn(packet).value);
    }
  }

  function SlotBytes(slots: Slots): nat {
    if slots == [] then 0
    else (match slots[0] case None => 0 case Some(body) => |body|) + SlotBytes(slots[1..])
  }

  function BufferedBytes(keys: seq<Key>, table: Table): nat
    requires forall k :: k in keys ==> k in table
  {
    if keys == [] then 0 else SlotBytes(table[keys[0]]) + BufferedBytes(keys[1..], table)
  }

  lemma {:induction false} SlotBytesBound(slots: Slots)
    requires forall i :: 0 <= i < |slots| && slots[i].Some? ==> |slots[i].value| <= MAX_BODY
    ensures SlotBytes(slots) <= MAX_BODY * (if None in slots then |slots| - 1 else |slots|)
  {
    if slots != [] {
      SlotBytesBound(slots[1..]);
      assert slots == [slots[0]] + slots[1..];
    }
  }

  /** However its assemblies are listed, a bounded table buffers at most 128 * 63 * 1,130 bytes. */
  lemma {:induction false} BufferBound(keys: seq<Key>, table: Table)
    requires Bounded(table) && NoRepeats(keys) && (forall k :: k in keys ==> k in table)
    ensures BufferedBytes(keys, table) <= |keys| * (MAX_FRAGMENT_COUNT - 1) * MAX_BODY
    ensures BufferedBytes(keys, table) <= MAX_FRAGMENT_ASSEMBLIES * (MAX_FRAGMENT_COUNT - 1) * MAX_BODY
  {
    if keys != [] {
      BufferBound(keys[1..], table);
      SlotBytesBound(table[keys[0]]);
    }
    DistinctCount(keys);
    assert (set k | k in keys) <= table.Keys;
    SubsetSize((set k | k in keys), table.Keys);
  }

  lemma DistinctCount<T>(s: seq<T>)
    requires NoRepeats(s)
    ensures |set x | x in s| == |s|
  {
    if s != [] {
      DistinctCount(s[1..]);
      assert (set x | x in s) == {s[0]} + (set x | x in s[1..]);
      assert s[0] !in s[1..];
    }
  }

  lemma SubsetSize<T>(a: set<T>, b: set<T>)
    requires a <= b
    ensures |a| <= |b|
  {
    if a != {} {
      var x :| x in a;
      SubsetSize(a - {x}, b - {x});
    }
  }

  // ---- The server's table: insertion order decides who is pushed out ---------------------------

  function Without<T(==)>(s: seq<T>, x: T): seq<T> {
    if s == [] then [] else if s[0] == x then s[1..] else [s[0]] + Without(s[1..], x)
  }

  /** A Python dict of assemblies: its contents and the order in which its keys were inserted. */
  datatype Ordered = Ordered(order: seq<Key>, table: Table) {
    ghost predicate Valid() {
      NoRepeats(order) && |order| == |table| && (forall k :: k in order <==> k in table)
    }

    function Oldest(): Key {
      if order == [] then Key(0, [], 0, 0) else order[0]
    }

    function Drop(key: Key): Ordered {
      Ordered(Without(order, key), table - {key})
    }

    function Append(key: Key, slots: Slots): Ordered {
      Ordered(order + [key], table[key := slots])
    }

    function Update(key: Key, slots: Slots): Ordered {
      Ordered(order, table[key := slots])
    }

    /** The state with an assembly of `count` slots for `key`; the oldest one makes room if it must. */
    function Open(key: Key, count: nat): Ordered {
      if key in table then this
      else (if |table| >= MAX_FRAGMENT_ASSEMBLIES then Drop(Oldest()) else this).Append(key, seq(count, _ => None))
    }
  }

  function ServerStep(state: Ordered, packet: Packet): (r: (Ordered, Outcome)) {
    if !HasMagic(packet.payload) then (state, Delivered(packet))
    else
      match ParseFragment(packet.payload)
      case None => (state, Rejected)
      case Some(fragment) =>
        var key := KeyOf(packet, fragment.messageId);
        ServerFill(state.Open(key, fragment.count), key, packet, fragment)
  }

  function ServerFill(state: Ordered, key: Key, packet: Packet, fragment: Fragment): (r: (Ordered, Outcome))
    requires key in state.table && fragment.index < fragment.count
  {
    if |state.table[key]| != fragment.count then (state.Drop(key), Rejected)
    else
      var filled := state.table[key][fragment.index := Some(fragment.body)];
      if None in filled then (state.Update(key, filled), Waiting)
      else if |Join(filled)| > MAX_DATAGRAM_PAYLOAD then (state.Drop(key), Rejected)
      else (state.Drop(key), Delivered(packet.(payload := Join(filled))))
  }

  /** The server is the reassembler that always pushes out the oldest assembly. */
  lemma ServerStepRefines(state: Ordered, packet: Packet)
    ensures var (next, outcome) := ServerStep(state, packet);
            (next.table, outcome) == ReassembleStep(state.table, packet, state.Oldest())
  {
    if FragmentIn(packet).Some? {
      var fragment := FragmentIn(packet).value;
      var key := KeyOf(packet, fragment.messageId);
      var entered := state.Open(key, fragment.count);
      var room := if Evicts(state.table, packet) then state.table - {state.Oldest()} else state.table;
      var slots: Slots := if key in room then room[key] else seq(fragment.count, _ => None);
      assert entered.table[key] == slots;
      if |slots| == fragment.count {
        var filled := slots[fragment.index := Some(fragment.body)];
        assert entered.table[key := filled] == room[key := filled];
        if key !in room {
          assert filled[if fragment.index == 0 then 1 else 0] == None;
        }
      }
    }
  }

  lemma WithoutMembers<T>(s: seq<T>, x: T)
    requires NoRepeats(s)
    ensures NoRepeats(Without(s, x))
    ensures forall y :: y in Without(s, x) <==> y in s && y != x
    ensures |Without(s, x)| == if x in s then |s| - 1 else |s|
  {
    if s != [] {
      assert s == [s[0]] + s[1..];
      if s[0] != x {
        WithoutMembers(s[1..], x);
        assert s[0] !in Without(s[1..], x);
      }
    }
  }

  lemma DropValid(state: Ordered, key: Key)
    requires state.Valid()
    ensures state.Drop(key).Valid()
  {
    WithoutMembers(state.order, key);
    assert state.Drop(key).table.Keys == state.table.Keys - {key};
  }

  lemma AppendValid(state: Ordered, key: Key, slots: Slots)
    requires state.Valid() && key !in state.table
    ensures state.Append(key, slots).Valid()
  {
  }

  lemma UpdateValid(state: Ordered, key: Key, slots: Slots)
    requires state.Valid() && key in state.table
    ensures state.Update(key, slots).Valid()
  {
  }

  lemma OpenValid(state: Ordered, key: Key, count: nat)
    requires state.Valid()
    ensures state.Open(key, count).Valid()
  {
    if key !in state.table {
      DropValid(state, state.Oldest());
      AppendValid(if |state.table| >= MAX_FRAGMENT_ASSEMBLIES then state.Drop(state.Oldest()) else state,
        key, seq(count, _ => None));
    }
  }

  lemma ServerFillValid(state: Ordered, key: Key, packet: Packet, fragment: Fragment)
    requires state.Valid() && key in state.table && fragment.index < fragment.count
    ensures ServerFill(state, key, packet, fragment).0.Valid()
  {
    var next := ServerFill(state, key, packet, fragment).0;
    if next == state.Drop(key) {
      DropValid(state, key);
    } else {
      UpdateValid(state, key, state.table[key][fragment.index := Some(fragment.body)]);
    }
  }

  lemma ServerStepValid(state: Ordered, packet: Packet)
    requires state.Valid()
    ensures ServerStep(state, packet).0.Valid()
  {
    if FragmentIn(packet).Some? {
      var fragment := FragmentIn(packet).value;
      var key := KeyOf(packet, fragment.messageId);
      OpenValid(state, key, fragment.count);
      ServerFillValid(state.Open(key, fragment.count), key, packet, fragment);
    }
  }

  /** The server's reassembler: a dict of slot lists, updated in place. */
  class ServerFragments {
    var order: seq<Key>
    var slots: Table

    ghost function State(): Ordered
      reads this
    {
      Ordered(order, slots)
    }

    constructor ()
      ensures State() == Ordered([], map[]) && State().Valid()
    {
      order, slots := [], map[];
    }

    method Remove(key: Key)
      modifies this
      ensures State() == old(State()).Drop(key)
    {
      order, slots := Without(order, key), slots - {key};
    }

    method Reassemble(packet: Packet) returns (outcome: Outcome)
      requires State().Valid()
      modifies this
      ensures (State(), outcome) == ServerStep(old(State()), packet)
      ensures State().Valid()
    {
      ServerStepValid(State(), packet);
      if !HasMagic(packet.payload) {
        return Delivered(packet);
      }
      var parsed := ParseFragment(packet.payload);
      if parsed.None? {
        return Rejected;
      }
      var fragment := parsed.value;
      var key := KeyOf(packet, fragment.messageId);
      if key !in slots {
        if |slots| >= MAX_FRAGMENT_ASSEMBLIES {
          Remove(order[0]);
        }
        order, slots := order + [key], slots[key := seq(fragment.count, _ => None)];
      }
      if |slots[key]| != fragment.count {
        Remove(key);
        return Rejected;
      }
      var filled := slots[key][fragment.index := Some(fragment.body)];
      if None in filled {
        slots := slots[key := filled];
        return Waiting;
      }
      Remove(key);
      var combined := Join(filled);
      if |combined| > MAX_DATAGRAM_PAYLOAD {
        return Rejected;
      }
      return Delivered(Packet(packet.flow, packet.host, packet.port, combined));
    }
  }

  /** The client's reassembler: a hash map, which pushes out whichever key its iterator meets first. */
  class ClientFragments {
    var slots: Table

    constructor ()
      ensures slots == map[]
    {
      slots := map[];
    }

    method Fill(packet: Packet, fragment: Fragment) returns (outcome: Outcome)
      requires fragment.index < fragment.count
      modifies this
      ensures (slots, outcome) == Place(old(slots), packet, fragment)
    {
      var key := KeyOf(packet, fragment.messageId);
      ghost var before := slots;
      if key !in slots {
        slots := slots[key := seq(fragment.count, _ => None)];
      }
      if |slots[key]| != fragment.count {
        slots := slots - {key};
        assert slots == before - {key};
        return Rejected;
      }
      var parts := slots[key][fragment.index := Some(fragment.body)];
      slots := slots[key := parts];
      assert slots == before[key := parts];
      if None in parts {
        return Waiting;
      }
      var combined := Join(parts);
      slots := slots - {key};
      assert slots == before - {key};
      if |combined| > MAX_DATAGRAM_PAYLOAD {
        return Rejected;
      }
      return Delivered(packet.(payload := combined));
    }

    method Reassemble(packet: Packet) returns (outcome: Outcome, ghost victim: Key)
      modifies this
      ensures (slots, outcome) == ReassembleStep(old(slots), packet, victim)
      ensures Evicts(old(slots), packet) ==> victim in old(slots)
    {
      victim := Key(0, [], 0, 0);
      if !HasMagic(packet.payload) {
        return Delivered(packet), victim;
      }
      var parsed := ParseFragment(packet.payload);
      if parsed.None? {
        return Rejected, victim;
      }
      if KeyOf(packet, parsed.value.messageId) !in slots && |slots| >= MAX_FRAGMENT_ASSEMBLIES {
        var first :| first in slots;
        victim, slots := first, slots - {first};
      }
      outcome := Fill(packet, parsed.value);
    }
  }
}
