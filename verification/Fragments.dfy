/** Cutting a large datagram into fragments that each fit one QUIC datagram. */
module Fragments {
  import opened Bytes
  import opened Wire

  const MAX_FRAGMENT_COUNT: nat := 64
  const FRAGMENT_HEADER_SIZE: nat := 12
  const FRAGMENT_MAGIC: seq<byte> := [0x44, 0x52, 0x46, 0x31]

  datatype FragmentError = OversizedPayload | NoRoomForPayload | TooManyFragments | DivisionByZero

  /** The header fields and the body of a fragment payload. */
  datatype Fragment = Fragment(messageId: int, index: nat, count: nat, body: seq<byte>)

  function FragmentPayload(messageId: int, index: nat, count: nat, body: seq<byte>): (payload: seq<byte>)
    requires index < count <= MAX_FRAGMENT_COUNT
    ensures |payload| == FRAGMENT_HEADER_SIZE + |body|
  {
    FRAGMENT_MAGIC + Be32(messageId % U32) + Be16(index) + Be16(count) + body
  }

  predicate HasMagic(payload: seq<byte>) {
    FRAGMENT_MAGIC <= payload
  }

  /** The fragment held by a payload with the magic, or None when its header is not acceptable. */
  function ParseFragment(payload: seq<byte>): (fragment: Option<Fragment>)
    requires HasMagic(payload)
  {
    if |payload| < FRAGMENT_HEADER_SIZE then None
    else
      var index, count := FromBe16(payload[8..10]), FromBe16(payload[10..12]);
      if !(1 < count <= MAX_FRAGMENT_COUNT) || index >= count then None
      else Some(Fragment(FromBe32(payload[4..8]), index, count, payload[FRAGMENT_HEADER_SIZE..]))
  }

  lemma ParseBuiltFragment(messageId: int, index: nat, count: nat, body: seq<byte>)
    requires 1 < count <= MAX_FRAGMENT_COUNT && index < count
    ensures var payload := FragmentPayload(messageId, index, count, body);
            HasMagic(payload) && ParseFragment(payload) == Some(Fragment(messageId % U32, index, count, body))
  {
    var payload := FragmentPayload(messageId, index, count, body);
    assert payload[4..8] == Be32(messageId % U32);
    assert payload[8..10] == Be16(index) && payload[10..12] == Be16(count);
    Be32RoundTrip(messageId % U32);
    Be16RoundTrip(index);
    Be16RoundTrip(count);
  }

  predicate FitsPlain(packet: Packet) {
    7 + |packet.host| + |packet.payload| <= MAX_WIRE_DATAGRAM
  }

  /** Room left for a body beside the envelope and the fragment header; not positive for a huge host. */
  function Room(packet: Packet): int {
    MAX_WIRE_DATAGRAM - 7 - |packet.host| - FRAGMENT_HEADER_SIZE
  }

  function FragmentsOf(packet: Packet, messageId: int, size: nat): (fragments: seq<Packet>)
    requires size > 0 && CeilDiv(|packet.payload|, size) <= MAX_FRAGMENT_COUNT
    ensures |fragments| == CeilDiv(|packet.payload|, size)
  {
    ChunksRebuild(packet.payload, size);
    var bodies := Chunks(packet.payload, size);
    seq(|bodies|, i requires 0 <= i < |bodies| =>
      packet.(payload := FragmentPayload(messageId, i, |bodies|, bodies[i])))
  }

  function ClientFragment(packet: Packet, messageId: int): Result<seq<Packet>, FragmentError> {
    if |packet.payload| > MAX_DATAGRAM_PAYLOAD then Err(OversizedPayload)
    else if FitsPlain(packet) then Ok([packet])
    else if MAX_WIRE_DATAGRAM < 7 + |packet.host| + FRAGMENT_HEADER_SIZE then Err(OversizedPayload)
    else if Room(packet) == 0 then Err(DivisionByZero)  // the source divides by the chunk size here
    else
      var count := CeilDiv(|packet.payload|, Room(packet));
      if !(2 <= count <= MAX_FRAGMENT_COUNT) then Err(OversizedPayload)
      else Ok(FragmentsOf(packet, messageId, Room(packet)))
  }

  function ServerFragment(packet: Packet, messageId: int): Result<seq<Packet>, FragmentError> {
    if |packet.payload| > MAX_DATAGRAM_PAYLOAD then Err(OversizedPayload)
    else if FitsPlain(packet) then Ok([packet])
    else if Room(packet) <= 0 then Err(NoRoomForPayload)
    else
      var count := CeilDiv(|packet.payload|, Room(packet));
      if !(1 < count <= MAX_FRAGMENT_COUNT) then Err(TooManyFragments)
      else Ok(FragmentsOf(packet, messageId, Room(packet)))
  }

  /** Fragment `index` carries the slice of the payload that starts `index` bodies in. */
  lemma FragmentAt(packet: Packet, messageId: int, size: nat, index: nat)
    requires size > 0 && index < CeilDiv(|packet.payload|, size) <= MAX_FRAGMENT_COUNT
    ensures 0 <= index * size <= |packet.payload|
    ensures FragmentsOf(packet, messageId, size)[index] == packet.(payload :=
              FragmentPayload(messageId, index, CeilDiv(|packet.payload|, size),
                Slice(packet.payload, index * size, index * size + size)))
  {
    ChunksRebuild(packet.payload, size);
    ChunkAt(packet.payload, size, index);
    assert (index + 1) * size == index * size + size;
  }

  /** The server appends one fragment per turn of a loop. */
  method FragmentDatagram(packet: Packet, messageId: int) returns (r: Result<seq<Packet>, FragmentError>)
    ensures r == ServerFragment(packet, messageId)
  {
    if |packet.payload| > MAX_DATAGRAM_PAYLOAD {
      return Err(OversizedPayload);
    }
    var plainSize := 7 + |packet.host| + |packet.payload|;
    if plainSize <= MAX_WIRE_DATAGRAM {
      return Ok([packet]);
    }
    var chunkSize := MAX_WIRE_DATAGRAM - 7 - |packet.host| - FRAGMENT_HEADER_SIZE;
    if chunkSize <= 0 {
      return Err(NoRoomForPayload);
    }
    var count := (|packet.payload| + chunkSize - 1) / chunkSize;
    if !(1 < count <= MAX_FRAGMENT_COUNT) {
      return Err(TooManyFragments);
    }
    ghost var all := FragmentsOf(packet, messageId, chunkSize);
    var fragments := [];
    for index := 0 to count
      invariant fragments == all[..index]
    {
      FragmentAt(packet, messageId, chunkSize, index);
      var start := index * chunkSize;
      var payload := FragmentPayload(messageId, index, count, Slice(packet.payload, start, start + chunkSize));
      var fragment := Packet(packet.flow, packet.host, packet.port, payload);
      assert fragment == all[index];
      fragments := fragments + [fragment];
    }
    assert all[..count] == all;
    return Ok(fragments);
  }

  // ---- What a split means --------------------------------------------------------------------

  /** The fragment bodies, in order. */
  function Bodies(fragments: seq<Packet>): seq<seq<byte>>
    requires forall f :: f in fragments ==> |f.payload| >= FRAGMENT_HEADER_SIZE
  {
    seq(|fragments|, i requires 0 <= i < |fragments| => fragments[i].payload[FRAGMENT_HEADER_SIZE..])
  }

  /** Fragment `i` of `fragments` carries a header that names its own place, and the sender's addressing. */
  ghost predicate WellNumbered(fragments: seq<Packet>, packet: Packet, messageId: int) {
    forall i :: 0 <= i < |fragments| ==>
      && fragments[i] == packet.(payload := fragments[i].payload)
      && HasMagic(fragments[i].payload) && FRAGMENT_HEADER_SIZE <= |fragments[i].payload|
      && ParseFragment(fragments[i].payload)
         == Some(Fragment(messageId % U32, i, |fragments|, fragments[i].payload[FRAGMENT_HEADER_SIZE..]))
  }

  /** A split above the plain size has 2 to 64 numbered fragments whose bodies, none empty, concatenate
      to the payload, and each fragment encodes within one datagram. */
  lemma SplitShape(packet: Packet, messageId: int)
    requires ClientFragment(packet, messageId).Ok? && !FitsPlain(packet)
    ensures var fragments := ClientFragment(packet, messageId).value;
      && 2 <= |fragments| <= MAX_FRAGMENT_COUNT
      && WellNumbered(fragments, packet, messageId)
      && Flatten(Bodies(fragments)) == packet.payload
      && (forall f :: f in fragments ==> FRAGMENT_HEADER_SIZE < |f.payload| && FitsPlain(f))
      && (forall f :: f in fragments ==> (Encodable(f) <==>
           0 <= packet.flow < U32 && 1 <= |packet.host| <= MAX_HOST_LEN && 1 <= packet.port < U16))
  {
    var fragments := ClientFragment(packet, messageId).value;
    var bodies := Chunks(packet.payload, Room(packet));
    ChunksRebuild(packet.payload, Room(packet));
    forall i | 0 <= i < |fragments|
      ensures HasMagic(fragments[i].payload)
      ensures fragments[i].payload[FRAGMENT_HEADER_SIZE..] == bodies[i]
      ensures ParseFragment(fragments[i].payload) == Some(Fragment(messageId % U32, i, |fragments|, bodies[i]))
    {
      ParseBuiltFragment(messageId, i, |bodies|, bodies[i]);
    }
    assert Bodies(fragments) == bodies;
  }

  /** A split succeeds exactly when the payload is legal and fits one datagram or 64 bodies. */
  lemma SplitSucceeds(packet: Packet, messageId: int)
    ensures ClientFragment(packet, messageId).Ok? <==>
      && |packet.payload| <= MAX_DATAGRAM_PAYLOAD
      && (FitsPlain(packet) || (Room(packet) > 0 && |packet.payload| <= MAX_FRAGMENT_COUNT * Room(packet)))
  {
    if |packet.payload| <= MAX_DATAGRAM_PAYLOAD && !FitsPlain(packet) && Room(packet) > 0 {
      CeilDivBound(|packet.payload|, Room(packet), MAX_FRAGMENT_COUNT);
      CeilDivBound(|packet.payload|, Room(packet), 1);
    }
  }

  /** Every legal payload can be sent to a given host exactly when the host text has at most 107 bytes:
      108 bytes refuse a payload of the largest size. */
  lemma HostLimit(host: seq<byte>, flow: int, port: int, messageId: int)
    requires 1 <= |host| <= MAX_HOST_LEN
    ensures (forall payload :: |payload| <= MAX_DATAGRAM_PAYLOAD
              ==> ClientFragment(Packet(flow, host, port, payload), messageId).Ok?)
            <==> |host| <= 107
  {
    forall payload: seq<byte> | |host| <= 107 && |payload| <= MAX_DATAGRAM_PAYLOAD
      ensures ClientFragment(Packet(flow, host, port, payload), messageId).Ok?
    {
      SplitSucceeds(Packet(flow, host, port, payload), messageId);
    }
    if |host| > 107 {
      var largest: seq<byte> := seq(MAX_DATAGRAM_PAYLOAD, _ => 0);
      SplitSucceeds(Packet(flow, host, port, largest), messageId);
      assert ClientFragment(Packet(flow, host, port, largest), messageId).Err?;
    }
  }

  /** The two ends split alike; they part only in how a refusal shows, and the client divides by
      zero exactly for a host text of 1,131 bytes with a payload that needs splitting. */
  lemma SplittersAgree(packet: Packet, messageId: int)
    ensures ClientFragment(packet, messageId).Ok? <==> ServerFragment(packet, messageId).Ok?
    ensures ClientFragment(packet, messageId).Ok? ==>
              ClientFragment(packet, messageId) == ServerFragment(packet, messageId)
    ensures ClientFragment(packet, messageId) == Err(DivisionByZero) <==>
              |packet.host| == 1131 && 12 < |packet.payload| <= MAX_DATAGRAM_PAYLOAD
  {
  }
}
