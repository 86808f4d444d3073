/** The client's UDP sender: flow registration, splitting, and the admission test that keeps room for
    voice in the connection's datagram buffer. */
module SendBuffer {
  import opened Bytes
  import opened Wire
  import opened Fragments

  const REALTIME_PAYLOAD_MAX: nat := 512
  const REALTIME_DATAGRAM_RESERVE: nat := 8 * 1024
  const DATAGRAM_SEND_BUFFER_SIZE: nat := 64 * 1024
  /** The most that packets other than realtime ones may ever hold. */
  const VIDEO_LIMIT: nat := DATAGRAM_SEND_BUFFER_SIZE - REALTIME_DATAGRAM_RESERVE

  predicate DatagramBatchFits(space: nat, wireLen: nat, realtime: bool) {
    realtime || space >= wireLen + REALTIME_DATAGRAM_RESERVE
  }

  /** A datagram waiting in the connection, and whether it belongs to a realtime packet. */
  datatype Waiting = Waiting(wire: seq<byte>, realtime: bool)

  function Total(queue: seq<Waiting>): nat {
    if queue == [] then 0 else |queue[0].wire| + Total(queue[1..])
  }

  /** Bytes waiting that belong to realtime packets, or to the others. */
  function BytesOf(queue: seq<Waiting>, realtime: bool): nat {
    if queue == [] then 0
    else (if queue[0].realtime == realtime then |queue[0].wire| else 0) + BytesOf(queue[1..], realtime)
  }

  /** The connection's datagram buffer, and how many datagrams it has pushed out unsent. */
  datatype Buffer = Buffer(queue: seq<Waiting>, displaced: nat) {
    function Space(): nat {
      if Total(queue) >= DATAGRAM_SEND_BUFFER_SIZE then 0 else DATAGRAM_SEND_BUFFER_SIZE - Total(queue)
    }

    /** The connection transmits from the front. */
    function Transmit(n: nat): Buffer {
      this.(queue := if n <= |queue| then queue[n..] else [])
    }

    /** While it is over-full the connection pushes out its oldest datagram. */
    function Trim(): Buffer
      decreases |queue|
    {
      if Total(queue) > DATAGRAM_SEND_BUFFER_SIZE then Buffer(queue[1..], displaced + 1).Trim() else this
    }

    function Push(d: Waiting): Buffer {
      var trimmed := Trim();
      trimmed.(queue := trimmed.queue + [d])
    }

    /** Pushes from `i` on; before each, the connection may have transmitted some datagrams. */
    function PushAll(batch: seq<Waiting>, i: nat, transmitted: nat -> nat): Buffer
      requires i <= |batch|
      decreases |batch| - i
    {
      if i == |batch| then this
      else Transmit(transmitted(i)).Push(batch[i]).PushAll(batch, i + 1, transmitted)
    }

    /** A batch goes in when the admission test lets it, as far as the connection takes it. */
    function Submit(batch: seq<Waiting>, realtime: bool, network: Network): Buffer {
      if DatagramBatchFits(Space(), Total(batch), realtime)
      then PushAll(Taken(batch, network), 0, network.transmitted)
      else this
    }
  }

  /** The connection during one send: what it transmits before each push, and how many datagrams it takes
      before it refuses one with an error. */
  datatype Network = Network(transmitted: nat -> nat, takes: nat)

  function Taken(batch: seq<Waiting>, network: Network): seq<Waiting> {
    if network.takes < |batch| then batch[..network.takes] else batch
  }

  predicate AllEncodable(fragments: seq<Packet>) {
    forall i :: 0 <= i < |fragments| ==> Encodable(fragments[i])
  }

  function WiresOf(fragments: seq<Packet>, realtime: bool): (batch: seq<Waiting>)
    requires AllEncodable(fragments)
    ensures |batch| == |fragments|
  {
    seq(|fragments|, i requires 0 <= i < |fragments| => Waiting(Envelope(fragments[i]), realtime))
  }

  /** What the sender gives the connection for a packet: its fragments, encoded; None when one is refused. */
  function BatchFor(packet: Packet, messageId: int): Option<seq<Waiting>> {
    match ClientFragment(packet, messageId)
    case Err(_) => None
    case Ok(fragments) =>
      if AllEncodable(fragments) then Some(WiresOf(fragments, |packet.payload| <= REALTIME_PAYLOAD_MAX)) else None
  }

  /** The client's encoder accepts a packet exactly when what crosses the wire is encodable. */
  lemma EncodesAlike(codec: TextCodec, packet: ClientPacket)
    requires packet.WellFormed()
    ensures ClientEncode(codec, packet).Ok? <==> Encodable(codec.OnWire(packet))
    ensures ClientEncode(codec, packet).Ok? ==> ClientEncode(codec, packet).value == Envelope(codec.OnWire(packet))
  {
  }

  lemma FragmentAddressing(packet: Packet, messageId: int)
    requires ClientFragment(packet, messageId).Ok?
    ensures forall i :: 0 <= i < |ClientFragment(packet, messageId).value| ==>
      var f := ClientFragment(packet, messageId).value[i]; f == packet.(payload := f.payload)
  {
  }

  /** The splitter divides by zero, which panics the thread that sends. */
  predicate Panics(packet: Packet, messageId: int) {
    ClientFragment(packet, messageId) == Err(DivisionByZero)
  }

  /** How a send ends: well, with an error, or in a panic. A packet the admission test keeps out is dropped
      without an error. */
  datatype Report = Sent | Failed | Panicked

  /** The parts of the client's transport that sending a UDP packet touches. */
  class UdpTransport {
    var flows: map<int, int>
    var nextMessageId: int
    var buffer: Buffer

    constructor ()
      ensures flows == map[] && nextMessageId == 1 && buffer == Buffer([], 0)
    {
      flows, nextMessageId, buffer := map[], 1, Buffer([], 0);
    }

    /** Registers the flow, takes a message id whether or not the packet can go, and submits the encoded
        fragments as one batch. */
    method SendUdp(codec: TextCodec, id: int, flow: int, host: seq<byte>, port: int, data: seq<byte>, network: Network)
      returns (report: Report)
      requires codec.Lawful() && 0 <= flow < U32 && 0 <= port < U16
      modifies this
      ensures flows == old(flows)[flow := id]
      ensures nextMessageId == (old(nextMessageId) + 1) % U32
      ensures var packet := codec.OnWire(ClientPacket(flow, codec.ParseHost(host), port, data));
              var realtime := |data| <= REALTIME_PAYLOAD_MAX;
              match BatchFor(packet, old(nextMessageId))
              case None =>
                buffer == old(buffer) && report == (if Panics(packet, old(nextMessageId)) then Panicked else Failed)
              case Some(batch) =>
                && buffer == old(buffer).Submit(batch, realtime, network)
                && (report == Failed <==>
                    DatagramBatchFits(old(buffer).Space(), Total(batch), realtime) && network.takes < |batch|)
                && report != Panicked
      ensures Sender(nextMessageId, buffer)
           == After(codec, Sender(old(nextMessageId), old(buffer)), Udp(flow, host, port, data, network))
    {
      flows := flows[flow := id];
      var packet := ClientPacket(flow, codec.ParseHost(host), port, data);
      var realtime := |packet.payload| <= REALTIME_PAYLOAD_MAX;
      var messageId := nextMessageId;
      nextMessageId := (nextMessageId + 1) % U32;
      CallIsSubmitted(codec, Sender(messageId, buffer), Udp(flow, host, port, data, network));
      var wires, panicked := MakeBatch(codec, packet, messageId, realtime);
      if wires.None? {
        return if panicked then Panicked else Failed;
      }
      report := SubmitBatch(wires.value, realtime, network);
    }

    /** The admission test, and the sends behind it. */
    method SubmitBatch(wires: seq<Waiting>, realtime: bool, network: Network) returns (report: Report)
      modifies this`buffer
      ensures buffer == old(buffer).Submit(wires, realtime, network)
      ensures report == if DatagramBatchFits(old(buffer).Space(), Total(wires), realtime) && network.takes < |wires|
                        then Failed else Sent
    {
      if !DatagramBatchFits(buffer.Space(), Total(wires), realtime) {
        return Sent;
      }
      PushEach(Taken(wires, network), network.transmitted);
      return if network.takes < |wires| then Failed else Sent;
    }

    method PushEach(wires: seq<Waiting>, transmitted: nat -> nat)
      modifies this`buffer
      ensures buffer == old(buffer).PushAll(wires, 0, transmitted)
    {
      for i := 0 to |wires|
        invariant buffer.PushAll(wires, i, transmitted) == old(buffer).PushAll(wires, 0, transmitted)
      {
        buffer := buffer.Transmit(transmitted(i)).Push(wires[i]);
      }
    }
  }

  /** Split a packet and encode its fragments. */
  method MakeBatch(codec: TextCodec, packet: ClientPacket, messageId: int, realtime: bool)
    returns (wires: Option<seq<Waiting>>, panicked: bool)
    requires packet.WellFormed() && realtime == (|packet.payload| <= REALTIME_PAYLOAD_MAX)
    ensures wires == BatchFor(codec.OnWire(packet), messageId)
    ensures panicked <==> Panics(codec.OnWire(packet), messageId)
  {
    var split := ClientFragment(codec.OnWire(packet), messageId);
    panicked := split == Err(DivisionByZero);
    if split.Err? {
      return None, panicked;
    }
    FragmentAddressing(codec.OnWire(packet), messageId);
    wires := EncodeAll(codec, packet, split.value, realtime);
  }

  /** Encode every fragment, or stop at the first one that is refused. */
  method EncodeAll(codec: TextCodec, packet: ClientPacket, fragments: seq<Packet>, realtime: bool)
    returns (wires: Option<seq<Waiting>>)
    requires packet.WellFormed()
    requires forall i :: 0 <= i < |fragments| ==> fragments[i] == codec.OnWire(packet.(payload := fragments[i].payload))
    ensures wires == if AllEncodable(fragments) then Some(WiresOf(fragments, realtime)) else None
  {
    var done: seq<Waiting> := [];
    for i := 0 to |fragments|
      invariant AllEncodable(fragments[..i]) && done == WiresOf(fragments[..i], realtime)
    {
      EncodesAlike(codec, packet.(payload := fragments[i].payload));
      var encoded := EncodeDatagram(codec, packet.(payload := fragments[i].payload));
      if encoded.Err? {
        return None;
      }
      done := done + [Waiting(encoded.value, realtime)];
    }
    assert fragments[..|fragments|] == fragments;
    return Some(done);
  }

  // ---- Sums ----------------------------------------------------------------------------------

  lemma SumsSplit(queue: seq<Waiting>)
    ensures Total(queue) == BytesOf(queue, true) + BytesOf(queue, false)
  {
  }

  lemma SumsAppend(a: seq<Waiting>, b: seq<Waiting>, realtime: bool)
    ensures Total(a + b) == Total(a) + Total(b)
    ensures BytesOf(a + b, realtime) == BytesOf(a, realtime) + BytesOf(b, realtime)
  {
    if a == [] {
      assert a + b == b;
    } else {
      SumsAppend(a[1..], b, realtime);
      assert (a + b)[1..] == a[1..] + b;
    }
  }

  lemma SumsDrop(queue: seq<Waiting>, n: nat, realtime: bool)
    requires n <= |queue|
    ensures Total(queue[n..]) <= Total(queue) && BytesOf(queue[n..], realtime) <= BytesOf(queue, realtime)
  {
    assert queue == queue[..n] + queue[n..];
    SumsAppend(queue[..n], queue[n..], realtime);
  }

  // ---- The reserve ---------------------------------------------------------------------------

  /** Trimming only drops datagrams from the front, one for each counted as displaced. */
  lemma {:induction false} TrimDrops(b: Buffer)
    ensures var dropped := b.Trim().displaced - b.displaced;
            0 <= dropped <= |b.queue| && b.Trim().queue == b.queue[dropped..]
    decreases |b.queue|
  {
    if Total(b.queue) > DATAGRAM_SEND_BUFFER_SIZE {
      TrimDrops(Buffer(b.queue[1..], b.displaced + 1));
      var rest := b.Trim().displaced - b.displaced - 1;
      assert b.queue[1..][rest..] == b.queue[rest + 1..];
    }
  }

  /** A push adds its own bytes and can only take away others. */
  lemma PushSums(b: Buffer, n: nat, d: Waiting, realtime: bool)
    ensures var next := b.Transmit(n).Push(d);
      && Total(next.queue) <= Total(b.queue) + |d.wire|
      && BytesOf(next.queue, realtime) <= BytesOf(b.queue, realtime) + (if d.realtime == realtime then |d.wire| else 0)
      && (Total(b.queue) <= DATAGRAM_SEND_BUFFER_SIZE ==> next == Buffer(b.Transmit(n).queue + [d], b.displaced))
  {
    var t := b.Transmit(n);
    SumsDrop(b.queue, if n <= |b.queue| then n else |b.queue|, realtime);
    TrimDrops(t);
    SumsDrop(t.queue, t.Trim().displaced - t.displaced, realtime);
    SumsAppend(t.Trim().queue, [d], realtime);
  }

  /** Realtime pushes never add to what the other packets hold. */
  lemma RealtimePushes(b: Buffer, batch: seq<Waiting>, i: nat, transmitted: nat -> nat)
    requires i <= |batch| && (forall d :: d in batch ==> d.realtime)
    ensures BytesOf(b.PushAll(batch, i, transmitted).queue, false) <= BytesOf(b.queue, false)
    decreases |batch| - i
  {
    if i < |batch| {
      PushSums(b, transmitted(i), batch[i], false);
      RealtimePushes(b.Transmit(transmitted(i)).Push(batch[i]), batch, i + 1, transmitted);
    }
  }

  /** An admitted video batch goes in whole, displaces nothing, and stays within the limit. */
  lemma VideoPushes(b: Buffer, batch: seq<Waiting>, i: nat, transmitted: nat -> nat) returns (sent: nat)
    requires i <= |batch| && Total(b.queue) + Total(batch[i..]) <= VIDEO_LIMIT
    ensures sent <= |b.queue + batch[i..]|
    ensures b.PushAll(batch, i, transmitted) == Buffer((b.queue + batch[i..])[sent..], b.displaced)
    ensures Total(b.PushAll(batch, i, transmitted).queue) <= VIDEO_LIMIT
    decreases |batch| - i
  {
    if i == |batch| {
      sent := 0;
      assert (b.queue + batch[i..])[0..] == b.queue;
    } else {
      var n := if transmitted(i) <= |b.queue| then transmitted(i) else |b.queue|;
      PushSums(b, transmitted(i), batch[i], false);
      var next := b.Transmit(transmitted(i)).Push(batch[i]);
      assert next == Buffer(b.queue[n..] + [batch[i]], b.displaced);
      assert batch[i..][1..] == batch[i + 1..];
      var rest := VideoPushes(next, batch, i + 1, transmitted);
      sent := n + rest;
      SkipBoth(b.queue, batch, i, n, rest);
    }
  }

  lemma SkipBoth<T>(queue: seq<T>, batch: seq<T>, i: nat, n: nat, rest: nat)
    requires i < |batch| && n <= |queue| && rest <= |queue[n..] + [batch[i]] + batch[i + 1..]|
    ensures (queue[n..] + [batch[i]] + batch[i + 1..])[rest..] == (queue + batch[i..])[n + rest..]
  {
  }

  /** What the client can do to the buffer: submit a packet's batch, or have the connection transmit. */
  datatype Event = Submitted(batch: seq<Waiting>, network: Network) | Transmitted(count: nat)

  function Apply(b: Buffer, e: Event): Buffer {
    match e
    case Submitted(batch, network) => b.Submit(batch, batch != [] && batch[0].realtime, network)
    case Transmitted(count) => b.Transmit(count)
  }

  /** The batches the sender makes: all of one kind, and a realtime one is a single datagram. */
  predicate FromSender(e: Event) {
    match e
    case Submitted(batch, _) =>
      && batch != [] && (forall d :: d in batch ==> d.realtime == batch[0].realtime)
      && (batch[0].realtime ==> |batch| == 1)
    case Transmitted(_) => true
  }

  /** A realtime packet is never split, so the sender's batches have that shape. */
  lemma SenderBatches(packet: Packet, messageId: int, network: Network)
    requires BatchFor(packet, messageId).Some?
    ensures var batch := BatchFor(packet, messageId).value;
      && FromSender(Submitted(batch, network))
      && batch[0].realtime == (|packet.payload| <= REALTIME_PAYLOAD_MAX)
      && (|packet.payload| <= REALTIME_PAYLOAD_MAX ==> Encodable(packet) && batch == [Waiting(Envelope(packet), true)])
  {
  }

  /** The bytes of packets other than realtime ones stay within the limit at every event. */
  lemma ReserveStep(b: Buffer, e: Event)
    requires FromSender(e) && BytesOf(b.queue, false) <= VIDEO_LIMIT
    ensures BytesOf(Apply(b, e).queue, false) <= VIDEO_LIMIT
    ensures BytesOf(b.queue, true) <= REALTIME_DATAGRAM_RESERVE ==> Apply(b, e).displaced == b.displaced
  {
    SumsSplit(b.queue);
    match e
    case Transmitted(count) =>
      SumsDrop(b.queue, if count <= |b.queue| then count else |b.queue|, false);
    case Submitted(batch, network) =>
      var taken := Taken(batch, network);
      assert forall d :: d in taken ==> d in batch;
      if batch[0].realtime {
        RealtimePushes(b, taken, 0, network.transmitted);
        if taken != [] {
          PushSums(b, network.transmitted(0), taken[0], false);
          assert b.PushAll(taken, 0, network.transmitted) == b.Transmit(network.transmitted(0)).Push(taken[0]);
        }
      } else if DatagramBatchFits(b.Space(), Total(batch), false) {
        TakenTotal(batch, network);
        var _ := VideoPushes(b, taken, 0, network.transmitted);
        SumsSplit(Apply(b, e).queue);
      }
  }

  lemma TakenTotal(batch: seq<Waiting>, network: Network)
    ensures Taken(batch, network)[0..] == Taken(batch, network) && Total(Taken(batch, network)) <= Total(batch)
  {
    if network.takes < |batch| {
      assert batch == batch[..network.takes] + batch[network.takes..];
      SumsAppend(batch[..network.takes], batch[network.takes..], true);
    }
  }

  function ApplyAll(b: Buffer, events: seq<Event>): Buffer
    decreases |events|
  {
    if events == [] then b else ApplyAll(Apply(b, events[0]), events[1..])
  }

  /** Realtime bytes stay within the reserve before every event of a run. */
  predicate VoiceWithinReserve(b: Buffer, events: seq<Event>)
    decreases |events|
  {
    events != [] ==>
      BytesOf(b.queue, true) <= REALTIME_DATAGRAM_RESERVE && VoiceWithinReserve(Apply(b, events[0]), events[1..])
  }

  /** Voice reserve: in every run, video never holds more than 57,344 of the 65,536 bytes; and as long as
      voice keeps to its 8,192, nothing is ever pushed out. */
  lemma {:induction false} VoiceReserve(b: Buffer, events: seq<Event>)
    requires (forall e :: e in events ==> FromSender(e)) && BytesOf(b.queue, false) <= VIDEO_LIMIT
    ensures BytesOf(ApplyAll(b, events).queue, false) <= VIDEO_LIMIT
    ensures VoiceWithinReserve(b, events) ==> ApplyAll(b, events).displaced == b.displaced
    decreases |events|
  {
    if events != [] {
      ReserveStep(b, events[0]);
      VoiceReserve(Apply(b, events[0]), events[1..]);
    }
  }

  /** A video batch is admitted whole or not at all: afterwards the buffer is unchanged, or it is the old
      queue followed by the whole batch, less what was transmitted from the front. Only a connection that
      refuses a datagram with an error leaves the batch in parts, those before the refused one. */
  lemma AllOrNothing(b: Buffer, batch: seq<Waiting>, network: Network)
    requires FromSender(Submitted(batch, network)) && !batch[0].realtime
    ensures var next := Apply(b, Submitted(batch, network));
      if DatagramBatchFits(b.Space(), Total(batch), false)
      then next.displaced == b.displaced
           && exists sent: nat :: sent <= |b.queue + Taken(batch, network)|
                && next.queue == (b.queue + Taken(batch, network))[sent..]
      else next == b
    ensures Taken(batch, network) == batch <==> network.takes >= |batch|
  {
    if DatagramBatchFits(b.Space(), Total(batch), false) {
      TakenTotal(batch, network);
      var sent := VideoPushes(b, Taken(batch, network), 0, network.transmitted);
    }
  }

  // ---- Runs of the sender ----------------------------------------------------------------------

  /** The sender's own state, and what happens to it: a packet to send, or the connection transmitting. */
  datatype Sender = Sender(nextMessageId: int, buffer: Buffer)

  datatype Call =
    | Udp(flow: int, host: seq<byte>, port: int, data: seq<byte>, network: Network)
    | Drained(count: nat)

  /** What a call does to the buffer, if anything: a packet that is refused or panics does nothing. */
  function EventOf(codec: TextCodec, messageId: int, call: Call): Option<Event> {
    match call
    case Drained(count) => Some(Transmitted(count))
    case Udp(flow, host, port, data, network) =>
      match BatchFor(codec.OnWire(ClientPacket(flow, codec.ParseHost(host), port, data)), messageId)
      case None => None
      case Some(batch) => Some(Submitted(batch, network))
  }

  function After(codec: TextCodec, s: Sender, call: Call): Sender {
    Sender(if call.Udp? then (s.nextMessageId + 1) % U32 else s.nextMessageId,
      match EventOf(codec, s.nextMessageId, call)
      case None => s.buffer
      case Some(e) => Apply(s.buffer, e))
  }

  function AfterAll(codec: TextCodec, s: Sender, calls: seq<Call>): Sender
    decreases |calls|
  {
    if calls == [] then s else AfterAll(codec, After(codec, s, calls[0]), calls[1..])
  }

  /** The events a run of calls amounts to. */
  function EventsOf(codec: TextCodec, messageId: int, calls: seq<Call>): seq<Event>
    decreases |calls|
  {
    if calls == [] then []
    else
      var rest := EventsOf(codec, if calls[0].Udp? then (messageId + 1) % U32 else messageId, calls[1..]);
      match EventOf(codec, messageId, calls[0])
      case None => rest
      case Some(e) => [e] + rest
  }

  /** The class of a send is that of its batch. */
  lemma CallIsSubmitted(codec: TextCodec, s: Sender, call: Call)
    requires call.Udp?
    ensures var packet := codec.OnWire(ClientPacket(call.flow, codec.ParseHost(call.host), call.port, call.data));
      After(codec, s, call).buffer ==
        match BatchFor(packet, s.nextMessageId)
        case None => s.buffer
        case Some(batch) => s.buffer.Submit(batch, |call.data| <= REALTIME_PAYLOAD_MAX, call.network)
  {
    var packet := codec.OnWire(ClientPacket(call.flow, codec.ParseHost(call.host), call.port, call.data));
    if BatchFor(packet, s.nextMessageId).Some? {
      SenderBatches(packet, s.nextMessageId, call.network);
    }
  }

  lemma CallsAreSenders(codec: TextCodec, messageId: int, call: Call)
    ensures EventOf(codec, messageId, call).Some? ==> FromSender(EventOf(codec, messageId, call).value)
  {
    if call.Udp? {
      var packet := codec.OnWire(ClientPacket(call.flow, codec.ParseHost(call.host), call.port, call.data));
      if BatchFor(packet, messageId).Some? {
        SenderBatches(packet, messageId, call.network);
      }
    }
  }

  /** A run of calls is a run of the sender's events. */
  lemma {:induction false} CallsAreEvents(codec: TextCodec, s: Sender, calls: seq<Call>)
    ensures var events := EventsOf(codec, s.nextMessageId, calls);
      && AfterAll(codec, s, calls).buffer == ApplyAll(s.buffer, events)
      && forall e :: e in events ==> FromSender(e)
    decreases |calls|
  {
    if calls != [] {
      CallsAreSenders(codec, s.nextMessageId, calls[0]);
      var next := After(codec, s, calls[0]);
      CallsAreEvents(codec, next, calls[1..]);
      var rest := EventsOf(codec, next.nextMessageId, calls[1..]);
      match EventOf(codec, s.nextMessageId, calls[0])
      case None =>
      case Some(e) => assert ([e] + rest)[1..] == rest;
    }
  }

  /** Voice reserve, for every run of sends: whatever packets the client is given to send from an empty buffer,
      video never holds more than 57,344 bytes, and nothing is pushed out while voice keeps to its 8,192. */
  lemma SendsKeepReserve(codec: TextCodec, calls: seq<Call>)
    ensures var start := Sender(1, Buffer([], 0));
      var buffer := AfterAll(codec, start, calls).buffer;
      && BytesOf(buffer.queue, false) <= VIDEO_LIMIT
      && (VoiceWithinReserve(start.buffer, EventsOf(codec, 1, calls)) ==> buffer.displaced == 0)
  {
    CallsAreEvents(codec, Sender(1, Buffer([], 0)), calls);
    VoiceReserve(Buffer([], 0), EventsOf(codec, 1, calls));
  }
}
