/** The server's side of a tunnelled TCP stream. Each step is the code between two awaits of the tunnel's
    task, or one event of the HTTP/3 connection. */
module ServerTunnel {
  import opened Bytes

  const MAX_PENDING_TCP_BYTES: nat := 1024 * 1024

  /** What the server sends on the stream. */
  datatype Out = Headers(code: int, fin: bool) | DataOut(bytes: seq<byte>) | Fin

  /** Created; awaiting the upstream connection; awaiting the flush of early data; awaiting upstream data; over. */
  datatype Phase = NotStarted | Connecting | Flushing | Reading | Done

  datatype Tunnel = Tunnel(
    inTable: bool,
    pending: seq<byte>,
    hasWriter: bool,
    inputEnded: bool,
    upstreamEof: bool,
    phase: Phase,            // the task
    cancelled: bool,         // the task's next step is its cancellation
    written: seq<byte>,      // given to the upstream writer
    eofWritten: bool,
    writerClosed: bool,
    trace: seq<Out>,         // sent to the client on this stream
    past: History)

  /** What happened to a tunnel, as far as its properties speak of it. */
  datatype History = History(
    received: seq<byte>,     // from the client, while in the table
    fetched: seq<byte>,      // read from upstream
    early: bool,             // the client sent data or its end before the 200
    neverRan: bool,          // the task was cancelled before its first step
    flushFailed: bool,       // the flush of early data failed
    lost: bool)              // the connection was lost while it was in the table

  const FRESH: Tunnel := Tunnel(true, [], false, false, false, NotStarted, false, [], false, false, [],
    History([], [], false, false, false, false))

  /** `_close_tcp`: out of the table, writer closed, and the task cancelled unless it is the caller. */
  function Close(t: Tunnel, byOwnTask: bool): Tunnel {
    if !t.inTable then t
    else t.(inTable := false, writerClosed := t.writerClosed || t.hasWriter,
            cancelled := t.cancelled || (!byOwnTask && !t.phase.Done?))
  }

  /** Early data beyond what a tunnel without a writer may hold. */
  predicate Overflows(t: Tunnel, data: seq<byte>) {
    data != [] && !t.hasWriter && |t.pending| + |data| > MAX_PENDING_TCP_BYTES
  }

  /** A data event of the stream. */
  function Input(t: Tunnel, data: seq<byte>, ended: bool): Tunnel {
    if !t.inTable then t
    else if Overflows(t, data) then Close(t, false)
    else
      var u := Buffered(t, data, ended);
      if ended then InputEnd(u) else u
  }

  /** The stream has ended: the end is passed on if upstream is connected, and closes the tunnel if
      upstream ended before. */
  function InputEnd(t: Tunnel): Tunnel {
    if t.upstreamEof then Close(Ended(t), false) else Ended(t)
  }

  function Ended(t: Tunnel): Tunnel {
    t.(inputEnded := true, eofWritten := t.eofWritten || t.hasWriter)
  }

  function Buffered(t: Tunnel, data: seq<byte>, ended: bool): Tunnel {
    var past := t.past.(received := t.past.received + data,
      early := t.past.early || ((data != [] || ended) && !t.phase.Reading? && !t.phase.Done?));
    if t.hasWriter then t.(written := t.written + data, past := past)
    else t.(pending := t.pending + data, past := past)
  }

  datatype TaskStep =
    | Start | Connected | ConnectFailed | Flushed | FlushFailed | Read(data: seq<byte>) | ReadEnd | ReadFailed
    | Abort   // a cancellation, or any other exception, at an await

  function Respond(t: Tunnel, out: Out): Tunnel {
    t.(trace := t.trace + [out])
  }

  /** The end of the task's `finally` clause. */
  function Finish(t: Tunnel, connected: bool, upstreamEof: bool): Tunnel {
    (if !connected || !upstreamEof || t.inputEnded then Close(t, true) else t).(phase := Done)
  }

  predicate Enabled(t: Tunnel, step: TaskStep) {
    match step
    case Start => t.phase.NotStarted? && !t.cancelled
    case Connected => t.phase.Connecting? && !t.cancelled
    case ConnectFailed => t.phase.Connecting? && !t.cancelled
    case Flushed => t.phase.Flushing? && !t.cancelled
    case FlushFailed => t.phase.Flushing? && !t.cancelled
    case Read(data) => t.phase.Reading? && !t.cancelled && data != []
    case ReadEnd => t.phase.Reading? && !t.cancelled
    case ReadFailed => t.phase.Reading? && !t.cancelled
    case Abort => !t.phase.Done? && (t.phase.NotStarted? ==> t.cancelled)
  }

  function Advance(t: Tunnel, step: TaskStep): Tunnel
    requires Enabled(t, step)
  {
    match step
    case Start => t.(phase := Connecting)
    case Connected =>
      var u := t.(hasWriter := true);
      if u.pending != [] then u.(written := u.written + u.pending, pending := [], phase := Flushing)
      else Respond(u, Headers(200, false)).(phase := Reading)
    case ConnectFailed => Finish(Respond(t, Headers(502, true)), false, false)
    case Flushed => Respond(t, Headers(200, false)).(phase := Reading)
    case FlushFailed => Finish(Respond(t, Fin), true, false).(past := t.past.(flushFailed := true))
    case Read(data) => Respond(t, DataOut(data)).(past := t.past.(fetched := t.past.fetched + data))
    case ReadEnd =>
      var u := Respond(t.(upstreamEof := true), Fin);
      Finish(if u.inputEnded then Close(u, true) else u, true, true)
    case ReadFailed => Finish(Respond(t, Fin), true, false)
    case Abort =>
      // a task that is cancelled before its first step never enters its try block
      if t.phase.NotStarted? then t.(phase := Done, past := t.past.(neverRan := true))
      else Finish(t, t.hasWriter, false)
  }

  /** The connection is lost: writers of the tunnels in the table are closed and their tasks cancelled. */
  function Lost(t: Tunnel): Tunnel {
    if !t.inTable then t
    else t.(writerClosed := t.writerClosed || t.hasWriter, cancelled := t.cancelled || !t.phase.Done?,
            past := t.past.(lost := true))
  }

  // ---- What every step keeps -----------------------------------------------------------------

  predicate AllData(outs: seq<Out>) {
    forall i :: 0 <= i < |outs| ==> outs[i].DataOut?
  }

  function TraceBytes(outs: seq<Out>): seq<byte> {
    if outs == [] then []
    else (match outs[0] case DataOut(bytes) => bytes case _ => []) + TraceBytes(outs[1..])
  }

  /** A response that has begun: 200, then data. */
  predicate OpenResponse(trace: seq<Out>) {
    trace != [] && trace[0] == Headers(200, false) && AllData(trace[1..])
  }

  /** Nothing yet, a refusal that ends the stream, or 200, data and perhaps the end, with nothing after it. */
  predicate TraceOk(trace: seq<Out>) {
    || trace == []
    || trace == [Headers(502, true)]
    || OpenResponse(trace)
    || (trace[|trace| - 1] == Fin && OpenResponse(trace[..|trace| - 1]))
  }

  /** Bytes: nothing the client sent is lost, repeated or reordered; early bytes are bounded and flushed. */
  predicate Accounted(t: Tunnel) {
    && t.written + t.pending == t.past.received
    && |t.pending| <= MAX_PENDING_TCP_BYTES
    && (t.hasWriter ==> t.pending == [])
    && (!t.hasWriter ==> t.written == [] && !t.eofWritten && !t.writerClosed)
    && (t.eofWritten ==> t.inputEnded)
    && (!t.past.early && t.hasWriter ==> t.eofWritten == t.inputEnded)
    && (t.hasWriter ==> !t.phase.NotStarted? && !t.phase.Connecting?)
    && (t.phase.Flushing? || t.phase.Reading? ==> t.hasWriter)
    && ((t.phase.NotStarted? || t.phase.Connecting?) && !t.past.early ==> t.past.received == [] && !t.inputEnded)
  }

  /** Responses follow the grammar; the one exception is a bare end after a failed flush. */
  predicate Answered(t: Tunnel) {
    && (t.phase.NotStarted? || t.phase.Connecting? || t.phase.Flushing? ==> t.trace == [] && !t.past.flushFailed)
    && (t.phase.Reading? ==> OpenResponse(t.trace) && !t.past.flushFailed)
    && (if t.past.flushFailed then t.trace == [Fin] && t.past.early else TraceOk(t.trace))
    && TraceBytes(t.trace) == t.past.fetched
    && (t.phase.Flushing? ==> t.past.early)
  }

  /** A tunnel leaves the table as soon as both directions are closed or its task is over, unless upstream
      ended first and the client may still send; or the task never ran. */
  predicate Tidy(t: Tunnel) {
    && (t.inTable ==> !(t.inputEnded && t.upstreamEof))
    && (t.upstreamEof ==> t.phase.Done?)
    && (t.past.neverRan ==> t.phase.Done?)
    && (t.inTable && t.phase.Done? && !t.past.neverRan ==> t.upstreamEof && !t.inputEnded)
    && (t.upstreamEof ==> t.hasWriter && !t.past.neverRan && (!t.inputEnded ==> t.inTable))
    && (!t.inTable && !t.phase.Done? ==> t.cancelled)
    && (t.hasWriter && !t.inTable ==> t.writerClosed)
    && (t.inTable && (t.cancelled || t.past.neverRan) ==> t.past.lost)
    && (t.past.lost && (t.phase.NotStarted? || t.past.neverRan) ==> t.inTable)
  }

  predicate Inv(t: Tunnel) {
    Accounted(t) && Answered(t) && Tidy(t)
  }

  /** A tunnel in the table that is about to be closed from outside its task. */
  predicate Closable(t: Tunnel) {
    (Tidy(t) && !t.upstreamEof) || (t.phase.Done? && t.upstreamEof && t.inputEnded && t.hasWriter && !t.past.neverRan)
  }

  lemma CloseKeeps(t: Tunnel)
    requires Accounted(t) && Answered(t) && !t.past.lost && (t.inTable ==> Closable(t))
    requires !t.inTable ==> Tidy(t)
    ensures Inv(Close(t, false))
  {
  }

  lemma BufferedKeeps(t: Tunnel, data: seq<byte>, ended: bool)
    requires Inv(t) && (t.hasWriter || |t.pending| + |data| <= MAX_PENDING_TCP_BYTES)
    ensures var u := Buffered(t, data, ended);
      Inv(u) && (ended && !u.phase.Done? && !u.phase.Reading? ==> u.past.early)
  {
  }

  lemma InputEndKeeps(t: Tunnel)
    requires Inv(t) && t.inTable && !t.past.lost && (!t.phase.Done? && !t.phase.Reading? ==> t.past.early)
    ensures Inv(InputEnd(t))
  {
  }

  lemma InputKeeps(t: Tunnel, data: seq<byte>, ended: bool)
    requires Inv(t) && !t.past.lost
    ensures var next := Input(t, data, ended);
      && Inv(next) && !next.past.lost && next.trace == t.trace && (next.inTable ==> t.inTable)
      && (next.inputEnded ==> t.inputEnded || (ended && t.inTable && !Overflows(t, data)))
    ensures t.phase.Reading? || t.phase.Done? || (data == [] && !ended) ==>
        Input(t, data, ended).past.early == t.past.early
  {
    if t.inTable {
      if Overflows(t, data) {
        CloseKeeps(t);
      } else {
        BufferedKeeps(t, data, ended);
        if ended {
          InputEndKeeps(Buffered(t, data, ended));
        }
      }
    }
  }

  lemma {:induction false} TraceGrows(trace: seq<Out>, out: Out)
    ensures TraceBytes(trace + [out]) == TraceBytes(trace) + match out case DataOut(bytes) => bytes case _ => []
  {
    if trace == [] {
      assert trace + [out] == [out] && [out][1..] == [];
    } else {
      var rest := trace[1..];
      assert (trace + [out])[0] == trace[0] && (trace + [out])[1..] == rest + [out];
      TraceGrows(rest, out);
      var first := match trace[0] case DataOut(bytes) => bytes case _ => [];
      var last := match out case DataOut(bytes) => bytes case _ => [];
      assert first + (TraceBytes(rest) + last) == first + TraceBytes(rest) + last;
    }
  }

  lemma OpenGrows(trace: seq<Out>, bytes: seq<byte>)
    requires OpenResponse(trace)
    ensures OpenResponse(trace + [DataOut(bytes)]) && TraceOk(trace + [Fin])
  {
  }

  /** What a step of the task leaves alone. */
  predicate Leaves(t: Tunnel, u: Tunnel) {
    && u.past.received == t.past.received && u.past.early == t.past.early && u.past.lost == t.past.lost
    && t.trace <= u.trace && u.inputEnded == t.inputEnded && (u.inTable ==> t.inTable)
  }

  lemma FinishLeaves(t: Tunnel, u: Tunnel, connected: bool, upstreamEof: bool)
    requires Leaves(t, u)
    ensures Leaves(t, Finish(u, connected, upstreamEof))
  {
  }

  lemma ReadEndLeaves(t: Tunnel)
    requires Enabled(t, ReadEnd)
    ensures Leaves(t, Advance(t, ReadEnd))
  {
    var u := Respond(t.(upstreamEof := true), Fin);
    FinishLeaves(t, if u.inputEnded then Close(u, true) else u, true, true);
  }

  lemma AdvanceLeaves(t: Tunnel, step: TaskStep)
    requires Enabled(t, step)
    ensures Leaves(t, Advance(t, step))
  {
    match step
    case ConnectFailed => FinishLeaves(t, Respond(t, Headers(502, true)), false, false);
    case FlushFailed => FinishLeaves(t, Respond(t, Fin), true, false);
    case ReadEnd => ReadEndLeaves(t);
    case ReadFailed => FinishLeaves(t, Respond(t, Fin), true, false);
    case Abort => FinishLeaves(t, t, t.hasWriter, false);
    case _ =>
  }

  lemma AdvanceKeeps(t: Tunnel, step: TaskStep)
    requires Inv(t) && Enabled(t, step)
    ensures Inv(Advance(t, step))
  {
    match step
    case Start =>
    case Connected => assert t.written + t.pending == t.pending + [];
    case ConnectFailed => TraceGrows(t.trace, Headers(502, true));
    case Flushed => TraceGrows(t.trace, Headers(200, false));
    case FlushFailed => TraceGrows(t.trace, Fin);
    case Read(data) =>
      TraceGrows(t.trace, DataOut(data));
      OpenGrows(t.trace, data);
    case ReadEnd =>
      TraceGrows(t.trace, Fin);
      OpenGrows(t.trace, []);
    case ReadFailed =>
      TraceGrows(t.trace, Fin);
      OpenGrows(t.trace, []);
    case Abort =>
  }

  lemma LostKeeps(t: Tunnel)
    requires Inv(t)
    ensures Inv(Lost(t))
  {
  }

  // ---- The connection ------------------------------------------------------------------------

  /** All tunnels a connection ever opened, by stream, and whether the connection is lost. */
  datatype Connection = Connection(tunnels: map<int, Tunnel>, lost: bool)

  const START: Connection := Connection(map[], false)

  datatype Event =
    | Open(stream: int)
    | Data(stream: int, data: seq<byte>, ended: bool)
    | Task(stream: int, step: TaskStep)
    | ConnectionLost

  /** An event that cannot happen leaves the connection as it is. A stream opens a tunnel once. */
  function Next(c: Connection, e: Event): Connection {
    match e
    case Open(stream) =>
      if c.lost || stream in c.tunnels then c else c.(tunnels := c.tunnels[stream := FRESH])
    case Data(stream, data, ended) =>
      if c.lost || stream !in c.tunnels then c
      else c.(tunnels := c.tunnels[stream := Input(c.tunnels[stream], data, ended)])
    case Task(stream, step) =>
      if stream !in c.tunnels || !Enabled(c.tunnels[stream], step) then c
      else c.(tunnels := c.tunnels[stream := Advance(c.tunnels[stream], step)])
    case ConnectionLost =>
      if c.lost then c else Connection(map s | s in c.tunnels :: Lost(c.tunnels[s]), true)
  }

  ghost predicate AllOk(c: Connection) {
    forall s :: s in c.tunnels ==> Inv(c.tunnels[s]) && (c.tunnels[s].past.lost ==> c.lost)
  }

  lemma NextKeeps(c: Connection, e: Event)
    requires AllOk(c)
    ensures AllOk(Next(c, e))
  {
    match e
    case Open(stream) =>
    case Data(stream, data, ended) =>
      if stream in c.tunnels && !c.lost {
        InputKeeps(c.tunnels[stream], data, ended);
      }
    case Task(stream, step) =>
      if stream in c.tunnels && Enabled(c.tunnels[stream], step) {
        AdvanceKeeps(c.tunnels[stream], step);
        AdvanceLeaves(c.tunnels[stream], step);
      }
    case ConnectionLost =>
      forall s | s in c.tunnels ensures Inv(Lost(c.tunnels[s])) {
        LostKeeps(c.tunnels[s]);
      }
  }

  function Reached(events: seq<Event>): Connection {
    if events == [] then START else Next(Reached(events[..|events| - 1]), events[|events| - 1])
  }

  lemma {:induction false} RunKeeps(events: seq<Event>)
    ensures AllOk(Reached(events))
  {
    if events != [] {
      RunKeeps(events[..|events| - 1]);
      NextKeeps(Reached(events[..|events| - 1]), events[|events| - 1]);
    }
  }

  /** The connection hands the event's data to the tunnel of the stream. */
  predicate Reaches(c: Connection, e: Event, stream: int) {
    e.Data? && e.stream == stream && !c.lost && stream in c.tunnels && c.tunnels[stream].inTable
  }

  /** All data of the stream that came while its tunnel was in the table, in order. */
  function Received(events: seq<Event>, stream: int): seq<byte> {
    if events == [] then []
    else
      var n := |events| - 1;
      Received(events[..n], stream) + if Reaches(Reached(events[..n]), events[n], stream) then events[n].data else []
  }

  /** The early data that went beyond the limit, and closed the tunnel. */
  function Dropped(events: seq<Event>, stream: int): seq<byte> {
    if events == [] then []
    else
      var n := |events| - 1;
      var before := Reached(events[..n]);
      if Reaches(before, events[n], stream) && Overflows(before.tunnels[stream], events[n].data) then events[n].data
      else Dropped(events[..n], stream)
  }

  /** The data a tunnel has taken, with what was dropped, is what was received; and a tunnel that dropped data is
      out of the table and has no writer. */
  ghost predicate Balanced(c: Connection, received: seq<byte>, dropped: seq<byte>, stream: int) {
    if stream in c.tunnels then
      && c.tunnels[stream].past.received + dropped == received
      && (c.tunnels[stream].inTable || c.tunnels[stream].hasWriter ==> dropped == [])
    else received == [] && dropped == []
  }

  lemma InputBalances(t: Tunnel, data: seq<byte>, ended: bool, dropped: seq<byte>)
    requires Inv(t) && t.inTable && dropped == []
    ensures var (next, lost) := (Input(t, data, ended), if Overflows(t, data) then data else dropped);
      && next.past.received + lost == t.past.received + dropped + data
      && (next.inTable || next.hasWriter ==> lost == [])
  {
    if !Overflows(t, data) {
      assert (t.past.received + data) + [] == t.past.received + [] + data;
    }
  }

  lemma BalanceStep(c: Connection, e: Event, received: seq<byte>, dropped: seq<byte>, stream: int)
    requires AllOk(c) && Balanced(c, received, dropped, stream)
    ensures var more := if Reaches(c, e, stream) then e.data else [];
      var lost := if Reaches(c, e, stream) && Overflows(c.tunnels[stream], e.data) then e.data else dropped;
      Balanced(Next(c, e), received + more, lost, stream)
  {
    assert received + [] == received;
    if Reaches(c, e, stream) {
      InputBalances(c.tunnels[stream], e.data, e.ended, dropped);
    } else {
      OtherBalances(c, e, received, dropped, stream);
    }
  }

  /** A task finds its upstream only in the table. */
  lemma WriterStays(t: Tunnel, step: TaskStep)
    requires Tidy(t) && Enabled(t, step)
    ensures Advance(t, step).hasWriter ==> t.hasWriter || t.inTable
  {
  }

  lemma OtherBalances(c: Connection, e: Event, received: seq<byte>, dropped: seq<byte>, stream: int)
    requires AllOk(c) && Balanced(c, received, dropped, stream) && !Reaches(c, e, stream)
    ensures Balanced(Next(c, e), received, dropped, stream)
  {
    match e
    case Open(_) =>
    case Data(_, _, _) =>
    case Task(other, step) =>
      if other == stream && stream in c.tunnels && Enabled(c.tunnels[stream], step) {
        AdvanceLeaves(c.tunnels[stream], step);
        WriterStays(c.tunnels[stream], step);
      }
    case ConnectionLost =>
  }

  lemma {:induction false} RunBalances(events: seq<Event>, stream: int)
    ensures Balanced(Reached(events), Received(events, stream), Dropped(events, stream), stream)
  {
    if events != [] {
      var n := |events| - 1;
      RunBalances(events[..n], stream);
      RunKeeps(events[..n]);
      BalanceStep(Reached(events[..n]), events[n], Received(events[..n], stream), Dropped(events[..n], stream), stream);
    }
  }

  /** Accounting, in every run and for every tunnel: what was written upstream, then what is pending, then what
      was dropped is exactly the data of the stream's events, and only a tunnel that is out of the table and was
      never connected has dropped any; at most 1 MiB is pending, and nothing once upstream is connected. When
      the client sends nothing before the 200, the end of its data is passed on exactly when it was received. */
  lemma TunnelAccounting(events: seq<Event>, stream: int)
    requires stream in Reached(events).tunnels
    ensures var t := Reached(events).tunnels[stream];
      && t.written + t.pending + Dropped(events, stream) == Received(events, stream)
      && (t.inTable || t.hasWriter ==> Dropped(events, stream) == [])
      && |t.pending| <= MAX_PENDING_TCP_BYTES && (t.hasWriter ==> t.pending == [])
      && (t.eofWritten ==> t.inputEnded)
      && (t.hasWriter && !t.past.early ==> (t.eofWritten <==> t.inputEnded))
  {
    RunKeeps(events);
    RunBalances(events, stream);
  }

  /** No leftovers: no tunnel in the table has ended both ways; one whose task is over stays exactly when
      upstream ended first and the client may still send, or, if the task had not begun, exactly when the
      connection was lost; and out of the table the writer is closed and the task over or cancelled. */
  lemma NoLeftovers(events: seq<Event>, stream: int)
    requires stream in Reached(events).tunnels
    ensures var t := Reached(events).tunnels[stream];
      && !(t.inTable && t.inputEnded && t.upstreamEof)
      && (t.phase.Done? && !t.past.neverRan ==> (t.inTable <==> t.upstreamEof && !t.inputEnded))
      && (t.past.neverRan ==> (t.inTable <==> t.past.lost))
      && (!t.inTable ==> (t.hasWriter ==> t.writerClosed) && (t.phase.Done? || t.cancelled))
  {
    RunKeeps(events);
  }

  /** The exception happens: a connection lost before the tunnel's task took its first step cancels the task
      and leaves the tunnel in the table, though neither side has ended. */
  lemma LeftoverHappens(stream: int)
    ensures var t := Reached([Open(stream), ConnectionLost, Task(stream, Abort)]).tunnels;
      && stream in t && t[stream].phase.Done? && t[stream].past.neverRan
      && t[stream].inTable && !t[stream].upstreamEof && !t[stream].inputEnded
  {
    var events := [Open(stream), ConnectionLost, Task(stream, Abort)];
    assert events[..2] == [Open(stream), ConnectionLost] && events[..2][..1] == [Open(stream)];
    assert Reached([Open(stream)]) == Connection(map[stream := FRESH], false);
    assert Reached(events[..2]).tunnels == map[stream := Lost(FRESH)];
  }

  /** Trace grammar: what the server sends on a stream is a prefix of 200 DATA* FIN or 502 with FIN, and
      carries exactly the bytes read from upstream, unless the flush of early data failed: then, and only
      then, it is a bare end of stream. A client that waits for the 200 never sees that. */
  lemma ServerTrace(events: seq<Event>, stream: int)
    requires stream in Reached(events).tunnels
    ensures var t := Reached(events).tunnels[stream];
      && (TraceOk(t.trace) <==> !t.past.flushFailed)
      && (t.past.flushFailed ==> t.trace == [Fin] && t.past.early)
      && TraceBytes(t.trace) == t.past.fetched
  {
    RunKeeps(events);
  }

  /** The server has begun a 200 response on the stream. */
  predicate Accepted(c: Connection, stream: int) {
    stream in c.tunnels && c.tunnels[stream].trace != [] && c.tunnels[stream].trace[0] == Headers(200, false)
  }

  /** The event brings data of the stream, or its end. */
  predicate Sends(e: Event, stream: int) {
    e.Data? && e.stream == stream && (e.data != [] || e.ended)
  }

  /** The client sends nothing on the stream, neither data nor its end, before the 200: its task reads what it
      is to send only after the response. */
  predicate Patient(events: seq<Event>, stream: int) {
    forall k :: 0 <= k < |events| && Sends(events[k], stream) ==> Accepted(Reached(events[..k]), stream)
  }

  ghost predicate NeverEarly(c: Connection, stream: int) {
    stream in c.tunnels ==> !c.tunnels[stream].past.early
  }

  lemma PatientStep(c: Connection, e: Event, stream: int)
    requires AllOk(c) && NeverEarly(c, stream) && (Sends(e, stream) ==> Accepted(c, stream))
    ensures NeverEarly(Next(c, e), stream)
  {
    if stream in c.tunnels {
      var t := c.tunnels[stream];
      assert Answered(t);
      match e
      case Data(_, data, ended) =>
        if e.stream == stream {
          if !c.lost {
            InputKeeps(t, data, ended);
          }
        }
      case Task(_, step) =>
        if e.stream == stream && Enabled(t, step) {
          AdvanceLeaves(t, step);
        }
      case _ =>
    }
  }

  lemma {:induction false} PatientIsNeverEarly(events: seq<Event>, stream: int)
    requires Patient(events, stream)
    ensures NeverEarly(Reached(events), stream)
  {
    if events != [] {
      var n := |events| - 1;
      assert forall k :: 0 <= k < n ==> events[..n][..k] == events[..k] && events[..n][k] == events[k];
      PatientIsNeverEarly(events[..n], stream);
      RunKeeps(events[..n]);
      PatientStep(Reached(events[..n]), events[n], stream);
    }
  }

  /** Served by this server, the real client gets a well-formed response in every run, and once upstream is
      connected everything it sent, its end included, has been passed on. */
  lemma PatientClient(events: seq<Event>, stream: int)
    requires Patient(events, stream) && stream in Reached(events).tunnels
    ensures var t := Reached(events).tunnels[stream];
      && TraceOk(t.trace)
      && (t.hasWriter ==> t.written == Received(events, stream) && (t.eofWritten <==> t.inputEnded))
  {
    PatientIsNeverEarly(events, stream);
    RunKeeps(events);
    TunnelAccounting(events, stream);
    var t := Reached(events).tunnels[stream];
    assert t.written + [] + [] == t.written;
  }

  /** The grammar does fail: early data, a connection, and a failed flush leave a bare end of stream. */
  lemma BareEndHappens(data: seq<byte>)
    requires 0 < |data| <= MAX_PENDING_TCP_BYTES
    ensures var t1 := Input(FRESH, data, false);
      && Enabled(t1, Start) && Enabled(Advance(t1, Start), Connected)
      && var t2 := Advance(Advance(t1, Start), Connected);
         Enabled(t2, FlushFailed) && Advance(t2, FlushFailed).trace == [Fin] && !TraceOk([Fin])
  {
  }

  // ---- The objects ---------------------------------------------------------------------------

  /** The upstream writer, as far as the tunnel uses it. */
  datatype Writer = Writer(written: seq<byte>, eof: bool, closed: bool)

  /** A tunnel object, shared by the connection's table, the tunnel's task and the event handler. */
  class TcpTunnel {
    var pending: seq<byte>
    var writer: Option<Writer>
    var taskDone: bool
    var cancelled: bool
    var inputEnded: bool
    var upstreamEof: bool
    var sent: seq<Out>
    ghost var model: Tunnel

    /** The fields are those of the modelled tunnel. */
    ghost predicate Tied()
      reads this
    {
      && model.pending == pending && model.hasWriter == writer.Some? && model.phase.Done? == taskDone
      && model.cancelled == cancelled && model.inputEnded == inputEnded && model.upstreamEof == upstreamEof
      && model.trace == sent
      && (writer.Some? ==> writer.value == Writer(model.written, model.eofWritten, model.writerClosed))
    }

    ghost predicate Valid()
      reads this
    {
      Tied() && Inv(model)
    }

    /** Valid, and in the table of a live connection. */
    ghost predicate Listed()
      reads this
    {
      Valid() && model.inTable && !model.past.lost
    }

    constructor ()
      ensures Valid() && model == FRESH
    {
      pending, writer, taskDone, cancelled, inputEnded, upstreamEof, sent := [], None, false, false, false, false, [];
      model := FRESH;
    }

    /** The task, once upstream is connected: early data goes first, or else the 200. */
    method Connect()
      requires Valid() && Enabled(model, Connected)
      modifies this
      ensures Valid() && model == Advance(old(model), Connected)
    {
      AdvanceKeeps(model, Connected);
      model := Advance(model, Connected);
      writer := Some(Writer([], false, false));
      if pending != [] {
        writer, pending := Some(writer.value.(written := writer.value.written + pending)), [];
      } else {
        sent := sent + [Headers(200, false)];
      }
    }

    method Receive(data: seq<byte>, ended: bool)
      requires Valid() && (writer.Some? || |pending| + |data| <= MAX_PENDING_TCP_BYTES)
      modifies this
      ensures Tied()
      ensures model == if ended then Ended(Buffered(old(model), data, ended)) else Buffered(old(model), data, ended)
    {
      model := Buffered(model, data, ended);
      if data != [] {
        if writer.None? {
          pending := pending + data;
        } else {
          writer := Some(writer.value.(written := writer.value.written + data));
        }
      }
      if ended {
        model := Ended(model);
        inputEnded := true;
        if writer.Some? {
          writer := Some(writer.value.(eof := true));
        }
      }
    }

    /** Out of the table: the writer is closed and the task cancelled unless it is the caller. */
    method CloseOut(byOwnTask: bool)
      requires Tied() && model.inTable
      modifies this
      ensures Tied() && model == Close(old(model), byOwnTask)
    {
      ghost var was := model;
      model := Close(was, byOwnTask);
      assert model == was.(inTable := false, writerClosed := model.writerClosed, cancelled := model.cancelled);
      if writer.Some? {
        writer := Some(writer.value.(closed := true));
      }
      // cancelling a task that is over has no effect
      if !byOwnTask && !taskDone {
        cancelled := true;
      }
    }
  }

  /** The protocol object of one connection: its table of tunnels. */
  class DiscordHttp3Protocol {
    var tcp: map<int, TcpTunnel>

    /** The tunnels in the table are different objects. */
    ghost predicate Distinct()
      reads this
    {
      forall s, r :: s in tcp && r in tcp && s != r ==> tcp[s] != tcp[r]
    }

    ghost predicate Valid()
      reads this, tcp.Values
    {
      Distinct() && forall s :: s in tcp ==> tcp[s].Listed()
    }

    constructor ()
      ensures tcp == map[] && Valid()
    {
      tcp := map[];
    }

    method OpenTunnel(stream: int) returns (tunnel: TcpTunnel)
      requires Valid() && stream !in tcp
      modifies this
      ensures Valid() && fresh(tunnel) && tunnel.model == FRESH && tcp == old(tcp)[stream := tunnel]
    {
      tunnel := new TcpTunnel();
      tcp := tcp[stream := tunnel];
    }

    method CloseTcp(stream: int, byOwnTask: bool)
      requires Distinct() && (forall s :: s in tcp && s != stream ==> tcp[s].Listed())
      requires stream in tcp ==> tcp[stream].Tied() && tcp[stream].model.inTable
      modifies this, if stream in tcp then {tcp[stream]} else {}
      ensures Valid() && tcp == old(tcp) - {stream}
      ensures stream in old(tcp) ==>
        old(tcp[stream]).Tied() && old(tcp[stream]).model == Close(old(tcp[stream].model), byOwnTask)
    {
      if stream !in tcp {
        return;
      }
      var tunnel := tcp[stream];
      tcp := tcp - {stream};
      tunnel.CloseOut(byOwnTask);
    }

    /** A data event: the tunnel of the stream takes it, and leaves the table if it must. */
    method HandleData(stream: int, data: seq<byte>, ended: bool)
      requires Valid()
      modifies this, if stream in tcp then {tcp[stream]} else {}
      ensures Valid()
      ensures stream !in old(tcp) ==> tcp == old(tcp)
      ensures stream in old(tcp) ==>
        && old(tcp[stream]).Valid()
        && old(tcp[stream]).model == Input(old(tcp[stream].model), data, ended)
        && tcp == if old(tcp[stream]).model.inTable then old(tcp) else old(tcp) - {stream}
    {
      if stream !in tcp {
        return;
      }
      var tunnel := tcp[stream];
      InputKeeps(tunnel.model, data, ended);
      if data != [] && tunnel.writer.None? && |tunnel.pending| + |data| > MAX_PENDING_TCP_BYTES {
        CloseTcp(stream, false);
        return;
      }
      tunnel.Receive(data, ended);
      if ended && tunnel.upstreamEof {
        CloseTcp(stream, false);
      }
    }
  }
}
