/** The way down of a tunnelled TCP stream: from what the server sends as its response, through the client's task, the
    transport driver, the dispatcher and the session's route, to the writer of the local connection. */
module Downstream {
  import opened Bytes
  import C = Upstream
  import E = EndToEnd
  import S = ServerTunnel
  import T = StreamTask

  // ---- State -----------------------------------------------------------------------------------

  datatype Tagged = Tagged(id: nat, event: T.Event)

  /** A local connection: the events its writer has still to take, and what the writer has done. */
  datatype Local = Local(queue: seq<T.Event>, written: seq<byte>, closed: bool, stopped: bool)

  datatype State = State(
    ends: E.State,               // the way up, and the server
    read: map<nat, nat>,         // response bytes each session's task has read
    ended: set<nat>,             // sessions whose task has read the end of the response
    pending: seq<Tagged>,        // the transport's events
    egress: seq<Tagged>,         // the egress queue, after the driver
    routes: set<nat>,
    locals: map<nat, Local>)

  const START: State := State(E.START, map[], {}, [], [], {}, map[])

  function Trace(ends: E.State, id: nat): seq<S.Out> {
    if id in ends.Server().tunnels then ends.Server().tunnels[id].trace else []
  }

  /** The bytes of the server's response so far. */
  function Response(ends: E.State, id: nat): seq<byte> {
    S.TraceBytes(Trace(ends, id))
  }

  predicate Finished(trace: seq<S.Out>) {
    trace != [] && trace[|trace| - 1] == S.Fin
  }

  function ReadBy(read: map<nat, nat>, id: nat): nat {
    if id in read then read[id] else 0
  }

  /** One session's part of a queue of tagged events. */
  function Mine(queue: seq<Tagged>, id: nat): seq<T.Event> {
    if queue == [] then []
    else (if queue[0].id == id then [queue[0].event] else []) + Mine(queue[1..], id)
  }

  predicate IsNotice(event: T.Event) {
    event.Status? || event.Error?
  }

  // ---- Steps -----------------------------------------------------------------------------------

  datatype Step =
    | Ends(step: E.Step)
    | Register(id: nat)                                  // the route, before the session is opened
    | Read(id: nat, count: nat)                          // the task reads response data
    | ReadEnd(id: nat)
    | Notice(id: nat, event: T.Event, direct: bool)      // a status or an error; `direct` if not by the transport
    | Forward                                            // the driver
    | Dispatch                                           // the dispatcher
    | DropRoute(id: nat)
    | Write(id: nat, done: bool, partly: nat)            // the writer takes its oldest event
    | StopWriter(id: nat)

  /** The session's task runs its pump. */
  predicate Pumping(s: State, id: nat) {
    id in s.ends.client.sessions && s.ends.client.sessions[id].task.Pumping? && id !in s.ended
  }

  /** What a writer does with its oldest event; a write that fails may have written a part. */
  function Take(l: Local, done: bool, partly: nat): Local
    requires l.queue != []
  {
    var rest := l.queue[1..];
    match l.queue[0]
    case Data(bytes) =>
      if done then l.(queue := rest, written := l.written + bytes)
      else
        var part := if partly <= |bytes| then bytes[..partly] else [];
        l.(queue := rest, written := l.written + part, stopped := true)
    case Eof => l.(queue := rest, closed := true, stopped := true)
    case Error => l.(queue := rest, stopped := true)
    case Status(_) => l.(queue := rest)
  }

  /** A step that is not possible in a state leaves it as it is. */
  function Next(s: State, step: Step): State {
    match step
    case Ends(step) => s.(ends := E.Next(s.ends, step))
    case Register(id) =>
      if id in s.locals || id in s.ends.client.sessions then s
      else s.(routes := s.routes + {id}, locals := s.locals[id := Local([], [], false, false)])
    case Read(id, count) =>
      var from := ReadBy(s.read, id);
      if !Pumping(s, id) || from + count > |Response(s.ends, id)| then s
      else s.(read := s.read[id := from + count],
              pending := s.pending + [Tagged(id, T.Data(Response(s.ends, id)[from..from + count]))])
    case ReadEnd(id) =>
      if !Pumping(s, id) || !Finished(Trace(s.ends, id)) || ReadBy(s.read, id) != |Response(s.ends, id)| then s
      else s.(ended := s.ended + {id}, pending := s.pending + [Tagged(id, T.Eof)])
    case Notice(id, event, direct) =>
      if id !in s.ends.client.sessions || !IsNotice(event) then s
      else if direct then s.(egress := s.egress + [Tagged(id, event)])
      else s.(pending := s.pending + [Tagged(id, event)])
    case Forward =>
      if s.pending == [] then s else s.(pending := s.pending[1..], egress := s.egress + [s.pending[0]])
    case Dispatch =>
      if s.egress == [] then s
      else
        var (id, event) := (s.egress[0].id, s.egress[0].event);
        s.(egress := s.egress[1..],
           locals := if id in s.routes && id in s.locals
                     then s.locals[id := s.locals[id].(queue := s.locals[id].queue + [event])] else s.locals)
    case DropRoute(id) => s.(routes := s.routes - {id})
    case Write(id, done, partly) =>
      if id !in s.locals || s.locals[id].stopped || s.locals[id].queue == [] then s
      else s.(locals := s.locals[id := Take(s.locals[id], done, partly)])
    case StopWriter(id) =>
      if id !in s.locals then s else s.(locals := s.locals[id := s.locals[id].(stopped := true)])
  }

  function Reached(steps: seq<Step>): State {
    if steps == [] then START else Next(Reached(steps[..|steps| - 1]), steps[|steps| - 1])
  }

  // ---- Sequences of events ---------------------------------------------------------------------

  lemma {:induction false} EventBytesConcat(a: seq<T.Event>, b: seq<T.Event>)
    ensures T.EventBytes(a + b) == T.EventBytes(a) + T.EventBytes(b)
  {
    if a == [] {
      assert a + b == b;
    } else {
      var first, rest := T.BytesIn(a[0]), a[1..];
      assert (a + b)[0] == a[0] && (a + b)[1..] == rest + b;
      EventBytesConcat(rest, b);
      Regroup(first, T.EventBytes(rest), T.EventBytes(b));
    }
  }

  lemma {:induction false} MineConcat(a: seq<Tagged>, b: seq<Tagged>, id: nat)
    ensures Mine(a + b, id) == Mine(a, id) + Mine(b, id)
  {
    if a == [] {
      assert a + b == b;
    } else {
      var first: seq<T.Event> := if a[0].id == id then [a[0].event] else [];
      var rest := a[1..];
      assert (a + b)[0] == a[0] && (a + b)[1..] == rest + b;
      MineConcat(rest, b, id);
      assert first + (Mine(rest, id) + Mine(b, id)) == first + Mine(rest, id) + Mine(b, id);
    }
  }

  lemma MineOne(x: Tagged, id: nat)
    ensures Mine([x], id) == if x.id == id then [x.event] else []
  {
    assert [x][1..] == [];
  }

  /** No data follows an end. */
  predicate EofLast(path: seq<T.Event>) {
    forall i, j :: 0 <= i < j < |path| && path[i].Eof? ==> !path[j].Data?
  }

  lemma {:induction false} NoDataNoBytes(events: seq<T.Event>)
    requires forall i :: 0 <= i < |events| ==> !events[i].Data?
    ensures T.EventBytes(events) == []
  {
    if events != [] {
      NoDataNoBytes(events[1..]);
    }
  }

  /** Behind an end there are no bytes. */
  lemma BytesBehindEof(a: seq<T.Event>, b: seq<T.Event>)
    requires T.Eof in a && EofLast(a + b)
    ensures T.EventBytes(a + b) == T.EventBytes(a)
  {
    var i :| 0 <= i < |a| && a[i] == T.Eof;
    forall j | 0 <= j < |b| ensures !b[j].Data? {
      assert (a + b)[i].Eof? && (a + b)[|a| + j] == b[j];
    }
    NoDataNoBytes(b);
    EventBytesConcat(a, b);
  }

  // ---- The invariant of one session --------------------------------------------------------------

  /** How a local connection stands to the response: `rest` is what is on its way to the route, `response` the bytes
      the server has sent, of which the task has read `taken`. */
  ghost predicate Flows(l: Local, rest: seq<T.Event>, routed: bool, response: seq<byte>, taken: nat, ended: bool,
    finished: bool)
  {
    && taken <= |response| && (ended ==> finished && taken == |response|)
    && EofLast(l.queue + rest) && (T.Eof in l.queue + rest ==> ended)
    && l.written <= response
    && (l.closed ==> l.stopped && finished && l.written == response)
    && (!l.stopped ==> l.written + T.EventBytes(l.queue) <= response[..taken])
    && (!l.stopped && routed ==> l.written + T.EventBytes(l.queue + rest) == response[..taken])
    && (!l.stopped && T.Eof in l.queue ==> l.written + T.EventBytes(l.queue) == response[..taken])
  }

  /** The response may grow until it is finished. */
  lemma ResponseGrows(l: Local, rest: seq<T.Event>, routed: bool, response: seq<byte>, taken: nat, ended: bool,
      finished: bool, more: seq<byte>, over: bool)
    requires Flows(l, rest, routed, response, taken, ended, finished)
    requires response <= more && (finished ==> over && more == response)
    ensures Flows(l, rest, routed, more, taken, ended, over)
  {
    assert more[..taken] == response[..taken];
  }

  /** The task reads more data. */
  lemma DataRead(l: Local, rest: seq<T.Event>, routed: bool, response: seq<byte>, taken: nat, finished: bool,
      bytes: seq<byte>, upTo: nat)
    requires Flows(l, rest, routed, response, taken, false, finished)
    requires taken <= upTo <= |response| && bytes == response[taken..upTo]
    ensures Flows(l, rest + [T.Data(bytes)], routed, response, upTo, false, finished)
  {
    var path := l.queue + rest;
    assert l.queue + (rest + [T.Data(bytes)]) == path + [T.Data(bytes)];
    T.EventBytesAppend(path, T.Data(bytes));
    assert response[..taken] + bytes == response[..upTo];
    assert l.written + (T.EventBytes(path) + bytes) == l.written + T.EventBytes(path) + bytes;
    assert T.Eof !in l.queue by {
      assert forall i :: 0 <= i < |l.queue| ==> path[i] == l.queue[i];
    }
  }

  /** The task reads the end. */
  lemma EndRead(l: Local, rest: seq<T.Event>, routed: bool, response: seq<byte>, taken: nat)
    requires Flows(l, rest, routed, response, taken, false, true) && taken == |response|
    ensures Flows(l, rest + [T.Eof], routed, response, taken, true, true)
  {
    var path := l.queue + rest;
    assert l.queue + (rest + [T.Eof]) == path + [T.Eof];
    T.EventBytesAppend(path, T.Eof);
    assert T.EventBytes(path) + [] == T.EventBytes(path);
  }

  /** `now` is `was` with a status or an error somewhere in it. */
  ghost predicate Noticed(was: seq<T.Event>, now: seq<T.Event>) {
    exists front, event, after ::
      was == front + after && now == front + ([event] + after) && IsNotice(event)
  }

  lemma NoticeBetween(front: seq<T.Event>, event: T.Event, after: seq<T.Event>)
    requires IsNotice(event)
    ensures Noticed(front + after, front + [event] + after)
  {
    assert front + [event] + after == front + ([event] + after);
  }

  /** A status or an error changes neither the bytes nor the end of what is on its way. */
  lemma NoticeInPath(front: seq<T.Event>, event: T.Event, after: seq<T.Event>)
    requires EofLast(front + after) && IsNotice(event)
    ensures EofLast(front + ([event] + after))
    ensures T.Eof in front + ([event] + after) ==> T.Eof in front + after
    ensures T.EventBytes(front + ([event] + after)) == T.EventBytes(front + after)
  {
    var was, now := front + after, front + ([event] + after);
    assert forall i :: 0 <= i < |now| && i != |front| ==> now[i] == was[if i < |front| then i else i - 1];
    assert now[|front|] == event;
    EventBytesConcat(front, after);
    EventBytesConcat(front, [event] + after);
    EventBytesConcat([event], after);
    NoDataNoBytes([event]);
    assert [] + T.EventBytes(after) == T.EventBytes(after);
  }

  lemma NoticeKeeps(l: Local, rest: seq<T.Event>, longer: seq<T.Event>, routed: bool, response: seq<byte>, taken: nat,
      ended: bool, finished: bool)
    requires Flows(l, rest, routed, response, taken, ended, finished) && Noticed(rest, longer)
    ensures Flows(l, longer, routed, response, taken, ended, finished)
  {
    var front, event, after :| rest == front + after && longer == front + ([event] + after) && IsNotice(event);
    var was, now := l.queue + rest, l.queue + longer;
    assert was == (l.queue + front) + after && now == (l.queue + front) + ([event] + after);
    NoticeInPath(l.queue + front, event, after);
  }

  /** The dispatcher hands the next event to the route. */
  lemma Routed(l: Local, event: T.Event, rest: seq<T.Event>, response: seq<byte>, taken: nat, ended: bool,
      finished: bool)
    requires Flows(l, [event] + rest, true, response, taken, ended, finished)
    ensures Flows(l.(queue := l.queue + [event]), rest, true, response, taken, ended, finished)
  {
    var queue := l.queue + [event];
    assert l.queue + ([event] + rest) == queue + rest;
    EventBytesConcat(queue, rest);
    var (now, later) := (T.EventBytes(queue), T.EventBytes(rest));
    assert l.written + (now + later) == l.written + now + later;
    if T.Eof in queue {
      BytesBehindEof(queue, rest);
    }
  }

  /** An event for a route that is gone is dropped. */
  lemma Dropped(l: Local, event: T.Event, rest: seq<T.Event>, response: seq<byte>, taken: nat, ended: bool,
      finished: bool)
    requires Flows(l, [event] + rest, false, response, taken, ended, finished)
    ensures Flows(l, rest, false, response, taken, ended, finished)
  {
    var longer := l.queue + ([event] + rest);
    var path := l.queue + rest;
    assert forall i :: 0 <= i < |path| ==> path[i] == longer[if i < |l.queue| then i else i + 1];
  }

  lemma Unrouted(l: Local, rest: seq<T.Event>, routed: bool, response: seq<byte>, taken: nat, ended: bool,
      finished: bool)
    requires Flows(l, rest, routed, response, taken, ended, finished)
    ensures Flows(l, rest, false, response, taken, ended, finished)
    ensures Flows(l.(stopped := true), rest, routed, response, taken, ended, finished)
  {
  }

  /** The writer writes data, whole or a part. */
  lemma DataTaken(l: Local, rest: seq<T.Event>, routed: bool, response: seq<byte>, taken: nat, ended: bool,
      finished: bool, done: bool, partly: nat)
    requires Flows(l, rest, routed, response, taken, ended, finished) && !l.stopped
    requires l.queue != [] && l.queue[0].Data?
    ensures Flows(Take(l, done, partly), rest, routed, response, taken, ended, finished)
  {
    var first, queue := l.queue[0], l.queue[1..];
    var bytes := first.bytes;
    assert l.queue + rest == [first] + (queue + rest) && (l.queue + rest)[1..] == queue + rest;
    PathShortens(first, queue, rest);
    assert l.written + (bytes + T.EventBytes(queue)) == l.written + bytes + T.EventBytes(queue);
    assert l.written + (bytes + T.EventBytes(queue + rest)) == l.written + bytes + T.EventBytes(queue + rest);
    assert l.written + bytes <= response[..taken];
    assert partly <= |bytes| ==> l.written + bytes[..partly] <= l.written + bytes;
  }

  /** The writer takes the end: everything is written then. */
  lemma EofTaken(l: Local, rest: seq<T.Event>, routed: bool, response: seq<byte>, taken: nat, ended: bool,
      finished: bool, done: bool, partly: nat)
    requires Flows(l, rest, routed, response, taken, ended, finished) && !l.stopped
    requires l.queue != [] && l.queue[0].Eof?
    ensures Flows(Take(l, done, partly), rest, routed, response, taken, ended, finished)
  {
    var queue := l.queue[1..];
    assert l.queue + rest == [T.Eof] + (queue + rest) && (l.queue + rest)[0] == T.Eof;
    PathShortens(T.Eof, queue, rest);
    EofIsLastTaken(queue, rest);
    assert T.Eof in l.queue && l.written + ([] + []) == l.written;
    assert response[..|response|] == response;
  }

  /** A status is passed over, an error stops the writer. */
  lemma NoticeTaken(l: Local, rest: seq<T.Event>, routed: bool, response: seq<byte>, taken: nat, ended: bool,
      finished: bool, done: bool, partly: nat)
    requires Flows(l, rest, routed, response, taken, ended, finished) && !l.stopped
    requires l.queue != [] && IsNotice(l.queue[0])
    ensures Flows(Take(l, done, partly), rest, routed, response, taken, ended, finished)
  {
    var first, queue := l.queue[0], l.queue[1..];
    assert l.queue + rest == [first] + (queue + rest) && (l.queue + rest)[1..] == queue + rest;
    PathShortens(first, queue, rest);
    assert [] + T.EventBytes(queue) == T.EventBytes(queue);
    assert [] + T.EventBytes(queue + rest) == T.EventBytes(queue + rest);
  }

  lemma PathShortens(first: T.Event, queue: seq<T.Event>, rest: seq<T.Event>)
    requires EofLast([first] + (queue + rest))
    ensures EofLast(queue + rest) && (T.Eof in queue + rest ==> T.Eof in [first] + (queue + rest))
  {
    var longer, path := [first] + (queue + rest), queue + rest;
    assert forall i :: 0 <= i < |path| ==> path[i] == longer[i + 1];
  }

  lemma EofIsLastTaken(queue: seq<T.Event>, rest: seq<T.Event>)
    requires EofLast([T.Eof] + (queue + rest))
    ensures T.EventBytes(queue) == []
  {
    var longer := [T.Eof] + (queue + rest);
    assert forall i :: 0 <= i < |queue| ==> queue[i] == longer[i + 1] && longer[0].Eof?;
    NoDataNoBytes(queue);
  }

  // ---- The response only grows -------------------------------------------------------------------

  lemma {:induction false} TraceBytesGrow(trace: seq<S.Out>, more: seq<S.Out>)
    requires trace <= more
    ensures S.TraceBytes(trace) <= S.TraceBytes(more)
  {
    if trace != [] {
      assert more[0] == trace[0] && trace[1..] <= more[1..];
      TraceBytesGrow(trace[1..], more[1..]);
    }
  }

  lemma FinishedIsDone(t: S.Tunnel)
    requires S.Inv(t) && Finished(t.trace)
    ensures t.phase.Done?
  {
  }

  function TraceOf(c: S.Connection, stream: int): seq<S.Out> {
    if stream in c.tunnels then c.tunnels[stream].trace else []
  }

  lemma StepTraces(t: S.Tunnel, step: S.TaskStep)
    requires S.Inv(t) && S.Enabled(t, step)
    ensures t.trace <= S.Advance(t, step).trace && !Finished(t.trace)
  {
    S.AdvanceLeaves(t, step);
    if Finished(t.trace) {
      FinishedIsDone(t);
      assert false;
    }
  }

  lemma EventTraces(c: S.Connection, e: S.Event, stream: int)
    requires S.AllOk(c)
    ensures TraceOf(c, stream) <= TraceOf(S.Next(c, e), stream)
    ensures Finished(TraceOf(c, stream)) ==> TraceOf(S.Next(c, e), stream) == TraceOf(c, stream)
  {
    match e
    case Open(_) =>
    case Data(_, data, ended) =>
      if stream in c.tunnels && !c.lost {
        S.InputKeeps(c.tunnels[stream], data, ended);
      }
    case Task(other, step) =>
      if other == stream && stream in c.tunnels && S.Enabled(c.tunnels[stream], step) {
        StepTraces(c.tunnels[stream], step);
      }
    case ConnectionLost =>
  }

  lemma EventGrows(past: seq<S.Event>, e: S.Event, stream: int)
    ensures var (was, now) := (TraceOf(S.Reached(past), stream), TraceOf(S.Reached(past + [e]), stream));
      S.TraceBytes(was) <= S.TraceBytes(now) && (Finished(was) ==> now == was)
  {
    S.RunKeeps(past);
    assert (past + [e])[..|past|] == past;
    EventTraces(S.Reached(past), e, stream);
    TraceBytesGrow(TraceOf(S.Reached(past), stream), TraceOf(S.Reached(past + [e]), stream));
  }

  /** A step at the two ends makes each response longer or leaves it, and a finished one as it is. */
  lemma EndsGrow(ends: E.State, step: E.Step, id: nat)
    ensures var next := E.Next(ends, step);
      && Response(ends, id) <= Response(next, id)
      && (Finished(Trace(ends, id)) ==> Finished(Trace(next, id)) && Response(next, id) == Response(ends, id))
  {
    var past := E.Next(ends, step).past;
    if past != ends.past {
      var event := past[|past| - 1];
      assert past == ends.past + [event] by {
        match step
        case Client(_) =>
        case Serve(_) =>
        case Deliver(_, _, _) =>
      }
      EventGrows(ends.past, event, id);
    }
  }

  // ---- The invariant of the system ---------------------------------------------------------------

  function Rest(s: State, id: nat): seq<T.Event> {
    Mine(s.egress, id) + Mine(s.pending, id)
  }

  ghost predicate FlowsAt(s: State, id: nat) {
    && (id in s.locals ==>
          Flows(s.locals[id], Rest(s, id), id in s.routes, Response(s.ends, id), ReadBy(s.read, id), id in s.ended,
            Finished(Trace(s.ends, id))))
    && (id !in s.ends.client.sessions ==>
          ReadBy(s.read, id) == 0 && id !in s.ended && Mine(s.egress, id) == [] && Mine(s.pending, id) == [])
  }

  ghost predicate Inv(s: State) {
    forall id: nat :: FlowsAt(s, id)
  }

  lemma EndsKeep(s: State, step: E.Step, id: nat)
    requires FlowsAt(s, id) && E.Inv(s.ends)
    ensures FlowsAt(Next(s, Ends(step)), id)
  {
    var next := Next(s, Ends(step));
    EndsGrow(s.ends, step, id);
    assert id in s.ends.client.sessions ==> id in next.ends.client.sessions by {
      if id in s.ends.client.sessions && step.Client? {
        assert E.LinkedAt(s.ends, id);
        E.ClientProgress(s.ends.client, step.step, id);
      }
    }
    if id in s.locals {
      ResponseGrows(s.locals[id], Rest(s, id), id in s.routes, Response(s.ends, id), ReadBy(s.read, id), id in s.ended,
        Finished(Trace(s.ends, id)), Response(next.ends, id), Finished(Trace(next.ends, id)));
    }
  }

  /** What a new event of the transport does to the events on their way. */
  lemma PendingRest(s: State, x: Tagged, id: nat)
    ensures Mine(s.pending + [x], id) == Mine(s.pending, id) + if x.id == id then [x.event] else []
    ensures x.id == id ==> Mine(s.egress, id) + Mine(s.pending + [x], id) == Rest(s, id) + [x.event]
    ensures x.id != id ==> Mine(s.egress, id) + Mine(s.pending + [x], id) == Rest(s, id)
  {
    MineConcat(s.pending, [x], id);
    MineOne(x, id);
  }

  lemma OwnRead(s: State, id: nat, bytes: seq<byte>, upTo: nat)
    requires FlowsAt(s, id) && Pumping(s, id)
    requires ReadBy(s.read, id) <= upTo <= |Response(s.ends, id)|
    requires bytes == Response(s.ends, id)[ReadBy(s.read, id)..upTo]
    ensures FlowsAt(s.(read := s.read[id := upTo], pending := s.pending + [Tagged(id, T.Data(bytes))]), id)
  {
    var next := s.(read := s.read[id := upTo], pending := s.pending + [Tagged(id, T.Data(bytes))]);
    PendingRest(s, Tagged(id, T.Data(bytes)), id);
    if id in s.locals {
      var rest, response, from := Rest(s, id), Response(s.ends, id), ReadBy(s.read, id);
      assert Rest(next, id) == rest + [T.Data(bytes)];
      DataRead(s.locals[id], rest, id in s.routes, response, from, Finished(Trace(s.ends, id)), bytes, upTo);
    }
  }

  lemma OtherRead(s: State, x: Tagged, upTo: nat, id: nat)
    requires FlowsAt(s, id) && x.id != id
    ensures FlowsAt(s.(read := s.read[x.id := upTo], pending := s.pending + [x]), id)
  {
    PendingRest(s, x, id);
  }

  lemma ReadKeeps(s: State, id: nat, count: nat, other: nat)
    requires FlowsAt(s, other)
    ensures FlowsAt(Next(s, Read(id, count)), other)
  {
    var from, response := ReadBy(s.read, id), Response(s.ends, id);
    if Pumping(s, id) && from + count <= |response| {
      var bytes := response[from..from + count];
      if other == id {
        OwnRead(s, id, bytes, from + count);
      } else {
        OtherRead(s, Tagged(id, T.Data(bytes)), from + count, other);
      }
    }
  }

  lemma ReadEndKeeps(s: State, id: nat, other: nat)
    requires FlowsAt(s, other)
    ensures FlowsAt(Next(s, ReadEnd(id)), other)
  {
    PendingRest(s, Tagged(id, T.Eof), other);
    if Pumping(s, id) && Finished(Trace(s.ends, id)) && ReadBy(s.read, id) == |Response(s.ends, id)| {
      if other == id && id in s.locals {
        EndRead(s.locals[id], Rest(s, id), id in s.routes, Response(s.ends, id), ReadBy(s.read, id));
      }
    }
  }

  /** What a notice put straight into the egress queue does to the events on their way. */
  lemma EgressRest(s: State, x: Tagged, id: nat)
    requires IsNotice(x.event)
    ensures x.id == id ==> Noticed(Rest(s, id), Mine(s.egress + [x], id) + Mine(s.pending, id))
    ensures x.id != id ==> Mine(s.egress + [x], id) == Mine(s.egress, id)
  {
    MineConcat(s.egress, [x], id);
    MineOne(x, id);
    if x.id == id {
      NoticeBetween(Mine(s.egress, id), x.event, Mine(s.pending, id));
    }
  }

  lemma DirectNotice(s: State, id: nat, event: T.Event, other: nat)
    requires FlowsAt(s, other)
    ensures FlowsAt(Next(s, Notice(id, event, true)), other)
  {
    if IsNotice(event) && id in s.ends.client.sessions {
      var next := Next(s, Notice(id, event, true));
      EgressRest(s, Tagged(id, event), other);
      if other == id && id in s.locals {
        NoticeKeeps(s.locals[id], Rest(s, id), Rest(next, id), id in s.routes, Response(s.ends, id), ReadBy(s.read, id),
          id in s.ended, Finished(Trace(s.ends, id)));
      }
    }
  }

  lemma TransportNotice(s: State, id: nat, event: T.Event, other: nat)
    requires FlowsAt(s, other)
    ensures FlowsAt(Next(s, Notice(id, event, false)), other)
  {
    if IsNotice(event) && id in s.ends.client.sessions {
      var next := Next(s, Notice(id, event, false));
      PendingRest(s, Tagged(id, event), other);
      if other == id && id in s.locals {
        assert Rest(s, id) == Rest(s, id) + [] && Rest(next, id) == Rest(s, id) + [event] + [];
        NoticeBetween(Rest(s, id), event, []);
        NoticeKeeps(s.locals[id], Rest(s, id), Rest(next, id), id in s.routes, Response(s.ends, id), ReadBy(s.read, id),
          id in s.ended, Finished(Trace(s.ends, id)));
      }
    }
  }

  lemma ForwardKeeps(s: State, id: nat)
    requires FlowsAt(s, id)
    ensures FlowsAt(Next(s, Forward), id)
  {
    if s.pending != [] {
      var x, rest := s.pending[0], s.pending[1..];
      assert s.pending == [x] + rest;
      MineConcat(s.egress, [x], id);
      MineConcat([x], rest, id);
      assert Mine(s.egress, id) + Mine([x], id) + Mine(rest, id) == Rest(s, id);
    }
  }

  lemma DispatchKeeps(s: State, id: nat)
    requires FlowsAt(s, id)
    ensures FlowsAt(Next(s, Dispatch), id)
  {
    if s.egress != [] {
      var x, left := s.egress[0], s.egress[1..];
      var rest := Mine(left, id) + Mine(s.pending, id);
      if x.id == id {
        assert Rest(s, id) == [x.event] + rest;
        if id in s.locals {
          if id in s.routes {
            Routed(s.locals[id], x.event, rest, Response(s.ends, id), ReadBy(s.read, id), id in s.ended,
              Finished(Trace(s.ends, id)));
          } else {
            Dropped(s.locals[id], x.event, rest, Response(s.ends, id), ReadBy(s.read, id), id in s.ended,
              Finished(Trace(s.ends, id)));
          }
        }
      } else {
        assert Rest(s, id) == rest;
      }
    }
  }

  lemma WriteKeeps(s: State, id: nat, done: bool, partly: nat, other: nat)
    requires FlowsAt(s, other)
    ensures FlowsAt(Next(s, Write(id, done, partly)), other)
  {
    if id == other && id in s.locals && !s.locals[id].stopped && s.locals[id].queue != [] {
      var l, rest, routed := s.locals[id], Rest(s, id), id in s.routes;
      var response, taken, ended, finished := Response(s.ends, id), ReadBy(s.read, id), id in s.ended,
                                              Finished(Trace(s.ends, id));
      match l.queue[0]
      case Data(_) => DataTaken(l, rest, routed, response, taken, ended, finished, done, partly);
      case Eof => EofTaken(l, rest, routed, response, taken, ended, finished, done, partly);
      case _ => NoticeTaken(l, rest, routed, response, taken, ended, finished, done, partly);
    }
  }

  lemma GoneKeeps(s: State, id: nat, other: nat)
    requires FlowsAt(s, other)
    ensures FlowsAt(Next(s, DropRoute(id)), other) && FlowsAt(Next(s, StopWriter(id)), other)
  {
    if id == other && id in s.locals {
      Unrouted(s.locals[id], Rest(s, id), id in s.routes, Response(s.ends, id), ReadBy(s.read, id), id in s.ended,
        Finished(Trace(s.ends, id)));
    }
  }

  lemma StepKeeps(s: State, step: Step, id: nat)
    requires FlowsAt(s, id) && E.Inv(s.ends)
    ensures FlowsAt(Next(s, step), id)
  {
    match step
    case Ends(step) => EndsKeep(s, step, id);
    case Register(_) =>
    case Read(other, count) => ReadKeeps(s, other, count, id);
    case ReadEnd(other) => ReadEndKeeps(s, other, id);
    case Notice(other, event, direct) =>
      if direct {
        DirectNotice(s, other, event, id);
      } else {
        TransportNotice(s, other, event, id);
      }
    case Forward => ForwardKeeps(s, id);
    case Dispatch => DispatchKeeps(s, id);
    case DropRoute(other) => GoneKeeps(s, other, id);
    case Write(other, done, partly) => WriteKeeps(s, other, done, partly, id);
    case StopWriter(other) => GoneKeeps(s, other, id);
  }

  lemma {:induction false} RunKeeps(steps: seq<Step>)
    ensures Inv(Reached(steps)) && E.Inv(Reached(steps).ends)
  {
    if steps != [] {
      var before, last := Reached(steps[..|steps| - 1]), steps[|steps| - 1];
      RunKeeps(steps[..|steps| - 1]);
      if last.Ends? {
        E.StepKeeps(before.ends, last.step);
      }
      forall id: nat ensures FlowsAt(Next(before, last), id) {
        StepKeeps(before, last, id);
      }
    }
  }

  /** From end to end on the way down, in every run of all threads: what the local client is written is a prefix of
      what the server read from the upstream host; nothing the task has read is lost while the route and the writer
      live; and the writer shuts the connection down for writing only when all of it has been written and the server
      has ended its response. */
  lemma StreamFidelity(steps: seq<Step>, id: nat)
    requires id in Reached(steps).locals && id in Reached(steps).ends.Server().tunnels
    ensures var s := Reached(steps);
      var l, t := s.locals[id], s.ends.Server().tunnels[id];
      && l.written <= t.past.fetched && ReadBy(s.read, id) <= |t.past.fetched|
      && (id in s.routes && !l.stopped ==>
            l.written + T.EventBytes(l.queue + Rest(s, id)) == t.past.fetched[..ReadBy(s.read, id)])
      && (l.closed ==> l.written == t.past.fetched && Finished(t.trace))
  {
    RunKeeps(steps);
    var s := Reached(steps);
    assert FlowsAt(s, id);
    S.ServerTrace(s.ends.past, id);
  }
}
