/** A tunnelled TCP stream from one end to the other: all threads of the client's way up, the HTTP/3 stream as a
    reliable FIFO, and the server's tunnel. */
module EndToEnd {
  import opened Bytes
  import C = Upstream
  import S = ServerTunnel
  import T = StreamTask

  // ---- The two views of the client's task ------------------------------------------------------

  /** A turn of the pump that goes well, as a move of the session's task; a turn of the response is none. */
  function Move(e: C.Endpoint, turn: T.Turn): C.Endpoint {
    match turn
    case OutItem(_, _, _, _) => C.TaskMove(e, C.SendOne)
    case OutClosed(_) => C.TaskMove(e, C.SendersGone)
    case _ => e
  }

  function Moves(e: C.Endpoint, turns: seq<T.Turn>): C.Endpoint
    decreases |turns|
  {
    if turns == [] then e else Moves(Move(e, turns[0]), turns[1..])
  }

  /** Each turn takes what is next in the session's channel, or finds its senders gone. */
  predicate Serves(e: C.Endpoint, turns: seq<T.Turn>)
    decreases |turns|
  {
    turns != [] ==>
      && Serves(Move(e, turns[0]), turns[1..])
      && (e.outboundOpen ==>
            match turns[0]
            case OutItem(data, eof, _, _) => e.channel != [] && e.channel[0] == C.Item(data, eof)
            case OutClosed(_) => e.channel == [] && !e.registered
            case _ => true)
  }

  /** The pump and the session's task send the same bytes and end the stream at the same turn. */
  lemma {:induction false} SameTask(e: C.Endpoint, turns: seq<T.Turn>)
    requires e.task.Pumping? && Serves(e, turns)
    ensures var after := Moves(e, turns);
      && after.task.Pumping?
      && after.sent == e.sent + (if e.outboundOpen then T.Offered(turns) else [])
      && (after.outboundOpen <==> e.outboundOpen && T.Unfinished(turns))
    decreases |turns|
  {
    if turns != [] {
      SameTask(Move(e, turns[0]), turns[1..]);
      assert forall i :: 0 <= i < |turns[1..]| ==> turns[1..][i] == turns[i + 1];
      assert forall i :: 0 < i < |turns| ==> turns[i] == turns[1..][i - 1];
      if turns[0].OutItem? && e.outboundOpen {
        assert e.sent + turns[0].data + T.Offered(turns[1..]) == e.sent + (turns[0].data + T.Offered(turns[1..]));
      }
    }
  }

  // ---- The composed system ---------------------------------------------------------------------

  /** The client; the server's events so far; and, for each session's stream, how many of the bytes sent the
      server has been given. A stream carries the id of the session that opened it. */
  datatype State = State(client: C.System, past: seq<S.Event>, taken: map<nat, nat>)
  {
    function Server(): S.Connection {
      S.Reached(past)
    }

    function Taken(id: nat): nat {
      if id in taken then taken[id] else 0
    }
  }

  const START: State := State(C.START, [], map[])

  datatype Step =
    | Client(step: C.Step)
    | Serve(event: S.Event)                        // anything at the server but data
    | Deliver(id: nat, count: nat, ended: bool)    // the next bytes of a stream, perhaps with its end

  /** The client's task has asked for the stream. */
  predicate Requested(s: State, stream: int) {
    stream >= 0 && stream as nat in s.client.sessions && !s.client.sessions[stream as nat].task.NotStarted?
  }

  /** A stream delivers sent bytes in order, and its end when the client has ended it and nothing is left. */
  predicate Deliverable(s: State, id: nat, count: nat, ended: bool) {
    && id in s.client.sessions
    && var e := s.client.sessions[id];
       && s.Taken(id) + count <= |e.sent|
       && (ended ==> s.Taken(id) + count == |e.sent| && !e.outboundOpen)
  }

  function Chunk(s: State, id: nat, count: nat): seq<byte>
    requires Deliverable(s, id, count, false)
  {
    s.client.sessions[id].sent[s.Taken(id)..s.Taken(id) + count]
  }

  /** A step that is not possible in a state leaves it as it is. The client sees a 200 only after the server has
      begun that response. */
  function Next(s: State, step: Step): State {
    match step
    case Client(step) =>
      if step.Move? && step.step == C.GotStatus(true) && !S.Accepted(s.Server(), step.id) then s
      else s.(client := C.Next(s.client, step))
    case Serve(event) =>
      if event.Data? || (event.Open? && !Requested(s, event.stream)) then s else s.(past := s.past + [event])
    case Deliver(id, count, ended) =>
      if !Deliverable(s, id, count, ended) then s
      else State(s.client, s.past + [S.Data(id, Chunk(s, id, count), ended)], s.taken[id := s.Taken(id) + count])
  }

  function Reached(steps: seq<Step>): State {
    if steps == [] then START else Next(Reached(steps[..|steps| - 1]), steps[|steps| - 1])
  }

  // ---- What the client's steps do to one session -------------------------------------------------

  /** What a session has sent only grows, and not after its end; and it sends, or ends, only once its task has
      seen the 200. */
  predicate Progress(e: C.Endpoint, next: C.Endpoint) {
    && e.sent <= next.sent
    && (next.sent != e.sent || (e.outboundOpen && !next.outboundOpen) ==> e.task.Pumping?)
    && (!e.outboundOpen ==> !next.outboundOpen && next.sent == e.sent)
  }

  lemma MoveProgress(e: C.Endpoint, step: C.TaskStep)
    ensures Progress(e, C.TaskMove(e, step))
    ensures C.TaskMove(e, step).task.Pumping? ==> e.task.Pumping? || step == C.GotStatus(true)
  {
  }

  /** A session that has not started is open; one that has is not opened again. */
  predicate Fresh(e: C.Endpoint) {
    e.task.NotStarted? ==> e.outboundOpen
  }

  lemma DispatchProgress(e: C.Endpoint, ops: seq<C.Command>)
    requires ops != [] && C.Inv(e, ops, true) && Fresh(e)
    ensures var next := C.Dispatch(e, ops[0]);
      Progress(e, next) && Fresh(next) && (next.task.Pumping? ==> e.task.Pumping?)
  {
    C.PipelinePop(e, ops);
    if ops[0].OpenTcp? {
      assert C.OpenTcp in C.Pipeline(e, ops);
    }
  }

  /** The steps of queue, worker and session table touch nothing the stream sees. */
  predicate Quiet(e: C.Endpoint, next: C.Endpoint) {
    next.sent == e.sent && next.outboundOpen == e.outboundOpen && next.task == e.task
  }

  lemma QueueIsQuiet(e: C.Endpoint, c: C.Command, late: bool)
    ensures Quiet(e, C.Enqueue(e, c, late)) && Quiet(e, C.WorkerTake(e)) && Quiet(e, C.Remove(e))
    ensures Quiet(e, e.(hand := None))
  {
  }

  lemma DriveProgress(s: C.System, id: nat)
    requires C.AllOk(s) && id in s.sessions && Fresh(s.sessions[id])
    ensures id in C.Next(s, C.Drive).sessions
    ensures var e, next := s.sessions[id], C.Next(s, C.Drive).sessions[id];
      Progress(e, next) && Fresh(next) && (next.task.Pumping? ==> e.task.Pumping?)
  {
    if s.driver && s.ops != [] && s.ops[0].id == id {
      assert C.Mine(s.ops, id)[0] == s.ops[0].command;
      DispatchProgress(s.sessions[id], C.Mine(s.ops, id));
    }
  }

  lemma MoveStepProgress(s: C.System, step: C.Step, id: nat)
    requires step.Move? && id in s.sessions && Fresh(s.sessions[id])
    ensures id in C.Next(s, step).sessions
    ensures var e, next := s.sessions[id], C.Next(s, step).sessions[id];
      && Progress(e, next) && Fresh(next)
      && (next.task.Pumping? ==> e.task.Pumping? || step == C.Move(id, C.GotStatus(true)))
  {
    if step.id == id {
      MoveProgress(s.sessions[id], step.step);
      assert C.Next(s, step).sessions[id] == C.TaskMove(s.sessions[id], step.step);
    } else {
      assert C.Next(s, step).sessions[id] == s.sessions[id];
    }
  }

  lemma QuietStep(s: C.System, step: C.Step, id: nat)
    requires !step.Move? && !step.Drive? && id in s.sessions
    ensures id in C.Next(s, step).sessions && Quiet(s.sessions[id], C.Next(s, step).sessions[id])
  {
    var e := s.sessions[id];
    match step
    case Accept(_, c, late) => QueueIsQuiet(e, c, late);
    case _ => QueueIsQuiet(e, C.Other, false);
  }

  lemma ClientProgress(s: C.System, step: C.Step, id: nat)
    requires C.AllOk(s) && id in s.sessions && Fresh(s.sessions[id])
    ensures id in C.Next(s, step).sessions
    ensures var e, next := s.sessions[id], C.Next(s, step).sessions[id];
      && Progress(e, next) && Fresh(next)
      && (next.task.Pumping? ==> e.task.Pumping? || step == C.Move(id, C.GotStatus(true)))
  {
    match step
    case Drive => DriveProgress(s, id);
    case Move(_, _) => MoveStepProgress(s, step, id);
    case _ => QuietStep(s, step, id);
  }

  // ---- What the server's events do to one tunnel -------------------------------------------------

  /** A tunnel stays, keeps what it sent at its front, and does not come back into the table; it hears of the
      client's end only by data. */
  predicate Onward(c: S.Connection, next: S.Connection, stream: int) {
    && (c.lost ==> next.lost)
    && (S.Accepted(c, stream) ==> S.Accepted(next, stream))
    && (stream in c.tunnels ==> stream in next.tunnels && (next.tunnels[stream].inTable ==> c.tunnels[stream].inTable))
  }

  lemma TaskOnward(t: S.Tunnel, step: S.TaskStep)
    requires S.Inv(t) && S.Enabled(t, step)
    ensures var next := S.Advance(t, step);
      && (next.inTable ==> t.inTable) && next.inputEnded == t.inputEnded
      && (t.trace != [] ==> next.trace != [] && next.trace[0] == t.trace[0])
  {
    S.AdvanceLeaves(t, step);
  }

  lemma DataOnward(c: S.Connection, e: S.Event, stream: int)
    requires S.AllOk(c) && e.Data?
    ensures Onward(c, S.Next(c, e), stream)
  {
    if stream in c.tunnels && !c.lost {
      S.InputKeeps(c.tunnels[stream], e.data, e.ended);
    }
  }

  lemma ServerOnward(c: S.Connection, e: S.Event, stream: int)
    requires S.AllOk(c)
    ensures Onward(c, S.Next(c, e), stream)
    ensures stream in c.tunnels && !e.Data? ==>
        S.Next(c, e).tunnels[stream].inputEnded == c.tunnels[stream].inputEnded
  {
    match e
    case Open(_) =>
    case Data(_, _, _) => DataOnward(c, e, stream);
    case Task(other, step) =>
      if other == stream && stream in c.tunnels && S.Enabled(c.tunnels[stream], step) {
        TaskOnward(c.tunnels[stream], step);
      }
    case ConnectionLost =>
  }

  // ---- The invariant ---------------------------------------------------------------------------

  /** How one session and the tunnel of its stream stand to each other. */
  ghost predicate Linked(e: C.Endpoint, taken: nat, c: S.Connection, received: seq<byte>, stream: int) {
    && Fresh(e)
    && taken <= |e.sent|
    && (S.Accepted(c, stream) || (e.sent == [] && e.outboundOpen && !e.task.Pumping?))
    && received <= e.sent[..taken]
    && (stream in c.tunnels && c.tunnels[stream].inTable && !c.lost ==> received == e.sent[..taken])
    && (stream in c.tunnels && c.tunnels[stream].inputEnded ==> !e.outboundOpen && received == e.sent)
  }

  ghost predicate LinkedAt(s: State, id: nat) {
    if id in s.client.sessions then
      Linked(s.client.sessions[id], s.Taken(id), s.Server(), S.Received(s.past, id), id)
    else s.Taken(id) == 0 && id !in s.Server().tunnels
  }

  ghost predicate Inv(s: State) {
    && C.AllOk(s.client)
    && (forall id: nat :: LinkedAt(s, id))
    && (forall id: nat :: S.Patient(s.past, id))
  }

  lemma ProgressLinks(e: C.Endpoint, next: C.Endpoint, taken: nat, c: S.Connection, received: seq<byte>, stream: int)
    requires Linked(e, taken, c, received, stream) && Progress(e, next) && Fresh(next)
    requires next.task.Pumping? ==> e.task.Pumping? || S.Accepted(c, stream)
    ensures Linked(next, taken, c, received, stream)
  {
    assert next.sent[..taken] == e.sent[..taken];
  }

  lemma ClientKeeps(s: State, step: C.Step)
    requires Inv(s)
    ensures Inv(Next(s, Client(step)))
  {
    var next := Next(s, Client(step));
    C.StepKeeps(s.client, step);
    forall id: nat ensures LinkedAt(next, id) {
      assert LinkedAt(s, id);
      if id in s.client.sessions {
        if next.client != s.client {
          ClientProgress(s.client, step, id);
          ProgressLinks(s.client.sessions[id], next.client.sessions[id], s.Taken(id), s.Server(),
            S.Received(s.past, id), id);
        }
      } else {
        S.RunBalances(s.past, id);
        if id in next.client.sessions {
          assert next.client.sessions[id] == C.OPENED;
        }
      }
    }
  }

  lemma Appended(past: seq<S.Event>, e: S.Event, stream: int)
    ensures S.Reached(past + [e]) == S.Next(S.Reached(past), e)
    ensures S.Received(past + [e], stream)
         == S.Received(past, stream) + if S.Reaches(S.Reached(past), e, stream) then e.data else []
    ensures S.Patient(past, stream) && (S.Sends(e, stream) ==> S.Accepted(S.Reached(past), stream))
        ==> S.Patient(past + [e], stream)
  {
    var all := past + [e];
    assert all[..|past|] == past && all[|past|] == e;
    assert forall k :: 0 <= k < |past| ==> all[..k] == past[..k] && all[k] == past[k];
  }

  lemma ServeLinks(e: C.Endpoint, taken: nat, c: S.Connection, event: S.Event, received: seq<byte>, stream: int)
    requires S.AllOk(c) && Linked(e, taken, c, received, stream) && !event.Data?
    requires stream !in c.tunnels ==> received == []
    ensures Linked(e, taken, S.Next(c, event), received, stream)
  {
    ServerOnward(c, event, stream);
  }

  lemma ServeAt(s: State, event: S.Event, id: nat)
    requires S.AllOk(s.Server()) && LinkedAt(s, id) && S.Patient(s.past, id)
    requires !event.Data? && (event.Open? ==> Requested(s, event.stream))
    ensures LinkedAt(s.(past := s.past + [event]), id) && S.Patient(s.past + [event], id)
  {
    Appended(s.past, event, id);
    var received := S.Received(s.past, id);
    assert received + [] == received;
    if id in s.client.sessions {
      S.RunBalances(s.past, id);
      ServeLinks(s.client.sessions[id], s.Taken(id), s.Server(), event, received, id);
    }
  }

  lemma ServeKeeps(s: State, event: S.Event)
    requires Inv(s)
    ensures Inv(Next(s, Serve(event)))
  {
    var next := Next(s, Serve(event));
    if next != s {
      S.RunKeeps(s.past);
      forall id: nat ensures LinkedAt(next, id) && S.Patient(next.past, id) {
        ServeAt(s, event, id);
      }
    }
  }

  /** The next bytes of a session's own stream: what the server has received stays what the client sent. */
  lemma DeliverLinks(e: C.Endpoint, taken: nat, event: S.Event, c: S.Connection, received: seq<byte>,
      next: S.Connection, after: seq<byte>)
    requires S.AllOk(c) && event.Data? && Linked(e, taken, c, received, event.stream)
    requires taken + |event.data| <= |e.sent| && event.data == e.sent[taken..taken + |event.data|]
    requires event.ended ==> taken + |event.data| == |e.sent| && !e.outboundOpen
    requires next == S.Next(c, event)
    requires after == received + if S.Reaches(c, event, event.stream) then event.data else []
    ensures Linked(e, taken + |event.data|, next, after, event.stream)
  {
    ServerOnward(c, event, event.stream);
    assert e.sent[..taken] + event.data == e.sent[..taken + |event.data|];
    assert received + [] == received;
    assert e.sent[..|e.sent|] == e.sent;
    if event.stream in c.tunnels && !c.lost {
      S.InputKeeps(c.tunnels[event.stream], event.data, event.ended);
    }
  }

  /** Data of one stream leaves the others as they were. */
  lemma OtherStream(s: State, event: S.Event, taken: map<nat, nat>, other: nat)
    requires S.AllOk(s.Server()) && LinkedAt(s, other) && S.Patient(s.past, other)
    requires event.Data? && event.stream != other
    requires (other in taken <==> other in s.taken) && (other in taken ==> taken[other] == s.taken[other])
    ensures LinkedAt(State(s.client, s.past + [event], taken), other) && S.Patient(s.past + [event], other)
  {
    Appended(s.past, event, other);
    assert S.Next(s.Server(), event).lost == s.Server().lost;
    assert other in s.Server().tunnels ==> S.Next(s.Server(), event).tunnels[other] == s.Server().tunnels[other];
    assert S.Received(s.past, other) + [] == S.Received(s.past, other);
  }

  /** Bytes and ends are only delivered on a stream whose 200 the server has begun. */
  lemma DeliveredIsAccepted(s: State, id: nat, count: nat, ended: bool)
    requires LinkedAt(s, id) && Deliverable(s, id, count, ended)
    ensures S.Sends(S.Data(id, Chunk(s, id, count), ended), id) ==> S.Accepted(s.Server(), id)
  {
  }

  /** The delivery as the invariant sees it: the server takes one event, and the count grows. */
  lemma Delivered(s: State, id: nat, count: nat, ended: bool)
    requires Deliverable(s, id, count, ended)
    ensures var next, event := Next(s, Deliver(id, count, ended)), S.Data(id, Chunk(s, id, count), ended);
      && next.client == s.client && next.Taken(id) == s.Taken(id) + count
      && next.Server() == S.Next(s.Server(), event)
      && S.Received(next.past, id)
         == S.Received(s.past, id) + if S.Reaches(s.Server(), event, id) then event.data else []
  {
    Appended(s.past, S.Data(id, Chunk(s, id, count), ended), id);
  }

  lemma OwnStream(s: State, id: nat, count: nat, ended: bool)
    requires S.AllOk(s.Server()) && LinkedAt(s, id) && Deliverable(s, id, count, ended)
    ensures LinkedAt(Next(s, Deliver(id, count, ended)), id)
  {
    Delivered(s, id, count, ended);
    var next := Next(s, Deliver(id, count, ended));
    DeliverLinks(s.client.sessions[id], s.Taken(id), S.Data(id, Chunk(s, id, count), ended), s.Server(),
      S.Received(s.past, id), next.Server(), S.Received(next.past, id));
  }

  lemma DeliverKeeps(s: State, id: nat, count: nat, ended: bool)
    requires Inv(s)
    ensures Inv(Next(s, Deliver(id, count, ended)))
  {
    if Deliverable(s, id, count, ended) {
      var next := Next(s, Deliver(id, count, ended));
      S.RunKeeps(s.past);
      OwnStream(s, id, count, ended);
      DeliveredIsAccepted(s, id, count, ended);
      Appended(s.past, S.Data(id, Chunk(s, id, count), ended), id);
      forall other: nat ensures LinkedAt(next, other) && S.Patient(next.past, other) {
        if other != id {
          OtherStream(s, S.Data(id, Chunk(s, id, count), ended), next.taken, other);
        }
      }
    }
  }

  lemma StepKeeps(s: State, step: Step)
    requires Inv(s)
    ensures Inv(Next(s, step))
  {
    match step
    case Client(step) => ClientKeeps(s, step);
    case Serve(event) => ServeKeeps(s, event);
    case Deliver(id, count, ended) => DeliverKeeps(s, id, count, ended);
  }

  lemma {:induction false} RunKeeps(steps: seq<Step>)
    ensures Inv(Reached(steps))
  {
    if steps != [] {
      RunKeeps(steps[..|steps| - 1]);
      StepKeeps(Reached(steps[..|steps| - 1]), steps[|steps| - 1]);
    }
  }

  /** The real client is patient: that no byte and no end of a stream reaches the server before the 200 follows
      from how its task sends. */
  lemma ClientIsPatient(steps: seq<Step>, id: nat)
    ensures S.Patient(Reached(steps).past, id)
  {
    RunKeeps(steps);
  }

  /** From end to end, in every run of all threads at both ends and of the network between them: what the server
      writes upstream is a prefix of what the session accepted from its hook, through what the client sent; the
      end is passed on only when everything the client sent before ending the stream has been written; and the
      client gets a well-formed response. */
  lemma StreamFidelity(steps: seq<Step>, id: nat)
    requires id in Reached(steps).client.sessions && id in Reached(steps).Server().tunnels
    ensures var s := Reached(steps);
      var e, t := s.client.sessions[id], s.Server().tunnels[id];
      && t.written <= e.sent <= e.accepted
      && (t.eofWritten ==> t.written == e.sent && !e.outboundOpen)
      && S.TraceOk(t.trace)
  {
    RunKeeps(steps);
    var s := Reached(steps);
    assert LinkedAt(s, id);
    assert S.Patient(s.past, id);
    S.PatientClient(s.past, id);
    S.TunnelAccounting(s.past, id);
    S.RunKeeps(s.past);
    assert C.Inv(s.client.sessions[id], C.Mine(s.client.ops, id), s.client.driver);
    assert s.client.sessions[id].sent[..|s.client.sessions[id].sent|] == s.client.sessions[id].sent;
  }
}
