/** The client's way up for TCP bytes: a bounded session queue, a worker that moves commands to the
    transport driver's channel, the driver that feeds one channel per stream, and the stream task that
    sends on the HTTP/3 stream. */
module Upstream {
  import opened Bytes

  const QUEUE_CAPACITY: nat := 1024

  datatype Command = OpenTcp | SendTcp(data: seq<byte>, eof: bool) | Close | Other

  // ---- The session queue ---------------------------------------------------------------------

  datatype PushResult = Pushed | Full

  /** The queue between a hook and its session's worker: never waits, refuses when full. */
  class BoundedQueue {
    const capacity: nat
    var items: seq<Command>

    ghost predicate Valid()
      reads this
    {
      1 <= capacity && |items| <= capacity
    }

    constructor (capacity: nat)
      ensures Valid() && items == [] && this.capacity == if capacity < 1 then 1 else capacity
    {
      this.capacity := if capacity < 1 then 1 else capacity;
      items := [];
    }

    method TryPush(command: Command) returns (r: PushResult)
      requires Valid()
      modifies this
      ensures Valid()
      ensures r.Full? <==> |old(items)| == capacity
      ensures items == if r.Pushed? then old(items) + [command] else old(items)
    {
      if |items| >= capacity {
        return Full;
      }
      items := items + [command];
      return Pushed;
    }

    method TryRecv() returns (r: Option<Command>)
      requires Valid()
      modifies this
      ensures Valid()
      ensures match r case None => old(items) == [] && items == [] case Some(c) => old(items) == [c] + items
    {
      if items == [] {
        return None;
      }
      r, items := Some(items[0]), items[1..];
    }
  }

  // ---- One session, from its queue to its stream ---------------------------------------------

  datatype Item = Item(data: seq<byte>, eof: bool)

  /** Before `open_tcp`; waiting for the status; sending; returned. */
  datatype Task = NotStarted | AwaitingStatus | Pumping | Ended

  datatype Endpoint = Endpoint(
    known: bool,             // in the runtime's session table, so commands are accepted
    worker: bool,            // the worker thread runs
    queue: seq<Command>,     // the session queue
    hand: Option<Command>,   // taken from the queue, not yet passed on
    registered: bool,        // in the transport's stream map
    task: Task,
    outboundOpen: bool,
    channel: seq<Item>,      // the stream's channel
    sent: seq<byte>,         // what the task gave to the HTTP/3 stream
    accepted: seq<byte>)     // what `enqueue` accepted

  function Carried(c: Command): seq<byte> {
    match c case SendTcp(data, _) => data case _ => []
  }

  function Sends(commands: seq<Command>): seq<byte> {
    if commands == [] then [] else Carried(commands[0]) + Sends(commands[1..])
  }

  function ItemBytes(items: seq<Item>): seq<byte> {
    if items == [] then [] else items[0].data + ItemBytes(items[1..])
  }

  function HandSeq(hand: Option<Command>): seq<Command> {
    match hand case None => [] case Some(c) => [c]
  }

  /** Everything still on its way to the driver, oldest first: `ops` is the session's part of the ops channel. */
  function Pipeline(e: Endpoint, ops: seq<Command>): seq<Command> {
    ops + HandSeq(e.hand) + e.queue
  }

  /** `open_session`: a fresh session whose first command opens the stream. */
  const OPENED: Endpoint :=
    Endpoint(true, true, [OpenTcp], None, false, NotStarted, true, [], [], [])

  /** `Runtime::enqueue` of anything but the opening command. A hook that looked the session up just before
      it was removed still pushes to its queue, which is dropped with the worker. */
  function Enqueue(e: Endpoint, c: Command, late: bool): Endpoint {
    if !(e.known || late) || |e.queue| >= QUEUE_CAPACITY || c.OpenTcp? then e
    else e.(queue := if e.worker then e.queue + [c] else e.queue, accepted := e.accepted + Sends([c]))
  }

  /** The worker's turn: it stops once the session is closed, or takes the oldest command. */
  function WorkerTake(e: Endpoint): Endpoint {
    if !e.worker || e.hand.Some? then e
    else if !e.known then e.(worker := false, queue := [])
    else if e.queue == [] then e
    else e.(hand := Some(e.queue[0]), queue := e.queue[1..])
  }

  /** The op the worker passes on for the command in its hand. */
  function PassedOn(e: Endpoint): seq<Command> {
    match e.hand
    case Some(Other) => []
    case _ => HandSeq(e.hand)
  }

  /** `Runtime::close` after its close op: the session leaves the table. */
  function Remove(e: Endpoint): Endpoint {
    e.(known := false)
  }

  /** The driver applies one op. */
  function Dispatch(e: Endpoint, c: Command): Endpoint {
    match c
    case OpenTcp =>
      if e.registered then e else e.(registered := true, task := AwaitingStatus, outboundOpen := true, channel := [])
    case SendTcp(data, eof) =>
      if e.registered && !e.task.Ended? then e.(channel := e.channel + [Item(data, eof)]) else e
    case Close => e.(registered := false)
    case Other => e
  }

  datatype TaskStep = GotStatus(ok: bool) | SendOne | SendersGone | Fail(partly: nat) | Return

  /** The stream task's moves. An error may strike in the middle of an item. */
  function TaskMove(e: Endpoint, step: TaskStep): Endpoint {
    match step
    case GotStatus(ok) =>
      if e.task.AwaitingStatus? then (if ok then e.(task := Pumping) else e.(task := Ended, registered := false)) else e
    case SendOne =>
      if e.task.Pumping? && e.outboundOpen && e.channel != [] then
        e.(sent := e.sent + e.channel[0].data, channel := e.channel[1..], outboundOpen := !e.channel[0].eof)
      else e
    case SendersGone =>
      if e.task.Pumping? && e.outboundOpen && e.channel == [] && !e.registered then e.(outboundOpen := false) else e
    case Fail(partly) =>
      if e.task.AwaitingStatus? then e.(task := Ended, registered := false)
      else if e.task.Pumping? then
        e.(task := Ended, registered := false,
           sent := if e.outboundOpen && e.channel != [] && partly <= |e.channel[0].data|
                   then e.sent + e.channel[0].data[..partly] else e.sent)
      else e
    case Return => if e.task.Pumping? && !e.outboundOpen then e.(task := Ended, registered := false) else e
  }

  // ---- The invariant of one session ----------------------------------------------------------

  predicate NoOpen(commands: seq<Command>) {
    OpenTcp !in commands
  }

  /** The opening command is on its way, once, ahead of all data. */
  predicate AwaitsOpen(commands: seq<Command>) {
    commands != [] &&
      if commands[0].OpenTcp? then NoOpen(commands[1..])
      else !commands[0].SendTcp? && AwaitsOpen(commands[1..])
  }

  /** Bytes sent, then in the channel, then still on their way to the driver. */
  function InFlight(e: Endpoint, ops: seq<Command>): seq<byte> {
    e.sent + ItemBytes(e.channel) + Sends(Pipeline(e, ops))
  }

  predicate Idle(e: Endpoint) {
    (e.known ==> e.worker) && (!e.worker ==> e.hand.None? && e.queue == [])
  }

  /** What has reached the stream is a prefix of what was accepted, even when the driver is gone. */
  predicate Weak(e: Endpoint) {
    && Idle(e)
    && e.sent <= e.accepted
    && (e.task.NotStarted? ==> e.sent == [] && e.channel == [] && !e.registered)
    && (!e.task.Ended? ==> e.sent + ItemBytes(e.channel) <= e.accepted)
  }

  /** While the driver runs nothing is lost between the queue and a live stream. */
  predicate Strong(e: Endpoint, ops: seq<Command>) {
    var p := Pipeline(e, ops);
    match e.task
    case NotStarted => NoOpen(p) || (AwaitsOpen(p) && Tracks(e, ops))
    case Ended => NoOpen(p) && !e.registered
    case _ => NoOpen(p) && (e.registered ==> Tracks(e, ops))
  }

  predicate Tracks(e: Endpoint, ops: seq<Command>) {
    if e.worker then InFlight(e, ops) == e.accepted else InFlight(e, ops) <= e.accepted
  }

  predicate Inv(e: Endpoint, ops: seq<Command>, driver: bool) {
    Weak(e) && (driver ==> Strong(e, ops))
  }

  // ---- One session keeps its invariant -------------------------------------------------------

  lemma {:induction false} SendsAppend(a: seq<Command>, b: seq<Command>)
    ensures Sends(a + b) == Sends(a) + Sends(b)
  {
    if a == [] {
      assert a + b == b;
    } else {
      var rest := a[1..];
      assert (a + b)[0] == a[0] && (a + b)[1..] == rest + b;
      SendsAppend(rest, b);
      Regroup(Carried(a[0]), Sends(rest), Sends(b));
    }
  }

  lemma {:induction false} ItemBytesAppend(items: seq<Item>, item: Item)
    ensures ItemBytes(items + [item]) == ItemBytes(items) + item.data
  {
    if items == [] {
      assert items + [item] == [item];
    } else {
      var first, rest := items[0].data, items[1..];
      assert (items + [item])[0] == items[0] && (items + [item])[1..] == rest + [item];
      ItemBytesAppend(rest, item);
      assert first + (ItemBytes(rest) + item.data) == first + ItemBytes(rest) + item.data;
    }
  }

  lemma AwaitsAppend(a: seq<Command>, b: seq<Command>)
    requires AwaitsOpen(a) && NoOpen(b)
    ensures AwaitsOpen(a + b)
  {
    assert (a + b)[1..] == a[1..] + b;
    if !a[0].OpenTcp? {
      AwaitsAppend(a[1..], b);
    }
  }

  /** A queue cut off at the end leaves either the opening command still to come or nothing. */
  lemma AwaitsPrefix(a: seq<Command>, b: seq<Command>)
    requires AwaitsOpen(a + b)
    ensures NoOpen(a) || AwaitsOpen(a)
  {
    if a != [] {
      assert (a + b)[1..] == a[1..] + b;
      if !a[0].OpenTcp? {
        AwaitsPrefix(a[1..], b);
      }
    }
  }

  lemma EnqueueKeeps(e: Endpoint, ops: seq<Command>, driver: bool, c: Command, late: bool)
    requires Inv(e, ops, driver)
    ensures Inv(Enqueue(e, c, late), ops, driver)
  {
    var next := Enqueue(e, c, late);
    if next != e {
      var p := Pipeline(e, ops);
      assert Sends([c]) == Sends([c]) + [];
      if e.worker {
        assert Pipeline(next, ops) == p + [c];
        SendsAppend(p, [c]);
        assert e.sent + ItemBytes(e.channel) + (Sends(p) + Sends([c])) == InFlight(e, ops) + Sends([c]);
        if AwaitsOpen(p) {
          AwaitsAppend(p, [c]);
        }
      }
    }
  }

  lemma WorkerTakeKeeps(e: Endpoint, ops: seq<Command>, driver: bool)
    requires Inv(e, ops, driver)
    ensures Inv(WorkerTake(e), ops, driver)
  {
    var next := WorkerTake(e);
    if e.worker && !next.worker {
      assert Pipeline(e, ops) == Pipeline(next, ops) + e.queue;
      SendsAppend(Pipeline(next, ops), e.queue);
      if AwaitsOpen(Pipeline(e, ops)) {
        AwaitsPrefix(Pipeline(next, ops), e.queue);
      }
    } else if next != e {
      assert Pipeline(next, ops) == Pipeline(e, ops);
    }
  }

  lemma DropOther(a: seq<Command>, b: seq<Command>)
    ensures Sends(a + [Other] + b) == Sends(a + b)
    ensures NoOpen(a + [Other] + b) ==> NoOpen(a + b)
    ensures AwaitsOpen(a + [Other] + b) ==> AwaitsOpen(a + b)
  {
    if a == [] {
      assert a + [Other] + b == [Other] + b && a + b == b;
    } else {
      DropOther(a[1..], b);
      assert (a + [Other] + b)[1..] == a[1..] + [Other] + b && (a + b)[1..] == a[1..] + b;
    }
  }

  /** Passing a command on moves it from the worker's hand to the ops channel. */
  lemma WorkerPutKeeps(e: Endpoint, ops: seq<Command>, driver: bool)
    requires Inv(e, ops, driver)
    ensures Inv(e.(hand := None), ops + if driver then PassedOn(e) else [], driver)
  {
    if driver {
      var next := e.(hand := None);
      if e.hand == Some(Other) {
        assert Pipeline(e, ops) == ops + [Other] + e.queue;
        assert Pipeline(next, ops + []) == ops + e.queue;
        DropOther(ops, e.queue);
      } else {
        assert Pipeline(next, ops + HandSeq(e.hand)) == Pipeline(e, ops);
      }
    }
  }

  /** `Runtime::close` puts its close op into the channel, ahead of what the session still holds. */
  lemma CloseOpKeeps(e: Endpoint, ops: seq<Command>, driver: bool)
    requires Inv(e, ops, driver)
    ensures Inv(e, ops + [Close], driver)
  {
    var rest := HandSeq(e.hand) + e.queue;
    assert Pipeline(e, ops) == ops + rest && Pipeline(e, ops + [Close]) == ops + [Close] + rest;
    InsertClose(ops, rest);
  }

  lemma InsertClose(a: seq<Command>, b: seq<Command>)
    ensures Sends(a + [Close] + b) == Sends(a + b)
    ensures NoOpen(a + b) ==> NoOpen(a + [Close] + b)
    ensures AwaitsOpen(a + b) ==> AwaitsOpen(a + [Close] + b)
  {
    if a == [] {
      assert a + [Close] + b == [Close] + b && a + b == b;
      assert ([Close] + b)[1..] == b;
    } else {
      InsertClose(a[1..], b);
      assert (a + [Close] + b)[1..] == a[1..] + [Close] + b && (a + b)[1..] == a[1..] + b;
    }
  }

  lemma RemoveKeeps(e: Endpoint, ops: seq<Command>, driver: bool)
    requires Inv(e, ops, driver)
    ensures Inv(Remove(e), ops, driver)
  {
  }

  lemma PipelinePop(e: Endpoint, ops: seq<Command>)
    requires ops != []
    ensures Pipeline(e, ops)[0] == ops[0] && Pipeline(e, ops)[1..] == Pipeline(e, ops[1..])
  {
  }

  lemma DispatchOpenKeeps(e: Endpoint, ops: seq<Command>)
    requires ops != [] && ops[0].OpenTcp? && Inv(e, ops, true)
    ensures Inv(Dispatch(e, ops[0]), ops[1..], true)
  {
    PipelinePop(e, ops);
    assert OpenTcp in Pipeline(e, ops);
    var next := Dispatch(e, ops[0]);
    assert Pipeline(next, ops[1..]) == Pipeline(e, ops[1..]);
  }

  lemma DispatchSendKeeps(e: Endpoint, ops: seq<Command>)
    requires ops != [] && ops[0].SendTcp? && Inv(e, ops, true)
    ensures Inv(Dispatch(e, ops[0]), ops[1..], true)
  {
    PipelinePop(e, ops);
    var next := Dispatch(e, ops[0]);
    assert Pipeline(next, ops[1..]) == Pipeline(e, ops[1..]);
    if e.registered && !e.task.Ended? {
      ItemBytesAppend(e.channel, Item(ops[0].data, ops[0].eof));
      var rest := Sends(Pipeline(e, ops[1..]));
      assert e.sent + ItemBytes(e.channel) + (ops[0].data + rest)
          == e.sent + (ItemBytes(e.channel) + ops[0].data) + rest;
    }
  }

  lemma DispatchOtherKeeps(e: Endpoint, ops: seq<Command>)
    requires ops != [] && !ops[0].OpenTcp? && !ops[0].SendTcp? && Inv(e, ops, true)
    ensures Inv(Dispatch(e, ops[0]), ops[1..], true)
  {
    PipelinePop(e, ops);
    var next := Dispatch(e, ops[0]);
    assert Pipeline(next, ops[1..]) == Pipeline(e, ops[1..]);
    assert Sends(Pipeline(e, ops)) == Sends(Pipeline(e, ops[1..]));
  }

  lemma DispatchKeeps(e: Endpoint, ops: seq<Command>)
    requires ops != [] && Inv(e, ops, true)
    ensures Inv(Dispatch(e, ops[0]), ops[1..], true)
  {
    match ops[0]
    case OpenTcp => DispatchOpenKeeps(e, ops);
    case SendTcp(_, _) => DispatchSendKeeps(e, ops);
    case _ => DispatchOtherKeeps(e, ops);
  }

  lemma SendOneKeeps(e: Endpoint, ops: seq<Command>, driver: bool)
    requires Inv(e, ops, driver) && e.task.Pumping? && e.channel != []
    ensures Inv(TaskMove(e, SendOne), ops, driver)
  {
  }

  lemma FailWeak(e: Endpoint, partly: nat)
    requires Weak(e)
    ensures Weak(TaskMove(e, Fail(partly)))
  {
    if TaskMove(e, Fail(partly)).sent != e.sent {
      var rest := e.channel[1..];
      assert ItemBytes(e.channel) == e.channel[0].data + ItemBytes(rest);
      PartIsPrefix(e.sent, e.channel[0].data, ItemBytes(rest), e.accepted, partly);
    }
  }

  lemma FailKeeps(e: Endpoint, ops: seq<Command>, driver: bool, partly: nat)
    requires Inv(e, ops, driver)
    ensures Inv(TaskMove(e, Fail(partly)), ops, driver)
  {
    FailWeak(e, partly);
    assert Pipeline(TaskMove(e, Fail(partly)), ops) == Pipeline(e, ops);
  }

  lemma PartIsPrefix(sent: seq<byte>, first: seq<byte>, rest: seq<byte>, accepted: seq<byte>, partly: nat)
    requires partly <= |first| && sent + (first + rest) <= accepted
    ensures sent + first[..partly] <= accepted
  {
  }

  lemma TaskKeeps(e: Endpoint, ops: seq<Command>, driver: bool, step: TaskStep)
    requires Inv(e, ops, driver)
    ensures Inv(TaskMove(e, step), ops, driver)
  {
    match step
    case SendOne =>
      if e.task.Pumping? && e.channel != [] {
        SendOneKeeps(e, ops, driver);
      }
    case Fail(partly) => FailKeeps(e, ops, driver, partly);
    case _ => assert Pipeline(TaskMove(e, step), ops) == Pipeline(e, ops);
  }

  // ---- All sessions over the one ops channel -------------------------------------------------

  datatype Tagged = Tagged(id: nat, command: Command)

  datatype System = System(sessions: map<nat, Endpoint>, ops: seq<Tagged>, driver: bool)

  const START: System := System(map[], [], true)

  /** The part of the ops channel that belongs to one session. */
  function Mine(ops: seq<Tagged>, id: nat): seq<Command> {
    if ops == [] then []
    else (if ops[0].id == id then [ops[0].command] else []) + Mine(ops[1..], id)
  }

  datatype Step =
    | OpenSession(id: nat)
    | Accept(id: nat, command: Command, late: bool)
    | Take(id: nat)
    | Put(id: nat)
    | PutClose(id: nat)       // `Runtime::close`, first half
    | RemoveSession(id: nat)  // `Runtime::close`, second half
    | Drive
    | DriverStops
    | Move(id: nat, step: TaskStep)

  /** A step that is not possible in a state leaves it as it is. */
  function Next(s: System, step: Step): System {
    match step
    case OpenSession(id) => if id in s.sessions then s else s.(sessions := s.sessions[id := OPENED])
    case Accept(id, c, late) =>
      if id in s.sessions then s.(sessions := s.sessions[id := Enqueue(s.sessions[id], c, late)]) else s
    case Take(id) => if id in s.sessions then s.(sessions := s.sessions[id := WorkerTake(s.sessions[id])]) else s
    case Put(id) =>
      if id in s.sessions then
        System(s.sessions[id := s.sessions[id].(hand := None)],
          s.ops + (if s.driver then Tag(id, PassedOn(s.sessions[id])) else []), s.driver)
      else s
    case PutClose(id) => if id in s.sessions && s.driver then s.(ops := s.ops + [Tagged(id, Close)]) else s
    case RemoveSession(id) => if id in s.sessions then s.(sessions := s.sessions[id := Remove(s.sessions[id])]) else s
    case Drive =>
      if s.driver && s.ops != [] && s.ops[0].id in s.sessions then
        var id := s.ops[0].id;
        s.(sessions := s.sessions[id := Dispatch(s.sessions[id], s.ops[0].command)], ops := s.ops[1..])
      else s
    case DriverStops => s.(driver := false)
    case Move(id, m) => if id in s.sessions then s.(sessions := s.sessions[id := TaskMove(s.sessions[id], m)]) else s
  }

  function Tag(id: nat, commands: seq<Command>): seq<Tagged> {
    if commands == [] then [] else [Tagged(id, commands[0])] + Tag(id, commands[1..])
  }

  lemma MineAppend(a: seq<Tagged>, b: seq<Tagged>, id: nat)
    ensures Mine(a + b, id) == Mine(a, id) + Mine(b, id)
  {
    if a == [] {
      assert a + b == b;
    } else {
      MineAppend(a[1..], b, id);
      assert (a + b)[1..] == a[1..] + b;
    }
  }

  lemma MineTagged(commands: seq<Command>, id: nat, other: nat)
    ensures Mine(Tag(id, commands), other) == if other == id then commands else []
  {
  }

  ghost predicate AllOk(s: System) {
    && (forall id :: id in s.sessions ==> Inv(s.sessions[id], Mine(s.ops, id), s.driver))
    && (forall id :: id !in s.sessions ==> Mine(s.ops, id) == [])
  }

  /** Changing one session and appending only its own ops leaves every other session's view as it was. */
  lemma OneSession(s: System, id: nat, e: Endpoint, own: seq<Command>)
    requires AllOk(s) && id in s.sessions && Inv(e, Mine(s.ops, id) + own, s.driver)
    ensures AllOk(System(s.sessions[id := e], s.ops + Tag(id, own), s.driver))
  {
    var next := System(s.sessions[id := e], s.ops + Tag(id, own), s.driver);
    forall other: nat
      ensures Mine(next.ops, other) == if other == id then Mine(s.ops, id) + own else Mine(s.ops, other)
    {
      MineAppend(s.ops, Tag(id, own), other);
      MineTagged(own, id, other);
    }
    forall other | other in next.sessions
      ensures Inv(next.sessions[other], Mine(next.ops, other), next.driver)
    {
      if other != id {
        assert Mine(next.ops, other) == Mine(s.ops, other);
      }
    }
  }

  lemma OneSessionQuiet(s: System, id: nat, e: Endpoint)
    requires AllOk(s) && id in s.sessions && Inv(e, Mine(s.ops, id), s.driver)
    ensures AllOk(s.(sessions := s.sessions[id := e]))
  {
  }

  lemma DriveKeeps(s: System)
    requires AllOk(s) && s.driver && s.ops != []
    ensures s.ops[0].id in s.sessions && AllOk(Next(s, Drive))
  {
    var id := s.ops[0].id;
    assert Mine(s.ops, id) != [];
    DispatchKeeps(s.sessions[id], Mine(s.ops, id));
    assert Mine(s.ops, id)[1..] == Mine(s.ops[1..], id);
    assert forall other: nat :: other != id ==> Mine(s.ops, other) == Mine(s.ops[1..], other);
  }

  lemma OpensWell(driver: bool)
    ensures Inv(OPENED, [], driver)
  {
    assert Pipeline(OPENED, []) == [OpenTcp];
  }

  lemma OpenSessionKeeps(s: System, id: nat)
    requires AllOk(s)
    ensures AllOk(Next(s, OpenSession(id)))
  {
    OpensWell(s.driver);
  }

  lemma PutCloseKeeps(s: System, id: nat)
    requires AllOk(s) && id in s.sessions && s.driver
    ensures AllOk(Next(s, PutClose(id)))
  {
    CloseOpKeeps(s.sessions[id], Mine(s.ops, id), s.driver);
    OneSession(s, id, s.sessions[id], [Close]);
    assert Tag(id, [Close]) == [Tagged(id, Close)];
    assert s.sessions[id := s.sessions[id]] == s.sessions;
  }

  lemma PutKeeps(s: System, id: nat)
    requires AllOk(s)
    ensures AllOk(Next(s, Put(id)))
  {
    if id in s.sessions {
      WorkerPutKeeps(s.sessions[id], Mine(s.ops, id), s.driver);
      OneSession(s, id, s.sessions[id].(hand := None), if s.driver then PassedOn(s.sessions[id]) else []);
    }
  }

  /** Steps of one session that leave the ops channel alone. */
  lemma QuietKeeps(s: System, step: Step)
    requires AllOk(s) && (step.Accept? || step.Take? || step.RemoveSession? || step.Move?)
    ensures AllOk(Next(s, step))
  {
    if step.id in s.sessions {
      var (e, ops) := (s.sessions[step.id], Mine(s.ops, step.id));
      match step
      case Accept(id, c, late) =>
        EnqueueKeeps(e, ops, s.driver, c, late);
        OneSessionQuiet(s, id, Enqueue(e, c, late));
      case Take(id) =>
        WorkerTakeKeeps(e, ops, s.driver);
        OneSessionQuiet(s, id, WorkerTake(e));
      case RemoveSession(id) =>
        RemoveKeeps(e, ops, s.driver);
        OneSessionQuiet(s, id, Remove(e));
      case Move(id, m) =>
        TaskKeeps(e, ops, s.driver, m);
        OneSessionQuiet(s, id, TaskMove(e, m));
    }
  }

  lemma StepKeeps(s: System, step: Step)
    requires AllOk(s)
    ensures AllOk(Next(s, step))
  {
    match step
    case OpenSession(id) => OpenSessionKeeps(s, id);
    case Put(id) => PutKeeps(s, id);
    case PutClose(id) =>
      if id in s.sessions && s.driver {
        PutCloseKeeps(s, id);
      }
    case Drive =>
      if s.driver && s.ops != [] {
        DriveKeeps(s);
      }
    case DriverStops =>
    case _ => QuietKeeps(s, step);
  }

  function Reached(steps: seq<Step>): System {
    if steps == [] then START else Next(Reached(steps[..|steps| - 1]), steps[|steps| - 1])
  }

  lemma {:induction false} RunKeeps(steps: seq<Step>)
    ensures AllOk(Reached(steps))
  {
    if steps != [] {
      RunKeeps(steps[..|steps| - 1]);
      StepKeeps(Reached(steps[..|steps| - 1]), steps[|steps| - 1]);
    }
  }

  /** Upstream fidelity, in every run and for every session. What reached the HTTP/3 stream is a prefix of
      what was accepted, even when a close overtakes queued data, the task fails or the driver stops. And
      while the stream is registered and its task, the worker and the driver run, nothing is missing: sent
      bytes, stream channel, ops channel, worker's hand and session queue make up exactly what was accepted.
      So they do before, as long as the opening command is on its way: then nothing has been sent yet. */
  lemma UpstreamFidelity(steps: seq<Step>, id: nat)
    requires id in Reached(steps).sessions
    ensures var s := Reached(steps); var e := s.sessions[id];
      var waiting := Mine(s.ops, id) + HandSeq(e.hand) + e.queue;
      && e.sent <= e.accepted
      && (s.driver && e.worker && e.registered && !e.task.Ended? ==>
            e.sent + ItemBytes(e.channel) + Sends(waiting) == e.accepted)
      && (s.driver && e.worker && OpenTcp in waiting ==>
            e.task.NotStarted? && e.sent == [] && e.channel == [] && Sends(waiting) == e.accepted)
  {
    RunKeeps(steps);
    var e := Reached(steps).sessions[id];
    assert [] + ItemBytes([]) + Sends(Pipeline(e, Mine(Reached(steps).ops, id)))
        == Sends(Pipeline(e, Mine(Reached(steps).ops, id)));
  }
}
