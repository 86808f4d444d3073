/** The life of a bridge inside the runtime: which tables hold its id, from allocation to clean-up, in every
    interleaving of the threads that open, run, cancel and finish bridges. */
module BridgeLife {
  const ID_LIMIT: nat := 0x1_0000_0000_0000_0000
  const QUEUE_CAPACITY: nat := 1024

  // ---- The tables and the owners of ids --------------------------------------------------------

  datatype Table = Route | Bridge | Session | Worker

  /** The ids each table holds; for a session also how many commands its queue holds. */
  datatype Tables = Tables(routes: set<nat>, bridges: set<nat>, sessions: map<nat, nat>, workers: set<nat>)
  {
    predicate Holds(id: nat) {
      id in routes || id in bridges || id in sessions || id in workers
    }

    /** The tables that hold the id are all among those still to be left. */
    predicate Within(id: nat, left: seq<Table>) {
      && (id in routes ==> Route in left)
      && (id in bridges ==> Bridge in left)
      && (id in sessions ==> Session in left)
      && (id in workers ==> Worker in left)
    }

    function Remove(id: nat, table: Table): Tables {
      match table
      case Route => this.(routes := routes - {id})
      case Bridge => this.(bridges := bridges - {id})
      case Session => this.(sessions := sessions - {id})
      case Worker => this.(workers := workers - {id})
    }

    function RemoveAll(id: nat, left: seq<Table>): Tables
      decreases |left|
    {
      if left == [] then this else Remove(id, left[0]).RemoveAll(id, left[1..])
    }
  }

  datatype Kind = RawTcp | RawUdp | HttpConnect

  /** How far the thread that owns an id has come. `Accepting` waits for the local client, `Connected` has one
      and is about to start its writer thread. `Leaving` lists the removals still to do; `Stranded` is an
      owner that ended without removing anything. */
  datatype Phase =
    | Allocated | Routed | HalfOpen | Opened | Waiting | Granted | Listed | Accepting | Connected | Pumping
    | Leaving(left: seq<Table>) | Ended | Stranded

  datatype Owner = Owner(kind: Kind, phase: Phase)

  datatype State = State(next: nat, owners: map<nat, Owner>, tables: Tables)

  const CLEANUP: seq<Table> := [Route, Session, Worker]
  const FINISH: seq<Table> := [Bridge] + CLEANUP

  /** The removals of an owner that had, or needed, no wait for a client. */
  function Exit(kind: Kind): seq<Table> {
    if kind == HttpConnect then CLEANUP else [Route] + FINISH
  }

  // ---- Steps -----------------------------------------------------------------------------------

  /** How what an owner waits for, or asks of the operating system, turns out. */
  datatype Outcome = Well | Badly | NoThread

  /** One atomic step of some thread. `Proceed` is the owner's next step. */
  datatype Step =
    | Allocate(kind: Kind)
    | Proceed(id: nat, outcome: Outcome)
    | CloseBridge(id: nat)
    | DropRoute(id: nat)
    | Enqueue(id: nat)
    | WorkerTakes(id: nat)

  /** `Runtime::enqueue` finds the session and room in its queue. */
  predicate Enqueues(tables: Tables, id: nat) {
    id in tables.sessions && tables.sessions[id] < QUEUE_CAPACITY
  }

  /** What the owner's next step does to the tables, and where it leaves the owner. A refused writer thread
      panics its owner: the guard of an HTTP CONNECT still cleans up, a raw TCP bridge has none. */
  function OwnerStep(tables: Tables, id: nat, owner: Owner, outcome: Outcome): (Tables, Phase) {
    match owner.phase
    case Allocated => (tables.(routes := tables.routes + {id}), Routed)
    case Routed =>
      if id in tables.sessions then (tables, if owner.kind == HttpConnect then Leaving([Route]) else Stranded)
      else (tables.(sessions := tables.sessions[id := 0]), HalfOpen)
    case HalfOpen =>
      if outcome == NoThread then (tables, Stranded) else (tables.(workers := tables.workers + {id}), Opened)
    case Opened =>
      if Enqueues(tables, id) then
        (tables.(sessions := tables.sessions[id := tables.sessions[id] + 1]), Waiting)
      else (tables, if owner.kind == HttpConnect then Leaving(CLEANUP) else Stranded)
    case Waiting =>
      (tables,
       if outcome != Well then Leaving(CLEANUP) else if owner.kind == HttpConnect then Connected else Granted)
    case Granted => (tables.(bridges := tables.bridges + {id}), Listed)
    case Listed =>
      (tables, if outcome == NoThread then Stranded else if owner.kind == RawTcp then Accepting else Pumping)
    case Accepting => (tables, if outcome == Well then Connected else Leaving(FINISH))
    case Connected =>
      (tables,
       match outcome
       case Well => Pumping
       case Badly => Leaving(Exit(owner.kind))
       case NoThread => if owner.kind == HttpConnect then Leaving(CLEANUP) else Stranded)
    case Pumping => (tables, Leaving(Exit(owner.kind)))
    case Leaving(left) =>
      if left == [] then (tables, Ended) else (tables.Remove(id, left[0]), Leaving(left[1..]))
    case Ended => (tables, Ended)
    case Stranded => (tables, Stranded)
  }

  function Next(s: State, step: Step): State {
    match step
    case Allocate(kind) =>
      State((s.next + 1) % ID_LIMIT, s.owners[s.next := Owner(kind, Allocated)], s.tables)
    case Proceed(id, outcome) =>
      if id !in s.owners then s
      else
        var (tables, phase) := OwnerStep(s.tables, id, s.owners[id], outcome);
        State(s.next, s.owners[id := s.owners[id].(phase := phase)], tables)
    case CloseBridge(id) => s.(tables := s.tables.Remove(id, Bridge))
    case DropRoute(id) => s.(tables := s.tables.Remove(id, Route))
    case Enqueue(id) =>
      if id in s.owners && s.owners[id].phase.Pumping? && Enqueues(s.tables, id)
      then s.(tables := s.tables.(sessions := s.tables.sessions[id := s.tables.sessions[id] + 1]))
      else s
    case WorkerTakes(id) =>
      if id in s.tables.workers && id in s.tables.sessions && s.tables.sessions[id] > 0
      then s.(tables := s.tables.(sessions := s.tables.sessions[id := s.tables.sessions[id] - 1]))
      else s
  }

  function Init(): State {
    State(1, map[], Tables({}, {}, map[], {}))
  }

  function Run(s: State, run: seq<Step>): State
    decreases |run|
  {
    if run == [] then s else Run(Next(s, run[0]), run[1..])
  }

  /** How many ids a run hands out. */
  function Allocations(run: seq<Step>): nat {
    if run == [] then 0 else (if run[0].Allocate? then 1 else 0) + Allocations(run[1..])
  }

  // ---- The invariant ---------------------------------------------------------------------------

  /** The tables an id may be in, and must be in, while its owner is in a given phase. */
  predicate Fits(tables: Tables, id: nat, owner: Owner) {
    match owner.phase
    case Allocated => !tables.Holds(id)
    case Routed => id !in tables.sessions && id !in tables.workers && id !in tables.bridges
    case HalfOpen =>
      id in tables.sessions && tables.sessions[id] == 0 && id !in tables.workers && id !in tables.bridges
    case Opened =>
      id in tables.sessions && tables.sessions[id] == 0 && id in tables.workers && id !in tables.bridges
    case Waiting => id in tables.sessions && id in tables.workers && id !in tables.bridges
    case Granted =>
      owner.kind != HttpConnect && id in tables.sessions && id in tables.workers && id !in tables.bridges
    case Listed => owner.kind != HttpConnect && id in tables.sessions && id in tables.workers
    case Accepting => owner.kind == RawTcp && id in tables.sessions && id in tables.workers
    case Connected =>
      owner.kind != RawUdp && id in tables.sessions && id in tables.workers
      && (owner.kind == HttpConnect ==> id !in tables.bridges)
    case Pumping =>
      id in tables.sessions && id in tables.workers && (owner.kind == HttpConnect ==> id !in tables.bridges)
    case Leaving(left) => tables.Within(id, left)
    case Ended => !tables.Holds(id)
    case Stranded => id in tables.sessions
  }

  ghost predicate Valid(s: State) {
    && s.next > 0
    && (forall id :: id in s.owners ==> 0 < id < s.next && Fits(s.tables, id, s.owners[id]))
    && (forall id :: s.tables.Holds(id) ==> id in s.owners)
  }

  /** A step of an owner keeps its own id where it belongs, and touches no other id. */
  lemma OwnerStepKeeps(tables: Tables, id: nat, owner: Owner, outcome: Outcome)
    requires Fits(tables, id, owner)
    ensures var (after, phase) := OwnerStep(tables, id, owner, outcome); Fits(after, id, owner.(phase := phase))
  {
  }

  /** Two table sets that say the same about one id. */
  predicate Agree(before: Tables, after: Tables, id: nat) {
    && (id in before.routes <==> id in after.routes)
    && (id in before.bridges <==> id in after.bridges)
    && (id in before.workers <==> id in after.workers)
    && (id in before.sessions <==> id in after.sessions)
    && (id in before.sessions ==> before.sessions[id] == after.sessions[id])
  }

  lemma OwnerStepIsLocal(tables: Tables, id: nat, owner: Owner, outcome: Outcome, other: nat)
    requires other != id
    ensures Agree(tables, OwnerStep(tables, id, owner, outcome).0, other)
  {
  }

  lemma ProceedKeeps(s: State, step: Step)
    requires Valid(s) && step.Proceed? && step.id in s.owners
    ensures Valid(Next(s, step))
  {
    var after := Next(s, step);
    OwnerStepKeeps(s.tables, step.id, s.owners[step.id], step.outcome);
    forall id | id in after.owners ensures 0 < id < after.next && Fits(after.tables, id, after.owners[id]) {
      if id != step.id {
        OwnerStepIsLocal(s.tables, step.id, s.owners[step.id], step.outcome, id);
        FitsByAgreement(s.tables, after.tables, id, s.owners[id]);
      }
    }
    forall id | after.tables.Holds(id) ensures id in after.owners {
      if id != step.id {
        OwnerStepIsLocal(s.tables, step.id, s.owners[step.id], step.outcome, id);
        assert s.tables.Holds(id);
      }
    }
  }

  lemma FitsByAgreement(before: Tables, after: Tables, id: nat, owner: Owner)
    requires Fits(before, id, owner) && Agree(before, after, id)
    ensures Fits(after, id, owner)
  {
  }

  lemma AllocateKeeps(s: State, step: Step)
    requires Valid(s) && s.next + 1 < ID_LIMIT && step.Allocate?
    ensures Valid(Next(s, step))
  {
  }

  /** The steps of other threads only take an id out of a table, or count its queued commands. */
  lemma OthersKeep(s: State, step: Step)
    requires Valid(s) && !step.Proceed? && !step.Allocate?
    ensures Valid(Next(s, step))
  {
  }

  /** Every step keeps every id where its owner's phase says it may be, as long as no id is given twice. */
  lemma NextKeeps(s: State, step: Step)
    requires Valid(s) && (step.Allocate? ==> s.next + 1 < ID_LIMIT)
    ensures Valid(Next(s, step)) && Next(s, step).next == s.next + if step.Allocate? then 1 else 0
  {
    match step
    case Allocate(_) => AllocateKeeps(s, step);
    case Proceed(id, _) =>
      if id in s.owners {
        ProceedKeeps(s, step);
      }
    case _ => OthersKeep(s, step);
  }

  lemma {:induction false} RunKeeps(s: State, run: seq<Step>)
    requires Valid(s) && s.next + Allocations(run) < ID_LIMIT
    ensures Valid(Run(s, run))
    decreases |run|
  {
    if run != [] {
      NextKeeps(s, run[0]);
      RunKeeps(Next(s, run[0]), run[1..]);
    }
  }

  // ---- Leaks -----------------------------------------------------------------------------------

  /** The owner's thread has come to an end, one way or the other. */
  predicate Over(phase: Phase) {
    phase.Ended? || phase.Stranded?
  }

  /** The operating system refuses an owner without a guard a thread: for the session's worker, for the
      bridge, or for the writer of a raw TCP bridge. */
  predicate SpawnFails(s: State, step: Step) {
    && step.Proceed? && step.outcome == NoThread && step.id in s.owners
    && var owner := s.owners[step.id];
       owner.phase.HalfOpen? || owner.phase.Listed? || (owner.phase.Connected? && owner.kind == RawTcp)
  }

  /** The ids whose thread spawn failed during a run. */
  function Refused(s: State, run: seq<Step>): set<nat>
    decreases |run|
  {
    if run == [] then {}
    else (if SpawnFails(s, run[0]) then {run[0].id} else {}) + Refused(Next(s, run[0]), run[1..])
  }

  /** An owner is stranded by a refused spawn and by nothing else: with fresh ids `Runtime::open` never finds
      the id taken, and the first command always finds room in the session's queue. */
  lemma StrandedBySpawn(s: State, step: Step, id: nat)
    requires Valid(s) && id in s.owners
    ensures id in Next(s, step).owners
    ensures Next(s, step).owners[id].phase.Stranded?
       <==> s.owners[id].phase.Stranded? || (SpawnFails(s, step) && step.id == id)
  {
  }

  lemma {:induction false} StrandedInRun(s: State, run: seq<Step>, id: nat)
    requires Valid(s) && s.next + Allocations(run) < ID_LIMIT
    requires id in s.owners || s.next <= id
    ensures id in Run(s, run).owners && Run(s, run).owners[id].phase.Stranded?
       <==> id in Refused(s, run) || (id in s.owners && s.owners[id].phase.Stranded?)
    decreases |run|
  {
    if run != [] {
      NextKeeps(s, run[0]);
      if id in s.owners {
        StrandedBySpawn(s, run[0], id);
      }
      StrandedInRun(Next(s, run[0]), run[1..], id);
    }
  }

  /** The life cycle over every interleaving that hands out fewer than 2^64 ids: an id found in any table belongs to
      a thread that is still opening, running or leaving, or to one whose spawn was refused; and an id whose
      thread is over is in a table exactly when its spawn was refused. */
  lemma NoLeaks(run: seq<Step>, id: nat)
    requires Allocations(run) + 1 < ID_LIMIT
    ensures var s := Run(Init(), run);
      && (s.tables.Holds(id) ==> id in s.owners)
      && (id in s.owners && Over(s.owners[id].phase) ==> (s.tables.Holds(id) <==> id in Refused(Init(), run)))
  {
    RunKeeps(Init(), run);
    if id >= 1 {
      StrandedInRun(Init(), run, id);
    }
  }

  lemma RunStep(s: State, step: Step, rest: seq<Step>)
    ensures Run(s, [step] + rest) == Run(Next(s, step), rest)
  {
  }

  /** The first raw bridge on its way: after its n-th step. */
  function FirstBridge(kind: Kind, n: nat): State {
    if n == 0 then Init()
    else
      var phases := [Allocated, Routed, HalfOpen, Opened, Waiting, Granted, Listed, Accepting];
      State(2, map[1 := Owner(kind, if n > 8 then Connected else phases[n - 1])], FirstTables(n))
  }

  function FirstTables(n: nat): Tables {
    Tables(if n < 2 then {} else {1}, if n < 7 then {} else {1},
      if n < 3 then map[] else map[1 := if n < 5 then 0 else 1], if n < 4 then {} else {1})
  }

  /** All goes well until the last step, which is refused a thread. */
  function FirstStep(kind: Kind, n: nat, last: nat): Step {
    if n == 0 then Allocate(kind) else Proceed(1, if n < last then Well else NoThread)
  }

  lemma FirstBridgeSteps(kind: Kind, n: nat, last: nat)
    requires kind != HttpConnect && n < last <= 9 && (kind == RawUdp ==> last <= 7)
    ensures Next(FirstBridge(kind, n), FirstStep(kind, n, last)) == FirstBridge(kind, n + 1)
  {
  }

  /** A refused spawn does leak: whether it is the worker's, the bridge's or, of a raw TCP bridge with its
      client connected, the writer's, everything the bridge had in the tables stays. */
  lemma RefusedSpawnLeaks(kind: Kind, last: nat)
    requires kind != HttpConnect && (last == 3 || last == 7 || (last == 9 && kind == RawTcp))
    ensures var s := Run(Init(), seq(last + 1, n requires 0 <= n => FirstStep(kind, n, last)));
      && s.owners == map[1 := Owner(kind, Stranded)]
      && s.tables == Tables({1}, if last == 3 then {} else {1}, map[1 := if last == 3 then 0 else 1],
                            if last == 3 then {} else {1})
  {
    var run := seq(last + 1, n requires 0 <= n => FirstStep(kind, n, last));
    for i := 0 to last
      invariant Run(Init(), run) == Run(FirstBridge(kind, i), run[i..])
    {
      assert run[i..] == [run[i]] + run[i + 1..];
      RunStep(FirstBridge(kind, i), run[i], run[i + 1..]);
      FirstBridgeSteps(kind, i, last);
    }
    assert run[last..] == [run[last]] + [];
    RunStep(FirstBridge(kind, last), run[last], []);
  }

  // ---- The removals as the code makes them ---------------------------------------------------

  /** Left to itself, a leaving owner ends, having taken its id out of every table it listed. */
  lemma {:induction false} LeavingEnds(s: State, id: nat, left: seq<Table>)
    requires id in s.owners && s.owners[id].phase == Leaving(left)
    ensures var run := seq(|left| + 1, n => Proceed(id, Well));
      Run(s, run) == State(s.next, s.owners[id := s.owners[id].(phase := Ended)], s.tables.RemoveAll(id, left))
    decreases |left|
  {
    var run := seq(|left| + 1, n => Proceed(id, Well));
    var next := Next(s, run[0]);
    assert Run(s, run) == Run(next, run[1..]);
    if left == [] {
      assert run[1..] == [];
    } else {
      assert run[1..] == seq(|left[1..]| + 1, n => Proceed(id, Well));
      LeavingEnds(next, id, left[1..]);
    }
  }

  /** The tables as the service and its runtime keep them, and the calls that clear an id from them. */
  class EmbeddedService {
    var nextId: nat
    var routes: set<nat>
    var bridges: set<nat>
    var sessions: map<nat, nat>
    var workers: set<nat>

    function Model(): Tables
      reads this
    {
      Tables(routes, bridges, sessions, workers)
    }

    constructor ()
      ensures nextId == Init().next && Model() == Init().tables
    {
      nextId, routes, bridges, sessions, workers := 1, {}, {}, map[], {};
    }

    method AllocateId() returns (id: nat)
      modifies this`nextId
      ensures id == old(nextId) && nextId == (old(nextId) + 1) % ID_LIMIT
    {
      id := nextId;
      nextId := (nextId + 1) % ID_LIMIT;
    }

    method RegisterRoute(kind: Kind, id: nat) returns (phase: Phase)
      modifies this`routes
      ensures (Model(), phase) == OwnerStep(old(Model()), id, Owner(kind, Allocated), Well)
    {
      routes := routes + {id};
      return Routed;
    }

    /** `Runtime::open`: the session and, if the operating system gives a thread, its worker. */
    method Open(kind: Kind, id: nat, thread: Outcome) returns (phase: Phase)
      modifies this`routes, this`sessions, this`workers
      ensures var (tables, half) := OwnerStep(old(Model()), id, Owner(kind, Routed), Well);
        (Model(), phase) ==
          if half == HalfOpen then OwnerStep(tables, id, Owner(kind, half), thread) else (tables, half)
    {
      if id in sessions {
        return if kind == HttpConnect then Leaving([Route]) else Stranded;
      }
      sessions := sessions[id := 0];
      if thread == NoThread {
        return Stranded;
      }
      workers := workers + {id};
      return Opened;
    }

    /** The command that opens the stream goes into the session's queue. */
    method EnqueueOpen(kind: Kind, id: nat) returns (phase: Phase)
      modifies this`sessions
      ensures (Model(), phase) == OwnerStep(old(Model()), id, Owner(kind, Opened), Well)
    {
      if id !in sessions || sessions[id] >= QUEUE_CAPACITY {
        return if kind == HttpConnect then Leaving(CLEANUP) else Stranded;
      }
      sessions := sessions[id := sessions[id] + 1];
      return Waiting;
    }

    method ListBridge(kind: Kind, id: nat) returns (phase: Phase)
      modifies this`bridges
      ensures (Model(), phase) == OwnerStep(old(Model()), id, Owner(kind, Granted), Well)
    {
      bridges := bridges + {id};
      return Listed;
    }

    /** Cancelling removes the cancel entry only; the bridge's own thread does the rest. */
    method CloseBridge(id: nat) returns (found: bool)
      modifies this`bridges
      ensures found <==> id in old(bridges)
      ensures Model() == old(Model()).Remove(id, Bridge)
    {
      found := id in bridges;
      bridges := bridges - {id};
    }

    method Close(id: nat)
      modifies this`sessions, this`workers
      ensures Model() == old(Model()).RemoveAll(id, [Session, Worker])
    {
      if id in sessions {
        sessions := sessions - {id};
      }
      if id in workers {
        workers := workers - {id};
      }
      RemoveTwo(old(Model()), id, Session, Worker);
    }

    method Cleanup(id: nat)
      modifies this`routes, this`sessions, this`workers
      ensures Model() == old(Model()).RemoveAll(id, CLEANUP)
    {
      routes := routes - {id};
      assert CLEANUP[1..] == [Session, Worker];
      Close(id);
    }

    method FinishBridge(id: nat)
      modifies this
      ensures Model() == old(Model()).RemoveAll(id, FINISH) && !Model().Holds(id)
    {
      bridges := bridges - {id};
      assert FINISH[1..] == CLEANUP;
      Cleanup(id);
      FinishClears(old(Model()), id);
    }
  }

  lemma RemoveTwo(tables: Tables, id: nat, first: Table, second: Table)
    ensures tables.RemoveAll(id, [first, second]) == tables.Remove(id, first).Remove(id, second)
  {
    var once := tables.Remove(id, first);
    assert [first, second][1..] == [second] && [second][1..] == [];
    assert once.RemoveAll(id, [second]) == once.Remove(id, second).RemoveAll(id, []);
  }

  /** Finishing a bridge leaves its id in no table, and every other id where it was. */
  lemma FinishClears(tables: Tables, id: nat)
    ensures var after := tables.RemoveAll(id, FINISH);
      && !after.Holds(id)
      && forall other :: other != id ==> Agree(tables, after, other)
  {
  }
}
