/** The transport driver's loop: bounded batches of queued operations and of inbound events in turn, while
    both queues keep growing. */
module Driver {
  import opened Bytes

  const MAX_PER_TICK: nat := 64

  // ---- One bounded batch ---------------------------------------------------------------------

  /** Take from a queue, once per turn, until it is found empty; `turns[i]` arrives before try `i`. The
      items taken, and what is queued at the end of the batch. */
  function Drain<T>(queue: seq<T>, turns: seq<seq<T>>): (r: (seq<T>, seq<T>))
    decreases |turns|
  {
    if turns == [] then ([], queue)
    else
      var q := queue + turns[0];
      if q == [] then ([], Flatten(turns[1..]))
      else
        var (taken, rest) := Drain(q[1..], turns[1..]);
        ([q[0]] + taken, rest)
  }

  /** A batch takes from the front, loses nothing, and takes all it finds up to its bound. */
  lemma {:induction false} DrainTakes<T>(queue: seq<T>, turns: seq<seq<T>>)
    ensures var (taken, rest) := Drain(queue, turns);
      && taken + rest == queue + Flatten(turns)
      && |taken| <= |turns|
      && (|queue| <= |turns| ==> |queue| <= |taken|)
      && (|turns| <= |queue| ==> |taken| == |turns|)
      && (turns != [] ==> (taken == [] <==> queue + turns[0] == []))
    decreases |turns|
  {
    if turns != [] {
      var q := queue + turns[0];
      assert queue + Flatten(turns) == q + Flatten(turns[1..]);
      if q != [] {
        DrainTakes(q[1..], turns[1..]);
        var (taken, rest) := Drain(q[1..], turns[1..]);
        assert [q[0]] + taken + rest == [q[0]] + (taken + rest);
        assert q + Flatten(turns[1..]) == [q[0]] + (q[1..] + Flatten(turns[1..]));
      }
    }
  }

  /** The loop's view of a batch: one turn moves the front item to what was already taken. */
  lemma DrainStep<T>(queue: seq<T>, turns: seq<seq<T>>, taken: seq<T>)
    requires turns != []
    ensures var q := queue + turns[0];
      if q == [] then taken + Drain(queue, turns).0 == taken && Drain(queue, turns).1 == Flatten(turns[1..])
      else
        && taken + Drain(queue, turns).0 == taken + [q[0]] + Drain(q[1..], turns[1..]).0
        && Drain(queue, turns).1 == Drain(q[1..], turns[1..]).1
  {
  }

  /** Moving items from the end of a batch's queue to what was taken keeps the whole in order. */
  lemma MovedInOrder<T>(done: seq<T>, queue: seq<T>, before: seq<T>, turns: seq<seq<T>>, after: seq<T>)
    ensures var (taken, rest) := Drain(queue + before, turns);
      done + taken + (rest + after) == done + queue + (before + Flatten(turns) + after)
  {
    DrainTakes(queue + before, turns);
    var (taken, rest) := Drain(queue + before, turns);
    assert done + taken + (rest + after) == done + (taken + rest) + after;
    assert done + (queue + before + Flatten(turns)) + after
        == done + queue + (before + Flatten(turns) + after);
  }

  // ---- One iteration -------------------------------------------------------------------------

  datatype Stop = Going | Shutdown | Lost

  /** Operations and events still queued, applied and forwarded; and whether the loop has ended. */
  datatype State<Op, Ev> = State(ops: seq<Op>, events: seq<Ev>, applied: seq<Op>, forwarded: seq<Ev>, stop: Stop)

  /** What happens around one iteration: arrivals before each try, arrivals while the other queue is
      served, the shutdown flag and the connection's health. */
  datatype Env<Op, Ev> = Env(opTurns: seq<seq<Op>>, eventTurns: seq<seq<Ev>>,
    eventsMeanwhile: seq<Ev>, opsMeanwhile: seq<Op>, shutdown: bool, connected: bool)
  {
    predicate Valid() {
      |opTurns| == MAX_PER_TICK && |eventTurns| == MAX_PER_TICK
    }
  }

  function Iteration<Op, Ev>(s: State<Op, Ev>, env: Env<Op, Ev>): State<Op, Ev> {
    if s.stop != Going then s
    else if env.shutdown then s.(stop := Shutdown)
    else
      var (applied, ops) := Drain(s.ops, env.opTurns);
      var (forwarded, events) := Drain(s.events + env.eventsMeanwhile, env.eventTurns);
      State(ops + env.opsMeanwhile, events, s.applied + applied, s.forwarded + forwarded,
        if applied == [] && forwarded == [] && !env.connected then Lost else Going)
  }

  /** The loop itself, over the two channels and the egress queue it feeds. */
  class TransportDriver<Op, Ev> {
    var ops: seq<Op>
    var events: seq<Ev>
    var applied: seq<Op>
    var egress: seq<Ev>
    var stop: Stop

    ghost function Model(): State<Op, Ev>
      reads this
    {
      State(ops, events, applied, egress, stop)
    }

    constructor ()
      ensures Model() == State([], [], [], [], Going)
    {
      ops, events, applied, egress, stop := [], [], [], [], Going;
    }

    method ApplyOps(turns: seq<seq<Op>>) returns (worked: bool)
      modifies this`ops, this`applied
      ensures ops == Drain(old(ops), turns).1 && applied == old(applied) + Drain(old(ops), turns).0
      ensures worked <==> Drain(old(ops), turns).0 != []
    {
      worked := false;
      ghost var taken: seq<Op> := [];
      assert turns[0..] == turns;
      assert taken + Drain(ops, turns).0 == Drain(ops, turns).0;
      for i := 0 to |turns|
        invariant applied == old(applied) + taken && (worked <==> taken != [])
        invariant Drain(old(ops), turns)
               == (taken + Drain(ops, turns[i..]).0, Drain(ops, turns[i..]).1)
      {
        DrainStep(ops, turns[i..], taken);
        assert turns[i..][1..] == turns[i + 1..];
        ops := ops + turns[i];
        if ops == [] {
          ops := Flatten(turns[i + 1..]);
          return;
        }
        worked, taken := true, taken + [ops[0]];
        applied, ops := applied + [ops[0]], ops[1..];
      }
      assert turns[|turns|..] == [];
    }

    method ForwardEvents(turns: seq<seq<Ev>>) returns (worked: bool)
      modifies this`events, this`egress
      ensures events == Drain(old(events), turns).1 && egress == old(egress) + Drain(old(events), turns).0
      ensures worked <==> Drain(old(events), turns).0 != []
    {
      worked := false;
      ghost var taken: seq<Ev> := [];
      assert turns[0..] == turns;
      assert taken + Drain(events, turns).0 == Drain(events, turns).0;
      for i := 0 to |turns|
        invariant egress == old(egress) + taken && (worked <==> taken != [])
        invariant Drain(old(events), turns)
               == (taken + Drain(events, turns[i..]).0, Drain(events, turns[i..]).1)
      {
        DrainStep(events, turns[i..], taken);
        assert turns[i..][1..] == turns[i + 1..];
        events := events + turns[i];
        if events == [] {
          events := Flatten(turns[i + 1..]);
          return;
        }
        worked, taken := true, taken + [events[0]];
        egress, events := egress + [events[0]], events[1..];
      }
      assert turns[|turns|..] == [];
    }

    method Iterate(env: Env<Op, Ev>)
      requires env.Valid()
      modifies this
      ensures Model() == Iteration(old(Model()), env)
    {
      if stop != Going {
        return;
      }
      if env.shutdown {
        stop := Shutdown;
        return;
      }
      var opsWorked := ApplyOps(env.opTurns);
      events := events + env.eventsMeanwhile;
      var eventsWorked := ForwardEvents(env.eventTurns);
      ops := ops + env.opsMeanwhile;
      if !opsWorked && !eventsWorked && !env.connected {
        stop := Lost;
      }
    }
  }

  /** The loop ends for a lost connection only in an iteration that found both queues empty. */
  lemma StopsOnlyWhenIdle<Op, Ev>(s: State<Op, Ev>, env: Env<Op, Ev>)
    requires env.Valid() && s.stop == Going && Iteration(s, env).stop == Lost
    ensures s.ops + env.opTurns[0] == [] && s.events + env.eventsMeanwhile + env.eventTurns[0] == []
    ensures !env.connected && Iteration(s, env).applied == s.applied && Iteration(s, env).forwarded == s.forwarded
  {
  }

  // ---- Fairness ------------------------------------------------------------------------------

  function Iterations<Op, Ev>(s: State<Op, Ev>, envs: seq<Env<Op, Ev>>): State<Op, Ev>
    decreases |envs|
  {
    if envs == [] then s else Iterations(Iteration(s, envs[0]), envs[1..])
  }

  ghost predicate Undisturbed<Op, Ev>(envs: seq<Env<Op, Ev>>) {
    forall env :: env in envs ==> env.Valid() && !env.shutdown
  }

  /** One iteration takes the front of each queue, up to 64, in order. */
  lemma IterationServes<Op, Ev>(s: State<Op, Ev>, env: Env<Op, Ev>)
    requires env.Valid() && !env.shutdown && s.stop == Going
    ensures var next := Iteration(s, env);
      && s.forwarded + s.events <= next.forwarded + next.events
      && s.applied + s.ops <= next.applied + next.ops
      && |next.forwarded| >= |s.forwarded| + (if |s.events| < MAX_PER_TICK then |s.events| else MAX_PER_TICK)
      && |next.applied| >= |s.applied| + (if |s.ops| < MAX_PER_TICK then |s.ops| else MAX_PER_TICK)
      && (s.events != [] || s.ops != [] ==> next.stop == Going)
  {
    var next := Iteration(s, env);
    DrainTakes(s.ops, env.opTurns);
    DrainTakes(s.events + env.eventsMeanwhile, env.eventTurns);
    MovedInOrder(s.forwarded, s.events, env.eventsMeanwhile, env.eventTurns, []);
    MovedInOrder(s.applied, s.ops, [], env.opTurns, env.opsMeanwhile);
    assert s.ops + [] == s.ops;
    assert next.events + [] == next.events;
  }

  lemma {:induction false} ServedOnlyGrows<Op, Ev>(s: State<Op, Ev>, envs: seq<Env<Op, Ev>>)
    ensures s.forwarded <= Iterations(s, envs).forwarded && s.applied <= Iterations(s, envs).applied
    decreases |envs|
  {
    if envs != [] {
      ServedOnlyGrows(Iteration(s, envs[0]), envs[1..]);
    }
  }

  /** Fairness: an inbound event with k events ahead of it is forwarded within k / 64 + 1 iterations, in
      order, however many operations are queued and whatever keeps arriving. */
  lemma {:induction false} EventsAreForwarded<Op, Ev>(s: State<Op, Ev>, envs: seq<Env<Op, Ev>>, k: nat)
    requires s.stop == Going && Undisturbed(envs) && k < |s.events| && |envs| >= k / MAX_PER_TICK + 1
    ensures s.forwarded + s.events[..k + 1] <= Iterations(s, envs).forwarded
    decreases |envs|
  {
    var next := Iteration(s, envs[0]);
    IterationServes(s, envs[0]);
    var moved := |next.forwarded| - |s.forwarded|;
    var target := s.forwarded + s.events[..k + 1];
    assert target <= s.forwarded + s.events <= next.forwarded + next.events;
    if k < moved {
      assert target <= next.forwarded;
      ServedOnlyGrows(next, envs[1..]);
    } else {
      EventsAreForwarded(next, envs[1..], k - moved);
      assert next.forwarded + next.events[..k - moved + 1] == (next.forwarded + next.events)[..|target|];
    }
  }

  /** The same bound holds for operations, however many events arrive. */
  lemma {:induction false} OpsAreApplied<Op, Ev>(s: State<Op, Ev>, envs: seq<Env<Op, Ev>>, k: nat)
    requires s.stop == Going && Undisturbed(envs) && k < |s.ops| && |envs| >= k / MAX_PER_TICK + 1
    ensures s.applied + s.ops[..k + 1] <= Iterations(s, envs).applied
    decreases |envs|
  {
    var next := Iteration(s, envs[0]);
    IterationServes(s, envs[0]);
    var moved := |next.applied| - |s.applied|;
    var target := s.applied + s.ops[..k + 1];
    assert target <= s.applied + s.ops <= next.applied + next.ops;
    if k < moved {
      assert target <= next.applied;
      ServedOnlyGrows(next, envs[1..]);
    } else {
      OpsAreApplied(next, envs[1..], k - moved);
      assert next.applied + next.ops[..k - moved + 1] == (next.applied + next.ops)[..|target|];
    }
  }
}
