/** How many steps a worker can take: the attempt budget bounds its whole life. */
module WorkBound {
  import opened Types
  import opened TaskOps
  import opened TaskInvariant
  import opened Progress
  import opened System
  import opened SystemInvariant
  import opened SystemResults
  import opened Scheduling
  import opened Recovery

  // ---------------------------------------------------------------- the attempts left

  function Remaining(nodes: seq<Node>): int {
    if nodes == [] then 0
    else
      var last := nodes[|nodes| - 1];
      Remaining(nodes[..|nodes| - 1]) + last.maxAttempts - last.attempts
  }

  lemma {:induction false} RemainingIsNat(nodes: seq<Node>)
    requires forall i :: 0 <= i < |nodes| ==> nodes[i].attempts <= nodes[i].maxAttempts
    ensures Remaining(nodes) >= 0
    decreases |nodes|
  {
    if nodes != [] { RemainingIsNat(nodes[..|nodes| - 1]); }
  }

  /** Attempts counted at the nodes of `spent` are gone from the budget, one each. */
  lemma {:induction false} Spend(nodes: seq<Node>, nodes': seq<Node>, spent: set<nat>)
    requires |nodes| == |nodes'| && forall i <- spent :: i < |nodes|
    requires forall i :: 0 <= i < |nodes| ==>
      nodes'[i].maxAttempts == nodes[i].maxAttempts
      && nodes'[i].attempts == nodes[i].attempts + (if i in spent then 1 else 0)
    ensures Remaining(nodes') == Remaining(nodes) - |spent|
    decreases |nodes|
  {
    if nodes != [] {
      var last: nat := |nodes| - 1;
      Spend(nodes[..last], nodes'[..last], spent - {last});
      if last in spent { assert |spent - {last}| == |spent| - 1; } else { assert spent - {last} == spent; }
    } else {
      assert spent == {};
    }
  }

  function Startables(t: Task, ready: seq<NodeID>): set<nat> {
    set i: nat | i < |t.nodes| && Startable(t.nodes[i], ready, t.nodes)
  }

  /** No more executors are started than nodes are startable. */
  lemma {:induction false} StartedFits(t: Task, ready: seq<NodeID>, now: Time, room: set<nat>)
    requires Distinct(ready) && Startables(t, ready) <= room
    ensures |Started(t, ready, now)| <= |room|
    decreases |ready|
  {
    if !t.cancelRequested && !t.status.Terminal() && ready != [] {
      var m := Find(t.nodes, ready[0]);
      if m.Some? && Startable(m.value, ready, t.nodes) {
        var i: nat :| i < |t.nodes| && t.nodes[i] == m.value;
        assert i in Startables(t, ready);
        assert ready[0] !in ready[1..];
        StartedFits(t, ready[1..], now, room - {i});
        assert |room - {i}| == |room| - 1;
      } else {
        StartedFits(t, ready[1..], now, room);
      }
    }
  }

  /** A launch pays for every executor it starts. */
  lemma LaunchPays(t: Task, ready: seq<NodeID>, now: Time)
    requires TaskOk(t) && Distinct(ready)
    ensures Remaining(StartNodes(t, ready, now).nodes) <= Remaining(t.nodes) - |Started(t, ready, now)|
  {
    if Started(t, ready, now) != [] {
      StartedFits(t, ready, now, Startables(t, ready));
      Spend(t.nodes, StartNodes(t, ready, now).nodes, Startables(t, ready));
    }
  }

  // ---------------------------------------------------------------- the work left in a phase

  function ExecWork(p: ExecPhase): nat {
    match p
    case Spawned => 5
    case Invoking(_, _) => 4
    case Parking(_) => 3
    case Parked => 2
    case Finishing(_) => 1
    case Listening(_) => 1
    case Returned(_) => 0
  }

  function BatchWork(execs: seq<Exec>): nat {
    if execs == [] then 0 else ExecWork(execs[0].phase) + BatchWork(execs[1..])
  }

  function PhaseWork(phase: WorkerPhase, ended: bool): nat {
    match phase
    case Top => 3
    case Batch(execs) => 4 + BatchWork(execs)
    case Leaving(_) => 1
    case _ => if ended then 4 else 2
  }

  function StatusWork(status: TaskStatus): nat {
    if status.TaskPending? then 4 else if status.TaskRunning? then 2 else 0
  }

  /** The most steps worker w can still take. */
  function WorkLeft(s: State, w: nat): int {
    if w !in s.workers then 0
    else
      var ended := s.task.status.Terminal();
      10 * Remaining(s.task.nodes) + StatusWork(s.task.status) + PhaseWork(s.workers[w].phase, ended)
  }

  lemma {:induction false} SpawnedWork(nodes: seq<Node>)
    ensures BatchWork(Spawn(nodes)) == 5 * |nodes|
    decreases |nodes|
  {
    if nodes != [] {
      assert Spawn(nodes)[1..] == Spawn(nodes[1..]);
      SpawnedWork(nodes[1..]);
    }
  }

  lemma {:induction false} MovedWork(execs: seq<Exec>, k: nat, phase: ExecPhase)
    requires k < |execs|
    ensures BatchWork(execs[k := execs[k].(phase := phase)])
      == BatchWork(execs) - ExecWork(execs[k].phase) + ExecWork(phase)
    decreases |execs|
  {
    var execs' := execs[k := execs[k].(phase := phase)];
    if k > 0 {
      assert execs'[1..] == execs[1..][k - 1 := execs[k].(phase := phase)];
      MovedWork(execs[1..], k - 1, phase);
    } else {
      assert execs'[1..] == execs[1..];
    }
  }

  // ---------------------------------------------------------------- every step of the worker spends some

  lemma SameBudget(nodes: seq<Node>, nodes': seq<Node>)
    requires |nodes| == |nodes'|
    requires forall i :: 0 <= i < |nodes| ==>
      nodes'[i].maxAttempts == nodes[i].maxAttempts && nodes'[i].attempts == nodes[i].attempts
    ensures Remaining(nodes') == Remaining(nodes)
  {
    Spend(nodes, nodes', {});
  }

  /** The attempts of all nodes together. */
  function Budget(nodes: seq<Node>): int {
    if nodes == [] then 0 else Budget(nodes[..|nodes| - 1]) + nodes[|nodes| - 1].maxAttempts
  }

  lemma {:induction false} RemainingIsWithinBudget(nodes: seq<Node>)
    requires forall i :: 0 <= i < |nodes| ==> 0 <= nodes[i].attempts
    ensures Remaining(nodes) <= Budget(nodes)
    decreases |nodes|
  {
    if nodes != [] { RemainingIsWithinBudget(nodes[..|nodes| - 1]); }
  }

  lemma {:induction false} BudgetIsFixed(nodes: seq<Node>, nodes': seq<Node>)
    requires SameShapes(nodes, nodes')
    ensures Budget(nodes') == Budget(nodes)
    decreases |nodes|
  {
    if nodes != [] {
      var last := |nodes| - 1;
      assert SameShape(nodes[last], nodes'[last]);
      forall i | 0 <= i < last ensures SameShape(nodes[..last][i], nodes'[..last][i]) {
        assert SameShape(nodes[i], nodes'[i]);
      }
      BudgetIsFixed(nodes[..last], nodes'[..last]);
    }
  }

  /** The work a step of others can give a worker: a requeue makes it mark the task once more, a retry hands every
      attempt out again. */
  function Extra(step: Step, budget: int): int {
    if Requeues(step) then 2 else if IsRetry(step) then 10 * budget + 4 else 0
  }

  lemma ApiBudget(t: Task, a: ApiStep)
    requires !a.RetryCall?
    ensures Remaining(TaskAfter(t, a).nodes) == Remaining(t.nodes)
    ensures || TaskAfter(t, a).status == t.status
            || (!t.status.Terminal() && TaskAfter(t, a).status.TaskCancelled?)
            || (a.Requeue? && a.ok && t.status.TaskRunning? && TaskAfter(t, a).status.TaskPending?)
  {
    SameBudget(t.nodes, TaskAfter(t, a).nodes);
  }

  lemma ApiLeavesPhase(s: State, a: ApiStep, w: nat)
    requires ApiEnabled(s, a) && w in s.workers && s.slot.Some?
    ensures w in FireApi(s, a).workers && FireApi(s, a).workers[w].phase == s.workers[w].phase
  {
  }

  lemma RetryGives(s: State, now: Time, w: nat)
    requires Inv(s) && w in s.workers
    ensures WorkLeft(FireApi(s, RetryCall(now)), w) <= WorkLeft(s, w) + 10 * Budget(s.task.nodes) + 4
  {
    var nodes, nodes' := s.task.nodes, TaskAfter(s.task, RetryCall(now)).nodes;
    OnlyWorker(s, w);
    ApiLeavesPhase(s, RetryCall(now), w);
    ApiKeeps(s, RetryCall(now));
    TaskAfterEvolves(s.task, RetryCall(now));
    BudgetIsFixed(nodes, nodes');
    RemainingIsWithinBudget(nodes');
    RemainingIsNat(nodes);
  }

  lemma ApiSpendsNoMore(s: State, a: ApiStep, w: nat)
    requires Inv(s) && ApiEnabled(s, a) && w in s.workers
    ensures WorkLeft(FireApi(s, a), w) <= WorkLeft(s, w) + Extra(Api(a), Budget(s.task.nodes))
  {
    if a.RetryCall? {
      RetryGives(s, a.now, w);
    } else {
      OnlyWorker(s, w);
      ApiBudget(s.task, a);
      ApiLeavesPhase(s, a, w);
    }
  }

  /** A worker that settles a task finds it blocked, so the task ends. */
  lemma SettleEnds(t: Task, phase: WorkerPhase, now: Time)
    requires TaskOk(t) && phase.Settling? && NoOrphans(t, phase) && SightHolds(t, phase)
    ensures Complete(t, now).status.Terminal() && Remaining(Complete(t, now).nodes) == Remaining(t.nodes)
  {
    SameBudget(t.nodes, Complete(t, now).nodes);
    if !t.status.Terminal() {
      NothingBusy(t, phase);
      NothingReady(t.nodes);
      SchedulerProgress(t, now);
    }
  }

  /** A worker that launches on an unfinished task starts something. */
  lemma LaunchStarts(t: Task, ready: seq<NodeID>, now: Time)
    requires TaskOk(t) && SightHolds(t, Launching(ready)) && !t.status.Terminal()
    ensures Started(t, ready, now) != []
  {
    var i: nat :| Ready(t.nodes, i) && t.nodes[i].id in ready;
    DependenciesAreDone(t.nodes[i], t.nodes);
    StartedComplete(t, ready, now, i);
  }

  lemma LaunchSpendsWork(s: State, w: nat, now: Time)
    requires Inv(s) && Attended(s) && WorkEnabled(s, w, Launch(now, true))
    ensures WorkLeft(FireWork(s, w, Launch(now, true)), w) < WorkLeft(s, w)
  {
    OnlyWorker(s, w);
    var ready := s.workers[w].phase.ready;
    assert WorkerOk(s.task, s.workers[w]);
    if s.task.status.Terminal() {
      StartedOnlyIfOpen(s.task, ready, now);
    } else {
      LaunchStarts(s.task, ready, now);
      LaunchPays(s.task, ready, now);
      BatchSpendsWork(s, w, now);
    }
  }

  lemma BatchSpendsWork(s: State, w: nat, now: Time)
    requires WorkEnabled(s, w, Launch(now, true)) && !s.task.status.Terminal()
    requires var ready := s.workers[w].phase.ready;
      && Started(s.task, ready, now) != []
      && Remaining(StartNodes(s.task, ready, now).nodes) <= Remaining(s.task.nodes) - |Started(s.task, ready, now)|
    ensures WorkLeft(FireWork(s, w, Launch(now, true)), w) < WorkLeft(s, w)
  {
    SpawnedWork(Started(s.task, s.workers[w].phase.ready, now));
  }

  lemma WorkSpends(s: State, w: nat, a: WorkerStep)
    requires Inv(s) && Attended(s) && WorkEnabled(s, w, a)
    ensures WorkLeft(FireWork(s, w, a), w) < WorkLeft(s, w)
  {
    OnlyWorker(s, w);
    RemainingIsNat(s.task.nodes);
    match a
    case Mark(now, ok) => if ok { MarkSpendsWork(s, w, now); }
    case Settle(now, ok) => if ok { SettleSpendsWork(s, w, now); }
    case Launch(now, ok) => if ok { LaunchSpendsWork(s, w, now); }
    case _ => WalkingSpendsWork(s, w, a);
  }

  lemma MarkSpendsWork(s: State, w: nat, now: Time)
    requires Attended(s) && WorkEnabled(s, w, Mark(now, true)) && s.slot == Some(w) && StatusOk(s.task)
    ensures WorkLeft(FireWork(s, w, Mark(now, true)), w) < WorkLeft(s, w)
  {
    SameBudget(s.task.nodes, MarkRunning(s.task, now).nodes);
  }

  lemma SettleSpendsWork(s: State, w: nat, now: Time)
    requires Inv(s) && Attended(s) && WorkEnabled(s, w, Settle(now, true)) && s.slot == Some(w)
    ensures WorkLeft(FireWork(s, w, Settle(now, true)), w) < WorkLeft(s, w)
  {
    SettleEnds(s.task, s.workers[w].phase, now);
  }

  /** The steps that do not write the task. */
  lemma WalkingSpendsWork(s: State, w: nat, a: WorkerStep)
    requires WorkEnabled(s, w, a) && (a.Look? || a.Join? || a.Release?) && Remaining(s.task.nodes) >= 0
    ensures WorkLeft(FireWork(s, w, a), w) < WorkLeft(s, w)
  {
  }

  lemma RunBudget(s: State, w: nat, k: nat, a: ExecStep)
    requires Inv(s) && RunEnabled(s, w, k, a)
    ensures Remaining(FireRun(s, w, k, a).task.nodes) == Remaining(s.task.nodes)
  {
    RunMoves(s, w, k, a);
    var t' := FireRun(s, w, k, a).task;
    forall i | 0 <= i < |s.task.nodes|
      ensures t'.nodes[i].maxAttempts == s.task.nodes[i].maxAttempts && t'.nodes[i].attempts == s.task.nodes[i].attempts
    {
      RunSpendsNothing(s, w, k, a, i);
      assert SameShape(s.task.nodes[i], t'.nodes[i]);
    }
    SameBudget(s.task.nodes, t'.nodes);
  }

  lemma RunAdvances(s: State, w: nat, k: nat, a: ExecStep)
    requires RunEnabled(s, w, k, a)
    ensures var execs, s' := s.workers[w].phase.execs, FireRun(s, w, k, a);
      && w in s'.workers && s'.workers[w].phase.Batch? && k < |s'.workers[w].phase.execs|
      && ExecWork(s'.workers[w].phase.execs[k].phase) < ExecWork(execs[k].phase)
  {
  }

  lemma RunSpends(s: State, w: nat, k: nat, a: ExecStep)
    requires Inv(s) && RunEnabled(s, w, k, a)
    ensures WorkLeft(FireRun(s, w, k, a), w) < WorkLeft(s, w)
  {
    RunBudget(s, w, k, a);
    RunLeavesTheRest(s, w, k, a);
    RunAdvances(s, w, k, a);
    MovedWork(s.workers[w].phase.execs, k, FireRun(s, w, k, a).workers[w].phase.execs[k].phase);
  }

  // ---------------------------------------------------------------- main result

  predicate StepOf(step: Step, w: nat) {
    (step.Work? || step.Run?) && step.w == w
  }

  /** How many steps of a schedule are taken by worker w and its executors. */
  function StepsOf(schedule: seq<Step>, w: nat): nat {
    if schedule == [] then 0 else (if StepOf(schedule[0], w) then 1 else 0) + StepsOf(schedule[1..], w)
  }

  function Extras(schedule: seq<Step>, budget: int): int {
    if schedule == [] then 0 else Extra(schedule[0], budget) + Extras(schedule[1..], budget)
  }

  /** A worker that is gone does not come back, for its number is not used again. */
  lemma GoneForGood(s: State, step: Step, w: nat)
    requires Enabled(s, step) && w < s.nextId
    ensures w < Fire(s, step).nextId
    ensures w !in s.workers ==> w !in Fire(s, step).workers && !StepOf(step, w)
  {
    match step
    case Api(a) => ApiMakesNewWorkers(s, a, w);
    case Work(v, a) => WorkMakesNoWorker(s, v, a);
    case Run(v, k, a) => RunKeepsWorkers(s, v, k, a);
    case Crash =>
  }

  lemma ApiMakesNewWorkers(s: State, a: ApiStep, w: nat)
    requires ApiEnabled(s, a) && w < s.nextId
    ensures s.nextId <= FireApi(s, a).nextId
    ensures w !in s.workers ==> w !in FireApi(s, a).workers
  {
  }

  lemma WorkMakesNoWorker(s: State, w: nat, a: WorkerStep)
    requires WorkEnabled(s, w, a)
    ensures FireWork(s, w, a).workers.Keys <= s.workers.Keys && FireWork(s, w, a).nextId == s.nextId
  {
  }

  lemma RunKeepsWorkers(s: State, w: nat, k: nat, a: ExecStep)
    requires RunEnabled(s, w, k, a)
    ensures FireRun(s, w, k, a).workers.Keys == s.workers.Keys && FireRun(s, w, k, a).nextId >= s.nextId
  {
  }

  lemma BudgetIsNat(s: State)
    requires Inv(s)
    ensures 0 <= Remaining(s.task.nodes) <= Budget(s.task.nodes)
  {
    RemainingIsNat(s.task.nodes);
    RemainingIsWithinBudget(s.task.nodes);
  }

  lemma StepSpends(s: State, step: Step, w: nat)
    requires Inv(s) && Attended(s) && Enabled(s, step) && w in s.workers
    ensures WorkLeft(Fire(s, step), w)
      <= WorkLeft(s, w) - (if StepOf(step, w) then 1 else 0) + Extra(step, Budget(s.task.nodes))
  {
    OnlyWorker(s, w);
    match step
    case Api(a) => ApiSpendsNoMore(s, a, w);
    case Work(v, a) => WorkSpends(s, v, a);
    case Run(v, k, a) => RunSpends(s, v, k, a);
    case Crash => BudgetIsNat(s);
  }

  /** A worker terminates: in every schedule that starts no worker over nodes left running or waiting - with crashes,
      repository errors, retries and recoveries, however its steps are interleaved with those of others - it takes at
      most WorkLeft steps, a bound linear in the attempts left, two more for each requeue, and the whole budget again
      for each retry. */
  lemma {:induction false} WorkersTerminate(s: State, schedule: seq<Step>, s': State, w: nat)
    requires Inv(s) && Attended(s) && Reaches(s, schedule, s') && StartsClean(s, schedule) && w < s.nextId
    ensures StepsOf(schedule, w) <= WorkLeft(s, w) + Extras(schedule, Budget(s.task.nodes))
    decreases |schedule|
  {
    BudgetIsNat(s);
    if schedule != [] {
      var mid := Fire(s, schedule[0]);
      StepKeeps(s, schedule[0]);
      StepMoves(s, schedule[0]);
      StepKeepsAttended(s, schedule[0]);
      GoneForGood(s, schedule[0], w);
      BudgetIsFixed(s.task.nodes, mid.task.nodes);
      if w in s.workers { StepSpends(s, schedule[0], w); }
      WorkersTerminate(mid, schedule[1..], s', w);
    }
  }

  // ---------------------------------------------------------------- and when it does not

  function Spin(w: nat, now: Time, rounds: nat): seq<Step> {
    if rounds == 0 then [] else [Work(w, Look(true)), Work(w, Settle(now, true))] + Spin(w, now, rounds - 1)
  }

  /** A worker at the top of its loop that looks and settles is back where it was if and only if nothing is ready and
      some node is running or waiting - which, with no executor of its own, was left behind. */
  lemma SpinsOnLeftovers(s: State, w: nat, now: Time)
    requires Inv(s) && s.task.status.TaskRunning? && w in s.workers && s.workers[w] == Worker(Top, false)
    ensures Reaches(s, Spin(w, now, 1), s) <==> ReadyNodes(s.task.nodes) == [] && AnyBusy(s.task.nodes)
  {
    var look, settle := Work(w, Look(true)), Work(w, Settle(now, true));
    var mid := Fire(s, look);
    assert Spin(w, now, 1) == [look, settle] && [look, settle][1..] == [settle] && [settle][1..] == [];
    assert Execute(s, [look, settle]) == Execute(mid, [settle]);
    if ReadyNodes(s.task.nodes) == [] {
      assert Execute(mid, [settle]) == Some(Fire(mid, settle));
      assert Fire(mid, settle).task == Complete(s.task, now);
      if AnyBusy(s.task.nodes) {
        assert Fire(mid, settle).workers == s.workers;
      } else {
        SchedulerProgress(s.task, now);
      }
    } else {
      assert Execute(mid, [settle]) == None;
    }
  }

  /** So over leftovers it turns as long as nobody else moves: no number bounds its steps. */
  lemma {:induction false} SpinsForEver(s: State, w: nat, now: Time, rounds: nat)
    requires Inv(s) && s.task.status.TaskRunning? && w in s.workers && s.workers[w] == Worker(Top, false)
    requires ReadyNodes(s.task.nodes) == [] && AnyBusy(s.task.nodes)
    ensures Reaches(s, Spin(w, now, rounds), s) && StepsOf(Spin(w, now, rounds), w) == 2 * rounds
    decreases rounds
  {
    if rounds > 0 {
      SpinsOnLeftovers(s, w, now);
      SpinsForEver(s, w, now, rounds - 1);
      var look, settle, rest := Work(w, Look(true)), Work(w, Settle(now, true)), Spin(w, now, rounds - 1);
      assert Spin(w, now, 1) == [look, settle] && Spin(w, now, rounds) == [look, settle] + rest;
      RunsOn(s, [look, settle], s, rest, s);
      assert ([look, settle] + rest)[1..] == [settle] + rest && ([settle] + rest)[1..] == rest;
      assert StepsOf([look, settle] + rest, w) == 1 + StepsOf([settle] + rest, w);
    }
  }
}
