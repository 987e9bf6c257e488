/** What holds over whole runs of the system, whatever the interleaving. */
module SystemResults {
  import opened Types
  import opened TaskOps
  import opened TaskInvariant
  import opened Progress
  import opened System
  import opened SystemInvariant

  // ---------------------------------------------------------------- one step, seen from the task

  /** No success is lost, and no node has newly succeeded or failed. */
  ghost predicate NoNewOutcome(nodes: seq<Node>, nodes': seq<Node>) {
    |nodes| == |nodes'| && forall i :: 0 <= i < |nodes| ==>
      (nodes[i].status.Succeeded? <==> nodes'[i].status.Succeeded?)
          && (nodes'[i].status.Failed? ==> nodes[i].status.Failed?)
  }

  /** What a step may do to a task that has ended. */
  ghost predicate RespectsTheEnd(t: Task, t': Task, retried: bool) {
    && (t.status.TaskSucceeded? ==> t' == t)
    && (t.status.TaskFailed? ==> t' == t || (retried && t'.status.TaskPending?))
    && (t.status.TaskCancelled? ==> t'.status.TaskCancelled? && NoNewOutcome(t.nodes, t'.nodes))
  }

  predicate IsRetry(step: Step) {
    step.Api? && step.api.RetryCall?
  }

  lemma TaskAfterEvolves(t: Task, a: ApiStep)
    requires TaskOk(t)
    ensures Evolves(t, TaskAfter(t, a))
  {
    if a.RetryCall? {
      if t.status.TaskFailed? { RetryKeeps(t, a.now); }
    } else {
      ApiDisturbsNobody(t, a);
    }
  }

  /** The API writes to an ended task only to retry a failed one. */
  lemma ApiRespects(s: State, a: ApiStep)
    requires ApiEnabled(s, a) && s.task.status.Terminal()
    ensures FireApi(s, a).task == s.task
      || (a.RetryCall? && s.task.status.TaskFailed? && FireApi(s, a).task.status.TaskPending?)
  {
  }

  lemma WorkMoves(s: State, w: nat, a: WorkerStep)
    requires Inv(s) && WorkEnabled(s, w, a)
    ensures Evolves(s.task, FireWork(s, w, a).task)
    ensures RespectsTheEnd(s.task, FireWork(s, w, a).task, false)
  {
    match a
    case Mark(now, ok) => MarkRunningKeeps(s.task, now);
    case Settle(now, ok) => CompleteKeeps(s.task, now);
    case Launch(now, ok) =>
      StartKeeps(s.task, s.workers[w].phase.ready, now);
      StartedOnlyIfOpen(s.task, s.workers[w].phase.ready, now);
    case _ =>
  }

  lemma RunMoves(s: State, w: nat, k: nat, a: ExecStep)
    requires Inv(s) && RunEnabled(s, w, k, a)
    ensures Evolves(s.task, FireRun(s, w, k, a).task)
    ensures RespectsTheEnd(s.task, FireRun(s, w, k, a).task, false)
  {
    match a
    case Finish(now, ok) => if ok { FinishMoves(s, w, k, now); }
    case Park(now, ok) => if ok { ParkMoves(s, w, k, now); }
    case _ =>
  }

  lemma FinishMoves(s: State, w: nat, k: nat, now: Time)
    requires Inv(s) && RunEnabled(s, w, k, System.Finish(now, true))
    ensures var t' := FireRun(s, w, k, System.Finish(now, true)).task;
            Evolves(s.task, t') && RespectsTheEnd(s.task, t', false)
  {
    FinishKeeps(s.task, ExecAt(s, w, k).node.id, ExecAt(s, w, k).phase.outcome, now);
  }

  lemma ParkMoves(s: State, w: nat, k: nat, now: Time)
    requires Inv(s) && RunEnabled(s, w, k, System.Park(now, true))
    ensures var t' := FireRun(s, w, k, System.Park(now, true)).task;
            Evolves(s.task, t') && RespectsTheEnd(s.task, t', false)
  {
    MayPark(s, w, k);
    ParkKeeps(s.task, ExecAt(s, w, k).node.id, ExecAt(s, w, k).phase.output, now);
  }

  lemma StepMoves(s: State, step: Step)
    requires Inv(s) && Enabled(s, step)
    ensures Evolves(s.task, Fire(s, step).task)
    ensures RespectsTheEnd(s.task, Fire(s, step).task, IsRetry(step))
  {
    match step
    case Api(a) => TaskAfterEvolves(s.task, a); if s.task.status.Terminal() { ApiRespects(s, a); }
    case Work(w, a) => WorkMoves(s, w, a);
    case Run(w, k, a) => RunMoves(s, w, k, a);
    case Crash =>
  }

  // ---------------------------------------------------------------- safety of every run

  ghost predicate Reaches(s: State, schedule: seq<Step>, s': State) {
    Execute(s, schedule) == Some(s')
  }

  ghost predicate Next(s: State, step: Step, s': State) {
    Enabled(s, step) && Fire(s, step) == s'
  }

  lemma {:induction false} RunsOn(s: State, a: seq<Step>, mid: State, b: seq<Step>, s': State)
    requires Reaches(s, a, mid) && Reaches(mid, b, s')
    ensures Reaches(s, a + b, s')
    decreases |a|
  {
    if a == [] {
      assert a + b == b;
    } else {
      assert (a + b)[1..] == a[1..] + b;
      RunsOn(Fire(s, a[0]), a[1..], mid, b, s');
    }
  }

  lemma Then(s: State, schedule: seq<Step>, mid: State, step: Step, s': State)
    requires Reaches(s, schedule, mid) && Next(mid, step, s')
    ensures Reaches(s, schedule + [step], s')
  {
    assert [step][1..] == [] && Execute(s', []) == Some(s');
    RunsOn(s, schedule, mid, [step], s');
  }

  lemma Then2(s: State, schedule: seq<Step>, s1: State, a: Step, s2: State, b: Step, s3: State)
    requires Reaches(s, schedule, s1) && Next(s1, a, s2) && Next(s2, b, s3)
    ensures Reaches(s, schedule + [a, b], s3)
  {
    Then(s, schedule, s1, a, s2);
    Then(s, schedule + [a], s2, b, s3);
    assert schedule + [a] + [b] == schedule + [a, b];
  }

  /** Success is permanent, and the identity and the graph of a task never change. */
  lemma {:induction false} SuccessIsPermanent(s: State, schedule: seq<Step>, s': State)
    requires Inv(s) && Reaches(s, schedule, s')
    ensures Evolves(s.task, s'.task)
    decreases |schedule|
  {
    if schedule != [] {
      var mid := Fire(s, schedule[0]);
      StepKeeps(s, schedule[0]);
      StepMoves(s, schedule[0]);
      SuccessIsPermanent(mid, schedule[1..], s');
      forall i | 0 <= i < |s.task.nodes| ensures SameShape(s.task.nodes[i], s'.task.nodes[i]) {
        assert SameShape(s.task.nodes[i], mid.task.nodes[i]) && SameShape(mid.task.nodes[i], s'.task.nodes[i]);
      }
    }
  }

  /** Dependency order and attempt accounting in every reachable state. */
  lemma DependencyOrder(s: State, schedule: seq<Step>, s': State)
    requires Initial(s) && GraphOk(s.task.nodes) && Reaches(s, schedule, s')
    ensures forall n <- s'.task.nodes ::
      && (n.status.Running? || n.status.Waiting? || n.status.Succeeded? || n.status.Failed? ==>
            DependenciesSucceeded(n, s'.task.nodes))
      && (n.status.Pending? ==> 0 <= n.attempts < n.maxAttempts)
      && (n.status.Running? || n.status.Waiting? ==> 1 <= n.attempts <= n.maxAttempts)
      && (n.status.Failed? ==> n.attempts == n.maxAttempts)
  {
    InitialOk(s);
    RunsKeep(s, schedule);
    forall i | 0 <= i < |s'.task.nodes|
      ensures DepSet(s'.task.nodes[i]) <= Done(s'.task.nodes) ==> DependenciesSucceeded(s'.task.nodes[i], s'.task.nodes)
    {
      DependenciesAreDone(s'.task.nodes[i], s'.task.nodes);
    }
  }

  /** A succeeded task never changes again, a cancelled one stays cancelled with no new success or failure, and a
      failed one is left only through Retry. */
  lemma {:induction false} EndsAreFinal(s: State, schedule: seq<Step>, s': State)
    requires Inv(s) && Reaches(s, schedule, s')
    ensures s.task.status.TaskSucceeded? ==> s'.task == s.task
    ensures s.task.status.TaskCancelled? ==> s'.task.status.TaskCancelled? && NoNewOutcome(s.task.nodes, s'.task.nodes)
    ensures s.task.status.TaskFailed? && (forall step <- schedule :: !IsRetry(step)) ==> s'.task == s.task
    decreases |schedule|
  {
    if schedule != [] {
      StepKeeps(s, schedule[0]);
      StepMoves(s, schedule[0]);
      EndsAreFinal(Fire(s, schedule[0]), schedule[1..], s');
    }
  }

  // ---------------------------------------------------------------- how often a node is invoked

  /** The nodes a step starts an executor for. */
  function Launched(s: State, step: Step): set<NodeID>
    requires Enabled(s, step)
  {
    if step.Work? && step.work.Launch? && step.work.ok
    then set n | n in Started(s.task, s.workers[step.w].phase.ready, step.work.now) :: n.id
    else {}
  }

  /** How many executors a schedule starts for a node. */
  function Launches(s: State, schedule: seq<Step>, id: NodeID): nat
    decreases |schedule|
  {
    if schedule == [] || !Enabled(s, schedule[0]) then 0
    else (if id in Launched(s, schedule[0]) then 1 else 0) + Launches(Fire(s, schedule[0]), schedule[1..], id)
  }

  lemma LaunchSpends(t: Task, ready: seq<NodeID>, now: Time, i: nat)
    requires TaskOk(t) && Distinct(ready) && i < |t.nodes|
    ensures var launched := set n | n in Started(t, ready, now) :: n.id;
      && StartNodes(t, ready, now).nodes[i].attempts
          == t.nodes[i].attempts + (if t.nodes[i].id in launched then 1 else 0)
      && (t.nodes[i].id in launched ==> t.nodes[i].status.Pending?)
  {
    StartedSound(t, ready, now);
    StartedOnlyIfOpen(t, ready, now);
    var launched := set n | n in Started(t, ready, now) :: n.id;
    if t.nodes[i].id in launched {
      var m :| m in Started(t, ready, now) && m.id == t.nodes[i].id;
      var j: nat :| StartedFrom(t, ready, now, m, j);
      assert t.nodes[j].id == t.nodes[i].id && i == j;
    } else if Started(t, ready, now) != [] && Startable(t.nodes[i], ready, t.nodes) {
      StartedComplete(t, ready, now, i);
    }
  }

  lemma ApiSpendsNothing(t: Task, a: ApiStep, i: nat)
    requires !a.RetryCall? && i < |t.nodes|
    ensures i < |TaskAfter(t, a).nodes| && TaskAfter(t, a).nodes[i].attempts == t.nodes[i].attempts
  {
  }

  lemma RunSpendsNothing(s: State, w: nat, k: nat, a: ExecStep, i: nat)
    requires RunEnabled(s, w, k, a) && i < |s.task.nodes|
    ensures var nodes := FireRun(s, w, k, a).task.nodes; i < |nodes| && nodes[i].attempts == s.task.nodes[i].attempts
  {
  }

  /** Outside Retry an attempt is counted exactly when an executor is started, and only for a pending node. */
  lemma StepCounts(s: State, step: Step, i: nat)
    requires Inv(s) && Enabled(s, step) && i < |s.task.nodes|
    ensures |Fire(s, step).task.nodes| == |s.task.nodes|
    ensures !IsRetry(step) ==>
      var spent := if s.task.nodes[i].id in Launched(s, step) then 1 else 0;
      Fire(s, step).task.nodes[i].attempts == s.task.nodes[i].attempts + spent
    ensures s.task.nodes[i].id in Launched(s, step) ==> s.task.nodes[i].status.Pending?
  {
    match step
    case Api(a) =>
      TaskAfterEvolves(s.task, a);
      if !a.RetryCall? { ApiSpendsNothing(s.task, a, i); }
    case Work(w, a) => WorkCounts(s, w, a, i);
    case Run(w, k, a) =>
      RunMoves(s, w, k, a);
      RunSpendsNothing(s, w, k, a, i);
    case Crash =>
  }

  lemma WorkCounts(s: State, w: nat, a: WorkerStep, i: nat)
    requires Inv(s) && WorkEnabled(s, w, a) && i < |s.task.nodes|
    ensures |FireWork(s, w, a).task.nodes| == |s.task.nodes|
    ensures var spent := if s.task.nodes[i].id in Launched(s, Work(w, a)) then 1 else 0;
            FireWork(s, w, a).task.nodes[i].attempts == s.task.nodes[i].attempts + spent
    ensures s.task.nodes[i].id in Launched(s, Work(w, a)) ==> s.task.nodes[i].status.Pending?
  {
    if a.Launch? {
      assert WorkerOk(s.task, s.workers[w]);
      LaunchSpends(s.task, s.workers[w].phase.ready, a.now, i);
    }
  }

  /** The attempt budget bounds the invocations of a node between two manual retries, through crashes and
      recoveries: a schedule without Retry starts it exactly as often as its attempts grow. */
  lemma {:induction false} InvocationsAreBudgeted(s: State, schedule: seq<Step>, s': State, i: nat)
    requires Inv(s) && Reaches(s, schedule, s') && i < |s.task.nodes|
    requires forall step <- schedule :: !IsRetry(step)
    ensures i < |s'.task.nodes| && s'.task.nodes[i].maxAttempts == s.task.nodes[i].maxAttempts
    ensures Launches(s, schedule, s.task.nodes[i].id) == s'.task.nodes[i].attempts - s.task.nodes[i].attempts
    ensures Launches(s, schedule, s.task.nodes[i].id) <= s.task.nodes[i].maxAttempts
    decreases |schedule|
  {
    if schedule != [] {
      StepKeeps(s, schedule[0]);
      StepMoves(s, schedule[0]);
      StepCounts(s, schedule[0], i);
      assert SameShape(s.task.nodes[i], Fire(s, schedule[0]).task.nodes[i]);
      InvocationsAreBudgeted(Fire(s, schedule[0]), schedule[1..], s', i);
    }
    RunsKeep(s, schedule);
  }

  /** A succeeded node is never invoked again, manual retries included. */
  lemma {:induction false} SucceededIsNeverReinvoked(s: State, schedule: seq<Step>, s': State, id: NodeID)
    requires Inv(s) && Reaches(s, schedule, s') && id in Done(s.task.nodes)
    ensures Launches(s, schedule, id) == 0
    decreases |schedule|
  {
    if schedule != [] {
      StepKeeps(s, schedule[0]);
      StepMoves(s, schedule[0]);
      var i :| 0 <= i < |s.task.nodes| && s.task.nodes[i].status.Succeeded? && s.task.nodes[i].id == id;
      StepCounts(s, schedule[0], i);
      SucceededIsNeverReinvoked(Fire(s, schedule[0]), schedule[1..], s', id);
    }
  }
}
