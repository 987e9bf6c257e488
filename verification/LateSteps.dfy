/** What a late step of an executor finds: the parking that no status stops, and the completions that a late Recover
    takes away. */
module LateSteps {
  import opened Types
  import opened TaskOps
  import opened TaskInvariant
  import opened Progress
  import opened System
  import opened SystemInvariant
  import opened SystemResults
  import opened Scheduling
  import opened Recovery
  import opened Contents

  // ---------------------------------------------------------------- the parking nobody stops

  predicate Parks(step: Step) {
    step.Run? && step.run.Park? && step.run.ok
  }

  /** A cancelled task is written to by exactly one kind of step: an executor that parks its node. */
  lemma OnlyParkingTouchesCancelled(s: State, step: Step)
    requires Inv(s) && Enabled(s, step) && s.task.status.TaskCancelled?
    ensures Fire(s, step).task != s.task <==> Parks(step)
  {
    match step
    case Api(a) => ApiRespects(s, a);
    case Work(w, a) => WorkLeavesCancelled(s, w, a);
    case Run(w, k, a) => if Parks(step) { ParkingShows(s, w, k, a.now); }
    case Crash =>
  }

  lemma WorkLeavesCancelled(s: State, w: nat, a: WorkerStep)
    requires Inv(s) && WorkEnabled(s, w, a) && s.task.status.TaskCancelled?
    ensures FireWork(s, w, a).task == s.task
  {
    if a.Launch? { StartedOnlyIfOpen(s.task, s.workers[w].phase.ready, a.now); }
  }

  /** The node was not waiting before, whatever the status of the task; now it is. */
  lemma ParkingShows(s: State, w: nat, k: nat, now: Time)
    requires Inv(s) && RunEnabled(s, w, k, System.Park(now, true))
    ensures FireRun(s, w, k, System.Park(now, true)).task != s.task
  {
    var e, t' := ExecAt(s, w, k), FireRun(s, w, k, System.Park(now, true)).task;
    assert WorkerOk(s.task, s.workers[w]) && ExecOk(s.task, e);
    var i :| 0 <= i < |s.task.nodes| && s.task.nodes[i].id == e.node.id;
    assert ExecNodeOk(e, s.task.nodes[i]);
    assert t'.nodes[i].status.Waiting? && !s.task.nodes[i].status.Waiting?;
  }

  // ---------------------------------------------------------------- live executors and their nodes

  /** In an unfinished task every executor that has not finished or parked finds its node running. */
  ghost predicate RunsLive(t: Task, phase: WorkerPhase) {
    !t.status.Terminal() && phase.Batch? ==>
      forall k, i :: 0 <= k < |phase.execs| && 0 <= i < |t.nodes| && t.nodes[i].id == phase.execs[k].node.id ==>
        BeforeParking(phase.execs[k].phase) ==> t.nodes[i].status.Running?
  }

  ghost predicate LiveRuns(s: State) {
    SlotOk(s) && RunsLive(s.task, PhaseOf(s))
  }

  /** Some executor is still on its way to finishing or parking. */
  predicate AtWork(phase: WorkerPhase) {
    phase.Batch? && exists e <- phase.execs :: BeforeParking(e.phase)
  }

  lemma ApiKeepsRunning(t: Task, a: ApiStep, i: nat)
    requires i < |t.nodes| && t.nodes[i].status.Running? && UniqueIds(t.nodes) && !(a.Requeue? && a.ok)
    ensures i < |TaskAfter(t, a).nodes| && TaskAfter(t, a).nodes[i].id == t.nodes[i].id
    ensures t.status.TaskFailed? || TaskAfter(t, a).status.Terminal() || TaskAfter(t, a).nodes[i].status.Running?
  {
    DoneOf(t.nodes, i);
  }

  lemma ApiKeepsRunsLive(t: Task, a: ApiStep, phase: WorkerPhase)
    requires TaskOk(t) && RunsLive(t, phase) && (phase.Batch? ==> !t.status.TaskFailed?)
    requires !(a.Requeue? && a.ok) || !AtWork(phase)
    ensures RunsLive(TaskAfter(t, a), phase)
  {
    var t' := TaskAfter(t, a);
    ApiStartsNothing(t, a);
    TaskAfterEvolves(t, a);
    if !t'.status.Terminal() && phase.Batch? {
      forall k, i | 0 <= k < |phase.execs| && BeforeParking(phase.execs[k].phase)
                    && 0 <= i < |t'.nodes| && t'.nodes[i].id == phase.execs[k].node.id
        ensures t'.nodes[i].status.Running?
      {
        assert phase.execs[k] in phase.execs;
        assert SameShape(t.nodes[i], t'.nodes[i]);
        ApiKeepsRunning(t, a, i);
      }
    }
  }

  lemma ApiKeepsLiveRuns(s: State, a: ApiStep)
    requires Inv(s) && LiveRuns(s) && ApiEnabled(s, a)
    requires !(a.Requeue? && a.ok) || !AtWork(PhaseOf(s))
    ensures LiveRuns(FireApi(s, a))
  {
    ApiKeeps(s, a);
    ApiLeavesTheWorker(s, a);
    if s.slot.Some? { assert WorkerOk(s.task, s.workers[s.slot.value]); }
    ApiKeepsRunsLive(s.task, a, PhaseOf(s));
  }

  lemma LaunchRunsLive(t: Task, ready: seq<NodeID>, now: Time)
    requires TaskOk(t) && Distinct(ready) && Started(t, ready, now) != []
    ensures RunsLive(StartNodes(t, ready, now), Batch(Spawn(Started(t, ready, now))))
  {
    var t', started := StartNodes(t, ready, now), Started(t, ready, now);
    StartedSound(t, ready, now);
    forall k, i | 0 <= k < |started| && 0 <= i < |t'.nodes| && t'.nodes[i].id == started[k].id
      ensures t'.nodes[i].status.Running?
    {
      assert started[k] in started;
      var j: nat :| StartedFrom(t, ready, now, started[k], j);
      assert i == j;
    }
  }

  lemma WorkKeepsLiveRuns(s: State, w: nat, a: WorkerStep)
    requires Inv(s) && LiveRuns(s) && WorkEnabled(s, w, a)
    ensures LiveRuns(FireWork(s, w, a))
  {
    OnlyWorker(s, w);
    WorkKeeps(s, w, a);
    assert WorkerOk(s.task, s.workers[w]);
    if a.Launch? && a.ok && Started(s.task, s.workers[w].phase.ready, a.now) != [] {
      LaunchRunsLive(s.task, s.workers[w].phase.ready, a.now);
    } else if s.slot.Some? && FireWork(s, w, a).slot.Some? {
      assert !PhaseOf(FireWork(s, w, a)).Batch?;
    }
  }

  lemma RunKeepsLiveRuns(s: State, w: nat, k: nat, a: ExecStep)
    requires Inv(s) && LiveRuns(s) && RunEnabled(s, w, k, a)
    ensures LiveRuns(FireRun(s, w, k, a))
  {
    OnlyWorker(s, w);
    RunKeeps(s, w, k, a);
    RunLeavesTheRest(s, w, k, a);
    var execs, t' := s.workers[w].phase.execs, FireRun(s, w, k, a).task;
    var phase' := FireRun(s, w, k, a).workers[w].phase.execs[k].phase;
    assert WorkerOk(s.task, s.workers[w]);
    forall i | 0 <= i < |t'.nodes|
      ensures t'.nodes[i].id == s.task.nodes[i].id
      ensures t'.nodes[i].id != execs[k].node.id ==> t'.nodes[i] == s.task.nodes[i]
    {
      RunChangesOnlyItsNode(s, w, k, a, i);
    }
    if BeforeParking(phase') { MovingOnWritesNothing(s, w, k, a); }
    MovedRunsLive(s.task, t', execs, k, phase');
  }

  lemma MovedRunsLive(t: Task, t': Task, execs: seq<Exec>, k: nat, phase': ExecPhase)
    requires RunsLive(t, Batch(execs)) && k < |execs| && DistinctNodes(execs)
    requires |t'.nodes| == |t.nodes| && t'.status == t.status
    requires forall i :: 0 <= i < |t.nodes| ==> t'.nodes[i].id == t.nodes[i].id
    requires forall i :: 0 <= i < |t.nodes| && t.nodes[i].id != execs[k].node.id ==> t'.nodes[i] == t.nodes[i]
    requires BeforeParking(phase') ==> t' == t && BeforeParking(execs[k].phase)
    ensures RunsLive(t', Batch(execs[k := execs[k].(phase := phase')]))
  {
    var execs' := execs[k := execs[k].(phase := phase')];
    if !t.status.Terminal() {
      forall j, i | 0 <= j < |execs'| && BeforeParking(execs'[j].phase)
                    && 0 <= i < |t'.nodes| && t'.nodes[i].id == execs'[j].node.id
        ensures t'.nodes[i].status.Running?
      {
        assert BeforeParking(execs[j].phase) && (j != k ==> execs[j].node.id != execs[k].node.id);
      }
    }
  }

  lemma MovingOnWritesNothing(s: State, w: nat, k: nat, a: ExecStep)
    requires RunEnabled(s, w, k, a) && HasExec(FireRun(s, w, k, a), w, k)
    requires BeforeParking(ExecAt(FireRun(s, w, k, a), w, k).phase)
    ensures FireRun(s, w, k, a).task == s.task && BeforeParking(ExecAt(s, w, k).phase)
  {
  }

  /** A requeue that locks an unfinished task while an executor is at work. */
  predicate TakesAway(s: State, step: Step)
    requires SlotOk(s)
  {
    Requeues(step) && AtWork(PhaseOf(s))
  }

  lemma StepKeepsLiveRuns(s: State, step: Step)
    requires Inv(s) && LiveRuns(s) && Enabled(s, step) && !TakesAway(s, step)
    ensures LiveRuns(Fire(s, step))
  {
    match step
    case Api(a) => ApiKeepsLiveRuns(s, a);
    case Work(w, a) => WorkKeepsLiveRuns(s, w, a);
    case Run(w, k, a) => RunKeepsLiveRuns(s, w, k, a);
    case Crash =>
  }

  /** Exactly the requeue that meets an executor at work takes its node away. */
  lemma RequeueTakesAway(s: State, now: Time)
    requires Inv(s) && LiveRuns(s) && ApiEnabled(s, Requeue(now, true)) && !s.task.status.Terminal()
    ensures LiveRuns(FireApi(s, Requeue(now, true))) <==> !AtWork(PhaseOf(s))
  {
    var a, phase := Requeue(now, true), PhaseOf(s);
    if !AtWork(phase) {
      ApiKeepsLiveRuns(s, a);
    } else {
      ApiLeavesTheWorker(s, a);
      assert WorkerOk(s.task, s.workers[s.slot.value]);
      var k :| 0 <= k < |phase.execs| && BeforeParking(phase.execs[k].phase);
      assert ExecOk(s.task, phase.execs[k]);
      TakenAway(s.task, phase, k, now);
    }
  }

  lemma TakenAway(t: Task, phase: WorkerPhase, k: nat, now: Time)
    requires !t.status.Terminal() && phase.Batch? && k < |phase.execs| && BeforeParking(phase.execs[k].phase)
    requires RunsLive(t, phase) && phase.execs[k].node.id in Ids(t.nodes)
    ensures !RunsLive(Recover(t, now), phase)
  {
    var i :| 0 <= i < |t.nodes| && t.nodes[i].id == phase.execs[k].node.id;
    assert t.nodes[i].status.Running? && t.nodes[i] in t.nodes;
    assert Recover(t, now).nodes[i] == RequeueNode(t.nodes[i], now);
  }

  // ---------------------------------------------------------------- completions are recorded

  /** finishNode writes exactly when the task is unfinished and the node is still running; otherwise the outcome of
      the invocation is dropped. */
  lemma CompletionIsRecordedExactly(s: State, w: nat, k: nat, now: Time, i: nat)
    requires Inv(s) && RunEnabled(s, w, k, System.Finish(now, true))
    requires i < |s.task.nodes| && s.task.nodes[i].id == ExecAt(s, w, k).node.id
    ensures var t' := FireRun(s, w, k, System.Finish(now, true)).task;
      && (t' != s.task <==> !s.task.status.Terminal() && s.task.nodes[i].status.Running?)
      && (t' != s.task ==>
            && Records(s.task.nodes[i], t'.nodes[i], ExecAt(s, w, k).phase.outcome, now)
            && OnlyAt(s.task.nodes, t'.nodes, i))
  {
    var e, n := ExecAt(s, w, k), s.task.nodes[i];
    assert WorkerOk(s.task, s.workers[w]) && ExecOk(s.task, e) && ExecNodeOk(e, n);
    assert n in s.task.nodes;
    if !n.status.Running? {
      forall m <- s.task.nodes ensures !Finishable(m, e.node.id) {
        var j :| 0 <= j < |s.task.nodes| && s.task.nodes[j] == m;
        assert m.id == e.node.id ==> j == i;
      }
    } else if !s.task.status.Terminal() {
      FinishStores(s.task, e.node.id, e.phase.outcome, now, i);
    }
  }

  /** No requeue of the schedule meets an executor at work. */
  ghost predicate Undisturbed(s: State, schedule: seq<Step>)
    decreases |schedule|
  {
    schedule != [] && Enabled(s, schedule[0]) && SlotOk(s) ==>
      !TakesAway(s, schedule[0]) && Undisturbed(Fire(s, schedule[0]), schedule[1..])
  }

  lemma {:induction false} LiveRunsInRuns(s: State, schedule: seq<Step>, s': State)
    requires Inv(s) && LiveRuns(s) && Reaches(s, schedule, s') && Undisturbed(s, schedule)
    ensures LiveRuns(s')
    decreases |schedule|
  {
    if schedule != [] {
      StepKeeps(s, schedule[0]);
      StepKeepsLiveRuns(s, schedule[0]);
      LiveRunsInRuns(Fire(s, schedule[0]), schedule[1..], s');
    }
  }

  /** No completion is lost: in every run from a submission, through crashes, recoveries, retries and repository errors,
      as long as no requeue meets an executor at work, whatever an invocation returns while the task is unfinished is
      stored at its node. */
  lemma NoCompletionIsLost(s: State, schedule: seq<Step>, s': State, w: nat, k: nat, now: Time, i: nat)
    requires Initial(s) && GraphOk(s.task.nodes) && Reaches(s, schedule, s') && Undisturbed(s, schedule)
    requires RunEnabled(s', w, k, System.Finish(now, true)) && !s'.task.status.Terminal()
    requires i < |s'.task.nodes| && s'.task.nodes[i].id == ExecAt(s', w, k).node.id
    ensures var t' := FireRun(s', w, k, System.Finish(now, true)).task;
      && Records(s'.task.nodes[i], t'.nodes[i], ExecAt(s', w, k).phase.outcome, now)
      && OnlyAt(s'.task.nodes, t'.nodes, i)
  {
    InitialOk(s);
    RunsKeep(s, schedule);
    LiveRunsInRuns(s, schedule, s');
    OnlyWorker(s', w);
    CompletionIsRecordedExactly(s', w, k, now, i);
  }
}
