/** A single worker that is never lost, the nodes a failed task gives up on, and how much work a worker can do. */
module Scheduling {
  import opened Types
  import opened TaskOps
  import opened TaskInvariant
  import opened Progress
  import opened System
  import opened SystemInvariant
  import opened SystemResults

  /** No crash and no repository error. */
  predicate Reliable(step: Step) {
    match step
    case Api(a) => (a.Requeue? || a.Recheck? ==> a.ok)
    case Work(_, a) => (a.Look? || a.Mark? || a.Settle? || a.Launch? ==> a.ok)
    case Run(_, _, a) => (a.Read? || a.Finish? || a.Park? ==> a.ok)
    case Crash => false
  }

  // ---------------------------------------------------------------- one worker, and never none

  /** Whatever happened, the task has at most one worker. */
  lemma AtMostOneWorker(s: State, schedule: seq<Step>, s': State)
    requires Inv(s) && Reaches(s, schedule, s')
    ensures |s'.workers| <= 1
  {
    RunsKeep(s, schedule);
    assert |s'.workers| == |s'.workers.Keys|;
  }

  /** A worker that will leave without a recheck, or an executor that returned an error, serves a cancelled task. */
  ghost predicate PhaseSound(t: Task, phase: WorkerPhase) {
    && (phase.Leaving? && !phase.recheck ==> t.status.TaskCancelled?)
    && (phase.Batch? ==> forall e <- phase.execs :: e.phase.Returned? && !e.phase.clean ==> t.status.TaskCancelled?)
  }

  /** An unfinished task has a worker, or someone who will start one or look again. */
  ghost predicate Served(s: State) {
    s.task.status.Terminal() || s.slot.Some? || ToStart in s.callers || ToRecheck in s.callers || ToRequeue in s.callers
  }

  ghost predicate Scheduled(s: State) {
    Served(s) && forall w <- s.workers :: PhaseSound(s.task, s.workers[w].phase)
  }

  /** A step that takes up an obligation to serve an unfinished task leaves another one or a worker. */
  lemma ServingStepServes(s: State, a: ApiStep)
    requires ApiEnabled(s, a) && Reliable(Api(a)) && (a.Start? || a.Recheck? || a.Requeue?)
    ensures Served(FireApi(s, a))
  {
  }

  lemma ObligationStays(s: State, a: ApiStep, c: Caller)
    requires ApiEnabled(s, a) && c in s.callers && c !in Consumed(a)
    ensures c in FireApi(s, a).callers
  {
  }

  lemma WorkerStays(s: State, a: ApiStep)
    requires ApiEnabled(s, a) && s.slot.Some?
    ensures FireApi(s, a).slot == s.slot
  {
  }

  lemma OtherStepServes(s: State, a: ApiStep)
    requires Served(s) && ApiEnabled(s, a) && !a.Start? && !a.Recheck? && !a.Requeue?
    requires s.task.status.Terminal() ==> TaskAfter(s.task, a).status.Terminal()
    ensures Served(FireApi(s, a))
  {
    if s.slot.Some? {
      WorkerStays(s, a);
    } else if ToStart in s.callers {
      ObligationStays(s, a, ToStart);
    } else if ToRecheck in s.callers {
      ObligationStays(s, a, ToRecheck);
    } else if ToRequeue in s.callers {
      ObligationStays(s, a, ToRequeue);
    }
  }

  lemma RetryServes(s: State, now: Time)
    requires s.task.status.TaskFailed?
    ensures Served(FireApi(s, RetryCall(now)))
  {
  }

  lemma ApiServes(s: State, a: ApiStep)
    requires Served(s) && ApiEnabled(s, a) && Reliable(Api(a))
    ensures Served(FireApi(s, a))
  {
    if a.Start? || a.Recheck? || a.Requeue? {
      ServingStepServes(s, a);
    } else if a.RetryCall? && s.task.status.TaskFailed? {
      RetryServes(s, a.now);
    } else {
      if s.task.status.Terminal() { ApiRespects(s, a); }
      OtherStepServes(s, a);
    }
  }

  lemma ApiLeavesPhases(s: State, a: ApiStep, w: nat)
    requires ApiEnabled(s, a) && w in FireApi(s, a).workers
    ensures FireApi(s, a).workers[w].phase.Top?
      || (w in s.workers && FireApi(s, a).workers[w].phase == s.workers[w].phase)
  {
  }

  lemma ApiKeepsPhases(s: State, a: ApiStep)
    requires Scheduled(s) && ApiEnabled(s, a)
    ensures forall w <- FireApi(s, a).workers :: PhaseSound(FireApi(s, a).task, FireApi(s, a).workers[w].phase)
  {
    if s.task.status.TaskCancelled? { ApiRespects(s, a); }
    forall w <- FireApi(s, a).workers
      ensures PhaseSound(FireApi(s, a).task, FireApi(s, a).workers[w].phase)
    {
      ApiLeavesPhases(s, a, w);
      if w in s.workers { assert PhaseSound(s.task, s.workers[w].phase); }
    }
  }

  lemma WorkServes(s: State, w: nat, a: WorkerStep)
    requires Inv(s) && Scheduled(s) && WorkEnabled(s, w, a) && Reliable(Work(w, a))
    ensures Scheduled(FireWork(s, w, a))
  {
    OnlyWorker(s, w);
    assert WorkerOk(s.task, s.workers[w]) && PhaseSound(s.task, s.workers[w].phase);
    StepMoves(s, Work(w, a));
  }

  lemma RunServes(s: State, w: nat, k: nat, a: ExecStep)
    requires Inv(s) && Scheduled(s) && RunEnabled(s, w, k, a) && Reliable(Run(w, k, a))
    ensures Scheduled(FireRun(s, w, k, a))
  {
    OnlyWorker(s, w);
    RunLeavesTheRest(s, w, k, a);
    ReturnsWithErrorWhenCancelled(s, w, k, a);
    var execs, s' := s.workers[w].phase.execs, FireRun(s, w, k, a);
    var execs' := s'.workers[w].phase.execs;
    assert PhaseSound(s.task, s.workers[w].phase);
    forall j | 0 <= j < |execs'| && execs'[j].phase.Returned? && !execs'[j].phase.clean
      ensures s.task.status.TaskCancelled?
    {
      assert j != k ==> execs'[j] == execs[j] && execs[j] in execs;
    }
  }

  lemma ReturnsWithErrorWhenCancelled(s: State, w: nat, k: nat, a: ExecStep)
    requires Inv(s) && RunEnabled(s, w, k, a) && Reliable(Run(w, k, a))
    requires var s' := FireRun(s, w, k, a); HasExec(s', w, k)
    ensures ExecAt(FireRun(s, w, k, a), w, k).phase == Returned(false) ==> s.task.status.TaskCancelled?
  {
    assert WorkerOk(s.task, s.workers[w]) && ExecOk(s.task, ExecAt(s, w, k));
  }

  /** An executor step moves its own executor, writes its own node and nothing else of the task's shape. */
  lemma RunLeavesTheRest(s: State, w: nat, k: nat, a: ExecStep)
    requires RunEnabled(s, w, k, a)
    ensures var s' := FireRun(s, w, k, a);
      && s'.slot == s.slot && w in s'.workers && s'.task.status == s.task.status && |s'.task.nodes| == |s.task.nodes|
      && s'.workers[w].phase.Batch? && k < |s'.workers[w].phase.execs|
      && var execs := s.workers[w].phase.execs;
         s'.workers[w].phase == Batch(execs[k := execs[k].(phase := s'.workers[w].phase.execs[k].phase)])
  {
  }

  lemma RunChangesOnlyItsNode(s: State, w: nat, k: nat, a: ExecStep, i: nat)
    requires RunEnabled(s, w, k, a) && i < |s.task.nodes|
    ensures var s' := FireRun(s, w, k, a);
      && |s'.task.nodes| == |s.task.nodes| && s'.task.nodes[i].id == s.task.nodes[i].id
      && (s.task.nodes[i].id != ExecAt(s, w, k).node.id ==> s'.task.nodes[i] == s.task.nodes[i])
  {
  }

  /** An executor returns an error exactly when the repository failed it or its context was cancelled. */
  lemma ReturnsWithErrorExactly(s: State, w: nat, k: nat, a: ExecStep)
    requires Inv(s) && RunEnabled(s, w, k, a) && HasExec(FireRun(s, w, k, a), w, k)
    ensures ExecAt(FireRun(s, w, k, a), w, k).phase == Returned(false) <==>
      a.GiveUp? || ((a.Read? || a.Finish? || a.Park?) && !a.ok)
  {
    assert WorkerOk(s.task, s.workers[w]) && ExecOk(s.task, ExecAt(s, w, k));
  }

  /** A worker that meets a repository error leaves without asking for another look: no hot restart loop. It asks for
      one exactly when it has seen the task ended, and only then does its release leave an obligation behind. */
  lemma RechecksExactly(s: State, w: nat, a: WorkerStep)
    requires WorkEnabled(s, w, a)
    ensures (a.Look? || a.Mark? || a.Settle? || a.Launch?) && !a.ok ==>
      FireWork(s, w, a) == SetPhase(s, w, Leaving(false))
    ensures !a.Release? ==>
      var phase := FireWork(s, w, a).workers[w].phase;
      phase == Leaving(true) <==> a.Look? && a.ok && s.task.status.Terminal()
    ensures a.Release? ==>
      FireWork(s, w, a).callers
      == s.callers + if s.workers[w].phase == Leaving(true) then multiset{ToRecheck} else multiset{}
  {
  }

  /** A worker goes round again exactly when no executor of its batch returned an error; otherwise it leaves without
      looking at the task once more. */
  lemma JoinsExactly(s: State, w: nat)
    requires WorkEnabled(s, w, Join)
    ensures var s', execs := FireWork(s, w, Join), s.workers[w].phase.execs;
      && w in s'.workers && s'.task == s.task
      && (s'.workers[w].phase == Top <==> forall k :: 0 <= k < |execs| ==> execs[k].phase.clean)
      && (s'.workers[w].phase == Leaving(false) <==> exists k :: 0 <= k < |execs| && !execs[k].phase.clean)
  {
    var execs := s.workers[w].phase.execs;
    forall k | 0 <= k < |execs| ensures execs[k].phase.Returned? { assert execs[k] in execs; }
  }

  lemma StepServes(s: State, step: Step)
    requires Inv(s) && Scheduled(s) && Enabled(s, step) && Reliable(step)
    ensures Scheduled(Fire(s, step))
  {
    if step.Api? {
      ApiServes(s, step.api);
      ApiKeepsPhases(s, step.api);
    } else if step.Work? {
      WorkServes(s, step.w, step.work);
    } else {
      RunServes(s, step.w, step.k, step.run);
    }
  }

  /** No retry is lost: with a repository that does not fail, in every interleaving of submissions, retries,
      cancellations, confirmations, recoveries and a worker that is shutting down, an unfinished task keeps a worker or
      someone who will re-check and start one. */
  lemma {:induction false} NoLostRetry(s: State, schedule: seq<Step>, s': State)
    requires Inv(s) && Scheduled(s) && Reaches(s, schedule, s')
    requires forall step <- schedule :: Reliable(step)
    ensures Scheduled(s')
    decreases |schedule|
  {
    if schedule != [] {
      assert schedule[0] in schedule;
      StepKeeps(s, schedule[0]);
      StepServes(s, schedule[0]);
      NoLostRetry(Fire(s, schedule[0]), schedule[1..], s');
    }
  }

  /** A crash forgets the worker; calling Recover afterwards serves the task again. */
  lemma RecoverServesAgain(s: State)
    requires Inv(s)
    ensures Scheduled(Fire(Fire(s, Crash), Api(RecoverCall)))
  {
  }

  /** Nobody starts a worker for a task that has ended, but a retry of a failed one and a Recover that is under way. */
  lemma EndedTasksAreLeftAlone(s: State, a: ApiStep)
    requires ApiEnabled(s, a) && s.task.status.Terminal() && ToStart !in s.callers
    requires ToStart in FireApi(s, a).callers
    ensures a.Requeue? || (a.RetryCall? && s.task.status.TaskFailed?)
  {
  }

  /** Recover passes a task by that has a worker. */
  lemma RecoverPassesActiveTasks(s: State)
    requires s.slot.Some?
    ensures FireApi(s, RecoverCall) == s
  {
  }

  /** So does submitting it once more, and retrying it once it has failed. */
  lemma CallersServeAgain(s: State, now: Time)
    requires Inv(s)
    ensures Scheduled(Fire(Fire(s, Crash), Api(SubmitAgain)))
    ensures s.task.status.TaskFailed? ==> Scheduled(Fire(Fire(s, Crash), Api(RetryCall(now))))
  {
  }

  // ---------------------------------------------------------------- no orphans, and maximal failure

  ghost predicate LiveExec(phase: WorkerPhase, id: NodeID) {
    phase.Batch? && exists e <- phase.execs :: e.node.id == id && !e.phase.Returned?
  }

  /** Every running or waiting node of an unfinished task has its executor. Only a crash or a repository error can
      leave one without. */
  ghost predicate Owned(t: Task, phase: WorkerPhase) {
    !t.status.Terminal() ==>
      forall i :: 0 <= i < |t.nodes| && (t.nodes[i].status.Running? || t.nodes[i].status.Waiting?) ==>
        LiveExec(phase, t.nodes[i].id)
  }

  /** The phase of the worker, if there is one. */
  function PhaseOf(s: State): WorkerPhase
    requires SlotOk(s)
  {
    if s.slot.Some? then s.workers[s.slot.value].phase else Leaving(true)
  }

  /** What the worker saw is still so when it acts on it. */
  ghost predicate SightHolds(t: Task, phase: WorkerPhase) {
    !t.status.Terminal() ==>
      && (phase.Marking? ==> t.status.TaskPending?)
      && (phase.Settling? ==> forall i :: !Ready(t.nodes, i))
      && (phase.Launching? ==> exists i: nat :: Ready(t.nodes, i) && t.nodes[i].id in phase.ready)
  }

  ghost predicate Quiet(s: State) {
    && SlotOk(s)
    && Owned(s.task, PhaseOf(s))
    && SightHolds(s.task, PhaseOf(s))
    && (s.task.status.TaskFailed? ==> GivesUpOnlyOnFailure(s.task.nodes))
  }

  predicate Busy(n: Node) {
    n.status.Running? || n.status.Waiting?
  }

  lemma IdleWithoutExecs(t: Task, phase: WorkerPhase)
    requires Owned(t, phase) && !t.status.Terminal()
    requires phase.Batch? ==> forall e <- phase.execs :: e.phase.Returned?
    ensures !AnyBusy(t.nodes) && forall i :: 0 <= i < |t.nodes| ==> !Busy(t.nodes[i])
  {
    forall i | 0 <= i < |t.nodes| ensures !Busy(t.nodes[i]) {
      assert !LiveExec(phase, t.nodes[i].id);
    }
  }

  lemma ApiStartsNothing(t: Task, a: ApiStep)
    ensures |TaskAfter(t, a).nodes| == |t.nodes|
    ensures forall i :: 0 <= i < |t.nodes| && Busy(TaskAfter(t, a).nodes[i]) ==>
      Busy(t.nodes[i]) && TaskAfter(t, a).nodes[i].id == t.nodes[i].id
    ensures !TaskAfter(t, a).status.Terminal() && t.status.Terminal() ==> t.status.TaskFailed?
    ensures TaskAfter(t, a).status.TaskFailed? ==> TaskAfter(t, a) == t
  {
  }

  lemma ApiKeepsOwned(t: Task, a: ApiStep, phase: WorkerPhase)
    requires TaskOk(t) && Owned(t, phase)
    ensures Owned(TaskAfter(t, a), phase)
  {
    ApiStartsNothing(t, a);
    var t' := TaskAfter(t, a);
    if !t'.status.Terminal() {
      forall i | 0 <= i < |t'.nodes| && Busy(t'.nodes[i]) ensures LiveExec(phase, t'.nodes[i].id) {
        assert t.nodes[i] in t.nodes;
      }
    }
  }

  /** Between the look that found nothing ready and completeIfBlocked, nobody can make a node ready. */
  lemma ApiLeavesIdleNodes(t: Task, a: ApiStep)
    requires TaskOk(t) && !t.status.Terminal() && forall i :: 0 <= i < |t.nodes| ==> !Busy(t.nodes[i])
    requires !TaskAfter(t, a).status.Terminal()
    ensures |TaskAfter(t, a).nodes| == |t.nodes|
    ensures forall i :: 0 <= i < |t.nodes| ==> TaskAfter(t, a).nodes[i].status == t.nodes[i].status
  {
  }

  lemma SameStatusesSameReady(nodes: seq<Node>, nodes': seq<Node>, i: nat)
    requires SameShapes(nodes, nodes') && forall j :: 0 <= j < |nodes| ==> nodes'[j].status == nodes[j].status
    ensures Ready(nodes', i) <==> Ready(nodes, i)
  {
    DoneGrows(nodes, nodes');
    DoneGrows(nodes', nodes);
    assert i < |nodes| ==> SameShape(nodes[i], nodes'[i]);
  }

  lemma ApiKeepsSight(t: Task, a: ApiStep, phase: WorkerPhase)
    requires TaskOk(t) && Owned(t, phase) && SightHolds(t, phase) && !t.status.TaskFailed?
    ensures SightHolds(TaskAfter(t, a), phase)
  {
    var t' := TaskAfter(t, a);
    ApiStartsNothing(t, a);
    if (phase.Marking? || phase.Settling? || phase.Launching?) && !t'.status.Terminal() {
      IdleWithoutExecs(t, phase);
      ApiLeavesIdleNodes(t, a);
      TaskAfterEvolves(t, a);
      forall i: nat ensures Ready(t'.nodes, i) <==> Ready(t.nodes, i) { SameStatusesSameReady(t.nodes, t'.nodes, i); }
      if phase.Launching? {
        var i: nat :| Ready(t.nodes, i) && t.nodes[i].id in phase.ready;
        assert SameShape(t.nodes[i], t'.nodes[i]) && Ready(t'.nodes, i);
      }
    }
  }

  lemma ApiLeavesTheWorker(s: State, a: ApiStep)
    requires SlotOk(s) && ApiEnabled(s, a) && SlotOk(FireApi(s, a))
    ensures s.slot.Some? ==> FireApi(s, a).slot == s.slot && PhaseOf(FireApi(s, a)) == PhaseOf(s)
    ensures s.slot.None? && !a.Start? ==> FireApi(s, a).slot.None?
    ensures s.slot.None? && a.Start? ==> FireApi(s, a).slot.Some? && PhaseOf(FireApi(s, a)).Top?
  {
  }

  lemma ApiKeepsQuiet(s: State, a: ApiStep)
    requires Inv(s) && Quiet(s) && ApiEnabled(s, a)
    ensures Quiet(FireApi(s, a))
  {
    var phase := PhaseOf(s);
    ApiKeeps(s, a);
    ApiLeavesTheWorker(s, a);
    ApiKeepsOwned(s.task, a, phase);
    if phase.Marking? || phase.Settling? || phase.Launching? {
      assert WorkerOk(s.task, s.workers[s.slot.value]);
      ApiKeepsSight(s.task, a, phase);
    }
    ApiStartsNothing(s.task, a);
  }

  lemma OwnedAnywhere(t: Task, phase: WorkerPhase, phase': WorkerPhase)
    requires Owned(t, phase) && (phase.Batch? ==> forall e <- phase.execs :: e.phase.Returned?)
    ensures Owned(t, phase')
  {
    if !t.status.Terminal() { IdleWithoutExecs(t, phase); }
  }

  lemma LaunchOwns(t: Task, phase: WorkerPhase, now: Time)
    requires TaskOk(t) && Owned(t, phase) && phase.Launching? && Distinct(phase.ready)
    ensures Owned(StartNodes(t, phase.ready, now), Batch(Spawn(Started(t, phase.ready, now))))
  {
    var t', started := StartNodes(t, phase.ready, now), Started(t, phase.ready, now);
    if !t.status.Terminal() {
      IdleWithoutExecs(t, phase);
      forall i | 0 <= i < |t'.nodes| && Busy(t'.nodes[i]) ensures LiveExec(Batch(Spawn(started)), t'.nodes[i].id) {
        assert Startable(t.nodes[i], phase.ready, t.nodes);
        StartedComplete(t, phase.ready, now, i);
        var k :| 0 <= k < |started| && started[k] == StartNode(t.nodes[i], now);
        assert Spawn(started)[k] in Spawn(started);
      }
    }
  }

  lemma SettleIsMaximal(t: Task, now: Time)
    requires TaskOk(t) && SightHolds(t, Settling) && (t.status.TaskFailed? ==> GivesUpOnlyOnFailure(t.nodes))
    ensures Complete(t, now).status.TaskFailed? ==> GivesUpOnlyOnFailure(Complete(t, now).nodes)
  {
    if !t.status.Terminal() && Complete(t, now).status.TaskFailed? {
      NothingReady(t.nodes);
      FailureIsMaximal(t, now);
    }
  }

  lemma LookSees(t: Task, cancelled: bool)
    requires TaskOk(t)
    ensures SightHolds(t, AfterLook(t, cancelled))
  {
    NothingReady(t.nodes);
    ReadyNodesExact(t.nodes, 0);
    if ReadyNodes(t.nodes) != [] {
      var i: nat :| Ready(t.nodes, i);
      assert t.nodes[i].id in ReadyNodes(t.nodes);
    }
  }

  lemma WorkKeepsQuiet(s: State, w: nat, a: WorkerStep)
    requires Inv(s) && Quiet(s) && WorkEnabled(s, w, a) && Reliable(Work(w, a))
    ensures Quiet(FireWork(s, w, a))
  {
    OnlyWorker(s, w);
    var phase, s' := s.workers[w].phase, FireWork(s, w, a);
    assert WorkerOk(s.task, s.workers[w]);
    WorkKeeps(s, w, a);
    match a
    case Look(_) =>
      OwnedAnywhere(s.task, phase, PhaseOf(s'));
      LookSees(s.task, s.workers[w].cancelled);
    case Settle(now, _) => SettleKeepsQuiet(s, w, now);
    case Launch(now, _) => LaunchKeepsQuiet(s, w, now);
    case _ => OwnedAnywhere(s.task, phase, PhaseOf(s'));
  }

  lemma SettleKeepsQuiet(s: State, w: nat, now: Time)
    requires Inv(s) && Quiet(s) && WorkEnabled(s, w, Settle(now, true)) && SlotOk(FireWork(s, w, Settle(now, true)))
    ensures Quiet(FireWork(s, w, Settle(now, true)))
  {
    OnlyWorker(s, w);
    OwnedAnywhere(s.task, Settling, Top);
    SettleIsMaximal(s.task, now);
  }

  lemma LaunchKeepsQuiet(s: State, w: nat, now: Time)
    requires Inv(s) && Quiet(s) && WorkEnabled(s, w, Launch(now, true)) && SlotOk(FireWork(s, w, Launch(now, true)))
    ensures Quiet(FireWork(s, w, Launch(now, true)))
  {
    OnlyWorker(s, w);
    assert WorkerOk(s.task, s.workers[w]);
    OwnedAnywhere(s.task, s.workers[w].phase, Top);
    LaunchOwns(s.task, s.workers[w].phase, now);
  }

  // ---------------------------------------------------------------- executors

  /** Moving executor k keeps every other live executor, and its own when it does not return. */
  lemma LiveAfter(execs: seq<Exec>, k: nat, phase: ExecPhase, id: NodeID)
    requires k < |execs| && LiveExec(Batch(execs), id) && (execs[k].node.id == id ==> !phase.Returned?)
    ensures LiveExec(Batch(execs[k := execs[k].(phase := phase)]), id)
  {
    var execs' := execs[k := execs[k].(phase := phase)];
    var j :| 0 <= j < |execs| && execs[j].node.id == id && !execs[j].phase.Returned?;
    assert execs'[j] in execs';
  }

  lemma RunKeepsOwned(s: State, w: nat, k: nat, a: ExecStep)
    requires Inv(s) && RunEnabled(s, w, k, a) && Reliable(Run(w, k, a)) && Owned(s.task, s.workers[w].phase)
    ensures Owned(FireRun(s, w, k, a).task, FireRun(s, w, k, a).workers[w].phase)
  {
    var t', execs := FireRun(s, w, k, a).task, s.workers[w].phase.execs;
    RunLeavesTheRest(s, w, k, a);
    var phase' := FireRun(s, w, k, a).workers[w].phase.execs[k].phase;
    var batch' := Batch(execs[k := execs[k].(phase := phase')]);
    if !t'.status.Terminal() {
      if phase'.Returned? { ReturnIsIdle(s, w, k, a); }
      forall i | 0 <= i < |t'.nodes| && Busy(t'.nodes[i]) ensures LiveExec(batch', t'.nodes[i].id) {
        RunChangesOnlyItsNode(s, w, k, a, i);
        if t'.nodes[i].id == execs[k].node.id {
          assert batch'.execs[k] in batch'.execs;
        } else {
          LiveAfter(execs, k, phase', t'.nodes[i].id);
        }
      }
    }
  }

  /** An executor that returns leaves its node neither running nor waiting. */
  lemma ReturnIsIdle(s: State, w: nat, k: nat, a: ExecStep)
    requires Inv(s) && RunEnabled(s, w, k, a) && Reliable(Run(w, k, a)) && HasExec(FireRun(s, w, k, a), w, k)
    requires ExecAt(FireRun(s, w, k, a), w, k).phase.Returned? && !FireRun(s, w, k, a).task.status.Terminal()
    ensures var t' := FireRun(s, w, k, a).task;
            forall i :: 0 <= i < |t'.nodes| && t'.nodes[i].id == ExecAt(s, w, k).node.id ==> !Busy(t'.nodes[i])
  {
    if a.Wake? || a.GiveUp? {
      ReturnsWhenIdle(s, w, k, a);
    } else {
      MayPark(s, w, k);
      assert a.Finish? && a.ok;
      FinishedIsIdle(s.task, ExecAt(s, w, k).node.id, ExecAt(s, w, k).phase.outcome, a.now);
    }
  }

  lemma FinishedIsIdle(t: Task, id: NodeID, outcome: Outcome, now: Time)
    requires TaskOk(t) && !t.status.Terminal()
    ensures var t' := TaskOps.Finish(t, id, outcome, now);
            forall i :: 0 <= i < |t'.nodes| && t'.nodes[i].id == id ==> !Busy(t'.nodes[i])
  {
    var t' := TaskOps.Finish(t, id, outcome, now);
    forall i | 0 <= i < |t'.nodes| && t'.nodes[i].id == id ensures !Busy(t'.nodes[i]) {
      if Finishable(t.nodes[i], id) { assert t.nodes[i] in t.nodes; }
    }
  }

  lemma ReturnsWhenIdle(s: State, w: nat, k: nat, a: ExecStep)
    requires Inv(s) && RunEnabled(s, w, k, a) && (a.Wake? || a.GiveUp?) && !s.task.status.Terminal()
    ensures forall i :: 0 <= i < |s.task.nodes| && s.task.nodes[i].id == ExecAt(s, w, k).node.id ==>
      !Busy(s.task.nodes[i])
  {
    assert WorkerOk(s.task, s.workers[w]) && ListenersOk(s.task, s.channels, s.signalled, s.nextId, s.workers[w].phase);
    assert ListenerOk(s.task, s.channels, s.signalled, s.nextId, ExecAt(s, w, k));
    forall i | 0 <= i < |s.task.nodes| && s.task.nodes[i].id == ExecAt(s, w, k).node.id ensures !Busy(s.task.nodes[i]) {
      DoneOf(s.task.nodes, i);
    }
  }

  lemma RunKeepsQuiet(s: State, w: nat, k: nat, a: ExecStep)
    requires Inv(s) && Quiet(s) && RunEnabled(s, w, k, a) && Reliable(Run(w, k, a))
    ensures Quiet(FireRun(s, w, k, a))
  {
    OnlyWorker(s, w);
    assert WorkerOk(s.task, s.workers[w]);
    RunKeeps(s, w, k, a);
    RunKeepsOwned(s, w, k, a);
    assert WorkerOk(FireRun(s, w, k, a).task, FireRun(s, w, k, a).workers[w]);
  }

  lemma StepKeepsQuiet(s: State, step: Step)
    requires Inv(s) && Quiet(s) && Enabled(s, step) && Reliable(step)
    ensures Quiet(Fire(s, step))
  {
    if step.Api? {
      ApiKeepsQuiet(s, step.api);
    } else if step.Work? {
      WorkKeepsQuiet(s, step.w, step.work);
    } else {
      RunKeepsQuiet(s, step.w, step.k, step.run);
    }
  }

  /** Without a crash or a repository error no node is orphaned, and a failed task has given up exactly on the nodes
      with a failed ancestor. */
  lemma {:induction false} QuietRuns(s: State, schedule: seq<Step>, s': State)
    requires Inv(s) && Quiet(s) && Reaches(s, schedule, s')
    requires forall step <- schedule :: Reliable(step)
    ensures Quiet(s')
    decreases |schedule|
  {
    if schedule != [] {
      assert schedule[0] in schedule;
      StepKeeps(s, schedule[0]);
      StepKeepsQuiet(s, schedule[0]);
      QuietRuns(Fire(s, schedule[0]), schedule[1..], s');
    }
  }

  /** Failure is maximal in every run from a submission with neither a crash nor a repository error: the nodes given
      up are those with a failed ancestor, and every other node succeeded or failed. */
  lemma FailureIsMaximalInRuns(s: State, schedule: seq<Step>, s': State, i: nat)
    requires Initial(s) && GraphOk(s.task.nodes) && Reaches(s, schedule, s')
    requires forall step <- schedule :: Reliable(step)
    requires s'.task.status.TaskFailed? && i < |s'.task.nodes|
    ensures var n := s'.task.nodes[i];
      && (n.status.Cancelled? <==> HasFailedAncestor(s'.task.nodes, i))
      && (n.status.Cancelled? || n.status.Succeeded? || n.status.Failed?)
  {
    InitialOk(s);
    assert Quiet(s) by {
      forall j | 0 <= j < |s.task.nodes| ensures s.task.nodes[j].status.Pending? {
        assert s.task.nodes[j] in s.task.nodes;
      }
    }
    RunsKeep(s, schedule);
    QuietRuns(s, schedule, s');
    assert s'.task.nodes[i] in s'.task.nodes;
  }

  /** A waiting node that a crash orphaned spoils it: when x is confirmed after the worker found nothing ready and
      before it settles, y depends on nothing but successes and x, and y is given up all the same. */
  lemma ConfirmedTooLate(t: Task, x: nat, y: nat, now: Time) returns (confirmed: Task, ended: Task)
    requires TaskOk(t) && !t.status.Terminal() && AnyFailed(t.nodes)
    requires x < |t.nodes| && t.nodes[x].status.Waiting?
    requires forall j :: 0 <= j < |t.nodes| && j != x ==> !Busy(t.nodes[j])
    requires y < |t.nodes| && t.nodes[y].status.Pending? && DepSet(t.nodes[y]) <= Done(t.nodes) + {t.nodes[x].id}
    ensures Confirm(t, t.nodes[x].id, None, now) == Ok(confirmed) && ended == Complete(confirmed, now)
    ensures ended.status.TaskFailed? && y < |ended.nodes| && ended.nodes[y].status.Cancelled?
    ensures !HasFailedAncestor(ended.nodes, y)
  {
    confirmed := ConfirmedIsIdle(t, x, now);
    ConfirmKeeps(t, t.nodes[x].id, None, now);
    ConfirmedFrees(t, x, y, now);
    ReadyIsGivenUp(confirmed, y, now);
    ended := Complete(confirmed, now);
  }

  lemma ConfirmedFrees(t: Task, x: nat, y: nat, now: Time)
    requires UniqueIds(t.nodes) && x < |t.nodes| && Confirm(t, t.nodes[x].id, None, now).Ok?
    requires y < |t.nodes| && t.nodes[y].status.Pending? && DepSet(t.nodes[y]) <= Done(t.nodes) + {t.nodes[x].id}
    ensures t.nodes[x].status.Waiting? ==> Ready(Confirm(t, t.nodes[x].id, None, now).value.nodes, y)
  {
    OnlyConfirmedMoves(t, x, now);
    DoneGrows(t.nodes, Confirm(t, t.nodes[x].id, None, now).value.nodes);
  }

  lemma ReadyIsGivenUp(t: Task, y: nat, now: Time)
    requires TaskOk(t) && !t.status.Terminal() && !AnyBusy(t.nodes) && AnyFailed(t.nodes) && Ready(t.nodes, y)
    ensures var ended := Complete(t, now);
      ended.status.TaskFailed? && y < |ended.nodes| && ended.nodes[y].status.Cancelled?
          && !HasFailedAncestor(ended.nodes, y)
  {
    CompleteKeeps(t, now);
    assert SameShape(t.nodes[y], Complete(t, now).nodes[y]);
    NoFailedAncestor(Complete(t, now).nodes, y);
  }

  lemma ConfirmedIsIdle(t: Task, x: nat, now: Time) returns (t': Task)
    requires UniqueIds(t.nodes) && !t.status.Terminal() && !t.cancelRequested && AnyFailed(t.nodes)
    requires x < |t.nodes| && t.nodes[x].status.Waiting?
    requires forall j :: 0 <= j < |t.nodes| && j != x ==> !Busy(t.nodes[j])
    ensures Confirm(t, t.nodes[x].id, None, now) == Ok(t')
    ensures !t'.status.Terminal() && !AnyBusy(t'.nodes) && AnyFailed(t'.nodes)
  {
    DoneOf(t.nodes, x);
    OnlyConfirmedMoves(t, x, now);
    t' := Confirm(t, t.nodes[x].id, None, now).value;
    var f :| 0 <= f < |t.nodes| && t.nodes[f].status.Failed?;
    assert t'.nodes[f] in t'.nodes;
  }

  lemma OnlyConfirmedMoves(t: Task, x: nat, now: Time)
    requires UniqueIds(t.nodes) && x < |t.nodes| && Confirm(t, t.nodes[x].id, None, now).Ok?
    ensures var t' := Confirm(t, t.nodes[x].id, None, now).value;
      && t'.nodes[x].status.Succeeded? && t'.nodes[x].id == t.nodes[x].id && t.nodes[x].id in Done(t'.nodes)
      && forall j :: 0 <= j < |t.nodes| && j != x ==> t'.nodes[j] == t.nodes[j]
  {
  }
}
