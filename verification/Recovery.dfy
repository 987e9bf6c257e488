/** Runs through crashes, repository errors and recoveries: what survives as long as every worker is started over a
    task that has no running or waiting node left behind. */
module Recovery {
  import opened Types
  import opened TaskOps
  import opened TaskInvariant
  import opened Progress
  import opened System
  import opened SystemInvariant
  import opened SystemResults
  import opened Scheduling

  // ---------------------------------------------------------------- attended tasks

  /** The node has an executor in the batch that is still at work on it or gave up on it with an error. */
  ghost predicate Accounted(phase: WorkerPhase, id: NodeID) {
    phase.Batch? && exists e <- phase.execs :: e.node.id == id && !(e.phase.Returned? && e.phase.clean)
  }

  ghost predicate NoOrphans(t: Task, phase: WorkerPhase) {
    !t.status.Terminal() ==>
      forall i :: 0 <= i < |t.nodes| && Busy(t.nodes[i]) ==> Accounted(phase, t.nodes[i].id)
  }

  /** A worker that still means to act knows every running and waiting node and sees the task as it is; a failed task
      gave up only below failures. A task without a worker may have any nodes left behind. */
  ghost predicate Attended(s: State) {
    && SlotOk(s)
    && (s.slot.Some? && !PhaseOf(s).Leaving? ==> NoOrphans(s.task, PhaseOf(s)))
    && SightHolds(s.task, PhaseOf(s))
    && (s.task.status.TaskFailed? ==> GivesUpOnlyOnFailure(s.task.nodes))
  }

  /** A start that takes the slot of an unfinished task finds no node running or waiting. */
  ghost predicate CleanStart(s: State, step: Step) {
    step == Api(Start) && s.slot.None? && !s.task.status.Terminal() ==> !AnyBusy(s.task.nodes)
  }

  lemma QuietIsAttended(s: State)
    requires Inv(s) && Quiet(s)
    ensures Attended(s)
  {
    var phase := PhaseOf(s);
    if !s.task.status.Terminal() {
      forall i | 0 <= i < |s.task.nodes| && Busy(s.task.nodes[i]) ensures Accounted(phase, s.task.nodes[i].id) {
        assert LiveExec(phase, s.task.nodes[i].id);
      }
    }
  }

  /** Outside a batch no orphans means nothing busy. */
  lemma NothingBusy(t: Task, phase: WorkerPhase)
    requires NoOrphans(t, phase) && !t.status.Terminal()
    requires phase.Batch? ==> forall e <- phase.execs :: e.phase.Returned? && e.phase.clean
    ensures !AnyBusy(t.nodes) && forall i :: 0 <= i < |t.nodes| ==> !Busy(t.nodes[i])
  {
    forall i | 0 <= i < |t.nodes| ensures !Busy(t.nodes[i]) {
      assert !Accounted(phase, t.nodes[i].id);
    }
  }

  lemma NothingBusyIsOwned(t: Task, phase: WorkerPhase, phase': WorkerPhase)
    requires NoOrphans(t, phase) && (phase.Batch? ==> forall e <- phase.execs :: e.phase.Returned? && e.phase.clean)
    ensures Owned(t, phase') && NoOrphans(t, phase')
  {
    if !t.status.Terminal() { NothingBusy(t, phase); }
  }

  // ---------------------------------------------------------------- API steps

  lemma ApiKeepsNoOrphans(t: Task, a: ApiStep, phase: WorkerPhase)
    requires TaskOk(t) && NoOrphans(t, phase) && (phase.Top? || !t.status.TaskFailed?)
    ensures NoOrphans(TaskAfter(t, a), phase)
  {
    ApiStartsNothing(t, a);
    var t' := TaskAfter(t, a);
    if !t'.status.Terminal() {
      forall i | 0 <= i < |t'.nodes| && Busy(t'.nodes[i]) ensures Accounted(phase, t'.nodes[i].id) {
        assert t.nodes[i] in t.nodes;
      }
    }
  }

  lemma ApiKeepsAttended(s: State, a: ApiStep)
    requires Inv(s) && Attended(s) && ApiEnabled(s, a) && CleanStart(s, Api(a))
    ensures Attended(FireApi(s, a))
  {
    var phase := PhaseOf(s);
    ApiKeeps(s, a);
    ApiLeavesTheWorker(s, a);
    ApiStartsNothing(s.task, a);
    if s.slot.Some? && !phase.Leaving? {
      assert WorkerOk(s.task, s.workers[s.slot.value]);
      ApiKeepsNoOrphans(s.task, a, phase);
      if phase.Marking? || phase.Settling? || phase.Launching? {
        NothingBusyIsOwned(s.task, phase, phase);
        ApiKeepsSight(s.task, a, phase);
      }
    } else if s.slot.None? && a.Start? && !s.task.status.Terminal() {
      assert forall i :: 0 <= i < |s.task.nodes| && Busy(s.task.nodes[i]) ==> s.task.nodes[i] in s.task.nodes;
    }
  }

  // ---------------------------------------------------------------- worker steps

  lemma WorkKeepsAttended(s: State, w: nat, a: WorkerStep)
    requires Inv(s) && Attended(s) && WorkEnabled(s, w, a)
    ensures Attended(FireWork(s, w, a))
  {
    OnlyWorker(s, w);
    var phase, s' := s.workers[w].phase, FireWork(s, w, a);
    assert WorkerOk(s.task, s.workers[w]);
    WorkKeeps(s, w, a);
    match a
    case Look(ok) => if ok { LookKeepsAttended(s, w); }
    case Mark(_, _) => NothingBusyIsOwned(s.task, phase, Top);
    case Settle(now, ok) =>
      NothingBusyIsOwned(s.task, phase, Top);
      if ok { SettleIsMaximal(s.task, now); }
    case Launch(now, ok) => if ok { LaunchKeepsAttended(s, w, now); }
    case Join => JoinKeepsAttended(s, w);
    case Release =>
  }

  lemma LookKeepsAttended(s: State, w: nat)
    requires Inv(s) && Attended(s) && WorkEnabled(s, w, Look(true))
    ensures Attended(FireWork(s, w, Look(true)))
  {
    OnlyWorker(s, w);
    WorkKeeps(s, w, Look(true));
    LookSees(s.task, s.workers[w].cancelled);
    NothingBusyIsOwned(s.task, Top, AfterLook(s.task, s.workers[w].cancelled));
  }

  lemma LaunchKeepsAttended(s: State, w: nat, now: Time)
    requires Inv(s) && Attended(s) && WorkEnabled(s, w, Launch(now, true))
    ensures Attended(FireWork(s, w, Launch(now, true)))
  {
    OnlyWorker(s, w);
    var phase := s.workers[w].phase;
    assert WorkerOk(s.task, s.workers[w]);
    WorkKeeps(s, w, Launch(now, true));
    NothingBusyIsOwned(s.task, phase, phase);
    var t', started := StartNodes(s.task, phase.ready, now), Started(s.task, phase.ready, now);
    if started == [] {
      NothingBusyIsOwned(s.task, phase, Top);
    } else {
      LaunchOwns(s.task, phase, now);
      OwnedHasNoOrphans(t', Batch(Spawn(started)));
    }
  }

  lemma OwnedHasNoOrphans(t: Task, phase: WorkerPhase)
    requires Owned(t, phase)
    ensures NoOrphans(t, phase)
  {
    if !t.status.Terminal() {
      forall i | 0 <= i < |t.nodes| && Busy(t.nodes[i]) ensures Accounted(phase, t.nodes[i].id) {
        assert LiveExec(phase, t.nodes[i].id);
      }
    }
  }

  lemma JoinKeepsAttended(s: State, w: nat)
    requires Inv(s) && Attended(s) && WorkEnabled(s, w, Join)
    ensures Attended(FireWork(s, w, Join))
  {
    OnlyWorker(s, w);
    var phase := s.workers[w].phase;
    WorkKeeps(s, w, Join);
    if forall e <- phase.execs :: e.phase.clean { NothingBusyIsOwned(s.task, phase, Top); }
  }

  // ---------------------------------------------------------------- executor steps

  /** Moving executor k keeps every node accounted for, its own included when it does not return cleanly. */
  lemma AccountedAfter(execs: seq<Exec>, k: nat, phase: ExecPhase, id: NodeID)
    requires k < |execs| && Accounted(Batch(execs), id)
    requires execs[k].node.id == id ==> !(phase.Returned? && phase.clean)
    ensures Accounted(Batch(execs[k := execs[k].(phase := phase)]), id)
  {
    var execs' := execs[k := execs[k].(phase := phase)];
    var j :| 0 <= j < |execs| && execs[j].node.id == id && !(execs[j].phase.Returned? && execs[j].phase.clean);
    assert execs'[j] in execs';
  }

  /** An executor that returns cleanly leaves its node neither running nor waiting. */
  lemma CleanReturnIsIdle(s: State, w: nat, k: nat, a: ExecStep)
    requires Inv(s) && RunEnabled(s, w, k, a) && FireRun(s, w, k, a).workers[w].phase.execs[k].phase == Returned(true)
    requires !FireRun(s, w, k, a).task.status.Terminal()
    ensures var t' := FireRun(s, w, k, a).task;
            forall i :: 0 <= i < |t'.nodes| && t'.nodes[i].id == ExecAt(s, w, k).node.id ==> !Busy(t'.nodes[i])
  {
    if a.Wake? {
      ReturnsWhenIdle(s, w, k, a);
    } else {
      assert a.Finish? && a.ok;
      FinishedIsIdle(s.task, ExecAt(s, w, k).node.id, ExecAt(s, w, k).phase.outcome, a.now);
    }
  }

  lemma RunKeepsNoOrphans(s: State, w: nat, k: nat, a: ExecStep)
    requires Inv(s) && RunEnabled(s, w, k, a) && NoOrphans(s.task, s.workers[w].phase)
    ensures NoOrphans(FireRun(s, w, k, a).task, FireRun(s, w, k, a).workers[w].phase)
  {
    var execs, t' := s.workers[w].phase.execs, FireRun(s, w, k, a).task;
    RunLeavesTheRest(s, w, k, a);
    var phase' := FireRun(s, w, k, a).workers[w].phase.execs[k].phase;
    var batch' := Batch(execs[k := execs[k].(phase := phase')]);
    if !t'.status.Terminal() {
      if phase' == Returned(true) { CleanReturnIsIdle(s, w, k, a); }
      forall i | 0 <= i < |t'.nodes| && Busy(t'.nodes[i]) ensures Accounted(batch', t'.nodes[i].id) {
        RunChangesOnlyItsNode(s, w, k, a, i);
        if t'.nodes[i].id == execs[k].node.id {
          assert batch'.execs[k] in batch'.execs;
        } else {
          AccountedAfter(execs, k, phase', t'.nodes[i].id);
        }
      }
    }
  }

  lemma RunKeepsAttended(s: State, w: nat, k: nat, a: ExecStep)
    requires Inv(s) && Attended(s) && RunEnabled(s, w, k, a)
    ensures Attended(FireRun(s, w, k, a))
  {
    OnlyWorker(s, w);
    assert WorkerOk(s.task, s.workers[w]);
    RunKeeps(s, w, k, a);
    RunKeepsNoOrphans(s, w, k, a);
    RunLeavesTheRest(s, w, k, a);
  }

  // ---------------------------------------------------------------- every run

  /** Every step keeps the task attended - a crash, a failing repository and a late recovery included - as long as a
      start finds nothing left behind. */
  lemma StepKeepsAttended(s: State, step: Step)
    requires Inv(s) && Attended(s) && Enabled(s, step) && CleanStart(s, step)
    ensures Attended(Fire(s, step))
  {
    match step
    case Api(a) => ApiKeepsAttended(s, a);
    case Work(w, a) => WorkKeepsAttended(s, w, a);
    case Run(w, k, a) => RunKeepsAttended(s, w, k, a);
    case Crash =>
  }

  /** Every start of the schedule is clean. */
  ghost predicate StartsClean(s: State, schedule: seq<Step>)
    decreases |schedule|
  {
    schedule != [] && Enabled(s, schedule[0]) ==>
        CleanStart(s, schedule[0]) && StartsClean(Fire(s, schedule[0]), schedule[1..])
  }

  lemma {:induction false} AttendedRuns(s: State, schedule: seq<Step>, s': State)
    requires Inv(s) && Attended(s) && Reaches(s, schedule, s') && StartsClean(s, schedule)
    ensures Attended(s')
    decreases |schedule|
  {
    if schedule != [] {
      StepKeeps(s, schedule[0]);
      StepKeepsAttended(s, schedule[0]);
      AttendedRuns(Fire(s, schedule[0]), schedule[1..], s');
    }
  }

  lemma AttendedAtFirst(s: State)
    requires Initial(s) && GraphOk(s.task.nodes)
    ensures Inv(s) && Quiet(s) && Attended(s)
  {
    InitialOk(s);
    forall j | 0 <= j < |s.task.nodes| ensures s.task.nodes[j].status.Pending? {
      assert s.task.nodes[j] in s.task.nodes;
    }
    QuietIsAttended(s);
  }

  /** Failure is maximal through crashes, repository errors and recoveries: whatever else happens, if no worker is
      started over nodes left running or waiting, a failed task has given up exactly on the nodes with a failed
      ancestor and every other node succeeded or failed. */
  lemma FailureIsMaximalThroughCrashes(s: State, schedule: seq<Step>, s': State, i: nat)
    requires Initial(s) && GraphOk(s.task.nodes) && Reaches(s, schedule, s') && StartsClean(s, schedule)
    requires s'.task.status.TaskFailed? && i < |s'.task.nodes|
    ensures var n := s'.task.nodes[i];
      && (n.status.Cancelled? <==> HasFailedAncestor(s'.task.nodes, i))
      && (n.status.Cancelled? || n.status.Succeeded? || n.status.Failed?)
  {
    AttendedAtFirst(s);
    RunsKeep(s, schedule);
    AttendedRuns(s, schedule, s');
    assert s'.task.nodes[i] in s'.task.nodes;
  }

  /** Every failure comes from a settling, and it is maximal if and only if nothing was ready at that step. */
  lemma FailsOnlyBySettling(s: State, step: Step)
    requires Inv(s) && Enabled(s, step) && !s.task.status.TaskFailed? && Fire(s, step).task.status.TaskFailed?
    ensures step.Work? && step.work.Settle? && step.work.ok
    ensures GivesUpOnlyOnFailure(Fire(s, step).task.nodes) <==> ReadyNodes(s.task.nodes) == []
  {
    StepMoves(s, step);
    if step.Api? {
      ApiStartsNothing(s.task, step.api);
    } else if step.Run? {
      RunLeavesTheRest(s, step.w, step.k, step.run);
    } else if step.Work? && step.work.Settle? {
      FailureIsMaximal(s.task, step.work.now);
    }
  }

  // ---------------------------------------------------------------- which schedules start cleanly

  predicate AnyWaiting(nodes: seq<Node>) {
    exists n <- nodes :: n.status.Waiting?
  }

  /** After a crash and until the task is requeued: no worker, nobody about to start one, nothing waiting. */
  ghost predicate Down(s: State) {
    && SlotOk(s) && s.slot.None? && ToStart !in s.callers && ToRecheck !in s.callers && !AnyWaiting(s.task.nodes)
    && (s.task.status.TaskFailed? ==> GivesUpOnlyOnFailure(s.task.nodes))
  }

  /** While the task is down nobody submits or retries it. */
  predicate LeavesDown(step: Step) {
    step.Crash? || (step.Api? && !step.api.SubmitAgain? && !step.api.RetryCall?)
  }

  predicate Requeues(step: Step) {
    step.Api? && step.api.Requeue? && step.api.ok
  }

  /** A run of a durable process: reliable steps, interrupted by crashes that find no node waiting; after a crash the
      next thing to touch the worker is the requeue of Recover. */
  ghost predicate Recovering(s: State, schedule: seq<Step>, down: bool)
    decreases |schedule|
  {
    schedule != [] && Enabled(s, schedule[0]) ==>
      var step, s' := schedule[0], Fire(s, schedule[0]);
      if down
      then LeavesDown(step) && Recovering(s', schedule[1..], !Requeues(step))
      else if step.Crash?
      then !AnyWaiting(s.task.nodes) && Recovering(s', schedule[1..], true)
      else Reliable(step) && Recovering(s', schedule[1..], false)
  }

  lemma QuietStartsClean(s: State, step: Step)
    requires Inv(s) && Quiet(s)
    ensures CleanStart(s, step)
  {
    if s.slot.None? && !s.task.status.Terminal() { IdleWithoutExecs(s.task, PhaseOf(s)); }
  }

  lemma RecoverLeavesNothingBusy(t: Task, now: Time)
    requires !t.status.Terminal() && !AnyWaiting(t.nodes)
    ensures forall i :: 0 <= i < |Recover(t, now).nodes| ==> !Busy(Recover(t, now).nodes[i])
  {
    forall i | 0 <= i < |t.nodes| ensures !Busy(Recover(t, now).nodes[i]) {
      assert t.nodes[i] in t.nodes;
    }
  }

  /** Requeuing a task that is down leaves nothing behind, whatever was running when the process died. */
  lemma RecoveredIsQuiet(s: State, now: Time)
    requires Inv(s) && s.slot.None? && !AnyWaiting(s.task.nodes) && ApiEnabled(s, Requeue(now, true))
    requires s.task.status.TaskFailed? ==> GivesUpOnlyOnFailure(s.task.nodes)
    ensures Quiet(FireApi(s, Requeue(now, true)))
  {
    ApiKeeps(s, Requeue(now, true));
    ApiStartsNothing(s.task, Requeue(now, true));
    if !s.task.status.Terminal() { RecoverLeavesNothingBusy(s.task, now); }
  }

  lemma StaysDown(s: State, step: Step)
    requires Inv(s) && Down(s) && Enabled(s, step) && LeavesDown(step) && !Requeues(step)
    ensures Down(Fire(s, step))
  {
    StepKeeps(s, step);
    if step.Api? {
      ApiStartsNothing(s.task, step.api);
      StaysUnstarted(s, step.api);
      NothingNewWaits(s.task, step.api);
    }
  }

  lemma StaysUnstarted(s: State, a: ApiStep)
    requires ApiEnabled(s, a) && ToStart !in s.callers && ToRecheck !in s.callers && s.slot.None?
    requires LeavesDown(Api(a)) && !Requeues(Api(a))
    ensures FireApi(s, a).slot.None? && ToStart !in FireApi(s, a).callers && ToRecheck !in FireApi(s, a).callers
  {
  }

  lemma NothingNewWaits(t: Task, a: ApiStep)
    requires !AnyWaiting(t.nodes)
    ensures !AnyWaiting(TaskAfter(t, a).nodes)
  {
    forall i | 0 <= i < |TaskAfter(t, a).nodes| ensures !TaskAfter(t, a).nodes[i].status.Waiting? {
      assert t.nodes[i] in t.nodes;
    }
  }

  lemma CrashIsDown(s: State)
    requires Inv(s) && Quiet(s) && !AnyWaiting(s.task.nodes)
    ensures Down(Fire(s, Crash))
  {
  }

  /** Such a run never starts a worker over anything left behind, so failure is maximal in it. */
  lemma {:induction false} RecoveringStartsClean(s: State, schedule: seq<Step>, down: bool)
    requires Inv(s) && Recovering(s, schedule, down) && (if down then Down(s) else Quiet(s))
    ensures StartsClean(s, schedule)
    decreases |schedule|
  {
    if schedule != [] && Enabled(s, schedule[0]) {
      var step := schedule[0];
      StepKeeps(s, step);
      if down {
        if Requeues(step) { RecoveredIsQuiet(s, step.api.now); } else { StaysDown(s, step); }
        RecoveringStartsClean(Fire(s, step), schedule[1..], !Requeues(step));
      } else if step.Crash? {
        CrashIsDown(s);
        RecoveringStartsClean(Fire(s, step), schedule[1..], true);
      } else {
        QuietStartsClean(s, step);
        StepKeepsQuiet(s, step);
        RecoveringStartsClean(Fire(s, step), schedule[1..], false);
      }
    }
  }

  lemma FailureIsMaximalWithRecovery(s: State, schedule: seq<Step>, s': State, i: nat)
    requires Initial(s) && GraphOk(s.task.nodes) && Reaches(s, schedule, s') && Recovering(s, schedule, false)
    requires s'.task.status.TaskFailed? && i < |s'.task.nodes|
    ensures var n := s'.task.nodes[i];
      && (n.status.Cancelled? <==> HasFailedAncestor(s'.task.nodes, i))
      && (n.status.Cancelled? || n.status.Succeeded? || n.status.Failed?)
  {
    AttendedAtFirst(s);
    RecoveringStartsClean(s, schedule, false);
    FailureIsMaximalThroughCrashes(s, schedule, s', i);
  }
}
