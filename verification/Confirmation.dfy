/** The human gate, and when a confirmation reaches the executor that waits for it. */
module Confirmation {
  import opened Types
  import opened TaskOps
  import opened TaskInvariant
  import opened Progress
  import opened System
  import opened SystemInvariant
  import opened SystemResults
  import opened Scheduling

  // ---------------------------------------------------------------- only a confirmation opens the gate

  predicate Confirms(step: Step, id: NodeID) {
    step.Api? && step.api.ConfirmCall? && step.api.id == id
  }

  lemma ApiLeavesGate(t: Task, a: ApiStep, i: nat)
    requires i < |t.nodes| && !t.nodes[i].status.Succeeded? && !(a.ConfirmCall? && a.id == t.nodes[i].id)
    ensures i < |TaskAfter(t, a).nodes| && !TaskAfter(t, a).nodes[i].status.Succeeded?
  {
  }

  lemma WorkLeavesGate(s: State, w: nat, a: WorkerStep, i: nat)
    requires WorkEnabled(s, w, a) && i < |s.task.nodes| && !s.task.nodes[i].status.Succeeded?
    ensures var nodes := FireWork(s, w, a).task.nodes; i < |nodes| && !nodes[i].status.Succeeded?
  {
  }

  lemma RunLeavesGate(s: State, w: nat, k: nat, a: ExecStep, i: nat)
    requires Inv(s) && RunEnabled(s, w, k, a)
    requires i < |s.task.nodes| && Gated(s.task, s.task.nodes[i]) && !s.task.nodes[i].status.Succeeded?
    ensures var nodes := FireRun(s, w, k, a).task.nodes; i < |nodes| && !nodes[i].status.Succeeded?
  {
    var e := ExecAt(s, w, k);
    assert WorkerOk(s.task, s.workers[w]) && ExecOk(s.task, e);
    assert e.node.id == s.task.nodes[i].id ==> ExecNodeOk(e, s.task.nodes[i]);
  }

  lemma StepLeavesGate(s: State, step: Step, i: nat)
    requires Inv(s) && Enabled(s, step)
    requires i < |s.task.nodes| && Gated(s.task, s.task.nodes[i]) && !s.task.nodes[i].status.Succeeded?
    requires !Confirms(step, s.task.nodes[i].id)
    ensures var nodes := Fire(s, step).task.nodes; i < |nodes| && !nodes[i].status.Succeeded?
  {
    match step
    case Api(a) => ApiLeavesGate(s.task, a, i);
    case Work(w, a) => WorkLeavesGate(s, w, a, i);
    case Run(w, k, a) => RunLeavesGate(s, w, k, a, i);
    case Crash =>
  }

  ghost predicate DependsOn(nodes: seq<Node>, dependant: NodeID, id: NodeID) {
    exists n <- nodes :: n.id == dependant && id in n.dependsOn
  }

  /** Until someone confirms it, a gated node does not succeed and nothing that depends on it is started. */
  lemma {:induction false} GateHolds(s: State, schedule: seq<Step>, s': State, i: nat, dependant: NodeID)
    requires Inv(s) && Reaches(s, schedule, s')
    requires i < |s.task.nodes| && Gated(s.task, s.task.nodes[i]) && !s.task.nodes[i].status.Succeeded?
    requires forall step <- schedule :: !Confirms(step, s.task.nodes[i].id)
    ensures i < |s'.task.nodes| && !s'.task.nodes[i].status.Succeeded?
    ensures DependsOn(s.task.nodes, dependant, s.task.nodes[i].id) ==> Launches(s, schedule, dependant) == 0
    decreases |schedule|
  {
    if schedule != [] {
      var mid := Fire(s, schedule[0]);
      StepKeeps(s, schedule[0]);
      StepMoves(s, schedule[0]);
      StepLeavesGate(s, schedule[0], i);
      assert SameShape(s.task.nodes[i], mid.task.nodes[i]);
      if DependsOn(s.task.nodes, dependant, s.task.nodes[i].id) {
        var j: nat :| j < |s.task.nodes| && s.task.nodes[j].id == dependant
                      && s.task.nodes[i].id in s.task.nodes[j].dependsOn;
        assert SameShape(s.task.nodes[j], mid.task.nodes[j]) && mid.task.nodes[j] in mid.task.nodes;
        DependantIsNotLaunched(s, schedule[0], i, j);
      }
      GateHolds(mid, schedule[1..], s', i, dependant);
    }
  }

  lemma DependantIsNotLaunched(s: State, step: Step, i: nat, j: nat)
    requires Inv(s) && Enabled(s, step) && i < |s.task.nodes| && j < |s.task.nodes|
    requires !s.task.nodes[i].status.Succeeded? && s.task.nodes[i].id in s.task.nodes[j].dependsOn
    ensures s.task.nodes[j].id !in Launched(s, step)
  {
    if step.Work? && step.work.Launch? {
      assert WorkerOk(s.task, s.workers[step.w]);
      BlockedIsNotStarted(s.task, s.workers[step.w].phase.ready, step.work.now, i, j);
    }
  }

  lemma BlockedIsNotStarted(t: Task, ready: seq<NodeID>, now: Time, i: nat, j: nat)
    requires UniqueIds(t.nodes) && Distinct(ready) && i < |t.nodes| && j < |t.nodes|
    requires !t.nodes[i].status.Succeeded? && t.nodes[i].id in t.nodes[j].dependsOn
    ensures forall m <- Started(t, ready, now) :: m.id != t.nodes[j].id
  {
    DependenciesAreDone(t.nodes[j], t.nodes);
    DoneOf(t.nodes, i);
    assert !Startable(t.nodes[j], ready, t.nodes);
    StartedSound(t, ready, now);
    forall m <- Started(t, ready, now) ensures m.id != t.nodes[j].id {
      var l: nat :| StartedFrom(t, ready, now, m, l);
      assert l != j;
    }
  }

  // ---------------------------------------------------------------- leaving the wait

  /** An executor leaves the wait on its channel only after a success or a cancellation has been stored. */
  lemma LeavesOnlyWhenDecided(s: State, w: nat, k: nat, a: ExecStep)
    requires Inv(s) && RunEnabled(s, w, k, a) && (a.Wake? || a.GiveUp?)
    ensures ExecAt(s, w, k).node.id in Done(s.task.nodes) || s.task.status.TaskCancelled?
  {
    assert WorkerOk(s.task, s.workers[w]) && ListenersOk(s.task, s.channels, s.signalled, s.nextId, s.workers[w].phase);
    assert ListenerOk(s.task, s.channels, s.signalled, s.nextId, ExecAt(s, w, k));
  }

  ghost predicate Listens(s: State, w: nat, k: nat, id: NodeID, ch: nat) {
    HasExec(s, w, k) && ExecAt(s, w, k).node.id == id && ExecAt(s, w, k).phase == Listening(ch)
  }

  ghost predicate Undecided(t: Task, id: NodeID) {
    exists n <- t.nodes :: n.id == id && n.status.Waiting?
  }

  /** A cancellation has reached the worker's context, or the Cancel that stored it has still to sweep or to abort. */
  ghost predicate CancelOnItsWay(s: State, w: nat)
    requires w in s.workers
  {
    s.workers[w].cancelled || ToSweep in s.callers || ToAbort(w) in s.callers
  }

  /** The listener will hear: its channel is signalled; or, in a cancelled task, the cancellation is on its way to its
      context; or its channel is stored for a decision that is still to come or still to be signalled. */
  ghost predicate Armed(s: State, w: nat, k: nat, id: NodeID, ch: nat) {
    && Listens(s, w, k, id, ch)
    && (|| ch in s.signalled
        || (if s.task.status.TaskCancelled? then CancelOnItsWay(s, w)
            else id in s.channels && s.channels[id] == ch && (Undecided(s.task, id) || ToSignal(id) in s.callers)))
  }

  /** The listener waits for a confirmation that was stored and signalled before its channel existed. */
  ghost predicate Lost(s: State, w: nat, k: nat, id: NodeID, ch: nat) {
    && Listens(s, w, k, id, ch)
    && id in Done(s.task.nodes) && !s.task.status.Terminal()
    && ch !in s.signalled && ToSignal(id) !in s.callers
  }

  ghost predicate OwnStep(step: Step, w: nat, k: nat) {
    step.Run? && step.w == w && step.k == k
  }

  // ---------------------------------------------------------------- armed listeners stay armed

  lemma ApiKeepsExecs(s: State, a: ApiStep, w: nat)
    requires SlotOk(s) && ApiEnabled(s, a) && w in s.workers
    ensures w in FireApi(s, a).workers && FireApi(s, a).workers[w].phase == s.workers[w].phase
  {
  }

  lemma ApiKeepsSignalled(s: State, a: ApiStep, ch: nat)
    requires ApiEnabled(s, a) && ch in s.signalled
    ensures ch in FireApi(s, a).signalled
  {
  }

  lemma ApiKeepsListening(s: State, a: ApiStep, w: nat, k: nat, id: NodeID, ch: nat)
    requires SlotOk(s) && ApiEnabled(s, a) && Listens(s, w, k, id, ch)
    ensures Listens(FireApi(s, a), w, k, id, ch)
    ensures ch in s.signalled ==> ch in FireApi(s, a).signalled
    ensures s.task.status.TaskCancelled? ==> FireApi(s, a).task.status.TaskCancelled?
  {
    ApiKeepsExecs(s, a, w);
    if ch in s.signalled { ApiKeepsSignalled(s, a, ch); }
    if s.task.status.TaskCancelled? { ApiRespects(s, a); }
  }

  /** A stored channel is kept until it is signalled. */
  lemma ApiKeepsChannel(s: State, a: ApiStep, id: NodeID)
    requires ApiEnabled(s, a) && id in s.channels
    ensures var s' := FireApi(s, a);
      s.channels[id] in s'.signalled || (id in s'.channels && s'.channels[id] == s.channels[id])
  {
    match a
    case Sweep => assert s.channels[id] in s.channels.Values;
    case _ =>
  }

  /** A signal announced is delivered by its own step and by no other. */
  lemma ApiKeepsSignal(s: State, a: ApiStep, id: NodeID)
    requires ApiEnabled(s, a) && ToSignal(id) in s.callers && id in s.channels
    ensures ToSignal(id) in FireApi(s, a).callers || s.channels[id] in FireApi(s, a).signalled
  {
    match a
    case Sweep => assert s.channels[id] in s.channels.Values;
    case _ =>
  }

  /** A sweep leaves its abort behind, an abort its cancelled context. */
  lemma ApiKeepsCancelOnItsWay(s: State, a: ApiStep, w: nat)
    requires SlotOk(s) && ApiEnabled(s, a) && w in s.workers && CancelOnItsWay(s, w)
    ensures w in FireApi(s, a).workers && CancelOnItsWay(FireApi(s, a), w)
  {
    WorkerKeepsContext(s, a, w);
    if a.Sweep? {
      SweepLeavesAbort(s, w);
    } else if !s.workers[w].cancelled && a != Abort(w) {
      if ToSweep in s.callers { ObligationStays(s, a, ToSweep); } else { ObligationStays(s, a, ToAbort(w)); }
    }
  }

  lemma SweepLeavesAbort(s: State, w: nat)
    requires SlotOk(s) && ApiEnabled(s, Sweep) && w in s.workers
    ensures ToAbort(w) in FireApi(s, Sweep).callers
  {
    OnlyWorker(s, w);
    assert ToAbort(w) in Announced(s, Sweep);
  }

  lemma WorkerKeepsContext(s: State, a: ApiStep, w: nat)
    requires SlotOk(s) && ApiEnabled(s, a) && w in s.workers
    ensures w in FireApi(s, a).workers
    ensures s.workers[w].cancelled || a == Abort(w) ==> FireApi(s, a).workers[w].cancelled
  {
  }

  /** A cancellation that changes the task leaves a sweep behind. */
  lemma CancelAnnounces(s: State, a: ApiStep)
    requires ApiEnabled(s, a) && !s.task.status.TaskCancelled? && TaskAfter(s.task, a).status.TaskCancelled?
    ensures ToSweep in FireApi(s, a).callers
  {
  }

  lemma ApiKeepsArmed(s: State, a: ApiStep, w: nat, k: nat, id: NodeID, ch: nat)
    requires Inv(s) && ApiEnabled(s, a) && Armed(s, w, k, id, ch)
    ensures Armed(FireApi(s, a), w, k, id, ch)
  {
    ApiKeepsListening(s, a, w, k, id, ch);
    if ch in s.signalled {
    } else if s.task.status.TaskCancelled? {
      ApiKeepsCancelOnItsWay(s, a, w);
    } else if TaskAfter(s.task, a).status.TaskCancelled? {
      CancelAnnounces(s, a);
    } else {
      ApiKeepsChannel(s, a, id);
      if ToSignal(id) in s.callers { ApiKeepsSignal(s, a, id); }
      if Undecided(s.task, id) {
        UndecidedUntilConfirmed(s, a, w, k, id);
      }
    }
  }

  lemma UndecidedUntilConfirmed(s: State, a: ApiStep, w: nat, k: nat, id: NodeID)
    requires Inv(s) && HasExec(s, w, k) && Undecided(s.task, id) && !s.task.status.TaskCancelled?
    ensures var t' := TaskAfter(s.task, a);
      || Undecided(t', id) || t'.status.TaskCancelled?
      || (a.ConfirmCall? && a.id == id && Confirm(s.task, id, a.adjusted, a.now).Ok?)
  {
    assert WorkerOk(s.task, s.workers[w]);
    UndecidedAfter(s.task, a, id);
  }

  lemma UndecidedAfter(t: Task, a: ApiStep, id: NodeID)
    requires UniqueIds(t.nodes) && Undecided(t, id) && !t.status.Terminal()
    ensures var t' := TaskAfter(t, a);
      || Undecided(t', id) || t'.status.TaskCancelled?
      || (a.ConfirmCall? && a.id == id && Confirm(t, id, a.adjusted, a.now).Ok?)
  {
    var i :| 0 <= i < |t.nodes| && t.nodes[i].id == id && t.nodes[i].status.Waiting?;
    var t' := TaskAfter(t, a);
    WaitingAfter(t, a, i);
    assert t'.nodes[i] in t'.nodes;
  }

  lemma WaitingAfter(t: Task, a: ApiStep, i: nat)
    requires UniqueIds(t.nodes) && i < |t.nodes| && t.nodes[i].status.Waiting? && !t.status.Terminal()
    ensures i < |TaskAfter(t, a).nodes|
    ensures || (TaskAfter(t, a).nodes[i].status.Waiting? && TaskAfter(t, a).nodes[i].id == t.nodes[i].id)
            || TaskAfter(t, a).status.TaskCancelled?
            || (a.ConfirmCall? && a.id == t.nodes[i].id && Confirm(t, a.id, a.adjusted, a.now).Ok?)
  {
  }

  lemma RunKeepsListening(s: State, j: nat, a: ExecStep, w: nat, k: nat, id: NodeID, ch: nat)
    requires Inv(s) && RunEnabled(s, w, j, a) && Listens(s, w, k, id, ch) && j != k
    ensures Listens(FireRun(s, w, j, a), w, k, id, ch) && FireRun(s, w, j, a).callers == s.callers
    ensures ch in s.signalled ==> ch in FireRun(s, w, j, a).signalled
    ensures id in s.channels ==>
      id in FireRun(s, w, j, a).channels && FireRun(s, w, j, a).channels[id] == s.channels[id]
  {
    assert ListenersOk(s.task, s.channels, s.signalled, s.nextId, s.workers[w].phase);
    RunLeavesTheRest(s, w, j, a);
    RunLeavesChannels(s, w, j, a, id);
    if a.Wake? { assert ExecAt(s, w, j).phase.channel != ch; }
  }

  lemma RunLeavesChannels(s: State, w: nat, j: nat, a: ExecStep, id: NodeID)
    requires RunEnabled(s, w, j, a)
    ensures var s' := FireRun(s, w, j, a);
      && s'.callers == s.callers
      && (id in s.channels ==> id in s'.channels && s'.channels[id] == s.channels[id])
      && s'.signalled == if a.Wake? then s.signalled - {ExecAt(s, w, j).phase.channel} else s.signalled
  {
  }

  lemma RunLeavesUndecided(s: State, j: nat, a: ExecStep, w: nat, k: nat, id: NodeID, ch: nat)
    requires Inv(s) && RunEnabled(s, w, j, a) && Listens(s, w, k, id, ch) && j != k && Undecided(s.task, id)
    ensures Undecided(FireRun(s, w, j, a).task, id)
  {
    assert WorkerOk(s.task, s.workers[w]);
    assert ExecAt(s, w, j).node.id != id;
    var i :| 0 <= i < |s.task.nodes| && s.task.nodes[i].id == id && s.task.nodes[i].status.Waiting?;
    RunChangesOnlyItsNode(s, w, j, a, i);
    var t' := FireRun(s, w, j, a).task;
    assert t'.nodes[i] in t'.nodes;
  }

  lemma RunKeepsArmed(s: State, v: nat, j: nat, a: ExecStep, w: nat, k: nat, id: NodeID, ch: nat)
    requires Inv(s) && RunEnabled(s, v, j, a) && Armed(s, w, k, id, ch) && !(v == w && j == k)
    ensures Armed(FireRun(s, v, j, a), w, k, id, ch)
  {
    OnlyWorker(s, w);
    OnlyWorker(s, v);
    RunKeepsListening(s, j, a, w, k, id, ch);
    RunLeavesCancellation(s, v, j, a);
    if !s.task.status.TaskCancelled? && Undecided(s.task, id) {
      RunLeavesUndecided(s, j, a, w, k, id, ch);
    }
  }

  lemma RunLeavesCancellation(s: State, v: nat, j: nat, a: ExecStep)
    requires RunEnabled(s, v, j, a)
    ensures var s' := FireRun(s, v, j, a);
      && s'.task.status == s.task.status && s'.callers == s.callers && s'.workers.Keys == s.workers.Keys
      && forall w <- s.workers :: s'.workers[w].cancelled == s.workers[w].cancelled
  {
  }

  /** The worker itself stands still while one of its executors listens. */
  lemma WorkerStandsStill(s: State, v: nat, a: WorkerStep, w: nat, k: nat, id: NodeID, ch: nat)
    requires SlotOk(s) && Listens(s, w, k, id, ch)
    ensures !WorkEnabled(s, v, a)
  {
    assert ExecAt(s, w, k) in s.workers[w].phase.execs;
  }

  lemma StepKeepsArmed(s: State, step: Step, w: nat, k: nat, id: NodeID, ch: nat)
    requires Inv(s) && Enabled(s, step) && Armed(s, w, k, id, ch) && !step.Crash? && !OwnStep(step, w, k)
    ensures Armed(Fire(s, step), w, k, id, ch)
  {
    if step.Api? {
      ApiKeepsArmed(s, step.api, w, k, id, ch);
    } else if step.Run? {
      RunKeepsArmed(s, step.w, step.k, step.run, w, k, id, ch);
    } else {
      WorkerStandsStill(s, step.w, step.work, w, k, id, ch);
    }
  }

  /** No cancellation passes a batch by: as long as it runs in a cancelled task, its context is cancelled or the Cancel
      that stored the status has still to sweep or to abort. */
  ghost predicate CancelReaches(s: State) {
    s.task.status.TaskCancelled? ==> forall w <- s.workers :: s.workers[w].phase.Batch? ==> CancelOnItsWay(s, w)
  }

  lemma ApiKeepsCancelReaches(s: State, a: ApiStep)
    requires Inv(s) && CancelReaches(s) && ApiEnabled(s, a)
    ensures CancelReaches(FireApi(s, a))
  {
    var s' := FireApi(s, a);
    if s'.task.status.TaskCancelled? {
      if !s.task.status.TaskCancelled? {
        CancelAnnounces(s, a);
      } else {
        forall w <- s'.workers | s'.workers[w].phase.Batch? ensures CancelOnItsWay(s', w) {
          assert w in s.workers && s.workers[w].phase.Batch?;
          ApiKeepsCancelOnItsWay(s, a, w);
        }
      }
    }
  }

  /** The worker starts no batch in a cancelled task. */
  lemma WorkKeepsCancelReaches(s: State, w: nat, a: WorkerStep)
    requires Inv(s) && CancelReaches(s) && WorkEnabled(s, w, a)
    ensures CancelReaches(FireWork(s, w, a))
  {
    OnlyWorker(s, w);
    if a.Launch? && a.ok { StartedOnlyIfOpen(s.task, s.workers[w].phase.ready, a.now); }
  }

  lemma StepKeepsCancelReaches(s: State, step: Step)
    requires Inv(s) && CancelReaches(s) && Enabled(s, step)
    ensures CancelReaches(Fire(s, step))
  {
    if step.Api? {
      ApiKeepsCancelReaches(s, step.api);
    } else if step.Work? {
      WorkKeepsCancelReaches(s, step.w, step.work);
    } else if step.Run? {
      RunLeavesCancellation(s, step.w, step.k, step.run);
      OnlyWorker(s, step.w);
    }
  }

  /** In every state reached from a submission, crashes and repository errors included. */
  lemma {:induction false} CancelReachesInRuns(s: State, schedule: seq<Step>, s': State)
    requires Inv(s) && CancelReaches(s) && Reaches(s, schedule, s')
    ensures CancelReaches(s')
    decreases |schedule|
  {
    if schedule != [] {
      StepKeeps(s, schedule[0]);
      StepKeepsCancelReaches(s, schedule[0]);
      CancelReachesInRuns(Fire(s, schedule[0]), schedule[1..], s');
    }
  }

  lemma InitiallyCancelReaches(s: State)
    requires Initial(s)
    ensures CancelReaches(s)
  {
  }

  /** A confirmation or a cancellation issued once the channel exists is never lost: through every step of everyone
      else, short of a crash, the listener stays armed. */
  lemma {:induction false} ArmedIsNeverLost(s: State, schedule: seq<Step>, s': State, w: nat, k: nat, id: NodeID,
                                            ch: nat)
    requires Inv(s) && Reaches(s, schedule, s') && Armed(s, w, k, id, ch)
    requires forall step <- schedule :: !step.Crash? && !OwnStep(step, w, k)
    ensures Armed(s', w, k, id, ch)
    decreases |schedule|
  {
    if schedule != [] {
      StepKeeps(s, schedule[0]);
      StepKeepsArmed(s, schedule[0], w, k, id, ch);
      ArmedIsNeverLost(Fire(s, schedule[0]), schedule[1..], s', w, k, id, ch);
    }
  }

  ghost predicate CanLeave(s: State, w: nat, k: nat) {
    RunEnabled(s, w, k, Wake) || RunEnabled(s, w, k, GiveUp)
  }

  lemma HeardCanLeave(s: State, w: nat, k: nat, id: NodeID, ch: nat)
    requires Listens(s, w, k, id, ch) && (ch in s.signalled || s.workers[w].cancelled)
    ensures CanLeave(s, w, k)
  {
  }

  lemma SignalIsHeard(s: State, w: nat, k: nat, id: NodeID, ch: nat)
    requires SlotOk(s) && Listens(s, w, k, id, ch) && ToSignal(id) in s.callers && id in s.channels
    requires s.channels[id] == ch
    ensures CanLeave(FireApi(s, Signal(id)), w, k)
  {
    ApiKeepsListening(s, Signal(id), w, k, id, ch);
    HeardCanLeave(FireApi(s, Signal(id)), w, k, id, ch);
  }

  lemma SweepIsHeard(s: State, w: nat, k: nat, id: NodeID, ch: nat)
    requires Inv(s) && Listens(s, w, k, id, ch) && ToSweep in s.callers
    ensures CanLeave(FireApi(s, Sweep), w, k)
  {
    StoredUntilSwept(s, w, k, id, ch);
    ApiKeepsListening(s, Sweep, w, k, id, ch);
    HeardCanLeave(FireApi(s, Sweep), w, k, id, ch);
  }

  lemma AbortIsHeard(s: State, w: nat, k: nat, id: NodeID, ch: nat)
    requires SlotOk(s) && Listens(s, w, k, id, ch) && ToAbort(w) in s.callers
    ensures CanLeave(FireApi(s, Abort(w)), w, k)
  {
    ApiKeepsListening(s, Abort(w), w, k, id, ch);
    HeardCanLeave(FireApi(s, Abort(w)), w, k, id, ch);
  }

  lemma OneApiStep(s: State, a: ApiStep)
    requires ApiEnabled(s, a)
    ensures Reaches(s, [Api(a)], FireApi(s, a))
  {
    Then(s, [], s, Api(a), FireApi(s, a));
    assert [] + [Api(a)] == [Api(a)];
  }

  /** An armed listener whose node has been decided, or whose task has been cancelled, can leave its wait as soon as the
      obligations already taken up - at most a signal, or a sweep, or an abort - have been met. */
  lemma DecisionIsHeard(s: State, w: nat, k: nat, id: NodeID, ch: nat) returns (pending: seq<Step>, s': State)
    requires Inv(s) && Armed(s, w, k, id, ch) && (s.task.status.TaskCancelled? || !Undecided(s.task, id))
    ensures |pending| <= 1 && Reaches(s, pending, s') && CanLeave(s', w, k)
    ensures forall step <- pending :: step in {Api(Signal(id)), Api(Sweep), Api(Abort(w))}
  {
    if ch in s.signalled || s.workers[w].cancelled {
      HeardCanLeave(s, w, k, id, ch);
      pending, s' := [], s;
    } else {
      var a := PendingStep(s, w, k, id, ch);
      OneApiStep(s, a);
      pending, s' := [Api(a)], FireApi(s, a);
    }
  }

  lemma PendingStep(s: State, w: nat, k: nat, id: NodeID, ch: nat) returns (a: ApiStep)
    requires Inv(s) && Armed(s, w, k, id, ch) && (s.task.status.TaskCancelled? || !Undecided(s.task, id))
    requires ch !in s.signalled && !s.workers[w].cancelled
    ensures ApiEnabled(s, a) && CanLeave(FireApi(s, a), w, k) && a in {Signal(id), Sweep, Abort(w)}
  {
    if !s.task.status.TaskCancelled? {
      a := Signal(id);
      SignalIsHeard(s, w, k, id, ch);
    } else if ToSweep in s.callers {
      a := Sweep;
      SweepIsHeard(s, w, k, id, ch);
    } else {
      a := Abort(w);
      AbortIsHeard(s, w, k, id, ch);
    }
  }

  /** The channel of a listener that has not been signalled is still stored, so a sweep signals it. */
  lemma StoredUntilSwept(s: State, w: nat, k: nat, id: NodeID, ch: nat)
    requires Inv(s) && Listens(s, w, k, id, ch) && ApiEnabled(s, Sweep)
    ensures ch in FireApi(s, Sweep).signalled
  {
    assert ListenersOk(s.task, s.channels, s.signalled, s.nextId, s.workers[w].phase);
    assert ListenerOk(s.task, s.channels, s.signalled, s.nextId, ExecAt(s, w, k));
    if ch !in s.signalled { assert s.channels[id] in s.channels.Values; }
  }

  /** Whatever happens between a decision and its listener: once the node has been confirmed or the task cancelled,
      every later state without a crash lets the listener leave after at most one pending obligation. */
  lemma DecidedListenersLeave(s: State, schedule: seq<Step>, mid: State, w: nat, k: nat, id: NodeID, ch: nat)
    returns (pending: seq<Step>, s': State)
    requires Inv(s) && Reaches(s, schedule, mid) && Armed(s, w, k, id, ch)
    requires forall step <- schedule :: !step.Crash? && !OwnStep(step, w, k)
    requires mid.task.status.TaskCancelled? || id in Done(mid.task.nodes)
    ensures |pending| <= 1 && Reaches(mid, pending, s') && CanLeave(s', w, k)
  {
    ArmedIsNeverLost(s, schedule, mid, w, k, id, ch);
    RunsKeep(s, schedule);
    if !mid.task.status.TaskCancelled? { ParkedIsDecidedOrNot(mid, w, k); }
    pending, s' := DecisionIsHeard(mid, w, k, id, ch);
  }

  // ---------------------------------------------------------------- lost listeners stay lost

  /** Creating the channel decides it: the listener is armed if its node is still undecided or the signal is still to
      come, and otherwise the confirmation is lost. */
  lemma OpeningDecides(s: State, w: nat, k: nat)
    requires Inv(s) && CancelReaches(s) && RunEnabled(s, w, k, Open)
    ensures var s', id := FireRun(s, w, k, Open), ExecAt(s, w, k).node.id;
      HasExec(s', w, k) && ExecAt(s', w, k).phase.Listening? &&
      var ch := ExecAt(s', w, k).phase.channel;
      && (Armed(s', w, k, id, ch)
          <==> Undecided(s.task, id) || ToSignal(id) in s.callers || s.task.status.TaskCancelled?)
      && (Armed(s', w, k, id, ch) <==> !Lost(s', w, k, id, ch))
  {
    var id := ExecAt(s, w, k).node.id;
    if !s.task.status.TaskCancelled? { ParkedIsDecidedOrNot(s, w, k); } else { assert CancelOnItsWay(s, w); }
    assert ChannelsOk(s.channels, s.signalled, s.nextId);
    assert Listens(FireRun(s, w, k, Open), w, k, id, if id in s.channels then s.channels[id] else s.nextId);
  }

  lemma ParkedIsDecidedOrNot(s: State, w: nat, k: nat)
    requires Inv(s) && HasExec(s, w, k) && (ExecAt(s, w, k).phase.Parked? || ExecAt(s, w, k).phase.Listening?)
    requires !s.task.status.TaskCancelled?
    ensures var id := ExecAt(s, w, k).node.id; Undecided(s.task, id) <==> id !in Done(s.task.nodes)
    ensures !s.task.status.Terminal()
  {
    var e := ExecAt(s, w, k);
    assert WorkerOk(s.task, s.workers[w]) && ExecOk(s.task, e);
    var i :| 0 <= i < |s.task.nodes| && s.task.nodes[i].id == e.node.id;
    assert ExecNodeOk(e, s.task.nodes[i]);
    DoneOf(s.task.nodes, i);
    assert s.task.nodes[i] in s.task.nodes;
  }

  lemma StepKeepsLost(s: State, step: Step, w: nat, k: nat, id: NodeID, ch: nat)
    requires Inv(s) && Enabled(s, step) && Lost(s, w, k, id, ch)
    requires !step.Crash? && !(step.Api? && step.api.CancelCall?)
    ensures Lost(Fire(s, step), w, k, id, ch)
  {
    StepMoves(s, step);
    if step.Api? {
      ApiKeepsLost(s, step.api, w, k, id, ch);
    } else if step.Run? {
      RunKeepsLost(s, step.w, step.k, step.run, w, k, id, ch);
    } else {
      WorkerStandsStill(s, step.w, step.work, w, k, id, ch);
    }
  }

  lemma ApiKeepsLost(s: State, a: ApiStep, w: nat, k: nat, id: NodeID, ch: nat)
    requires Inv(s) && ApiEnabled(s, a) && Lost(s, w, k, id, ch) && !a.CancelCall?
    requires Evolves(s.task, FireApi(s, a).task)
    ensures Lost(FireApi(s, a), w, k, id, ch)
  {
    ApiKeepsListening(s, a, w, k, id, ch);
    OnlyItsOwnChannel(s, w, k, id, ch);
    ApiSendsNothing(s, a, id, ch);
    OnlyCancelEnds(s.task, a);
  }

  lemma OnlyCancelEnds(t: Task, a: ApiStep)
    requires !t.status.Terminal() && !a.CancelCall?
    ensures !TaskAfter(t, a).status.Terminal()
  {
  }

  lemma OnlyItsOwnChannel(s: State, w: nat, k: nat, id: NodeID, ch: nat)
    requires Inv(s) && Listens(s, w, k, id, ch)
    ensures forall id' <- s.channels :: s.channels[id'] == ch ==> id' == id
  {
    assert ListenersOk(s.task, s.channels, s.signalled, s.nextId, s.workers[w].phase);
    assert ListenerOk(s.task, s.channels, s.signalled, s.nextId, ExecAt(s, w, k));
  }

  /** No step but Cancel can signal the channel of a node that has already succeeded and been signalled for. */
  lemma ApiSendsNothing(s: State, a: ApiStep, id: NodeID, ch: nat)
    requires Inv(s) && ApiEnabled(s, a) && !s.task.status.TaskCancelled?
    requires id in Done(s.task.nodes) && ToSignal(id) !in s.callers && ch !in s.signalled
    requires forall id' <- s.channels :: s.channels[id'] == ch ==> id' == id
    ensures ToSignal(id) !in FireApi(s, a).callers && ch !in FireApi(s, a).signalled
  {
    assert !CallerOk(s.task, ToSweep);
    assert ToSweep !in s.callers;
    DecidedIsNotConfirmed(s, a, id);
    assert ch !in Rewired(s, a).signalled;
  }

  lemma DecidedIsNotConfirmed(s: State, a: ApiStep, id: NodeID)
    requires TaskOk(s.task) && id in Done(s.task.nodes)
    ensures ToSignal(id) !in Announced(s, a)
  {
    var i :| 0 <= i < |s.task.nodes| && s.task.nodes[i].status.Succeeded? && s.task.nodes[i].id == id;
    DoneOf(s.task.nodes, i);
  }

  lemma RunKeepsLost(s: State, v: nat, j: nat, a: ExecStep, w: nat, k: nat, id: NodeID, ch: nat)
    requires Inv(s) && RunEnabled(s, v, j, a) && Lost(s, w, k, id, ch)
    requires Evolves(s.task, FireRun(s, v, j, a).task)
    ensures Lost(FireRun(s, v, j, a), w, k, id, ch)
  {
    OnlyWorker(s, w);
    OnlyWorker(s, v);
    assert WorkerOk(s.task, s.workers[w]);
    if j != k { RunKeepsListening(s, j, a, w, k, id, ch); }
  }

  /** A lost listener waits for ever: short of Cancel and a crash no step of anyone moves it, so the batch never
      joins and the task never ends. */
  lemma {:induction false} LostIsForever(s: State, schedule: seq<Step>, s': State, w: nat, k: nat, id: NodeID, ch: nat)
    requires Inv(s) && Reaches(s, schedule, s') && Lost(s, w, k, id, ch)
    requires forall step <- schedule :: !step.Crash? && !(step.Api? && step.api.CancelCall?)
    ensures Lost(s', w, k, id, ch) && !s'.task.status.Terminal()
    decreases |schedule|
  {
    if schedule != [] {
      StepKeeps(s, schedule[0]);
      StepKeepsLost(s, schedule[0], w, k, id, ch);
      LostIsForever(Fire(s, schedule[0]), schedule[1..], s', w, k, id, ch);
    }
  }

  /** Only a cancellation frees it: as soon as it is stored the listener is armed, and leaves after the sweep. */
  lemma CancelFreesTheLost(s: State, w: nat, k: nat, id: NodeID, ch: nat, now: Time) returns (s': State)
    requires Inv(s) && Lost(s, w, k, id, ch)
    ensures Armed(FireApi(s, CancelCall(now)), w, k, id, ch)
    ensures Reaches(s, [Api(CancelCall(now)), Api(Sweep)], s') && CanLeave(s', w, k)
  {
    var mid := FireApi(s, CancelCall(now));
    ApiKeeps(s, CancelCall(now));
    ApiKeepsListening(s, CancelCall(now), w, k, id, ch);
    CancelAnnounces(s, CancelCall(now));
    SweepIsHeard(mid, w, k, id, ch);
    s' := FireApi(mid, Sweep);
    TwoApiSteps(s, CancelCall(now), Sweep);
  }

  lemma TwoApiSteps(s: State, a: ApiStep, b: ApiStep)
    requires ApiEnabled(s, a) && ApiEnabled(FireApi(s, a), b)
    ensures Reaches(s, [Api(a), Api(b)], FireApi(FireApi(s, a), b))
  {
    ExecutesTwo(s, Api(a), FireApi(s, a), Api(b), FireApi(FireApi(s, a), b));
  }

  function ParkAndConfirm(w: nat, k: nat, id: NodeID, now: Time): seq<Step> {
    [Run(w, k, System.Park(now, true)), Api(ConfirmCall(id, None, now))]
  }

  function SignalAndOpen(w: nat, k: nat, id: NodeID): seq<Step> {
    [Api(Signal(id)), Run(w, k, Open)]
  }

  function LosingSchedule(w: nat, k: nat, id: NodeID, now: Time): seq<Step> {
    ParkAndConfirm(w, k, id, now) + SignalAndOpen(w, k, id)
  }

  /** And it happens: from every state in which a gated executor is about to store its waiting state, a confirmation
      that runs to its end before the executor creates its channel is lost. */
  lemma ConfirmedBeforeListening(s: State, w: nat, k: nat, now: Time) returns (s': State, ch: nat)
    requires Inv(s) && RunEnabled(s, w, k, System.Park(now, true)) && !s.task.status.Terminal()
    ensures Reaches(s, LosingSchedule(w, k, ExecAt(s, w, k).node.id, now), s')
    ensures Lost(s', w, k, ExecAt(s, w, k).node.id, ch)
  {
    var id := ExecAt(s, w, k).node.id;
    var s1 := ParkedThen(s, w, k, now);
    var s2, s3;
    s2, s3, s', ch := ConfirmedThenOpened(s1, w, k, id, now);
    LosingScheduleRuns(s, s1, s2, s3, s', w, k, id, now);
  }

  lemma ConfirmedThenOpened(s: State, w: nat, k: nat, id: NodeID, now: Time)
    returns (mid: State, signalled: State, s': State, ch: nat)
    requires Inv(s) && HasExec(s, w, k) && ExecAt(s, w, k).phase.Parked? && ExecAt(s, w, k).node.id == id
    requires Confirm(s.task, id, None, now).Ok? && ToSignal(id) !in s.callers
    ensures mid == FireApi(s, ConfirmCall(id, None, now))
    ensures ApiEnabled(mid, Signal(id)) && signalled == FireApi(mid, Signal(id))
    ensures RunEnabled(signalled, w, k, Open) && s' == FireRun(signalled, w, k, Open) && Lost(s', w, k, id, ch)
  {
    mid, signalled := SignalledThen(s, w, k, id, now);
    TwoApiStepsKeep(s, ConfirmCall(id, None, now), Signal(id));
    s', ch := OpenedThen(signalled, w, k, id);
  }

  lemma TwoApiStepsKeep(s: State, a: ApiStep, b: ApiStep)
    requires Inv(s) && ApiEnabled(s, a) && ApiEnabled(FireApi(s, a), b)
    ensures Inv(FireApi(FireApi(s, a), b))
  {
    ApiKeeps(s, a);
    ApiKeeps(FireApi(s, a), b);
  }

  lemma OpenedThen(s: State, w: nat, k: nat, id: NodeID) returns (s': State, ch: nat)
    requires Inv(s) && RunEnabled(s, w, k, Open) && ExecAt(s, w, k).node.id == id
    requires ToSignal(id) !in s.callers && !s.task.status.TaskCancelled? && !Undecided(s.task, id)
    ensures s' == FireRun(s, w, k, Open) && Lost(s', w, k, id, ch)
  {
    OpeningDecides(s, w, k);
    s' := FireRun(s, w, k, Open);
    ch := ExecAt(s', w, k).phase.channel;
  }

  lemma ConfirmDecides(t: Task, id: NodeID, now: Time)
    requires TaskOk(t) && Confirm(t, id, None, now).Ok?
    ensures !Undecided(Confirm(t, id, None, now).value, id) && !Confirm(t, id, None, now).value.status.TaskCancelled?
  {
  }

  lemma SignalledThen(s: State, w: nat, k: nat, id: NodeID, now: Time) returns (mid: State, s': State)
    requires TaskOk(s.task) && HasExec(s, w, k) && ExecAt(s, w, k).phase.Parked? && ExecAt(s, w, k).node.id == id
    requires Confirm(s.task, id, None, now).Ok? && ToSignal(id) !in s.callers
    ensures mid == FireApi(s, ConfirmCall(id, None, now)) && ApiEnabled(mid, Signal(id))
    ensures s' == FireApi(mid, Signal(id))
    ensures RunEnabled(s', w, k, Open) && ExecAt(s', w, k).node.id == id
    ensures ToSignal(id) !in s'.callers && !s'.task.status.TaskCancelled? && !Undecided(s'.task, id)
  {
    ConfirmDecides(s.task, id, now);
    mid, s' := ConfirmAndSignal(s, id, now);
  }

  lemma ConfirmAndSignal(s: State, id: NodeID, now: Time) returns (mid: State, s': State)
    requires Confirm(s.task, id, None, now).Ok?
    ensures mid == FireApi(s, ConfirmCall(id, None, now)) && ApiEnabled(mid, Signal(id))
    ensures s' == FireApi(mid, Signal(id))
    ensures s'.task == Confirm(s.task, id, None, now).value && s'.callers == s.callers && s'.workers == s.workers
  {
    mid := FireApi(s, ConfirmCall(id, None, now));
    ConfirmEffect(s, id, now);
    s' := FireApi(mid, Signal(id));
    SignalEffect(mid, id);
  }

  lemma ConfirmEffect(s: State, id: NodeID, now: Time)
    requires Confirm(s.task, id, None, now).Ok?
    ensures var mid := FireApi(s, ConfirmCall(id, None, now));
            && mid.task == Confirm(s.task, id, None, now).value && mid.callers == s.callers + multiset{ToSignal(id)}
            && mid.workers == s.workers && ApiEnabled(mid, Signal(id))
  {
  }

  lemma SignalEffect(s: State, id: NodeID)
    requires ApiEnabled(s, Signal(id))
    ensures var s' := FireApi(s, Signal(id));
            s'.task == s.task && s'.callers == s.callers - multiset{ToSignal(id)} && s'.workers == s.workers
  {
  }

  lemma ParkedCanBeConfirmed(t: Task, id: NodeID, output: Snapshot, now: Time)
    requires UniqueIds(t.nodes) && id in Ids(t.nodes) && !t.status.Terminal() && !t.cancelRequested
    ensures Confirm(TaskOps.Park(t, id, output, now).value, id, None, now).Ok?
  {
    var i :| 0 <= i < |t.nodes| && t.nodes[i].id == id;
    var t' := TaskOps.Park(t, id, output, now).value;
    assert UniqueIds(t'.nodes);
    DoneOf(t'.nodes, i);
  }

  lemma ParkedThen(s: State, w: nat, k: nat, now: Time) returns (s': State)
    requires Inv(s) && RunEnabled(s, w, k, System.Park(now, true)) && !s.task.status.Terminal()
    ensures s' == FireRun(s, w, k, System.Park(now, true)) && Inv(s') && HasExec(s', w, k) && s'.callers == s.callers
    ensures ExecAt(s', w, k).phase.Parked? && ExecAt(s', w, k).node == ExecAt(s, w, k).node
    ensures Confirm(s'.task, ExecAt(s, w, k).node.id, None, now).Ok?
    ensures ToSignal(ExecAt(s, w, k).node.id) !in s.callers
  {
    var e := ExecAt(s, w, k);
    assert WorkerOk(s.task, s.workers[w]) && ExecOk(s.task, e);
    NotYetSignalled(s, e);
    ParkedCanBeConfirmed(s.task, e.node.id, e.phase.output, now);
    s' := FireRun(s, w, k, System.Park(now, true));
    RunKeeps(s, w, k, System.Park(now, true));
  }

  lemma NotYetSignalled(s: State, e: Exec)
    requires Inv(s) && ExecOk(s.task, e) && BeforeParking(e.phase)
    ensures ToSignal(e.node.id) !in s.callers
  {
    var i :| 0 <= i < |s.task.nodes| && s.task.nodes[i].id == e.node.id;
    assert ExecNodeOk(e, s.task.nodes[i]);
    DoneOf(s.task.nodes, i);
    assert !CallerOk(s.task, ToSignal(e.node.id));
  }

  lemma LosingScheduleRuns(s: State, s1: State, s2: State, s3: State, s': State, w: nat, k: nat, id: NodeID, now: Time)
    requires RunEnabled(s, w, k, System.Park(now, true)) && s1 == FireRun(s, w, k, System.Park(now, true))
    requires s2 == FireApi(s1, ConfirmCall(id, None, now))
    requires ApiEnabled(s2, Signal(id)) && s3 == FireApi(s2, Signal(id))
    requires RunEnabled(s3, w, k, Open) && s' == FireRun(s3, w, k, Open)
    ensures Reaches(s, LosingSchedule(w, k, id, now), s')
  {
    ExecutesTwo(s, Run(w, k, System.Park(now, true)), s1, Api(ConfirmCall(id, None, now)), s2);
    ExecutesTwo(s2, Api(Signal(id)), s3, Run(w, k, Open), s');
    RunsOn(s, ParkAndConfirm(w, k, id, now), s2, SignalAndOpen(w, k, id), s');
  }

  lemma ExecutesTwo(s: State, a: Step, s1: State, b: Step, s2: State)
    requires Next(s, a, s1) && Next(s1, b, s2)
    ensures Reaches(s, [a, b], s2)
  {
    Then2(s, [], s, a, s1, b, s2);
    assert [] + [a, b] == [a, b];
  }
}
