/** The inductive invariant of the whole system, kept by every step including a crash and a failing repository. */
module SystemInvariant {
  import opened Types
  import opened TaskOps
  import opened TaskInvariant
  import opened Progress
  import opened System

  // ---------------------------------------------------------------- one worker

  ghost predicate SlotOk(s: State) {
    && s.workers.Keys == (if s.slot.Some? then {s.slot.value} else {})
    && (forall w <- s.workers :: w < s.nextId)
  }

  // ---------------------------------------------------------------- executors

  predicate BeforeParking(p: ExecPhase) {
    p.Spawned? || p.Invoking? || p.Finishing? || p.Parking?
  }

  ghost predicate Gated(t: Task, n: Node) {
    t.requireConfirmation && NeedsConfirmation(n)
  }

  /** What the node an executor was started for looks like now. */
  ghost predicate ExecNodeOk(e: Exec, n: Node) {
    && SameShape(e.node, n)
    && (!e.phase.Returned? ==> n.attempts == e.node.attempts && 1 <= n.attempts)
    && (BeforeParking(e.phase) ==> !n.status.Succeeded? && !n.status.Waiting?)
    && (e.phase.Parked? || e.phase.Listening? ==> n.status.Waiting? || n.status.Succeeded? || n.status.Cancelled?)
  }

  ghost predicate ExecOk(t: Task, e: Exec) {
    && e.node.id in Ids(t.nodes)
    && DepSet(e.node) <= Done(t.nodes)
    && (forall i :: 0 <= i < |t.nodes| && t.nodes[i].id == e.node.id ==> ExecNodeOk(e, t.nodes[i]))
    && (e.phase.Invoking? ==> e.phase.inputs.Keys == DepSet(e.node) && (e.phase.gated <==> Gated(t, e.node)))
    && (e.phase.Finishing? && e.phase.outcome.Output? ==> !Gated(t, e.node))
  }

  ghost predicate DistinctNodes(execs: seq<Exec>) {
    forall j, k :: 0 <= j < k < |execs| ==> execs[j].node.id != execs[k].node.id
  }

  ghost predicate BatchOk(t: Task, execs: seq<Exec>) {
    && !t.status.TaskFailed? && !t.status.TaskSucceeded?
    && DistinctNodes(execs)
    && forall k :: 0 <= k < |execs| ==> ExecOk(t, execs[k])
  }

  ghost predicate WorkerOk(t: Task, worker: Worker) {
    && (worker.cancelled ==> t.status.TaskCancelled?)
    && match worker.phase
       case Batch(execs) => BatchOk(t, execs)
       case Launching(ready) => !t.status.TaskFailed? && !t.status.TaskSucceeded? && Distinct(ready)
       case Marking => !t.status.TaskFailed? && !t.status.TaskSucceeded?
       case Settling => !t.status.TaskFailed? && !t.status.TaskSucceeded?
       case _ => true
  }

  // ---------------------------------------------------------------- channels

  /** A listener's channel is still stored under its node, or has been signalled. */
  ghost predicate ListenerOk(t: Task, channels: map<NodeID, nat>, signalled: set<nat>, nextId: nat, e: Exec) {
    e.phase.Listening? ==>
      var ch := e.phase.channel;
      && ch < nextId
      && ((e.node.id in channels && channels[e.node.id] == ch) || ch in signalled)
      && (forall id <- channels :: channels[id] == ch ==> id == e.node.id)
      && (ch in signalled ==> e.node.id in Done(t.nodes) || t.status.TaskCancelled?)
  }

  ghost predicate DistinctChannels(execs: seq<Exec>) {
    forall j, k :: 0 <= j < k < |execs| && execs[j].phase.Listening? && execs[k].phase.Listening? ==>
      execs[j].phase.channel != execs[k].phase.channel
  }

  ghost predicate ChannelsOk(channels: map<NodeID, nat>, signalled: set<nat>, nextId: nat) {
    && (forall id <- channels :: channels[id] < nextId && channels[id] !in signalled)
    && (forall id, id' :: id in channels && id' in channels && channels[id] == channels[id'] ==> id == id')
    && (forall ch <- signalled :: ch < nextId)
  }

  ghost predicate ListenersOk(t: Task, channels: map<NodeID, nat>, signalled: set<nat>, nextId: nat,
                              phase: WorkerPhase) {
    phase.Batch? ==>
      && DistinctChannels(phase.execs)
      && forall k :: 0 <= k < |phase.execs| ==> ListenerOk(t, channels, signalled, nextId, phase.execs[k])
  }

  ghost predicate CallerOk(t: Task, c: Caller) {
    match c
    case ToSignal(id) => id in Done(t.nodes)
    case ToSweep => t.status.TaskCancelled?
    case ToAbort(_) => t.status.TaskCancelled?
    case _ => true
  }

  ghost predicate Inv(s: State) {
    && TaskOk(s.task)
    && SlotOk(s)
    && (forall w <- s.workers :: WorkerOk(s.task, s.workers[w]))
    && (forall c <- s.callers :: CallerOk(s.task, c))
    && ChannelsOk(s.channels, s.signalled, s.nextId)
    && (forall w <- s.workers :: ListenersOk(s.task, s.channels, s.signalled, s.nextId, s.workers[w].phase))
  }

  // ---------------------------------------------------------------- steps of others

  lemma ExecKept(t: Task, t': Task, own: set<NodeID>, e: Exec)
    requires ExecOk(t, e) && Disturbs(t, t', own) && e.node.id !in own
    ensures ExecOk(t', e)
  {
    SameIds(t.nodes, t'.nodes);
    forall i | 0 <= i < |t'.nodes| && t'.nodes[i].id == e.node.id ensures ExecNodeOk(e, t'.nodes[i]) {
      assert SameShape(t.nodes[i], t'.nodes[i]) && ExecNodeOk(e, t.nodes[i]);
    }
  }

  lemma WorkerKept(t: Task, t': Task, worker: Worker)
    requires WorkerOk(t, worker) && Disturbs(t, t', {})
    requires worker.phase.Top? || worker.phase.Leaving? || !t.status.TaskFailed?
    ensures WorkerOk(t', worker)
  {
    if worker.phase.Batch? {
      forall k | 0 <= k < |worker.phase.execs| ensures ExecOk(t', worker.phase.execs[k]) {
        ExecKept(t, t', {}, worker.phase.execs[k]);
      }
    }
  }

  // ---------------------------------------------------------------- API calls keep the invariant

  lemma TaskChanged(s: State, t': Task)
    requires Inv(s) && TaskOk(t') && Disturbs(s.task, t', {})
    ensures Inv(s.(task := t'))
  {
    forall w <- s.workers ensures WorkerOk(t', s.workers[w]) {
      WorkerKept(s.task, t', s.workers[w]);
    }
  }

  lemma RetryStepKeeps(s: State, now: Time)
    requires Inv(s) && s.task.status.TaskFailed?
    ensures Inv(s.(task := TaskOps.Retry(s.task, now).value))
  {
    RetryKeeps(s.task, now);
  }

  /** Outside Retry the API leaves the task as it is or disturbs no executor. */
  lemma ApiDisturbsNobody(t: Task, a: ApiStep)
    requires TaskOk(t) && !a.RetryCall?
    ensures TaskAfter(t, a) == t || (TaskOk(TaskAfter(t, a)) && Disturbs(t, TaskAfter(t, a), {}))
  {
    match a
    case CancelCall(now) => if !t.status.Terminal() { CancelKeeps(t, now); }
    case Requeue(now, ok) => if ok { RecoverKeeps(t, now); }
    case ConfirmCall(id, adjusted, now) => if Confirm(t, id, adjusted, now).Ok? { ConfirmKeeps(t, id, adjusted, now); }
    case AdjustCall(id, output, now) => if TaskOps.Adjust(t, id, output, now).Ok? { AdjustKeeps(t, id, output, now); }
    case _ =>
  }

  lemma TaskAfterKeeps(s: State, a: ApiStep)
    requires Inv(s)
    ensures Inv(s.(task := TaskAfter(s.task, a)))
  {
    if a.RetryCall? {
      if s.task.status.TaskFailed? { RetryStepKeeps(s, a.now); }
    } else {
      ApiDisturbsNobody(s.task, a);
      if TaskAfter(s.task, a) != s.task { TaskChanged(s, TaskAfter(s.task, a)); }
    }
  }

  lemma SweepKeeps(s: State)
    requires Inv(s) && s.task.status.TaskCancelled?
    ensures Inv(Rewired(s, Sweep))
  {
  }

  lemma SignalKeeps(s: State, id: NodeID)
    requires Inv(s) && id in Done(s.task.nodes)
    ensures Inv(Rewired(s, Signal(id)))
  {
  }

  lemma StartOrAbortKeeps(s: State, a: ApiStep)
    requires Inv(s) && (a.Start? || (a.Abort? && s.task.status.TaskCancelled?))
    ensures Inv(Rewired(s, a))
  {
  }

  lemma RewiredKeeps(s: State, a: ApiStep)
    requires Inv(s) && ApiEnabled(s, a)
    ensures Inv(Rewired(s, a))
  {
    match a
    case Sweep => assert CallerOk(s.task, ToSweep); SweepKeeps(s);
    case Signal(id) => assert CallerOk(s.task, ToSignal(id)); SignalKeeps(s, id);
    case Abort(w) => assert CallerOk(s.task, ToAbort(w)); StartOrAbortKeeps(s, a);
    case Start => StartOrAbortKeeps(s, a);
    case _ =>
  }

  lemma AnnouncedOk(s: State, a: ApiStep, c: Caller)
    requires Inv(s) && ApiEnabled(s, a) && c in Announced(s, a)
    ensures CallerOk(TaskAfter(s.task, a), c)
  {
    match a
    case ConfirmCall(id, adjusted, now) =>
      var t' := Confirm(s.task, id, adjusted, now).value;
      var i :| 0 <= i < |s.task.nodes| && s.task.nodes[i].id == id;
      assert t'.nodes[i].id == id && t'.nodes[i].status.Succeeded?;
    case Sweep => assert CallerOk(s.task, ToSweep);
    case _ =>
  }

  lemma CallersStayOk(s: State, a: ApiStep)
    requires Inv(s) && ApiEnabled(s, a) && Inv(s.(task := TaskAfter(s.task, a)))
    ensures forall c <- FireApi(s, a).callers :: CallerOk(TaskAfter(s.task, a), c)
  {
    forall c <- FireApi(s, a).callers ensures CallerOk(TaskAfter(s.task, a), c) {
      if c in Announced(s, a) {
        AnnouncedOk(s, a, c);
      } else {
        assert c in s.callers;
      }
    }
  }

  lemma CallersReplaced(s: State, callers: multiset<Caller>)
    requires Inv(s) && forall c <- callers :: CallerOk(s.task, c)
    ensures Inv(s.(callers := callers))
  {
  }

  lemma ApiKeeps(s: State, a: ApiStep)
    requires Inv(s) && ApiEnabled(s, a)
    ensures Inv(FireApi(s, a))
  {
    RewiredKeeps(s, a);
    TaskAfterKeeps(Rewired(s, a), a);
    TaskAfterKeeps(s, a);
    CallersStayOk(s, a);
    CallersReplaced(Rewired(s, a).(task := TaskAfter(s.task, a)), FireApi(s, a).callers);
  }

  // ---------------------------------------------------------------- the worker keeps the invariant

  lemma PhaseKeeps(s: State, w: nat, phase: WorkerPhase)
    requires Inv(s) && w in s.workers
    requires WorkerOk(s.task, s.workers[w].(phase := phase))
    requires ListenersOk(s.task, s.channels, s.signalled, s.nextId, phase)
    ensures Inv(SetPhase(s, w, phase))
  {
  }

  lemma OnlyWorker(s: State, w: nat)
    requires SlotOk(s) && w in s.workers
    ensures s.slot == Some(w) && s.workers.Keys == {w}
  {
  }

  lemma SettleKeeps(s: State, w: nat, now: Time)
    requires Inv(s) && w in s.workers && s.workers[w].phase.Settling?
    ensures Inv(SetPhase(s.(task := Complete(s.task, now)), w, Top))
  {
    CompleteKeeps(s.task, now);
    OnlyWorker(s, w);
  }

  lemma LaunchedExec(t: Task, ready: seq<NodeID>, now: Time, m: Node, i: nat)
    requires TaskOk(t) && StartedFrom(t, ready, now, m, i) && Started(t, ready, now) != []
    ensures ExecOk(StartNodes(t, ready, now), Exec(m, Spawned))
  {
    var t' := StartNodes(t, ready, now);
    StartKeeps(t, ready, now);
    DependenciesAreDone(t.nodes[i], t.nodes);
    assert t'.nodes[i] == m;
    assert UniqueIds(t'.nodes);
  }

  lemma LaunchedBatch(t: Task, ready: seq<NodeID>, now: Time)
    requires TaskOk(t) && Distinct(ready) && Started(t, ready, now) != []
    ensures BatchOk(StartNodes(t, ready, now), Spawn(Started(t, ready, now)))
  {
    var t', started := StartNodes(t, ready, now), Started(t, ready, now);
    StartedSound(t, ready, now);
    StartedOnlyIfOpen(t, ready, now);
    forall k | 0 <= k < |started| ensures ExecOk(t', Exec(started[k], Spawned)) {
      assert started[k] in started;
      var i: nat :| StartedFrom(t, ready, now, started[k], i);
      LaunchedExec(t, ready, now, started[k], i);
    }
  }

  lemma WorkerReplaced(s: State, w: nat, t': Task, worker: Worker)
    requires Inv(s) && w in s.workers && TaskOk(t') && Done(s.task.nodes) <= Done(t'.nodes)
    requires s.task.status.TaskCancelled? ==> t'.status.TaskCancelled?
    requires WorkerOk(t', worker) && ListenersOk(t', s.channels, s.signalled, s.nextId, worker.phase)
    ensures Inv(s.(task := t', workers := s.workers[w := worker]))
  {
    OnlyWorker(s, w);
  }

  lemma LaunchKeeps(s: State, w: nat, now: Time)
    requires Inv(s) && w in s.workers && s.workers[w].phase.Launching?
    ensures Inv(FireWork(s, w, Launch(now, true)))
  {
    var ready := s.workers[w].phase.ready;
    if Started(s.task, ready, now) == [] {
      PhaseKeeps(s, w, Top);
    } else {
      LaunchedBatch(s.task, ready, now);
      BatchStartsKeeps(s, w, now);
    }
  }

  lemma BatchStartsKeeps(s: State, w: nat, now: Time)
    requires Inv(s) && w in s.workers && s.workers[w].phase.Launching?
    requires var ready := s.workers[w].phase.ready;
      Started(s.task, ready, now) != [] && BatchOk(StartNodes(s.task, ready, now), Spawn(Started(s.task, ready, now)))
    ensures var ready := s.workers[w].phase.ready;
      Inv(SetPhase(s.(task := StartNodes(s.task, ready, now)), w, Batch(Spawn(Started(s.task, ready, now)))))
  {
    var ready := s.workers[w].phase.ready;
    StartKeeps(s.task, ready, now);
    StartedOnlyIfOpen(s.task, ready, now);
    WorkerReplaced(s, w, StartNodes(s.task, ready, now),
                   s.workers[w].(phase := Batch(Spawn(Started(s.task, ready, now)))));
  }

  lemma LookKeeps(s: State, w: nat)
    requires Inv(s) && w in s.workers && s.workers[w].phase.Top?
    ensures Inv(SetPhase(s, w, AfterLook(s.task, s.workers[w].cancelled)))
  {
    ReadyNodesExact(s.task.nodes, 0);
    PhaseKeeps(s, w, AfterLook(s.task, s.workers[w].cancelled));
  }

  lemma ReleaseKeeps(s: State, w: nat)
    requires Inv(s) && w in s.workers
    ensures Inv(s.(slot := None, workers := s.workers - {w}))
  {
    OnlyWorker(s, w);
  }

  lemma WorkKeeps(s: State, w: nat, a: WorkerStep)
    requires Inv(s) && WorkEnabled(s, w, a)
    ensures Inv(FireWork(s, w, a))
  {
    match a
    case Look(ok) => if ok { LookKeeps(s, w); } else { PhaseKeeps(s, w, Leaving(false)); }
    case Mark(now, ok) =>
      if ok {
        MarkRunningKeeps(s.task, now);
        TaskChanged(s, MarkRunning(s.task, now));
        PhaseKeeps(s.(task := MarkRunning(s.task, now)), w, Top);
      } else {
        PhaseKeeps(s, w, Leaving(false));
      }
    case Settle(now, ok) => if ok { SettleKeeps(s, w, now); } else { PhaseKeeps(s, w, Leaving(false)); }
    case Launch(now, ok) => if ok { LaunchKeeps(s, w, now); } else { PhaseKeeps(s, w, Leaving(false)); }
    case Join =>
      PhaseKeeps(s, w, Top);
      PhaseKeeps(s, w, Leaving(false));
    case Release =>
      ReleaseKeeps(s, w);
  }

  // ---------------------------------------------------------------- executors keep the invariant

  lemma BatchKept(t: Task, t': Task, execs: seq<Exec>, k: nat, phase: ExecPhase)
    requires BatchOk(t, execs) && k < |execs|
    requires Disturbs(t, t', {execs[k].node.id}) && ExecOk(t', execs[k].(phase := phase))
    ensures BatchOk(t', execs[k := execs[k].(phase := phase)])
  {
    forall j | 0 <= j < |execs| && j != k ensures ExecOk(t', execs[j]) {
      ExecKept(t, t', {execs[k].node.id}, execs[j]);
    }
  }

  lemma ListenersKept(s: State, t': Task, execs: seq<Exec>, k: nat, phase: ExecPhase)
    requires ListenersOk(s.task, s.channels, s.signalled, s.nextId, Batch(execs)) && k < |execs| && !phase.Listening?
    requires Done(s.task.nodes) <= Done(t'.nodes) && (s.task.status.TaskCancelled? ==> t'.status.TaskCancelled?)
    ensures ListenersOk(t', s.channels, s.signalled, s.nextId, Batch(execs[k := execs[k].(phase := phase)]))
  {
  }

  /** Executor k moved to `phase` after the task changed only at its own node. */
  lemma ExecKeeps(s: State, w: nat, k: nat, t': Task, phase: ExecPhase)
    requires Inv(s) && HasExec(s, w, k) && !phase.Listening?
    requires TaskOk(t') && Disturbs(s.task, t', {ExecAt(s, w, k).node.id})
    requires ExecOk(t', ExecAt(s, w, k).(phase := phase))
    ensures Inv(SetExec(s.(task := t'), w, k, phase))
  {
    OnlyWorker(s, w);
    var worker := s.workers[w];
    assert WorkerOk(s.task, worker) && ListenersOk(s.task, s.channels, s.signalled, s.nextId, worker.phase);
    BatchKept(s.task, t', worker.phase.execs, k, phase);
    ListenersKept(s, t', worker.phase.execs, k, phase);
    WorkerReplaced(s, w, t', worker.(phase := Batch(worker.phase.execs[k := worker.phase.execs[k].(phase := phase)])));
  }

  lemma ReadKeeps(s: State, w: nat, k: nat)
    requires Inv(s) && RunEnabled(s, w, k, Read(true))
    ensures Inv(FireRun(s, w, k, Read(true)))
  {
    var e := ExecAt(s, w, k);
    assert WorkerOk(s.task, s.workers[w]) && ExecOk(s.task, e);
    InputsComplete(s.task, e.node);
    ExecKeeps(s, w, k, s.task,
              Invoking(CompletedDependencies(e.node, s.task.nodes),
                       s.task.requireConfirmation && NeedsConfirmation(e.node)));
  }

  /** Every dependency of a node whose dependencies have succeeded has an output to hand over. */
  lemma InputsComplete(t: Task, n: Node)
    requires TaskOk(t) && DepSet(n) <= Done(t.nodes)
    ensures CompletedDependencies(n, t.nodes).Keys == DepSet(n)
  {
    forall d | d in DepSet(n) ensures d in CompletedDependencies(n, t.nodes) {
      var i :| 0 <= i < |t.nodes| && t.nodes[i].status.Succeeded? && t.nodes[i].id == d;
      DoneOf(t.nodes, i);
    }
  }

  lemma FinishStepKeeps(s: State, w: nat, k: nat, now: Time)
    requires Inv(s) && RunEnabled(s, w, k, System.Finish(now, true))
    ensures Inv(FireRun(s, w, k, System.Finish(now, true)))
  {
    var e := ExecAt(s, w, k);
    MayPark(s, w, k);
    FinishKeeps(s.task, e.node.id, e.phase.outcome, now);
    var t' := TaskOps.Finish(s.task, e.node.id, e.phase.outcome, now);
    FinishedExec(s.task, t', e);
    ExecKeeps(s, w, k, t', Returned(true));
  }

  lemma FinishedExec(t: Task, t': Task, e: Exec)
    requires ExecOk(t, e) && Evolves(t, t')
    ensures ExecOk(t', e.(phase := Returned(true)))
  {
    SameIds(t.nodes, t'.nodes);
    forall i | 0 <= i < |t'.nodes| && t'.nodes[i].id == e.node.id
      ensures ExecNodeOk(e.(phase := Returned(true)), t'.nodes[i])
    {
      assert ExecNodeOk(e, t.nodes[i]) && SameShape(t.nodes[i], t'.nodes[i]);
    }
  }

  lemma ParkStepKeeps(s: State, w: nat, k: nat, now: Time)
    requires Inv(s) && RunEnabled(s, w, k, System.Park(now, true))
    ensures Inv(FireRun(s, w, k, System.Park(now, true)))
  {
    var e := ExecAt(s, w, k);
    MayPark(s, w, k);
    ParkKeeps(s.task, e.node.id, e.phase.output, now);
    var t' := TaskOps.Park(s.task, e.node.id, e.phase.output, now).value;
    ParkedExec(s.task, t', e, now);
    ExecKeeps(s, w, k, t', Parked);
  }

  /** What parking, which has no guard, relies on. */
  lemma MayPark(s: State, w: nat, k: nat)
    requires Inv(s) && HasExec(s, w, k) && BeforeParking(ExecAt(s, w, k).phase)
    ensures ExecOk(s.task, ExecAt(s, w, k)) && ExecAt(s, w, k).node.id in Ids(s.task.nodes)
    ensures !s.task.status.TaskFailed? && !s.task.status.TaskSucceeded?
    ensures forall n <- s.task.nodes :: n.id == ExecAt(s, w, k).node.id ==>
      !n.status.Succeeded? && 1 <= n.attempts && DepSet(n) <= Done(s.task.nodes)
  {
    var e := ExecAt(s, w, k);
    assert WorkerOk(s.task, s.workers[w]) && ExecOk(s.task, e);
    forall i | 0 <= i < |s.task.nodes| && s.task.nodes[i].id == e.node.id
      ensures !s.task.nodes[i].status.Succeeded? && 1 <= s.task.nodes[i].attempts
      ensures DepSet(s.task.nodes[i]) <= Done(s.task.nodes)
    {
      assert ExecNodeOk(e, s.task.nodes[i]);
    }
  }

  lemma ParkedExec(t: Task, t': Task, e: Exec, now: Time)
    requires ExecOk(t, e) && e.phase.Parking? && TaskOps.Park(t, e.node.id, e.phase.output, now) == Ok(t')
    requires Evolves(t, t')
    ensures ExecOk(t', e.(phase := Parked))
  {
    SameIds(t.nodes, t'.nodes);
    forall i | 0 <= i < |t'.nodes| && t'.nodes[i].id == e.node.id ensures ExecNodeOk(e.(phase := Parked), t'.nodes[i]) {
      assert ExecNodeOk(e, t.nodes[i]);
    }
  }

  /** Executor k starts listening on `ch`, which is stored under its node. */
  lemma ListenKeeps(s: State, w: nat, k: nat, ch: nat)
    requires Inv(s) && HasExec(s, w, k) && ExecAt(s, w, k).phase.Parked?
    requires ExecAt(s, w, k).node.id in s.channels && s.channels[ExecAt(s, w, k).node.id] == ch
    ensures Inv(SetExec(s, w, k, Listening(ch)))
  {
    OnlyWorker(s, w);
    var execs := s.workers[w].phase.execs;
    assert WorkerOk(s.task, s.workers[w]) && ListenersOk(s.task, s.channels, s.signalled, s.nextId, s.workers[w].phase);
    assert ExecOk(s.task, execs[k].(phase := Listening(ch))) by { assert ExecOk(s.task, execs[k]); }
    BatchKept(s.task, s.task, execs, k, Listening(ch));
    var execs' := execs[k := execs[k].(phase := Listening(ch))];
    forall j | 0 <= j < |execs'|
      ensures ListenerOk(s.task, s.channels, s.signalled, s.nextId, execs'[j])
      ensures j != k && execs[j].phase.Listening? ==> execs[j].phase.channel != ch
    {
      assert ListenerOk(s.task, s.channels, s.signalled, s.nextId, execs[j]);
      assert j != k ==> execs[j].node.id != execs[k].node.id;
    }
  }

  lemma NewChannelKeeps(s: State, id: NodeID)
    requires Inv(s) && id !in s.channels
    ensures Inv(s.(channels := s.channels[id := s.nextId], nextId := s.nextId + 1))
  {
    var channels := s.channels[id := s.nextId];
    forall w <- s.workers | s.workers[w].phase.Batch?
      ensures forall k :: 0 <= k < |s.workers[w].phase.execs| ==>
        ListenerOk(s.task, channels, s.signalled, s.nextId + 1, s.workers[w].phase.execs[k])
    {
      assert ListenersOk(s.task, s.channels, s.signalled, s.nextId, s.workers[w].phase);
    }
  }

  lemma OpenKeeps(s: State, w: nat, k: nat)
    requires Inv(s) && RunEnabled(s, w, k, Open)
    ensures Inv(FireRun(s, w, k, Open))
  {
    var id := ExecAt(s, w, k).node.id;
    if id in s.channels {
      ListenKeeps(s, w, k, s.channels[id]);
    } else {
      NewChannelKeeps(s, id);
      ListenKeeps(s.(channels := s.channels[id := s.nextId], nextId := s.nextId + 1), w, k, s.nextId);
    }
  }

  lemma ReturnKeeps(s: State, w: nat, k: nat, clean: bool)
    requires Inv(s) && HasExec(s, w, k)
    ensures Inv(SetExec(s, w, k, Returned(clean)))
  {
    assert WorkerOk(s.task, s.workers[w]) && ExecOk(s.task, ExecAt(s, w, k));
    ExecKeeps(s, w, k, s.task, Returned(clean));
  }

  lemma InvokeKeeps(s: State, w: nat, k: nat, outcome: Outcome)
    requires Inv(s) && RunEnabled(s, w, k, Invoke(outcome))
    ensures Inv(FireRun(s, w, k, Invoke(outcome)))
  {
    var e := ExecAt(s, w, k);
    assert WorkerOk(s.task, s.workers[w]) && ExecOk(s.task, e);
    ExecKeeps(s, w, k, s.task,
              if outcome.Output? && e.phase.gated then Parking(outcome.snapshot) else Finishing(outcome));
  }

  lemma WakeKeeps(s: State, w: nat, k: nat)
    requires Inv(s) && RunEnabled(s, w, k, Wake)
    ensures Inv(FireRun(s, w, k, Wake))
  {
    ReturnKeeps(s, w, k, true);
    var ch, mid := ExecAt(s, w, k).phase.channel, SetExec(s, w, k, Returned(true));
    assert ListenersOk(s.task, s.channels, s.signalled, s.nextId, s.workers[w].phase);
    OnlyWorker(mid, w);
    TakenKeeps(mid, ch);
  }

  /** Receiving a signal nobody else listens for. */
  lemma TakenKeeps(s: State, ch: nat)
    requires Inv(s)
    requires forall w <- s.workers :: s.workers[w].phase.Batch? ==> forall k ::
      0 <= k < |s.workers[w].phase.execs| && s.workers[w].phase.execs[k].phase.Listening? ==>
        s.workers[w].phase.execs[k].phase.channel != ch
    ensures Inv(s.(signalled := s.signalled - {ch}))
  {
    forall w <- s.workers | s.workers[w].phase.Batch?
      ensures ListenersOk(s.task, s.channels, s.signalled - {ch}, s.nextId, s.workers[w].phase)
    {
      var execs := s.workers[w].phase.execs;
      assert ListenersOk(s.task, s.channels, s.signalled, s.nextId, s.workers[w].phase);
      forall j | 0 <= j < |execs| ensures ListenerOk(s.task, s.channels, s.signalled - {ch}, s.nextId, execs[j]) {
        assert ListenerOk(s.task, s.channels, s.signalled, s.nextId, execs[j]);
      }
    }
  }

  lemma RunKeeps(s: State, w: nat, k: nat, a: ExecStep)
    requires Inv(s) && RunEnabled(s, w, k, a)
    ensures Inv(FireRun(s, w, k, a))
  {
    match a
    case Read(ok) => if ok { ReadKeeps(s, w, k); } else { ReturnKeeps(s, w, k, false); }
    case Invoke(outcome) => InvokeKeeps(s, w, k, outcome);
    case Finish(now, ok) => if ok { FinishStepKeeps(s, w, k, now); } else { ReturnKeeps(s, w, k, false); }
    case Park(now, ok) =>
      MayPark(s, w, k);
      if ok { ParkStepKeeps(s, w, k, now); } else { ReturnKeeps(s, w, k, false); }
    case Open => OpenKeeps(s, w, k);
    case Wake => WakeKeeps(s, w, k);
    case GiveUp => ReturnKeeps(s, w, k, false);
  }

  // ---------------------------------------------------------------- every run

  /** Every step, a crash and a failing repository included, keeps the invariant. */
  lemma StepKeeps(s: State, step: Step)
    requires Inv(s) && Enabled(s, step)
    ensures Inv(Fire(s, step))
  {
    match step
    case Api(a) => ApiKeeps(s, a);
    case Work(w, a) => WorkKeeps(s, w, a);
    case Run(w, k, a) => RunKeeps(s, w, k, a);
    case Crash =>
  }

  lemma InitialOk(s: State)
    requires Initial(s) && GraphOk(s.task.nodes)
    ensures Inv(s)
  {
  }

  lemma {:induction false} RunsKeep(s: State, schedule: seq<Step>)
    requires Inv(s)
    ensures Execute(s, schedule).Some? ==> Inv(Execute(s, schedule).value)
    decreases |schedule|
  {
    if schedule != [] && Enabled(s, schedule[0]) {
      StepKeeps(s, schedule[0]);
      RunsKeep(Fire(s, schedule[0]), schedule[1..]);
    }
  }
}
