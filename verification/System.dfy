/** One persisted task, its workers, executors, confirmation channels and API callers, interleaved step by step.

    A step is one critical section of runner.go: a `withTask` body under the task lock, one section under `r.mu`, or
    one action of a goroutine between two locks. Tasks share nothing but the idempotency index, so one is enough.
    A step that reads or writes the repository carries `ok`: when it is false the repository returned an error and
    the stored task is what it was. */
module System {
  import opened Types
  import opened TaskOps

  /** Where the goroutine of one started node stands (executeNode). */
  datatype ExecPhase =
    | Spawned                                                  // about to read the task
    | Invoking(inputs: map<NodeID, Snapshot>, gated: bool)     // inside the agent, step or tool
    | Finishing(outcome: Outcome)                              // about to run finishNode
    | Parking(output: Snapshot)                                // about to run setNodeWaitingConfirmation
    | Parked                                                   // waiting state stored and announced, no channel yet
    | Listening(channel: nat)                                  // in the select on its channel and its context
    | Returned(clean: bool)

  datatype Exec = Exec(node: Node, phase: ExecPhase)

  /** Where the goroutine that owns the active slot stands (start, run). */
  datatype WorkerPhase =
    | Top                                     // about to read the task
    | Marking                                 // saw it pending
    | Settling                                // saw nothing ready
    | Launching(ready: seq<NodeID>)           // saw these ready
    | Batch(execs: seq<Exec>)                 // waiting for its executors
    | Leaving(recheck: bool)                  // run returned, the slot not yet released

  datatype Worker = Worker(phase: WorkerPhase, cancelled: bool)

  /** What a goroutine outside the slot still has to do. */
  datatype Caller =
    | ToStart                  // Submit, Retry, Recover or a recheck is about to call start
    | ToRecheck                // a released worker is about to read the task once more
    | ToRequeue                // Recover found the task inactive and is about to lock it
    | ToSignal(id: NodeID)     // ConfirmNode stored its result and is about to signal
    | ToSweep                  // Cancel stored its result and is about to sweep the channels
    | ToAbort(w: nat)          // Cancel is about to cancel the context it found in the slot

  datatype State = State(
    task: Task, slot: Option<nat>, workers: map<nat, Worker>, callers: multiset<Caller>,
    channels: map<NodeID, nat>, signalled: set<nat>, nextId: nat)

  datatype ApiStep =
    | SubmitAgain
    | CancelCall(now: Time) | Sweep | Abort(w: nat)
    | RetryCall(now: Time)
    | RecoverCall | Requeue(now: Time, ok: bool)
    | ConfirmCall(id: NodeID, adjusted: Option<Snapshot>, now: Time) | Signal(id: NodeID)
    | AdjustCall(id: NodeID, output: Snapshot, now: Time)
    | Start | Recheck(ok: bool)

  datatype WorkerStep = Look(ok: bool) | Mark(now: Time, ok: bool) | Settle(now: Time, ok: bool)
    | Launch(now: Time, ok: bool) | Join | Release

  datatype ExecStep = Read(ok: bool) | Invoke(outcome: Outcome) | Finish(now: Time, ok: bool)
    | Park(now: Time, ok: bool) | Open | Wake | GiveUp

  datatype Step = Api(api: ApiStep) | Work(w: nat, work: WorkerStep) | Run(w: nat, k: nat, run: ExecStep) | Crash

  // ---------------------------------------------------------------- API calls

  /** The obligation an API step takes up. */
  function Consumed(a: ApiStep): multiset<Caller> {
    match a
    case Sweep => multiset{ToSweep}
    case Abort(w) => multiset{ToAbort(w)}
    case Requeue(_, _) => multiset{ToRequeue}
    case Signal(id) => multiset{ToSignal(id)}
    case Start => multiset{ToStart}
    case Recheck(_) => multiset{ToRecheck}
    case _ => multiset{}
  }

  predicate ApiEnabled(s: State, a: ApiStep) {
    Consumed(a) <= s.callers
  }

  /** The task it stores. */
  function TaskAfter(t: Task, a: ApiStep): Task {
    match a
    case CancelCall(now) => if t.status.Terminal() then t else TaskOps.Cancel(t, now)
    case RetryCall(now) => var r := TaskOps.Retry(t, now); if r.Ok? then r.value else t
    case Requeue(now, ok) => if ok then TaskOps.Recover(t, now) else t
    case ConfirmCall(id, adjusted, now) => var r := TaskOps.Confirm(t, id, adjusted, now); if r.Ok? then r.value else t
    case AdjustCall(id, output, now) => var r := TaskOps.Adjust(t, id, output, now); if r.Ok? then r.value else t
    case _ => t
  }

  /** The obligation it leaves behind. */
  function Announced(s: State, a: ApiStep): multiset<Caller> {
    match a
    case SubmitAgain => if s.task.status.Terminal() then multiset{} else multiset{ToStart}
    case CancelCall(_) => if s.task.status.Terminal() then multiset{} else multiset{ToSweep}
    case Sweep => if s.slot.Some? then multiset{ToAbort(s.slot.value)} else multiset{}
    case RetryCall(now) => if TaskOps.Retry(s.task, now).Ok? then multiset{ToStart} else multiset{}
    case RecoverCall => if s.slot.Some? then multiset{} else multiset{ToRequeue}
    case Requeue(_, ok) => if ok then multiset{ToStart} else multiset{}
    case ConfirmCall(id, adjusted, now) =>
      if TaskOps.Confirm(s.task, id, adjusted, now).Ok? then multiset{ToSignal(id)} else multiset{}
    case Recheck(ok) => if ok && !s.task.status.Terminal() then multiset{ToStart} else multiset{}
    case _ => multiset{}
  }

  /** What it does under `r.mu`: a sweep and a signal make a non-blocking send on stored channels and forget them, a
      start takes the slot if it is free, an abort cancels the context of a worker. */
  function Rewired(s: State, a: ApiStep): State {
    match a
    case Sweep => s.(signalled := s.signalled + s.channels.Values, channels := map[])
    case Signal(id) =>
      if id in s.channels then s.(signalled := s.signalled + {s.channels[id]}, channels := s.channels - {id}) else s
    case Start =>
      if s.slot.Some? then s
      else s.(slot := Some(s.nextId), workers := s.workers[s.nextId := Worker(Top, false)], nextId := s.nextId + 1)
    case Abort(w) =>
      if w in s.workers then s.(workers := s.workers[w := s.workers[w].(cancelled := true)]) else s
    case _ => s
  }

  function FireApi(s: State, a: ApiStep): State
    requires ApiEnabled(s, a)
  {
    Rewired(s, a).(task := TaskAfter(s.task, a), callers := s.callers - Consumed(a) + Announced(s, a))
  }

  // ---------------------------------------------------------------- the worker

  predicate WorkEnabled(s: State, w: nat, a: WorkerStep) {
    && w in s.workers
    && var phase := s.workers[w].phase;
       match a
       case Look(_) => phase.Top?
       case Mark(_, _) => phase.Marking?
       case Settle(_, _) => phase.Settling?
       case Launch(_, _) => phase.Launching?
       case Join => phase.Batch? && forall e <- phase.execs :: e.phase.Returned?
       case Release => phase.Leaving?
  }

  function SetPhase(s: State, w: nat, phase: WorkerPhase): State
    requires w in s.workers
  {
    s.(workers := s.workers[w := s.workers[w].(phase := phase)])
  }

  function AfterLook(t: Task, cancelled: bool): WorkerPhase {
    if t.status.Terminal() then Leaving(true)
    else if t.cancelRequested || cancelled then Leaving(false)
    else if t.status.TaskPending? then Marking
    else if ReadyNodes(t.nodes) == [] then Settling
    else Launching(ReadyNodes(t.nodes))
  }

  function Spawn(nodes: seq<Node>): (r: seq<Exec>)
    ensures |r| == |nodes| && forall i :: 0 <= i < |nodes| ==> r[i] == Exec(nodes[i], Spawned)
  {
    seq(|nodes|, i requires 0 <= i < |nodes| => Exec(nodes[i], Spawned))
  }

  function FireWork(s: State, w: nat, a: WorkerStep): State
    requires WorkEnabled(s, w, a)
  {
    var worker := s.workers[w];
    match a
    case Look(ok) => SetPhase(s, w, if ok then AfterLook(s.task, worker.cancelled) else Leaving(false))
    case Mark(now, ok) =>
      if ok then SetPhase(s.(task := TaskOps.MarkRunning(s.task, now)), w, Top) else SetPhase(s, w, Leaving(false))
    case Settle(now, ok) =>
      if ok then SetPhase(s.(task := TaskOps.Complete(s.task, now)), w, Top) else SetPhase(s, w, Leaving(false))
    case Launch(now, ok) =>
      if !ok then SetPhase(s, w, Leaving(false))
      else
        var started := TaskOps.Started(s.task, worker.phase.ready, now);
        SetPhase(s.(task := TaskOps.StartNodes(s.task, worker.phase.ready, now)), w,
                 if started == [] then Top else Batch(Spawn(started)))
    case Join =>
      SetPhase(s, w, if forall e <- worker.phase.execs :: e.phase.clean then Top else Leaving(false))
    case Release =>
      var s' := s.(slot := None, workers := s.workers - {w});
      if worker.phase.recheck then s'.(callers := s.callers + multiset{ToRecheck}) else s'
  }

  // ---------------------------------------------------------------- the executors of a batch

  predicate HasExec(s: State, w: nat, k: nat) {
    w in s.workers && s.workers[w].phase.Batch? && k < |s.workers[w].phase.execs|
  }

  function ExecAt(s: State, w: nat, k: nat): Exec
    requires HasExec(s, w, k)
  {
    s.workers[w].phase.execs[k]
  }

  predicate RunEnabled(s: State, w: nat, k: nat, a: ExecStep) {
    && HasExec(s, w, k)
    && var phase := ExecAt(s, w, k).phase;
       match a
       case Read(_) => phase.Spawned?
       case Invoke(_) => phase.Invoking?
       case Finish(_, _) => phase.Finishing?
       case Park(_, _) => phase.Parking?
       case Open => phase.Parked?
       case Wake => phase.Listening? && phase.channel in s.signalled
       case GiveUp => phase.Listening? && s.workers[w].cancelled
  }

  function SetExec(s: State, w: nat, k: nat, phase: ExecPhase): State
    requires HasExec(s, w, k)
  {
    var execs := s.workers[w].phase.execs;
    SetPhase(s, w, Batch(execs[k := execs[k].(phase := phase)]))
  }

  function FireRun(s: State, w: nat, k: nat, a: ExecStep): State
    requires RunEnabled(s, w, k, a)
  {
    var e := ExecAt(s, w, k);
    match a
    case Read(ok) =>
      SetExec(s, w, k,
              if ok
              then Invoking(CompletedDependencies(e.node, s.task.nodes),
                            s.task.requireConfirmation && NeedsConfirmation(e.node))
              else Returned(false))
    case Invoke(outcome) =>
      SetExec(s, w, k, if outcome.Output? && e.phase.gated then Parking(outcome.snapshot) else Finishing(outcome))
    case Finish(now, ok) =>
      if ok then SetExec(s.(task := TaskOps.Finish(s.task, e.node.id, e.phase.outcome, now)), w, k, Returned(true))
      else SetExec(s, w, k, Returned(false))
    case Park(now, ok) =>
      var parked := TaskOps.Park(s.task, e.node.id, e.phase.output, now);
      if ok && parked.Ok? then SetExec(s.(task := parked.value), w, k, Parked) else SetExec(s, w, k, Returned(false))
    case Open =>
      if e.node.id in s.channels then SetExec(s, w, k, Listening(s.channels[e.node.id]))
      else SetExec(s.(channels := s.channels[e.node.id := s.nextId], nextId := s.nextId + 1), w, k, Listening(s.nextId))
    case Wake => SetExec(s.(signalled := s.signalled - {e.phase.channel}), w, k, Returned(true))
    case GiveUp => SetExec(s, w, k, Returned(false))
  }

  // ---------------------------------------------------------------- runs

  predicate Enabled(s: State, step: Step) {
    match step
    case Api(a) => ApiEnabled(s, a)
    case Work(w, a) => WorkEnabled(s, w, a)
    case Run(w, k, a) => RunEnabled(s, w, k, a)
    case Crash => true
  }

  function Fire(s: State, step: Step): State
    requires Enabled(s, step)
  {
    match step
    case Api(a) => FireApi(s, a)
    case Work(w, a) => FireWork(s, w, a)
    case Run(w, k, a) => FireRun(s, w, k, a)
    case Crash => s.(slot := None, workers := map[], callers := multiset{}, channels := map[], signalled := {})
  }

  /** Submit has stored a new task and is about to start it. */
  predicate Initial(s: State) {
    && s.task.status.TaskPending? && !s.task.cancelRequested && s.task.finishedAt.None?
    && (forall n <- s.task.nodes :: n.status.Pending? && n.attempts == 0 && n.finishedAt.None? && 1 <= n.maxAttempts)
    && s.slot.None? && s.workers == map[] && s.callers == multiset{ToStart} && s.channels == map[] && s.signalled == {}
  }

  /** The state after a schedule, when every step of it is enabled in turn. */
  function Execute(s: State, schedule: seq<Step>): Option<State>
    decreases |schedule|
  {
    if schedule == [] then Some(s)
    else if Enabled(s, schedule[0]) then Execute(Fire(s, schedule[0]), schedule[1..])
    else None
  }
}
