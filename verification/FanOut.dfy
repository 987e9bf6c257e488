/** The bounded concurrent fan-out of asset creation (internal/service/pipeline/asset_fanout.go) as a state machine:
    one dispatcher, its workers, an unbuffered work channel, an error channel of capacity one and a context. */
module FanOut {
  import opened Types

  type AgentError = string

  /** Where one worker goroutine stands. */
  datatype Worker =
    | Idle                                      // receiving from the work channel
    | Holding(index: nat)                       // received an index, about to snapshot its input
    | Calling(index: nat)                       // inside InvokeAgent
    | Storing(index: nat, output: string)       // about to write its slot
    | Failing(error: AgentError)                // about to offer its error
    | Cancelling                                // its error was taken, about to cancel the context
    | Gone

  datatype Dispatcher =
    | Dispatching                               // in the select of the dispatch loop
    | Closing                                   // left the loop
    | Waiting                                   // closed the channel, waiting for the workers
    | Returned(result: Result<seq<Option<string>>, AgentError>)

  /** `next` indexes have been handed out; `outcomes` records what happened to each input that was looked at. */
  datatype State = State(
    total: nat, next: nat, dispatcher: Dispatcher, workers: seq<Worker>, slots: seq<Option<string>>,
    outcomes: map<nat, Result<string, AgentError>>, error: Option<AgentError>, cancelled: bool, parentCancelled: bool)

  datatype Step =
    | Hand(j: nat) | BreakOff | EndOfPlan | Close | Return
    | Prepare(j: nat, ok: bool, error: AgentError) | Invoke(j: nat, outcome: Result<string, AgentError>) | Store(j: nat)
    | Offer(j: nat) | CancelAll(j: nat) | Drain(j: nat)
    | CancelParent

  /** The worker a step belongs to. */
  function Actor(step: Step): Option<nat> {
    match step
    case Hand(j) => Some(j)
    case Prepare(j, _, _) => Some(j)
    case Invoke(j, _) => Some(j)
    case Store(j) => Some(j)
    case Offer(j) => Some(j)
    case CancelAll(j) => Some(j)
    case Drain(j) => Some(j)
    case _ => None
  }

  predicate Closed(s: State) {
    s.dispatcher.Waiting? || s.dispatcher.Returned?
  }

  predicate Enabled(s: State, step: Step) {
    && (Actor(step).Some? ==> Actor(step).value < |s.workers|)
    && match step
       case Hand(j) => s.dispatcher.Dispatching? && s.next < s.total && s.workers[j].Idle?
       case BreakOff => s.dispatcher.Dispatching? && s.next < s.total && s.cancelled
       case EndOfPlan => s.dispatcher.Dispatching? && s.next == s.total
       case Close => s.dispatcher.Closing?
       case Return => s.dispatcher.Waiting? && forall w <- s.workers :: w.Gone?
       case Prepare(j, _, _) => s.workers[j].Holding?
       case Invoke(j, _) => s.workers[j].Calling?
       case Store(j) => s.workers[j].Storing? && s.workers[j].index < |s.slots|
       case Offer(j) => s.workers[j].Failing?
       case CancelAll(j) => s.workers[j].Cancelling?
       case Drain(j) => s.workers[j].Idle? && Closed(s)
       case CancelParent => !s.parentCancelled
  }

  function Move(s: State, j: nat, w: Worker): State
    requires j < |s.workers|
  {
    s.(workers := s.workers[j := w])
  }

  function Fire(s: State, step: Step): State
    requires Enabled(s, step)
  {
    match step
    case Hand(j) => Move(s, j, Holding(s.next)).(next := s.next + 1)
    case BreakOff => s.(dispatcher := Closing)
    case EndOfPlan => s.(dispatcher := Closing)
    case Close => s.(dispatcher := Dispatcher.Waiting)
    case Return => s.(dispatcher := Returned(if s.error.Some? then Err(s.error.value) else Ok(s.slots)))
    case Prepare(j, ok, error) =>
      var i := s.workers[j].index;
      if ok then Move(s, j, Calling(i)) else Move(s, j, Failing(error)).(outcomes := s.outcomes[i := Err(error)])
    case Invoke(j, outcome) =>
      var i := s.workers[j].index;
      var moved := Move(s, j, if outcome.Ok? then Storing(i, outcome.value) else Failing(outcome.error));
      moved.(outcomes := s.outcomes[i := outcome])
    case Store(j) => Move(s, j, Idle).(slots := s.slots[s.workers[j].index := Some(s.workers[j].output)])
    case Offer(j) =>
      if s.error.None? then Move(s, j, Cancelling).(error := Some(s.workers[j].error)) else Move(s, j, Gone)
    case CancelAll(j) => Move(s, j, Gone).(cancelled := true)
    case Drain(j) => Move(s, j, Gone)
    case CancelParent => s.(parentCancelled := true, cancelled := true)
  }

  /** The number of workers started for `total` asset tasks. */
  function Parallel(maxParallel: int, total: nat): (r: nat)
    requires total > 0
    ensures 1 <= r <= total && (1 <= maxParallel <= total ==> r == maxParallel)
  {
    if maxParallel <= 0 || maxParallel > total then total else maxParallel
  }

  function Start(total: nat, maxParallel: int): State
    requires total > 0
  {
    State(total, 0, Dispatching, seq(Parallel(maxParallel, total), i => Idle), seq(total, i => None), map[], None,
          false, false)
  }

  function Execute(s: State, schedule: seq<Step>): Option<State>
    decreases |schedule|
  {
    if schedule == [] then Some(s)
    else if Enabled(s, schedule[0]) then Execute(Fire(s, schedule[0]), schedule[1..])
    else None
  }

  // ---------------------------------------------------------------- the invariant

  /** The index a worker is working on. */
  function Index(w: Worker): Option<nat> {
    match w
    case Holding(i) => Some(i)
    case Calling(i) => Some(i)
    case Storing(i, _) => Some(i)
    case _ => None
  }

  ghost predicate HeldBy(s: State, i: nat, j: nat) {
    j < |s.workers| && (s.workers[j] == Holding(i) || s.workers[j] == Calling(i))
  }

  ghost predicate StoredBy(s: State, i: nat, v: string, j: nat) {
    j < |s.workers| && s.workers[j] == Storing(i, v)
  }

  ghost predicate FailedBy(s: State, j: nat) {
    j < |s.workers| && s.workers[j].Failing?
  }

  ghost predicate CancelledBy(s: State, j: nat) {
    j < |s.workers| && s.workers[j].Cancelling?
  }

  ghost predicate FailedWith(s: State, i: nat, e: AgentError) {
    i in s.outcomes && s.outcomes[i] == Err(e)
  }

  /** What a worker's position says about the rest. */
  ghost predicate WorkerOk(s: State, w: Worker) {
    match w
    case Idle => true
    case Holding(i) => i < s.next && i !in s.outcomes
    case Calling(i) => i < s.next && i !in s.outcomes
    case Storing(i, v) => i < s.next && i in s.outcomes && s.outcomes[i] == Ok(v)
    case Failing(e) => exists i: nat :: FailedWith(s, i, e)
    case Cancelling => s.error.Some?
    case Gone => !Closed(s) ==> s.error.Some?
  }

  ghost predicate WorkersOk(s: State) {
    && |s.workers| > 0 && s.next <= s.total == |s.slots|
    && (forall j :: 0 <= j < |s.workers| ==> WorkerOk(s, s.workers[j]))
    && (forall j, k :: 0 <= j < k < |s.workers| && Index(s.workers[j]).Some? ==>
        Index(s.workers[j]) != Index(s.workers[k]))
    && (forall i <- s.outcomes :: i < s.next)
  }

  /** Each handed-out index is with a worker, or its outcome is known. */
  ghost predicate Covered(s: State) {
    forall i: nat :: i < s.next && i !in s.outcomes ==> exists j: nat :: HeldBy(s, i, j)
  }

  /** A slot holds the output of its own input, or a worker is about to write it. */
  ghost predicate SlotsOk(s: State) {
    && (forall i :: 0 <= i < |s.slots| && s.slots[i].Some? ==> i in s.outcomes && s.outcomes[i] == Ok(s.slots[i].value))
    && (forall i <- s.outcomes :: i < |s.slots| && s.outcomes[i].Ok? && s.slots[i].None? ==>
          exists j: nat :: StoredBy(s, i, s.outcomes[i].value, j))
  }

  /** Errors come from invocations, and one of them gets through and cancels the context. */
  ghost predicate ErrorsOk(s: State) {
    && (s.error.Some? ==> exists i: nat :: FailedWith(s, i, s.error.value))
    && (forall i, e :: FailedWith(s, i, e) ==> s.error.Some? || exists j: nat :: FailedBy(s, j))
    && (s.error.Some? ==> s.cancelled || exists j: nat :: CancelledBy(s, j))
    && (s.cancelled ==> s.parentCancelled || s.error.Some?)
  }

  ghost predicate AllGone(workers: seq<Worker>) {
    forall j :: 0 <= j < |workers| ==> workers[j].Gone?
  }

  ghost predicate DispatcherOk(s: State) {
    && (!s.dispatcher.Dispatching? ==> s.next == s.total || s.cancelled)
    && (s.dispatcher.Returned? ==>
          AllGone(s.workers) && s.dispatcher.result == if s.error.Some? then Err(s.error.value) else Ok(s.slots))
  }

  ghost predicate Inv(s: State) {
    WorkersOk(s) && Covered(s) && SlotsOk(s) && ErrorsOk(s) && DispatcherOk(s)
  }

  // ---------------------------------------------------------------- every step keeps it

  lemma StartOk(total: nat, maxParallel: int)
    requires total > 0
    ensures Inv(Start(total, maxParallel))
  {
  }

  /** A worker that did not act is as right as before, if what was recorded is not about its index. */
  lemma OtherWorkerOk(s: State, s': State, w: Worker)
    requires WorkerOk(s, w) && s.next <= s'.next && (s.error.Some? ==> s'.error.Some?) && (Closed(s) ==> Closed(s'))
    requires forall i <- s.outcomes :: i in s'.outcomes && s'.outcomes[i] == s.outcomes[i]
    requires Index(w).Some? && Index(w).value in s'.outcomes ==> Index(w).value in s.outcomes
    ensures WorkerOk(s', w)
  {
    if w.Failing? {
      var i: nat :| FailedWith(s, i, w.error);
      assert FailedWith(s', i, w.error);
    }
  }

  lemma ActorOk(s: State, step: Step, j: nat)
    requires WorkersOk(s) && Enabled(s, step) && Actor(step) == Some(j)
    ensures WorkerOk(Fire(s, step), Fire(s, step).workers[j])
  {
    var s' := Fire(s, step);
    assert WorkerOk(s, s.workers[j]);
    if s'.workers[j].Failing? { assert FailedWith(s', s.workers[j].index, s'.workers[j].error); }
  }

  lemma StepKeepsWorkers(s: State, step: Step)
    requires WorkersOk(s) && Enabled(s, step)
    ensures WorkersOk(Fire(s, step))
  {
    var s' := Fire(s, step);
    if Actor(step).Some? { assert WorkerOk(s, s.workers[Actor(step).value]); }
    forall k: nat | k < |s'.workers| ensures WorkerOk(s', s'.workers[k]) { EachWorkerOk(s, step, k); }
    IndexesStayDistinct(s, step);
  }

  lemma EachWorkerOk(s: State, step: Step, k: nat)
    requires WorkersOk(s) && Enabled(s, step) && k < |Fire(s, step).workers|
    ensures WorkerOk(Fire(s, step), Fire(s, step).workers[k])
  {
    if Actor(step).Some? {
      ActorOk(s, step, Actor(step).value);
      assert WorkerOk(s, s.workers[Actor(step).value]);
    }
    if Actor(step) != Some(k) { OtherWorkerOk(s, Fire(s, step), s.workers[k]); }
  }

  lemma IndexesStayDistinct(s: State, step: Step)
    requires WorkersOk(s) && Enabled(s, step)
    ensures var workers := Fire(s, step).workers;
            forall j, k :: 0 <= j < k < |workers| && Index(workers[j]).Some? ==> Index(workers[j]) != Index(workers[k])
  {
    forall k | 0 <= k < |s.workers| ensures Index(s.workers[k]) != Some(s.next) { assert WorkerOk(s, s.workers[k]); }
  }

  lemma StepKeepsCovered(s: State, step: Step)
    requires WorkersOk(s) && Covered(s) && Enabled(s, step)
    ensures Covered(Fire(s, step))
  {
    var s' := Fire(s, step);
    forall i: nat | i < s'.next && i !in s'.outcomes ensures exists j: nat :: HeldBy(s', i, j) {
      if i == s.next {
        assert HeldBy(s', i, step.j);
      } else {
        var j: nat :| HeldBy(s, i, j);
        assert HeldBy(s', i, j);
      }
    }
  }

  lemma StepKeepsFilled(s: State, step: Step)
    requires WorkersOk(s) && SlotsOk(s) && Enabled(s, step)
    ensures var s' := Fire(s, step);
            forall i :: 0 <= i < |s'.slots| && s'.slots[i].Some? ==>
                i in s'.outcomes && s'.outcomes[i] == Ok(s'.slots[i].value)
  {
    if Actor(step).Some? { assert WorkerOk(s, s.workers[Actor(step).value]); }
  }

  lemma AwaitsItsSlot(s: State, step: Step, i: nat)
    requires WorkersOk(s) && SlotsOk(s) && Enabled(s, step)
    requires var s' := Fire(s, step); i in s'.outcomes && i < |s'.slots| && s'.outcomes[i].Ok? && s'.slots[i].None?
    ensures exists j: nat :: StoredBy(Fire(s, step), i, Fire(s, step).outcomes[i].value, j)
  {
    if i in s.outcomes {
      StillAwaits(s, step, i);
    } else {
      assert StoredBy(Fire(s, step), i, Fire(s, step).outcomes[i].value, step.j);
    }
  }

  lemma StillAwaits(s: State, step: Step, i: nat)
    requires WorkersOk(s) && SlotsOk(s) && Enabled(s, step) && i in s.outcomes
    requires var s' := Fire(s, step); i in s'.outcomes && i < |s'.slots| && s'.outcomes[i].Ok? && s'.slots[i].None?
    ensures exists j: nat :: StoredBy(Fire(s, step), i, Fire(s, step).outcomes[i].value, j)
  {
    if Actor(step).Some? { assert WorkerOk(s, s.workers[Actor(step).value]); }
    var j: nat :| StoredBy(s, i, s.outcomes[i].value, j);
    assert StoredBy(Fire(s, step), i, Fire(s, step).outcomes[i].value, j);
  }

  lemma StepKeepsSlots(s: State, step: Step)
    requires WorkersOk(s) && SlotsOk(s) && Enabled(s, step)
    ensures SlotsOk(Fire(s, step))
  {
    var s' := Fire(s, step);
    StepKeepsFilled(s, step);
    forall i <- s'.outcomes | i < |s'.slots| && s'.outcomes[i].Ok? && s'.slots[i].None?
      ensures exists j: nat :: StoredBy(s', i, s'.outcomes[i].value, j)
    {
      AwaitsItsSlot(s, step, i);
    }
  }

  /** The error that got through comes from an input and cancels the context. */
  lemma ErrorGetsThrough(s: State, step: Step)
    requires WorkersOk(s) && ErrorsOk(s) && Enabled(s, step) && Fire(s, step).error.Some?
    ensures var s' := Fire(s, step);
      && (exists i: nat :: FailedWith(s', i, s'.error.value))
      && (s'.cancelled || exists j: nat :: CancelledBy(s', j))
  {
    var s' := Fire(s, step);
    if Actor(step).Some? { assert WorkerOk(s, s.workers[Actor(step).value]); }
    var i: nat :| FailedWith(s, i, s'.error.value);
    assert FailedWith(s', i, s'.error.value);
    if !s'.cancelled {
      if step.Offer? && s.error.None? {
        assert CancelledBy(s', step.j);
      } else {
        var j: nat :| CancelledBy(s, j);
        assert CancelledBy(s', j);
      }
    }
  }

  lemma StepKeepsErrors(s: State, step: Step)
    requires WorkersOk(s) && ErrorsOk(s) && Enabled(s, step)
    ensures ErrorsOk(Fire(s, step))
  {
    var s' := Fire(s, step);
    if s'.error.Some? { ErrorGetsThrough(s, step); }
    if Actor(step).Some? { assert WorkerOk(s, s.workers[Actor(step).value]); }
    forall i, e | FailedWith(s', i, e) ensures s'.error.Some? || exists j: nat :: FailedBy(s', j) {
      if FailedWith(s, i, e) && s'.error.None? {
        var j: nat :| FailedBy(s, j);
        assert FailedBy(s', j);
      } else if s'.error.None? {
        assert FailedBy(s', step.j);
      }
    }
  }

  lemma StepKeepsDispatcher(s: State, step: Step)
    requires DispatcherOk(s) && WorkersOk(s) && Enabled(s, step)
    ensures DispatcherOk(Fire(s, step))
  {
    if step.Return? {
      forall j | 0 <= j < |s.workers| ensures s.workers[j].Gone? { assert s.workers[j] in s.workers; }
    }
  }

  lemma StepKeeps(s: State, step: Step)
    requires Inv(s) && Enabled(s, step)
    ensures Inv(Fire(s, step))
  {
    StepKeepsWorkers(s, step);
    StepKeepsCovered(s, step);
    StepKeepsSlots(s, step);
    StepKeepsErrors(s, step);
    StepKeepsDispatcher(s, step);
  }

  lemma {:induction false} RunsKeep(s: State, schedule: seq<Step>)
    requires Inv(s)
    ensures Execute(s, schedule).Some? ==> Inv(Execute(s, schedule).value)
    decreases |schedule|
  {
    if schedule != [] && Enabled(s, schedule[0]) {
      StepKeeps(s, schedule[0]);
      RunsKeep(Fire(s, schedule[0]), schedule[1..]);
    }
  }

  // ---------------------------------------------------------------- what a returned result says

  ghost predicate Reaches(s: State, schedule: seq<Step>, s': State) {
    Execute(s, schedule) == Some(s')
  }

  /** Once every worker has gone without an error, what was handed out has been stored. */
  lemma HandedOutIsStored(s: State, i: nat)
    requires Inv(s) && AllGone(s.workers) && s.error.None? && i < s.next
    ensures i < |s.slots| && i in s.outcomes && s.outcomes[i].Ok? && s.slots[i] == Some(s.outcomes[i].value)
  {
    assert forall j: nat :: !HeldBy(s, i, j);
    assert forall j: nat :: !FailedBy(s, j);
    if s.outcomes[i].Err? { assert FailedWith(s, i, s.outcomes[i].error); }
    if s.outcomes[i].Ok? { assert forall j: nat :: !StoredBy(s, i, s.outcomes[i].value, j); }
  }

  /** A success has every slot filled exactly when the dispatch loop was not broken off. */
  lemma FullExactlyWhenDispatched(total: nat, maxParallel: int, schedule: seq<Step>, s': State)
    requires total > 0 && Reaches(Start(total, maxParallel), schedule, s')
    requires s'.dispatcher.Returned? && s'.dispatcher.result.Ok?
    ensures (forall i :: 0 <= i < |s'.slots| ==> s'.slots[i].Some?) <==> s'.next == s'.total
    ensures s'.next < s'.total ==> s'.parentCancelled
  {
    StartOk(total, maxParallel);
    RunsKeep(Start(total, maxParallel), schedule);
    if s'.next == s'.total {
      forall i: nat | i < |s'.slots| ensures s'.slots[i].Some? { HandedOutIsStored(s', i); }
    } else {
      assert s'.next < |s'.slots| && s'.next !in s'.outcomes;
    }
  }

  // ---------------------------------------------------------------- refinement of a sequential map

  /** As long as its context is not cancelled the agent answers input `i` with `f(i)`, whenever it is asked. An answer
      given under a cancelled context may be anything. */
  ghost predicate Follows(s: State, schedule: seq<Step>, f: nat -> Result<string, AgentError>)
    decreases |schedule|
  {
    schedule != [] && Enabled(s, schedule[0]) ==>
      && (!s.cancelled ==>
            match schedule[0]
            case Prepare(j, ok, error) => !ok ==> f(s.workers[j].index) == Err(error)
            case Invoke(j, outcome) => f(s.workers[j].index) == outcome
            case _ => true)
      && Follows(Fire(s, schedule[0]), schedule[1..], f)
  }

  ghost predicate FailsWith(f: nat -> Result<string, AgentError>, i: nat, e: AgentError) {
    f(i) == Err(e)
  }

  /** Every outcome so far is the answer to its input, and the error that got through is the answer to one of them. */
  ghost predicate Genuine(s: State, f: nat -> Result<string, AgentError>) {
    && (!s.cancelled ==> forall i <- s.outcomes :: s.outcomes[i] == f(i))
    && (s.error.Some? ==> exists i: nat :: i < s.total && FailsWith(f, i, s.error.value))
  }

  lemma StepKeepsGenuine(s: State, step: Step, f: nat -> Result<string, AgentError>)
    requires Inv(s) && Enabled(s, step) && Genuine(s, f) && !s.parentCancelled && Follows(s, [step], f)
    ensures Genuine(Fire(s, step), f)
  {
    if step.Offer? && s.error.None? {
      var e := s.workers[step.j].error;
      assert WorkerOk(s, s.workers[step.j]);
      var i: nat :| FailedWith(s, i, e);
      assert i < s.total && FailsWith(f, i, e);
    }
  }

  lemma {:induction false} OutcomesFollow(s: State, schedule: seq<Step>, s': State,
                                          f: nat -> Result<string, AgentError>)
    requires Inv(s) && Reaches(s, schedule, s') && Follows(s, schedule, f) && Genuine(s, f) && !s'.parentCancelled
    ensures Genuine(s', f) && s'.total == s.total && !s.parentCancelled
    decreases |schedule|
  {
    if schedule != [] {
      StepKeeps(s, schedule[0]);
      ParentStaysCancelled(Fire(s, schedule[0]), schedule[1..], s');
      assert Follows(s, [schedule[0]], f);
      StepKeepsGenuine(s, schedule[0], f);
      OutcomesFollow(Fire(s, schedule[0]), schedule[1..], s', f);
    }
  }

  lemma {:induction false} ParentStaysCancelled(s: State, schedule: seq<Step>, s': State)
    requires Reaches(s, schedule, s')
    ensures s.parentCancelled ==> s'.parentCancelled
    decreases |schedule|
  {
    if schedule != [] { ParentStaysCancelled(Fire(s, schedule[0]), schedule[1..], s'); }
  }

  /** Whatever the number of workers and the schedule, if the caller's context is not cancelled the fan-out returns the
      outputs of a sequential map, in input order, exactly when every input has an output; otherwise it returns the
      error of one of the inputs - its own, not one the cancellation of the others brought about. */
  lemma RefinesSequentialMap(total: nat, maxParallel: int, schedule: seq<Step>, s': State,
                             f: nat -> Result<string, AgentError>)
    requires total > 0 && Reaches(Start(total, maxParallel), schedule, s')
    requires Follows(Start(total, maxParallel), schedule, f)
    requires s'.dispatcher.Returned? && !s'.parentCancelled
    ensures s'.dispatcher.result.Ok? <==> forall i: nat :: i < total ==> f(i).Ok?
    ensures s'.dispatcher.result.Ok? ==>
      && |s'.dispatcher.result.value| == total
      && forall i: nat :: i < total ==> s'.dispatcher.result.value[i] == Some(f(i).value)
    ensures s'.dispatcher.result.Err? ==> exists i: nat :: i < total && f(i) == Err(s'.dispatcher.result.error)
  {
    var start := Start(total, maxParallel);
    StartOk(total, maxParallel);
    RunsKeep(start, schedule);
    OutcomesFollow(start, schedule, s', f);
    if s'.error.Some? {
      var i: nat :| i < total && FailsWith(f, i, s'.error.value);
      assert f(i) == Err(s'.error.value);
    } else {
      forall i: nat | i < total ensures f(i).Ok? && s'.slots[i] == Some(f(i).value) { HandedOutIsStored(s', i); }
    }
  }

  // ---------------------------------------------------------------- each input once

  /** The indexes handed out, in order. */
  function Dispatched(s: State, schedule: seq<Step>): seq<nat>
    decreases |schedule|
  {
    if schedule == [] || !Enabled(s, schedule[0]) then []
    else (if schedule[0].Hand? then [s.next] else []) + Dispatched(Fire(s, schedule[0]), schedule[1..])
  }

  /** Indexes leave the dispatcher in plan order, each once. */
  lemma {:induction false} DispatchedOnceInOrder(s: State, schedule: seq<Step>, s': State)
    requires Reaches(s, schedule, s')
    ensures s.next <= s'.next && Dispatched(s, schedule) == seq(s'.next - s.next, (k: nat) => s.next + k)
    decreases |schedule|
  {
    if schedule != [] {
      var mid := Fire(s, schedule[0]);
      DispatchedOnceInOrder(mid, schedule[1..], s');
      if schedule[0].Hand? {
        assert Dispatched(s, schedule) == [s.next] + Dispatched(mid, schedule[1..]);
      }
    }
  }

  lemma {:induction false} WorkersAreFixed(s: State, schedule: seq<Step>, s': State)
    requires Reaches(s, schedule, s')
    ensures |s'.workers| == |s.workers|
    decreases |schedule|
  {
    if schedule != [] { WorkersAreFixed(Fire(s, schedule[0]), schedule[1..], s'); }
  }

  /** The workers inside the agent. */
  function InAgent(workers: seq<Worker>): nat {
    if workers == [] then 0 else (if workers[0].Calling? then 1 else 0) + InAgent(workers[1..])
  }

  lemma {:induction false} InAgentFits(workers: seq<Worker>)
    ensures InAgent(workers) <= |workers|
    decreases |workers|
  {
    if workers != [] { InAgentFits(workers[1..]); }
  }

  /** The bound on concurrency holds at every moment: no more agent calls at once than allowed, and never more than
      there are inputs; without a usable bound there is one worker for each input. */
  lemma CallsAreBounded(total: nat, maxParallel: int, schedule: seq<Step>, s': State)
    requires total > 0 && Reaches(Start(total, maxParallel), schedule, s')
    ensures InAgent(s'.workers) <= |s'.workers| <= total
    ensures 1 <= maxParallel <= total ==> |s'.workers| == maxParallel
    ensures maxParallel <= 0 || maxParallel > total ==> |s'.workers| == total
  {
    WorkersAreFixed(Start(total, maxParallel), schedule, s');
    InAgentFits(s'.workers);
  }

  /** How often the agent is asked about an input. */
  function Calls(s: State, schedule: seq<Step>, i: nat): nat
    decreases |schedule|
  {
    if schedule == [] || !Enabled(s, schedule[0]) then 0
    else
      var more := Calls(Fire(s, schedule[0]), schedule[1..], i);
      if schedule[0].Invoke? && s.workers[schedule[0].j].index == i then 1 + more else more
  }

  lemma {:induction false} CalledAtMostOnce(s: State, schedule: seq<Step>, s': State, i: nat)
    requires Inv(s) && Reaches(s, schedule, s')
    ensures Calls(s, schedule, i) <= if i in s.outcomes then 0 else 1
    ensures Calls(s, schedule, i) == 1 ==> i in s'.outcomes
    ensures i in s.outcomes ==> i in s'.outcomes
    decreases |schedule|
  {
    if schedule != [] {
      var step := schedule[0];
      StepKeeps(s, step);
      CalledAtMostOnce(Fire(s, step), schedule[1..], s', i);
      if step.Invoke? { assert WorkerOk(s, s.workers[step.j]); }
    }
  }

  // ---------------------------------------------------------------- it always returns

  /** Until it has returned, some goroutine of the fan-out can move: the dispatcher is not left blocked when workers
      exit early. */
  lemma NeverStuck(s: State) returns (step: Step)
    requires Inv(s) && !s.dispatcher.Returned?
    ensures Enabled(s, step) && !step.CancelParent?
  {
    if j: nat :| j < |s.workers| && !s.workers[j].Idle? && !s.workers[j].Gone? {
      assert WorkerOk(s, s.workers[j]);
      step := match s.workers[j]
        case Holding(_) => Prepare(j, true, "")
        case Calling(_) => Invoke(j, Ok(""))
        case Storing(_, _) => Store(j)
        case Failing(_) => Offer(j)
        case _ => CancelAll(j);
    } else if s.dispatcher.Closing? {
      step := Close;
    } else if j: nat :| j < |s.workers| && s.workers[j].Idle? {
      step := if s.dispatcher.Waiting? then Drain(j) else if s.next < s.total then Hand(j) else EndOfPlan;
    } else {
      assert AllGone(s.workers);
      if s.dispatcher.Waiting? {
        step := Return;
      } else {
        assert WorkerOk(s, s.workers[0]);
        assert forall j: nat :: !CancelledBy(s, j);
        step := if s.next < s.total then BreakOff else EndOfPlan;
      }
    }
  }

  function WorkerWork(w: Worker): nat {
    match w
    case Idle => 1
    case Holding(_) => 6
    case Calling(_) => 5
    case Storing(_, _) => 2
    case Failing(_) => 4
    case Cancelling => 3
    case Gone => 0
  }

  function AllWork(workers: seq<Worker>): nat {
    if workers == [] then 0 else WorkerWork(workers[0]) + AllWork(workers[1..])
  }

  lemma {:induction false} WorkMoves(workers: seq<Worker>, j: nat, w: Worker)
    requires j < |workers|
    ensures AllWork(workers[j := w]) == AllWork(workers) - WorkerWork(workers[j]) + WorkerWork(w)
  {
    if j == 0 {
      assert workers[0 := w][1..] == workers[1..];
    } else {
      assert workers[j := w][1..] == workers[1..][j - 1 := w];
      WorkMoves(workers[1..], j - 1, w);
    }
  }

  /** What is left to do, in steps. */
  function Measure(s: State): int {
    6 * (s.total - s.next) + AllWork(s.workers) + (if s.parentCancelled then 0 else 1)
    + match s.dispatcher case Dispatching => 3 case Closing => 2 case Waiting => 1 case Returned(_) => 0
  }

  lemma ActorSpends(s: State, step: Step, j: nat)
    requires Enabled(s, step) && Actor(step) == Some(j)
    ensures var s' := Fire(s, step);
            && s'.workers == s.workers[j := s'.workers[j]] && s'.dispatcher == s.dispatcher
            && s'.total == s.total && s'.parentCancelled == s.parentCancelled
            && WorkerWork(s'.workers[j]) < WorkerWork(s.workers[j]) + 6 * (s'.next - s.next)
  {
  }

  lemma StepSpends(s: State, step: Step)
    requires Enabled(s, step)
    ensures Measure(Fire(s, step)) < Measure(s)
  {
    if Actor(step).Some? {
      var j, s' := Actor(step).value, Fire(s, step);
      ActorSpends(s, step, j);
      WorkMoves(s.workers, j, s'.workers[j]);
    }
  }

  lemma {:induction false} IdleWork(n: nat)
    ensures AllWork(seq(n, i => Idle)) == n
  {
    if n > 0 {
      assert seq(n, i => Idle)[1..] == seq(n - 1, i => Idle);
      IdleWork(n - 1);
    }
  }

  lemma {:induction false} ScheduleIsPaid(s: State, schedule: seq<Step>, s': State)
    requires Inv(s) && Reaches(s, schedule, s')
    ensures |schedule| <= Measure(s) - Measure(s') && Measure(s') >= 0
    decreases |schedule|
  {
    if schedule != [] {
      StepSpends(s, schedule[0]);
      StepKeeps(s, schedule[0]);
      ScheduleIsPaid(Fire(s, schedule[0]), schedule[1..], s');
    }
  }

  /** No schedule is longer than this; with NeverStuck, every fan-out returns. */
  lemma FanOutTerminates(total: nat, maxParallel: int, schedule: seq<Step>, s': State)
    requires total > 0 && Reaches(Start(total, maxParallel), schedule, s')
    ensures |schedule| <= 6 * total + Parallel(maxParallel, total) + 4
  {
    StartOk(total, maxParallel);
    ScheduleIsPaid(Start(total, maxParallel), schedule, s');
    IdleWork(Parallel(maxParallel, total));
  }

  // ---------------------------------------------------------------- when the caller's context is cancelled

  /** The schedule in which the caller gives up at once and every worker finds the channel closed. */
  function Drains(from: nat, to: nat): seq<Step>
    decreases if from < to then to - from else 0
  {
    if from >= to then [Return] else [Drain(from)] + Drains(from + 1, to)
  }

  function GivenUpAtOnce(total: nat, maxParallel: int): seq<Step>
    requires total > 0
  {
    [CancelParent, BreakOff, Close] + Drains(0, Parallel(maxParallel, total))
  }

  lemma {:induction false} DrainsReturn(s: State, from: nat) returns (s': State)
    requires s.dispatcher == Dispatcher.Waiting && from <= |s.workers| && s.error.None?
    requires forall j :: 0 <= j < |s.workers| ==> s.workers[j] == if j < from then Gone else Idle
    ensures Reaches(s, Drains(from, |s.workers|), s') && s'.dispatcher == Returned(Ok(s.slots))
    decreases |s.workers| - from
  {
    if from == |s.workers| {
      s' := Fire(s, Return);
      assert Execute(s', []) == Some(s') && [Return][1..] == [];
    } else {
      var rest := Drains(from + 1, |s.workers|);
      assert ([Drain(from)] + rest)[1..] == rest;
      s' := DrainsReturn(Fire(s, Drain(from)), from + 1);
    }
  }

  /** The condition on the context is needed: for any plan and any parallelism, a caller that cancels can be answered
      with a success in which every slot is empty. */
  lemma CancelledCallerGetsEmptySlots(total: nat, maxParallel: int) returns (s': State)
    requires total > 0
    ensures Reaches(Start(total, maxParallel), GivenUpAtOnce(total, maxParallel), s')
    ensures s'.dispatcher == Returned(Ok(seq(total, i => None)))
  {
    var s0 := Start(total, maxParallel);
    var s1 := Fire(s0, CancelParent);
    var s2 := Fire(s1, BreakOff);
    var s3 := Fire(s2, Close);
    var drains := Drains(0, Parallel(maxParallel, total));
    s' := DrainsReturn(s3, 0);
    var schedule := GivenUpAtOnce(total, maxParallel);
    assert schedule[1..] == [BreakOff, Close] + drains && schedule[1..][1..] == [Close] + drains;
    assert schedule[1..][1..][1..] == drains;
    assert Execute(s2, schedule[1..][1..]) == Execute(s3, drains);
    assert Execute(s1, schedule[1..]) == Execute(s2, schedule[1..][1..]);
  }
}
