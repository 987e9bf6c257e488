/** Where the outputs of a task come from, over whole runs: every stored output and every input handed to an invocation
    was returned by the node's own invocation or given by a human, and only gated nodes ever wait. */
module Provenance {
  import opened Types
  import opened TaskOps
  import opened TaskInvariant
  import opened Progress
  import opened System
  import opened SystemInvariant
  import opened SystemResults
  import opened Scheduling
  import opened Contents

  // ---------------------------------------------------------------- authors

  /** The step gives node `id` the output: an invocation started for it returns it, or a human confirms or adjusts the
      node with it. */
  ghost predicate Gives(s: State, step: Step, id: NodeID, o: Snapshot)
    requires Enabled(s, step)
  {
    match step
    case Run(w, k, a) => a == Invoke(Output(o)) && ExecAt(s, w, k).node.id == id
    case Api(a) =>
      (a.ConfirmCall? && a.id == id && a.adjusted == Some(o)) || (a.AdjustCall? && a.id == id && a.output == o)
    case _ => false
  }

  /** Some step of the schedule gives it. */
  ghost predicate Authored(s: State, schedule: seq<Step>, id: NodeID, o: Snapshot)
    decreases |schedule|
  {
    && schedule != [] && Enabled(s, schedule[0])
    && (Gives(s, schedule[0], id, o) || Authored(Fire(s, schedule[0]), schedule[1..], id, o))
  }

  ghost predicate Stored(t: Task, id: NodeID, o: Snapshot) {
    exists i :: 0 <= i < |t.nodes| && t.nodes[i].id == id && t.nodes[i].output == Some(o)
  }

  /** The executor is about to store the output for its own node, or was handed it for a dependency. */
  ghost predicate Carries(e: Exec, id: NodeID, o: Snapshot) {
    || (e.node.id == id && (e.phase == Parking(o) || e.phase == Finishing(Output(o))))
    || (e.phase.Invoking? && id in e.phase.inputs && e.phase.inputs[id] == o)
  }

  ghost predicate CarriedBy(s: State, w: nat, k: nat, id: NodeID, o: Snapshot) {
    HasExec(s, w, k) && Carries(ExecAt(s, w, k), id, o)
  }

  /** The output is somewhere in the system. */
  ghost predicate Present(s: State, id: NodeID, o: Snapshot) {
    Stored(s.task, id, o) || exists w: nat, k: nat :: CarriedBy(s, w, k, id, o)
  }

  // ---------------------------------------------------------------- one step

  lemma ApiGives(t: Task, a: ApiStep, i: nat, o: Snapshot)
    requires i < |TaskAfter(t, a).nodes| && TaskAfter(t, a).nodes[i].output == Some(o)
    ensures i < |t.nodes| && t.nodes[i].id == TaskAfter(t, a).nodes[i].id
    ensures || t.nodes[i].output == Some(o)
            || (a.ConfirmCall? && a.id == t.nodes[i].id && a.adjusted == Some(o))
            || (a.AdjustCall? && a.id == t.nodes[i].id && a.output == o)
  {
  }

  lemma WorkGives(s: State, w: nat, a: WorkerStep, i: nat)
    requires WorkEnabled(s, w, a) && i < |FireWork(s, w, a).task.nodes|
    ensures i < |s.task.nodes| && FireWork(s, w, a).task.nodes[i].id == s.task.nodes[i].id
    ensures FireWork(s, w, a).task.nodes[i].output == s.task.nodes[i].output
  {
  }

  lemma WorkCarriesNothing(s: State, w: nat, a: WorkerStep, v: nat, k: nat, id: NodeID, o: Snapshot)
    requires WorkEnabled(s, w, a) && CarriedBy(FireWork(s, w, a), v, k, id, o)
    ensures CarriedBy(s, v, k, id, o)
  {
  }

  /** What an executor step leaves behind was there before, or its invocation has just returned it. */
  lemma RunStores(s: State, w: nat, k: nat, a: ExecStep, i: nat, o: Snapshot)
    requires RunEnabled(s, w, k, a) && i < |FireRun(s, w, k, a).task.nodes|
    requires FireRun(s, w, k, a).task.nodes[i].output == Some(o)
    ensures i < |s.task.nodes| && s.task.nodes[i].id == FireRun(s, w, k, a).task.nodes[i].id
    ensures s.task.nodes[i].output == Some(o) || Carries(ExecAt(s, w, k), s.task.nodes[i].id, o)
  {
    RunChangesOnlyItsNode(s, w, k, a, i);
  }

  lemma RunCarries(s: State, w: nat, k: nat, a: ExecStep, id: NodeID, o: Snapshot)
    requires RunEnabled(s, w, k, a) && CarriedBy(FireRun(s, w, k, a), w, k, id, o)
    ensures Gives(s, Run(w, k, a), id, o) || Carries(ExecAt(s, w, k), id, o) || Stored(s.task, id, o)
  {
    if a.Read? && a.ok {
      var n := Find(s.task.nodes, id).value;
      var i :| 0 <= i < |s.task.nodes| && s.task.nodes[i] == n;
      assert s.task.nodes[i].id == id && s.task.nodes[i].output == Some(o);
    }
  }

  lemma RunGives(s: State, w: nat, k: nat, a: ExecStep, id: NodeID, o: Snapshot)
    requires RunEnabled(s, w, k, a) && Present(FireRun(s, w, k, a), id, o)
    ensures Present(s, id, o) || Gives(s, Run(w, k, a), id, o)
  {
    var s' := FireRun(s, w, k, a);
    if Stored(s'.task, id, o) {
      var i :| 0 <= i < |s'.task.nodes| && s'.task.nodes[i].id == id && s'.task.nodes[i].output == Some(o);
      RunStores(s, w, k, a, i, o);
      assert Carries(ExecAt(s, w, k), id, o) ==> CarriedBy(s, w, k, id, o);
    } else {
      var v: nat, j: nat :| CarriedBy(s', v, j, id, o);
      if v == w && j == k {
        RunCarries(s, w, k, a, id, o);
        assert Carries(ExecAt(s, w, k), id, o) ==> CarriedBy(s, w, k, id, o);
      } else {
        OthersCarryOn(s, w, k, a, v, j);
        assert CarriedBy(s, v, j, id, o);
      }
    }
  }

  lemma OthersCarryOn(s: State, w: nat, k: nat, a: ExecStep, v: nat, j: nat)
    requires RunEnabled(s, w, k, a) && HasExec(FireRun(s, w, k, a), v, j) && !(v == w && j == k)
    ensures HasExec(s, v, j) && ExecAt(FireRun(s, w, k, a), v, j) == ExecAt(s, v, j)
  {
    RunLeavesTheRest(s, w, k, a);
    RunLeavesOtherWorkers(s, w, k, a, v);
  }

  lemma RunLeavesOtherWorkers(s: State, w: nat, k: nat, a: ExecStep, v: nat)
    requires RunEnabled(s, w, k, a) && v in FireRun(s, w, k, a).workers
    ensures v in s.workers && (v != w ==> FireRun(s, w, k, a).workers[v] == s.workers[v])
  {
  }

  lemma ApiStepGives(s: State, a: ApiStep, id: NodeID, o: Snapshot)
    requires ApiEnabled(s, a) && Present(FireApi(s, a), id, o)
    ensures Present(s, id, o) || Gives(s, Api(a), id, o)
  {
    var s' := FireApi(s, a);
    if Stored(s'.task, id, o) {
      var i :| 0 <= i < |s'.task.nodes| && s'.task.nodes[i].id == id && s'.task.nodes[i].output == Some(o);
      ApiGives(s.task, a, i, o);
    } else {
      var w: nat, k: nat :| CarriedBy(s', w, k, id, o);
      ApiLeavesPhases(s, a, w);
      assert CarriedBy(s, w, k, id, o);
    }
  }

  lemma WorkStepGives(s: State, w: nat, a: WorkerStep, id: NodeID, o: Snapshot)
    requires WorkEnabled(s, w, a) && Present(FireWork(s, w, a), id, o)
    ensures Present(s, id, o)
  {
    var s' := FireWork(s, w, a);
    if Stored(s'.task, id, o) {
      var i :| 0 <= i < |s'.task.nodes| && s'.task.nodes[i].id == id && s'.task.nodes[i].output == Some(o);
      WorkGives(s, w, a, i);
    } else {
      var v: nat, k: nat :| CarriedBy(s', v, k, id, o);
      WorkCarriesNothing(s, w, a, v, k, id, o);
    }
  }

  /** No step brings an output into the system that nobody gave. */
  lemma StepGives(s: State, step: Step, id: NodeID, o: Snapshot)
    requires Enabled(s, step) && Present(Fire(s, step), id, o)
    ensures Present(s, id, o) || Gives(s, step, id, o)
  {
    match step
    case Api(a) => ApiStepGives(s, a, id, o);
    case Work(w, a) => WorkStepGives(s, w, a, id, o);
    case Run(w, k, a) => RunGives(s, w, k, a, id, o);
    case Crash =>
  }

  // ---------------------------------------------------------------- whole runs

  lemma {:induction false} PresentOrAuthored(s: State, schedule: seq<Step>, s': State, id: NodeID, o: Snapshot)
    requires Reaches(s, schedule, s') && Present(s', id, o)
    ensures Present(s, id, o) || Authored(s, schedule, id, o)
    decreases |schedule|
  {
    if schedule != [] {
      PresentOrAuthored(Fire(s, schedule[0]), schedule[1..], s', id, o);
      if Present(Fire(s, schedule[0]), id, o) { StepGives(s, schedule[0], id, o); }
    }
  }

  lemma NothingAtFirst(s: State, id: NodeID, o: Snapshot)
    requires Initial(s) && forall n <- s.task.nodes :: n.output.None?
    ensures !Present(s, id, o)
  {
    forall i | 0 <= i < |s.task.nodes| ensures s.task.nodes[i].output.None? { assert s.task.nodes[i] in s.task.nodes; }
  }

  /** Every output stored in a task was returned by an invocation of that very node, or given to it by a human - through
      every interleaving, crash, retry and recovery. */
  lemma OutputsHaveAuthors(s: State, schedule: seq<Step>, s': State, i: nat)
    requires Initial(s) && (forall n <- s.task.nodes :: n.output.None?) && Reaches(s, schedule, s')
    requires i < |s'.task.nodes| && s'.task.nodes[i].output.Some?
    ensures Authored(s, schedule, s'.task.nodes[i].id, s'.task.nodes[i].output.value)
  {
    var id, o := s'.task.nodes[i].id, s'.task.nodes[i].output.value;
    assert Stored(s'.task, id, o);
    PresentOrAuthored(s, schedule, s', id, o);
    NothingAtFirst(s, id, o);
  }

  /** An executor has been handed exactly its dependencies, and for each an output that its invocation returned or a
      human gave. */
  lemma InputsHaveAuthors(s: State, schedule: seq<Step>, s': State, w: nat, k: nat, d: NodeID)
    requires Initial(s) && GraphOk(s.task.nodes) && (forall n <- s.task.nodes :: n.output.None?)
    requires Reaches(s, schedule, s') && HasExec(s', w, k) && ExecAt(s', w, k).phase.Invoking?
    ensures d in ExecAt(s', w, k).phase.inputs <==> d in ExecAt(s', w, k).node.dependsOn
    ensures d in ExecAt(s', w, k).phase.inputs ==> Authored(s, schedule, d, ExecAt(s', w, k).phase.inputs[d])
  {
    InitialOk(s);
    RunsKeep(s, schedule);
    var e := ExecAt(s', w, k);
    assert WorkerOk(s'.task, s'.workers[w]) && ExecOk(s'.task, e);
    if d in e.phase.inputs {
      assert CarriedBy(s', w, k, d, e.phase.inputs[d]);
      PresentOrAuthored(s, schedule, s', d, e.phase.inputs[d]);
      NothingAtFirst(s, d, e.phase.inputs[d]);
    }
  }

  /** At the moment an executor reads the task it is handed what is stored at its dependencies then. */
  lemma ReadHandsOver(s: State, w: nat, k: nat, i: nat)
    requires Inv(s) && RunEnabled(s, w, k, Read(true))
    requires i < |s.task.nodes| && s.task.nodes[i].id in ExecAt(s, w, k).node.dependsOn
    ensures var s' := FireRun(s, w, k, Read(true));
      && HasExec(s', w, k) && ExecAt(s', w, k).phase.Invoking? && s.task.nodes[i].status.Succeeded?
      && s.task.nodes[i].id in ExecAt(s', w, k).phase.inputs
      && Some(ExecAt(s', w, k).phase.inputs[s.task.nodes[i].id]) == s.task.nodes[i].output
  {
    var e := ExecAt(s, w, k);
    assert WorkerOk(s.task, s.workers[w]) && ExecOk(s.task, e);
    assert s.task.nodes[i].id in DepSet(e.node);
    DoneOf(s.task.nodes, i);
    InputsAreOutputs(e.node, s.task.nodes, i);
  }

  /** What an invocation returns goes on unchanged: to the human if the node is gated and it is an output, and to
      finishNode otherwise. */
  lemma AnswersGoOn(s: State, w: nat, k: nat, outcome: Outcome)
    requires Inv(s) && RunEnabled(s, w, k, Invoke(outcome))
    ensures var s' := FireRun(s, w, k, Invoke(outcome));
      && HasExec(s', w, k) && ExecAt(s', w, k).node == ExecAt(s, w, k).node && s'.task == s.task
      && (outcome.Output? && Gated(s.task, ExecAt(s, w, k).node) ==>
            ExecAt(s', w, k).phase == Parking(outcome.snapshot))
      && (outcome.Failure? || !Gated(s.task, ExecAt(s, w, k).node) ==> ExecAt(s', w, k).phase == Finishing(outcome))
  {
    assert WorkerOk(s.task, s.workers[w]) && ExecOk(s.task, ExecAt(s, w, k));
  }

  // ---------------------------------------------------------------- who waits

  /** Waiting nodes are gated, and so is every node about to be parked. */
  ghost predicate WaitsGated(s: State) {
    && (forall i :: 0 <= i < |s.task.nodes| && s.task.nodes[i].status.Waiting? ==> Gated(s.task, s.task.nodes[i]))
    && (forall w: nat, k: nat :: HasExec(s, w, k) && ExecAt(s, w, k).phase.Parking? ==>
          Gated(s.task, ExecAt(s, w, k).node))
  }

  lemma NewWaitingIsParked(s: State, step: Step, i: nat)
    requires Inv(s) && Enabled(s, step) && i < |Fire(s, step).task.nodes|
    requires Fire(s, step).task.nodes[i].status.Waiting?
    ensures i < |s.task.nodes|
    ensures || s.task.nodes[i].status.Waiting?
            || (step.Run? && ExecAt(s, step.w, step.k).phase.Parking?
                && ExecAt(s, step.w, step.k).node.id == s.task.nodes[i].id)
  {
    match step
    case Api(a) => ApiMakesNobodyWait(s.task, a, i);
    case Work(w, a) => WorkMakesNobodyWait(s, w, a, i);
    case Run(w, k, a) => RunMakesItsNodeWait(s, w, k, a, i);
    case Crash =>
  }

  lemma ApiMakesNobodyWait(t: Task, a: ApiStep, i: nat)
    requires i < |TaskAfter(t, a).nodes| && TaskAfter(t, a).nodes[i].status.Waiting?
    ensures i < |t.nodes| && t.nodes[i].status.Waiting?
  {
  }

  lemma WorkMakesNobodyWait(s: State, w: nat, a: WorkerStep, i: nat)
    requires WorkEnabled(s, w, a) && i < |FireWork(s, w, a).task.nodes|
    requires FireWork(s, w, a).task.nodes[i].status.Waiting?
    ensures i < |s.task.nodes| && s.task.nodes[i].status.Waiting?
  {
  }

  lemma RunMakesItsNodeWait(s: State, w: nat, k: nat, a: ExecStep, i: nat)
    requires RunEnabled(s, w, k, a) && i < |FireRun(s, w, k, a).task.nodes|
    requires FireRun(s, w, k, a).task.nodes[i].status.Waiting?
    ensures i < |s.task.nodes|
    ensures || s.task.nodes[i].status.Waiting?
            || (ExecAt(s, w, k).phase.Parking? && ExecAt(s, w, k).node.id == s.task.nodes[i].id)
  {
  }

  lemma NewParkingIsGated(s: State, step: Step, w: nat, k: nat)
    requires Inv(s) && Enabled(s, step) && HasExec(Fire(s, step), w, k)
    requires ExecAt(Fire(s, step), w, k).phase.Parking?
    ensures HasExec(s, w, k) && ExecAt(s, w, k).node == ExecAt(Fire(s, step), w, k).node
    ensures ExecAt(s, w, k).phase.Parking? || Gated(s.task, ExecAt(s, w, k).node)
  {
    match step
    case Api(a) => ApiLeavesPhases(s, a, w);
    case Work(v, a) => WorkParksNobody(s, v, a, w, k);
    case Run(v, j, a) => if v == w && j == k { RunParks(s, w, k, a); } else { OthersCarryOn(s, v, j, a, w, k); }
    case Crash =>
  }

  lemma WorkParksNobody(s: State, v: nat, a: WorkerStep, w: nat, k: nat)
    requires WorkEnabled(s, v, a) && HasExec(FireWork(s, v, a), w, k) && ExecAt(FireWork(s, v, a), w, k).phase.Parking?
    ensures HasExec(s, w, k) && ExecAt(s, w, k) == ExecAt(FireWork(s, v, a), w, k)
  {
  }

  lemma RunParks(s: State, w: nat, k: nat, a: ExecStep)
    requires Inv(s) && RunEnabled(s, w, k, a) && HasExec(FireRun(s, w, k, a), w, k)
    requires ExecAt(FireRun(s, w, k, a), w, k).phase.Parking?
    ensures ExecAt(s, w, k).node == ExecAt(FireRun(s, w, k, a), w, k).node && Gated(s.task, ExecAt(s, w, k).node)
  {
    assert WorkerOk(s.task, s.workers[w]) && ExecOk(s.task, ExecAt(s, w, k));
  }

  lemma StepKeepsWaitsGated(s: State, step: Step)
    requires Inv(s) && WaitsGated(s) && Enabled(s, step)
    ensures WaitsGated(Fire(s, step))
  {
    var s' := Fire(s, step);
    StepMoves(s, step);
    forall i: nat | i < |s'.task.nodes| && s'.task.nodes[i].status.Waiting? ensures Gated(s'.task, s'.task.nodes[i]) {
      NewWaitingIsParked(s, step, i);
      assert SameShape(s.task.nodes[i], s'.task.nodes[i]);
      if !s.task.nodes[i].status.Waiting? { ExecNodeGated(s, step.w, step.k, i); }
    }
    forall w: nat, k: nat | HasExec(s', w, k) && ExecAt(s', w, k).phase.Parking?
      ensures Gated(s'.task, ExecAt(s', w, k).node)
    {
      NewParkingIsGated(s, step, w, k);
    }
  }

  lemma ExecNodeGated(s: State, w: nat, k: nat, i: nat)
    requires Inv(s) && HasExec(s, w, k) && i < |s.task.nodes| && s.task.nodes[i].id == ExecAt(s, w, k).node.id
    ensures Gated(s.task, ExecAt(s, w, k).node) <==> Gated(s.task, s.task.nodes[i])
  {
    assert WorkerOk(s.task, s.workers[w]) && ExecOk(s.task, ExecAt(s, w, k));
    assert ExecNodeOk(ExecAt(s, w, k), s.task.nodes[i]);
  }

  lemma {:induction false} WaitsGatedInRuns(s: State, schedule: seq<Step>, s': State)
    requires Inv(s) && WaitsGated(s) && Reaches(s, schedule, s')
    ensures WaitsGated(s')
    decreases |schedule|
  {
    if schedule != [] {
      StepKeeps(s, schedule[0]);
      StepKeepsWaitsGated(s, schedule[0]);
      WaitsGatedInRuns(Fire(s, schedule[0]), schedule[1..], s');
    }
  }

  /** Only the nodes a human has to look at ever wait for one: in a task submitted without the demand for confirmation
      none does. */
  lemma OnlyGatedNodesWait(s: State, schedule: seq<Step>, s': State, i: nat)
    requires Initial(s) && GraphOk(s.task.nodes) && Reaches(s, schedule, s')
    requires i < |s'.task.nodes| && s'.task.nodes[i].status.Waiting?
    ensures s.task.requireConfirmation && NeedsConfirmation(s'.task.nodes[i])
  {
    InitialOk(s);
    forall j | 0 <= j < |s.task.nodes| ensures s.task.nodes[j].status.Pending? {
      assert s.task.nodes[j] in s.task.nodes;
    }
    WaitsGatedInRuns(s, schedule, s');
    SuccessIsPermanent(s, schedule, s');
  }

  // ---------------------------------------------------------------- time stamps

  /** The time a step reads off the clock, if it writes the task. */
  function ClockOf(step: Step): Option<Time> {
    match step
    case Api(CancelCall(now)) => Some(now)
    case Api(RetryCall(now)) => Some(now)
    case Api(Requeue(now, _)) => Some(now)
    case Api(ConfirmCall(_, _, now)) => Some(now)
    case Api(AdjustCall(_, _, now)) => Some(now)
    case Work(_, Mark(now, _)) => Some(now)
    case Work(_, Settle(now, _)) => Some(now)
    case Work(_, Launch(now, _)) => Some(now)
    case Run(_, _, Finish(now, _)) => Some(now)
    case Run(_, _, Park(now, _)) => Some(now)
    case _ => None
  }

  lemma ApiStamps(t: Task, a: ApiStep)
    requires TaskAfter(t, a) != t
    ensures ClockOf(Api(a)) == Some(TaskAfter(t, a).updatedAt)
    ensures !t.status.Terminal() && TaskAfter(t, a).status.Terminal() ==>
      TaskAfter(t, a).finishedAt == ClockOf(Api(a))
  {
  }

  lemma WorkStamps(s: State, w: nat, a: WorkerStep)
    requires WorkEnabled(s, w, a) && FireWork(s, w, a).task != s.task
    ensures ClockOf(Work(w, a)) == Some(FireWork(s, w, a).task.updatedAt)
    ensures !s.task.status.Terminal() && FireWork(s, w, a).task.status.Terminal() ==>
      FireWork(s, w, a).task.finishedAt == ClockOf(Work(w, a))
  {
  }

  lemma RunStamps(s: State, w: nat, k: nat, a: ExecStep)
    requires RunEnabled(s, w, k, a) && FireRun(s, w, k, a).task != s.task
    ensures ClockOf(Run(w, k, a)) == Some(FireRun(s, w, k, a).task.updatedAt)
    ensures FireRun(s, w, k, a).task.status == s.task.status
  {
  }

  /** Whatever changes a task leaves the time of the change on it, and whatever ends it the time of its end. */
  lemma EveryChangeIsStamped(s: State, step: Step)
    requires Enabled(s, step) && Fire(s, step).task != s.task
    ensures ClockOf(step) == Some(Fire(s, step).task.updatedAt)
    ensures !s.task.status.Terminal() && Fire(s, step).task.status.Terminal() ==>
      Fire(s, step).task.finishedAt == ClockOf(step)
  {
    match step
    case Api(a) => ApiStamps(s.task, a);
    case Work(w, a) => WorkStamps(s, w, a);
    case Run(w, k, a) => RunStamps(s, w, k, a);
    case Crash =>
  }
}
