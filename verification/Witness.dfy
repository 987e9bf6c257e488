/** The schedules that show what the runner does not guarantee, each from a submission. */
module Witness {
  import opened Types
  import opened TaskOps
  import opened TaskInvariant
  import opened Progress
  import opened System
  import opened SystemInvariant
  import opened SystemResults
  import opened Scheduling
  import opened Recovery
  import opened LateSteps
  import opened WorkBound

  // ---------------------------------------------------------------- states and the steps between them

  /** The task without a worker. */
  function Alone(t: Task, callers: multiset<Caller>, nextId: nat): State {
    State(t, None, map[], callers, map[], {}, nextId)
  }

  /** The task with worker w. */
  function With(t: Task, w: nat, phase: WorkerPhase, callers: multiset<Caller>): State {
    State(t, Some(w), map[w := Worker(phase, false)], callers, map[], {}, w + 1)
  }

  lemma Starting(t: Task, callers: multiset<Caller>, w: nat)
    ensures Next(Alone(t, callers + multiset{ToStart}, w), Api(Start), With(t, w, Top, callers))
  {
    var s := Alone(t, callers + multiset{ToStart}, w);
    assert s.callers - Consumed(Start) + Announced(s, Start) == callers;
    assert Rewired(s, Start) == With(t, w, Top, s.callers);
  }

  lemma Moving(t: Task, t': Task, w: nat, phase: WorkerPhase, phase': WorkerPhase, callers: multiset<Caller>)
    ensures SetPhase(With(t, w, phase, callers).(task := t'), w, phase') == With(t', w, phase', callers)
  {
  }

  lemma Looking(t: Task, w: nat, callers: multiset<Caller>)
    ensures Next(With(t, w, Top, callers), Work(w, Look(true)), With(t, w, AfterLook(t, false), callers))
  {
    Moving(t, t, w, Top, AfterLook(t, false), callers);
  }

  lemma Marks(t: Task, w: nat, callers: multiset<Caller>)
    ensures Next(With(t, w, Marking, callers), Work(w, Mark(0, true)), With(MarkRunning(t, 0), w, Top, callers))
  {
    Moving(t, MarkRunning(t, 0), w, Marking, Top, callers);
  }

  lemma Settles(t: Task, w: nat, callers: multiset<Caller>)
    ensures Next(With(t, w, Settling, callers), Work(w, Settle(0, true)), With(Complete(t, 0), w, Top, callers))
  {
    Moving(t, Complete(t, 0), w, Settling, Top, callers);
  }

  lemma LaunchesNext(t: Task, ready: seq<NodeID>, w: nat, callers: multiset<Caller>)
    requires Started(t, ready, 0) != []
    ensures Next(With(t, w, Launching(ready), callers), Work(w, Launch(0, true)),
                 With(StartNodes(t, ready, 0), w, Batch(Spawn(Started(t, ready, 0))), callers))
  {
    Moving(t, StartNodes(t, ready, 0), w, Launching(ready), Batch(Spawn(Started(t, ready, 0))), callers);
  }

  /** The first launch of a fresh task. */
  function FirstLaunch(w: nat): seq<Step> {
    [Api(Start), Work(w, Look(true)), Work(w, Mark(0, true)), Work(w, Look(true)), Work(w, Launch(0, true))]
  }

  /** The task and the worker after it. */
  function AfterLaunch(t: Task, w: nat, callers: multiset<Caller>): State {
    var ready := ReadyNodes(t.nodes);
    With(StartNodes(t, ready, 0), w, Batch(Spawn(Started(t, ready, 0))), callers)
  }

  predicate CanLaunch(t: Task) {
    !t.status.Terminal() && !t.cancelRequested && !t.status.TaskPending? && ReadyNodes(t.nodes) != []
    && Started(t, ReadyNodes(t.nodes), 0) != []
  }

  lemma Relaunching(s: State, schedule: seq<Step>, t: Task, callers: multiset<Caller>, w: nat)
    requires Reaches(s, schedule, With(t, w, Top, callers)) && CanLaunch(t)
    ensures Reaches(s, schedule + [Work(w, Look(true)), Work(w, Launch(0, true))], AfterLaunch(t, w, callers))
  {
    var look, launch := Work(w, Look(true)), Work(w, Launch(0, true));
    var mid := With(t, w, Launching(ReadyNodes(t.nodes)), callers);
    Looking(t, w, callers);
    LaunchesNext(t, ReadyNodes(t.nodes), w, callers);
    Then2(s, schedule, With(t, w, Top, callers), look, mid, launch, AfterLaunch(t, w, callers));
  }

  lemma StartMarked(s: State, schedule: seq<Step>, t: Task, callers: multiset<Caller>, w: nat)
    requires Reaches(s, schedule, Alone(t, callers + multiset{ToStart}, w)) && t.status.TaskPending?
    requires !t.cancelRequested
    ensures Reaches(s, schedule + [Api(Start), Work(w, Look(true)), Work(w, Mark(0, true))],
                    With(MarkRunning(t, 0), w, Top, callers))
  {
    var start, look, mark := Api(Start), Work(w, Look(true)), Work(w, Mark(0, true));
    Starting(t, callers, w);
    Looking(t, w, callers);
    Marks(t, w, callers);
    Then(s, schedule, Alone(t, callers + multiset{ToStart}, w), start, With(t, w, Top, callers));
    Then2(s, schedule + [start], With(t, w, Top, callers), look, With(t, w, Marking, callers), mark,
          With(MarkRunning(t, 0), w, Top, callers));
    assert schedule + [start] + [look, mark] == schedule + [start, look, mark];
  }

  lemma LaunchingFirst(s: State, schedule: seq<Step>, t: Task, callers: multiset<Caller>, w: nat)
    requires Reaches(s, schedule, Alone(t, callers + multiset{ToStart}, w))
    requires t.status.TaskPending? && !t.cancelRequested && CanLaunch(MarkRunning(t, 0))
    ensures Reaches(s, schedule + FirstLaunch(w), AfterLaunch(MarkRunning(t, 0), w, callers))
  {
    var start := [Api(Start), Work(w, Look(true)), Work(w, Mark(0, true))];
    StartMarked(s, schedule, t, callers, w);
    Relaunching(s, schedule + start, MarkRunning(t, 0), callers, w);
    assert schedule + FirstLaunch(w) == schedule + start + [Work(w, Look(true)), Work(w, Launch(0, true))];
  }

  lemma Crashing(t: Task, w: nat, phase: WorkerPhase, callers: multiset<Caller>)
    ensures Next(With(t, w, phase, callers), Crash, Alone(t, multiset{}, w + 1))
  {
  }

  predicate Rewires(a: ApiStep) {
    a.Sweep? || a.Signal? || a.Start? || a.Abort?
  }

  lemma CallingWith(t: Task, w: nat, phase: WorkerPhase, callers: multiset<Caller>, a: ApiStep,
                    callers': multiset<Caller>)
    requires !Rewires(a) && Consumed(a) <= callers
    requires callers' == callers - Consumed(a) + Announced(With(t, w, phase, callers), a)
    ensures Next(With(t, w, phase, callers), Api(a), With(TaskAfter(t, a), w, phase, callers'))
  {
  }

  lemma CallingAlone(t: Task, callers: multiset<Caller>, nextId: nat, a: ApiStep, callers': multiset<Caller>)
    requires !Rewires(a) && Consumed(a) <= callers
    requires callers' == callers - Consumed(a) + Announced(Alone(t, callers, nextId), a)
    ensures Next(Alone(t, callers, nextId), Api(a), Alone(TaskAfter(t, a), callers', nextId))
  {
  }

  /** One executor of the batch moves. */
  lemma MovesExec(t: Task, w: nat, execs: seq<Exec>, callers: multiset<Caller>, k: nat, a: ExecStep, t': Task,
                 phase: ExecPhase)
    requires RunEnabled(With(t, w, Batch(execs), callers), w, k, a)
    requires FireRun(With(t, w, Batch(execs), callers), w, k, a)
      == SetExec(With(t, w, Batch(execs), callers).(task := t'), w, k, phase)
    ensures Next(With(t, w, Batch(execs), callers), Run(w, k, a),
                 With(t', w, Batch(execs[k := execs[k].(phase := phase)]), callers))
  {
    Moving(t, t', w, Batch(execs), Batch(execs[k := execs[k].(phase := phase)]), callers);
  }

  /** An executor that has just been started gets its answer. */
  lemma Invoked(s: State, schedule: seq<Step>, t: Task, w: nat, execs: seq<Exec>, callers: multiset<Caller>, k: nat,
                outcome: Outcome, phase: ExecPhase)
    requires Reaches(s, schedule, With(t, w, Batch(execs), callers)) && k < |execs| && execs[k].phase.Spawned?
    requires phase == if outcome.Output? && t.requireConfirmation && NeedsConfirmation(execs[k].node)
                      then Parking(outcome.snapshot) else Finishing(outcome)
    ensures Reaches(s, schedule + [Run(w, k, Read(true)), Run(w, k, Invoke(outcome))],
                    With(t, w, Batch(execs[k := execs[k].(phase := phase)]), callers))
  {
    var invoking := Invoking(CompletedDependencies(execs[k].node, t.nodes),
                             t.requireConfirmation && NeedsConfirmation(execs[k].node));
    var mid := execs[k := execs[k].(phase := invoking)];
    MovesExec(t, w, execs, callers, k, Read(true), t, invoking);
    MovesExec(t, w, mid, callers, k, Invoke(outcome), t, phase);
    assert mid[k := mid[k].(phase := phase)] == execs[k := execs[k].(phase := phase)];
    Then2(s, schedule, With(t, w, Batch(execs), callers), Run(w, k, Read(true)), With(t, w, Batch(mid), callers),
          Run(w, k, Invoke(outcome)), With(t, w, Batch(execs[k := execs[k].(phase := phase)]), callers));
  }

  // ---------------------------------------------------------------- a task of one node

  const IN := Snapshot("{}", 1)
  const OUT := Snapshot("{}", 2)

  function TaskOf(nodes: seq<Node>, confirm: bool, status: TaskStatus): Task {
    Task("t", "k", IN, nodes, status, confirm, status.TaskCancelled?, 0, 0, if status.Terminal() then Some(0) else None)
  }

  function NewNode(id: NodeID, dependsOn: seq<NodeID>, kind: string, maxAttempts: nat): Node {
    Node(id, dependsOn, Invocation(kind, ""), IN, None, Pending, 0, maxAttempts, "", "", None, None)
  }

  const SOLO := NewNode("a", [], AGENT, 1)
  const SOLO_RUNNING := StartNode(SOLO, 0)

  function Submitted(nodes: seq<Node>, confirm: bool): State {
    Alone(TaskOf(nodes, confirm, TaskPending), multiset{ToStart}, 0)
  }

  lemma SoloIsInitial(confirm: bool)
    ensures Initial(Submitted([SOLO], confirm)) && GraphOk([SOLO])
  {
    assert SOLO in [SOLO];
    assert Ranked([SOLO], map["a" := 0]);
  }

  lemma SoloStarts(confirm: bool)
    ensures CanLaunch(TaskOf([SOLO], confirm, TaskRunning))
    ensures AfterLaunch(TaskOf([SOLO], confirm, TaskRunning), 0, multiset{})
      == With(TaskOf([SOLO_RUNNING], confirm, TaskRunning), 0, Batch([Exec(SOLO_RUNNING, Spawned)]), multiset{})
    ensures AfterLaunch(TaskOf([SOLO], confirm, TaskRunning), 0, multiset{ToRequeue})
      == With(TaskOf([SOLO_RUNNING], confirm, TaskRunning), 0, Batch([Exec(SOLO_RUNNING, Spawned)]),
              multiset{ToRequeue})
  {
    var t := TaskOf([SOLO], confirm, TaskRunning);
    assert DependenciesSucceeded(SOLO, t.nodes);
    assert ReadyNodes(t.nodes, 1) == [];
    assert ReadyNodes(t.nodes) == ["a"];
    assert ["a"][1..] == [];
    assert Started(t, ["a"], 0) == [SOLO_RUNNING];
    assert Spawn([SOLO_RUNNING]) == [Exec(SOLO_RUNNING, Spawned)];
    assert StartNodes(t, ["a"], 0).nodes == [SOLO_RUNNING];
  }

  function Solo(status: TaskStatus, confirm: bool): Task {
    TaskOf([SOLO_RUNNING], confirm, status)
  }

  function SoloBatch(phase: ExecPhase): WorkerPhase {
    Batch([Exec(SOLO_RUNNING, phase)])
  }

  lemma SoloLaunched(confirm: bool)
    ensures Reaches(Submitted([SOLO], confirm), FirstLaunch(0),
                    With(Solo(TaskRunning, confirm), 0, SoloBatch(Spawned), multiset{}))
  {
    var s := Submitted([SOLO], confirm);
    SoloStarts(confirm);
    assert s == Alone(s.task, multiset{} + multiset{ToStart}, 0);
    LaunchingFirst(s, [], s.task, multiset{}, 0);
    assert [] + FirstLaunch(0) == FirstLaunch(0);
  }

  function SoloAnswer(): seq<Step> {
    [Run(0, 0, Read(true)), Run(0, 0, Invoke(Output(OUT)))]
  }

  lemma SoloAnswers(s: State, schedule: seq<Step>, t: Task, callers: multiset<Caller>, phase: ExecPhase)
    requires Reaches(s, schedule, With(t, 0, SoloBatch(Spawned), callers))
    requires phase == if t.requireConfirmation then Parking(OUT) else Finishing(Output(OUT))
    ensures Reaches(s, schedule + SoloAnswer(), With(t, 0, SoloBatch(phase), callers))
  {
    var spawned := [Exec(SOLO_RUNNING, Spawned)];
    Invoked(s, schedule, t, 0, spawned, callers, 0, Output(OUT), phase);
    assert spawned[0 := spawned[0].(phase := phase)] == [Exec(SOLO_RUNNING, phase)];
  }

  predicate AllReliable(schedule: seq<Step>) {
    forall step <- schedule :: Reliable(step)
  }

  lemma BothReliable(a: seq<Step>, b: seq<Step>)
    requires AllReliable(a) && AllReliable(b)
    ensures AllReliable(a + b)
  {
  }

  // ---------------------------------------------------------------- a late Recover

  const RECALL := [Api(RecoverCall)]
  const REQUEUE := [Api(Requeue(0, true))]

  function LateRequeue(): seq<Step> {
    RECALL + FirstLaunch(0) + REQUEUE + SoloAnswer()
  }

  lemma RecallThenLaunch()
    ensures Reaches(Submitted([SOLO], false), RECALL + FirstLaunch(0),
                    With(Solo(TaskRunning, false), 0, SoloBatch(Spawned), multiset{ToRequeue}))
  {
    var s := Submitted([SOLO], false);
    CallingAlone(s.task, multiset{ToStart}, 0, RecoverCall, multiset{ToStart, ToRequeue});
    Then(s, [], s, Api(RecoverCall), Alone(s.task, multiset{ToStart, ToRequeue}, 0));
    assert multiset{ToStart, ToRequeue} == multiset{ToRequeue} + multiset{ToStart};
    assert [] + RECALL == RECALL;
    SoloStarts(false);
    LaunchingFirst(s, RECALL, s.task, multiset{ToRequeue}, 0);
  }

  lemma SoloIsInterrupted()
    ensures var t' := Recover(Solo(TaskRunning, false), 0);
      t'.nodes == [RequeueNode(SOLO_RUNNING, 0)] && t'.nodes[0].status.Failed? && t'.status.TaskPending?
      && !t'.requireConfirmation
  {
    assert Solo(TaskRunning, false).nodes[0] == SOLO_RUNNING && SOLO_RUNNING in Solo(TaskRunning, false).nodes;
  }

  lemma RequeuesSpawned(s: State, schedule: seq<Step>, t: Task)
    requires Reaches(s, schedule, With(t, 0, SoloBatch(Spawned), multiset{ToRequeue}))
    ensures Reaches(s, schedule + REQUEUE, With(Recover(t, 0), 0, SoloBatch(Spawned), multiset{ToStart}))
  {
    CallingWith(t, 0, SoloBatch(Spawned), multiset{ToRequeue}, Requeue(0, true), multiset{ToStart});
    Then(s, schedule, With(t, 0, SoloBatch(Spawned), multiset{ToRequeue}), Api(Requeue(0, true)),
         With(Recover(t, 0), 0, SoloBatch(Spawned), multiset{ToStart}));
  }

  lemma FinishIsDropped(t: Task, callers: multiset<Caller>)
    requires |t.nodes| == 1 && t.nodes[0].status.Failed?
    ensures var s := With(t, 0, SoloBatch(Finishing(Output(OUT))), callers);
      && RunEnabled(s, 0, 0, System.Finish(0, true)) && ExecAt(s, 0, 0).phase == Finishing(Output(OUT))
      && FireRun(s, 0, 0, System.Finish(0, true)).task == t
  {
  }

  /** Without a crash or a repository error: Recover finds the new task without a worker, the worker starts the node,
      and then Recover locks the task and fails the node for good, though its executor lives and comes back with an
      output. The output is dropped. */
  lemma LateRequeueDropsOutput() returns (s: State, s': State)
    ensures Initial(s) && GraphOk(s.task.nodes) && Reaches(s, LateRequeue(), s') && AllReliable(LateRequeue())
    ensures !s'.task.status.Terminal() && |s'.task.nodes| == 1 && s'.task.nodes[0].status.Failed?
    ensures RunEnabled(s', 0, 0, System.Finish(0, true)) && ExecAt(s', 0, 0).phase == Finishing(Output(OUT))
    ensures FireRun(s', 0, 0, System.Finish(0, true)).task == s'.task
  {
    s := Submitted([SOLO], false);
    SoloIsInitial(false);
    RecallThenLaunch();
    RequeuesSpawned(s, RECALL + FirstLaunch(0), Solo(TaskRunning, false));
    SoloIsInterrupted();
    var t' := Recover(Solo(TaskRunning, false), 0);
    SoloAnswers(s, RECALL + FirstLaunch(0) + REQUEUE, t', multiset{ToStart}, Finishing(Output(OUT)));
    FinishIsDropped(t', multiset{ToStart});
    s' := With(t', 0, SoloBatch(Finishing(Output(OUT))), multiset{ToStart});
    LateRequeueIsReliable();
  }

  lemma LateRequeueIsReliable()
    ensures AllReliable(LateRequeue())
  {
    BothReliable(RECALL, FirstLaunch(0));
    BothReliable(RECALL + FirstLaunch(0), REQUEUE);
    BothReliable(RECALL + FirstLaunch(0) + REQUEUE, SoloAnswer());
  }

  // ---------------------------------------------------------------- parking in a cancelled task

  const PARK := Run(0, 0, System.Park(0, true))
  const CANCEL_THEN_PARK := [Api(CancelCall(0)), PARK]

  function LateParking(): seq<Step> {
    FirstLaunch(0) + SoloAnswer() + CANCEL_THEN_PARK
  }

  /** A cancelled task gets a waiting node: its executor parks after the cancellation. */
  lemma CancelledTaskGetsWaitingNode() returns (s: State, s': State)
    ensures Initial(s) && GraphOk(s.task.nodes) && Reaches(s, LateParking(), s') && AllReliable(LateParking())
    ensures s'.task.status.TaskCancelled? && AnyWaiting(s'.task.nodes)
  {
    s := Submitted([SOLO], true);
    SoloIsInitial(true);
    SoloLaunched(true);
    SoloAnswers(s, FirstLaunch(0), Solo(TaskRunning, true), multiset{}, Parking(OUT));
    s' := CancelledThenParked(s, FirstLaunch(0) + SoloAnswer(), Solo(TaskRunning, true));
    LateParkingIsReliable();
  }

  lemma LateParkingIsReliable()
    ensures AllReliable(LateParking())
  {
    BothReliable(FirstLaunch(0), SoloAnswer());
    BothReliable(FirstLaunch(0) + SoloAnswer(), CANCEL_THEN_PARK);
  }

  lemma CancelledThenParked(s: State, schedule: seq<Step>, t: Task) returns (s': State)
    requires Reaches(s, schedule, With(t, 0, SoloBatch(Parking(OUT)), multiset{}))
    requires |t.nodes| == 1 && t.nodes[0].id == "a" && !t.status.Terminal()
    ensures Reaches(s, schedule + CANCEL_THEN_PARK, s') && s'.task.status.TaskCancelled? && AnyWaiting(s'.task.nodes)
  {
    var t', parking := TaskOps.Cancel(t, 0), SoloBatch(Parking(OUT));
    CallingWith(t, 0, parking, multiset{}, CancelCall(0), multiset{ToSweep});
    SoloParks(t', multiset{ToSweep});
    var parked := TaskOps.Park(t', "a", OUT, 0).value;
    s' := With(parked, 0, SoloBatch(Parked), multiset{ToSweep});
    assert parked.nodes[0].status.Waiting? && parked.nodes[0] in parked.nodes;
    Then2(s, schedule, With(t, 0, parking, multiset{}), Api(CancelCall(0)), With(t', 0, parking, multiset{ToSweep}),
          PARK, s');
  }

  lemma SoloParks(t: Task, callers: multiset<Caller>)
    requires |t.nodes| == 1 && t.nodes[0].id == "a"
    ensures TaskOps.Park(t, "a", OUT, 0).Ok?
    ensures Next(With(t, 0, SoloBatch(Parking(OUT)), callers), PARK,
                 With(TaskOps.Park(t, "a", OUT, 0).value, 0, SoloBatch(Parked), callers))
  {
    var parking := [Exec(SOLO_RUNNING, Parking(OUT))];
    assert t.nodes[0].id in Ids(t.nodes);
    MovesExec(t, 0, parking, callers, 0, System.Park(0, true), TaskOps.Park(t, "a", OUT, 0).value, Parked);
    assert parking[0 := parking[0].(phase := Parked)] == [Exec(SOLO_RUNNING, Parked)];
  }

  // ---------------------------------------------------------------- a worker that turns for ever

  const PARK_THEN_CRASH := [PARK, Crash]
  const RECOVER := [Api(RecoverCall), Api(Requeue(0, true))]

  function StartAgain(w: nat): seq<Step> {
    [Api(Start), Work(w, Look(true)), Work(w, Mark(0, true))]
  }

  function OrphanedWait(): seq<Step> {
    FirstLaunch(0) + SoloAnswer() + PARK_THEN_CRASH + RECOVER + StartAgain(1)
  }

  /** After a crash a waiting node has no executor, Recover leaves it alone, and the worker it starts finds nothing
      ready and nothing to settle, again and again. */
  lemma OrphanedWaitSpins(rounds: nat) returns (s: State, s': State)
    ensures Initial(s) && GraphOk(s.task.nodes) && Reaches(s, OrphanedWait(), s') && 1 in s'.workers
    ensures Reaches(s', Spin(1, 0, rounds), s') && StepsOf(Spin(1, 0, rounds), 1) == 2 * rounds
  {
    s := Submitted([SOLO], true);
    SoloIsInitial(true);
    SoloLaunched(true);
    SoloAnswers(s, FirstLaunch(0), Solo(TaskRunning, true), multiset{}, Parking(OUT));
    var t := ParkedThenCrashed(s, FirstLaunch(0) + SoloAnswer(), Solo(TaskRunning, true));
    Requeued(s, FirstLaunch(0) + SoloAnswer() + PARK_THEN_CRASH, t, 1);
    SoloStaysWaiting(t);
    var t' := Recover(t, 0);
    assert multiset{ToStart} == multiset{} + multiset{ToStart};
    StartMarked(s, FirstLaunch(0) + SoloAnswer() + PARK_THEN_CRASH + RECOVER, t', multiset{}, 1);
    s' := With(MarkRunning(t', 0), 1, Top, multiset{});
    InitialOk(s);
    RunsKeep(s, OrphanedWait());
    SpinsForEver(s', 1, 0, rounds);
  }

  lemma ParkedThenCrashed(s: State, schedule: seq<Step>, t: Task) returns (t': Task)
    requires Reaches(s, schedule, With(t, 0, SoloBatch(Parking(OUT)), multiset{}))
    requires |t.nodes| == 1 && t.nodes[0].id == "a" && t.status.TaskRunning? && !t.cancelRequested
    ensures Reaches(s, schedule + PARK_THEN_CRASH, Alone(t', multiset{}, 1))
    ensures |t'.nodes| == 1 && t'.nodes[0].status.Waiting? && t'.status.TaskRunning? && !t'.cancelRequested
  {
    t' := TaskOps.Park(t, "a", OUT, 0).value;
    SoloParks(t, multiset{});
    Crashing(t', 0, SoloBatch(Parked), multiset{});
    Then2(s, schedule, With(t, 0, SoloBatch(Parking(OUT)), multiset{}), PARK,
          With(t', 0, SoloBatch(Parked), multiset{}),
          Crash, Alone(t', multiset{}, 1));
  }

  lemma SoloStaysWaiting(t: Task)
    requires |t.nodes| == 1 && t.nodes[0].status.Waiting? && t.status.TaskRunning? && !t.cancelRequested
    ensures var t' := Recover(t, 0);
      && t'.nodes == t.nodes && t'.status.TaskPending? && !t'.cancelRequested
      && MarkRunning(t', 0).status.TaskRunning? && ReadyNodes(t'.nodes) == [] && AnyBusy(t'.nodes)
      && MarkRunning(t', 0).nodes == t'.nodes
  {
    var t' := Recover(t, 0);
    assert t'.nodes == t.nodes;
    assert ReadyNodes(t'.nodes, 1) == [];
    assert t'.nodes[0] in t'.nodes;
  }

  /** Recover on a task without a worker. */
  lemma Requeued(s: State, schedule: seq<Step>, t: Task, nextId: nat)
    requires Reaches(s, schedule, Alone(t, multiset{}, nextId))
    ensures Reaches(s, schedule + [Api(RecoverCall), Api(Requeue(0, true))],
                    Alone(Recover(t, 0), multiset{ToStart}, nextId))
  {
    CallingAlone(t, multiset{}, nextId, RecoverCall, multiset{ToRequeue});
    CallingAlone(t, multiset{ToRequeue}, nextId, Requeue(0, true), multiset{ToStart});
    Then2(s, schedule, Alone(t, multiset{}, nextId), Api(RecoverCall), Alone(t, multiset{ToRequeue}, nextId),
          Api(Requeue(0, true)), Alone(Recover(t, 0), multiset{ToStart}, nextId));
  }

  // ---------------------------------------------------------------- giving up nodes without a failed ancestor

  const A := NewNode("a", [], AGENT, 2)
  const B := NewNode("b", [], STEP, 1)
  const C := NewNode("c", ["a"], STEP, 1)
  const A_RUNNING := StartNode(A, 0)
  const B_RUNNING := StartNode(B, 0)
  const B_FAILED := FinishNode(B_RUNNING, Failure("", ""), 0)

  lemma TrioIsInitial()
    ensures Initial(Submitted([A, B, C], true)) && GraphOk([A, B, C])
  {
    assert Ranked([A, B, C], map["a" := 0, "b" := 0, "c" := 1]) by {
      assert [A, B, C][0].id in Ids([A, B, C]);
    }
  }

  ghost function IfReady(nodes: seq<Node>, i: nat): seq<NodeID>
    requires i < |nodes|
  {
    if nodes[i].status.Pending? && DependenciesSucceeded(nodes[i], nodes) then [nodes[i].id] else []
  }

  /** The ready list of three nodes, one by one. */
  lemma ReadyOfThree(nodes: seq<Node>)
    requires |nodes| == 3
    ensures ReadyNodes(nodes) == IfReady(nodes, 0) + IfReady(nodes, 1) + IfReady(nodes, 2)
  {
    assert ReadyNodes(nodes, 3) == [];
    assert ReadyNodes(nodes, 2) + [] == ReadyNodes(nodes, 2);
    assert ReadyNodes(nodes, 0) == IfReady(nodes, 0) + ReadyNodes(nodes, 1);
  }

  lemma WaitsForA(a: Node, b: Node)
    requires a.id == "a" && !a.status.Succeeded?
    ensures !DependenciesSucceeded(C, [a, b, C])
  {
    assert "a" in C.dependsOn && Find([a, b, C], "a") == Some(a);
  }

  /** Until A succeeds, nothing is ready once A and B have been started. */
  lemma NothingReadyYet(a: Node, b: Node)
    requires a.id == "a" && !a.status.Succeeded? && !a.status.Pending? && !b.status.Pending?
    ensures ReadyNodes([a, b, C]) == []
  {
    WaitsForA(a, b);
    ReadyOfThree([a, b, C]);
  }

  function TrioBatch(a: ExecPhase, b: ExecPhase): WorkerPhase {
    Batch([Exec(A_RUNNING, a), Exec(B_RUNNING, b)])
  }

  lemma TrioStarts()
    ensures CanLaunch(TaskOf([A, B, C], true, TaskRunning))
    ensures AfterLaunch(TaskOf([A, B, C], true, TaskRunning), 0, multiset{})
      == With(TaskOf([A_RUNNING, B_RUNNING, C], true, TaskRunning), 0, TrioBatch(Spawned, Spawned), multiset{})
  {
    var t := TaskOf([A, B, C], true, TaskRunning);
    WaitsForA(A, B);
    ReadyOfThree(t.nodes);
    assert DependenciesSucceeded(A, t.nodes) && DependenciesSucceeded(B, t.nodes);
    assert ReadyNodes(t.nodes) == ["a", "b"];
    TrioStarted(t);
  }

  lemma TrioStarted(t: Task)
    requires t == TaskOf([A, B, C], true, TaskRunning) && !DependenciesSucceeded(C, t.nodes)
    requires DependenciesSucceeded(A, t.nodes) && DependenciesSucceeded(B, t.nodes)
    ensures Started(t, ["a", "b"], 0) == [A_RUNNING, B_RUNNING]
    ensures StartNodes(t, ["a", "b"], 0) == TaskOf([A_RUNNING, B_RUNNING, C], true, TaskRunning)
    ensures Spawn(Started(t, ["a", "b"], 0)) == [Exec(A_RUNNING, Spawned), Exec(B_RUNNING, Spawned)]
  {
    StartedBoth(t);
    TrioMapped(t);
  }

  lemma StartedBoth(t: Task)
    requires t == TaskOf([A, B, C], true, TaskRunning)
    requires DependenciesSucceeded(A, t.nodes) && DependenciesSucceeded(B, t.nodes)
    ensures Started(t, ["a", "b"], 0) == [A_RUNNING, B_RUNNING]
  {
    StartedHead(t);
    StartedTail(t);
  }

  lemma StartedHead(t: Task)
    requires t == TaskOf([A, B, C], true, TaskRunning) && DependenciesSucceeded(A, t.nodes)
    ensures Started(t, ["a", "b"], 0) == [A_RUNNING] + Started(t, ["b"], 0)
  {
    assert Find(t.nodes, "a") == Some(A) && Startable(A, ["a", "b"], t.nodes);
    assert ["a", "b"][1..] == ["b"];
  }

  lemma TrioMapped(t: Task)
    requires t == TaskOf([A, B, C], true, TaskRunning) && !DependenciesSucceeded(C, t.nodes)
    requires DependenciesSucceeded(A, t.nodes) && DependenciesSucceeded(B, t.nodes) && Started(t, ["a", "b"], 0) != []
    ensures StartNodes(t, ["a", "b"], 0) == TaskOf([A_RUNNING, B_RUNNING, C], true, TaskRunning)
  {
    assert StartNodes(t, ["a", "b"], 0).nodes == [A_RUNNING, B_RUNNING, C];
  }

  lemma StartedTail(t: Task)
    requires t == TaskOf([A, B, C], true, TaskRunning) && DependenciesSucceeded(B, t.nodes)
    ensures Started(t, ["b"], 0) == [B_RUNNING]
  {
    assert Find(t.nodes, "b") == Some(B);
    assert ["b"][1..] == [] && Started(t, [], 0) == [];
  }

  lemma TrioLaunched()
    ensures Reaches(Submitted([A, B, C], true), FirstLaunch(0),
                    With(TaskOf([A_RUNNING, B_RUNNING, C], true, TaskRunning), 0, TrioBatch(Spawned, Spawned),
                         multiset{}))
  {
    var s := Submitted([A, B, C], true);
    TrioStarts();
    assert s == Alone(s.task, multiset{} + multiset{ToStart}, 0);
    LaunchingFirst(s, [], s.task, multiset{}, 0);
    assert [] + FirstLaunch(0) == FirstLaunch(0);
  }

  const B_FAILS := [Run(0, 1, Read(true)), Run(0, 1, Invoke(Failure("", ""))), Run(0, 1, System.Finish(0, true))]

  /** B uses up its one attempt while A is running. */
  lemma BFails() returns (t: Task)
    ensures Reaches(Submitted([A, B, C], true), FirstLaunch(0) + B_FAILS,
                    With(t, 0, TrioBatch(Spawned, Returned(true)), multiset{}))
    ensures t == TaskOf([A_RUNNING, B_FAILED, C], true, TaskRunning)
  {
    var s, launched := Submitted([A, B, C], true), TaskOf([A_RUNNING, B_RUNNING, C], true, TaskRunning);
    var execs, outcome := [Exec(A_RUNNING, Spawned), Exec(B_RUNNING, Spawned)], Failure("", "");
    TrioLaunched();
    Invoked(s, FirstLaunch(0), launched, 0, execs, multiset{}, 1, outcome, Finishing(outcome));
    assert execs[1 := execs[1].(phase := Finishing(outcome))]
        == [Exec(A_RUNNING, Spawned), Exec(B_RUNNING, Finishing(outcome))];
    t := BFinishesAfter(s, launched);
  }

  lemma BFinishesAfter(s: State, launched: Task) returns (t: Task)
    requires launched == TaskOf([A_RUNNING, B_RUNNING, C], true, TaskRunning)
    requires Reaches(s, FirstLaunch(0) + [Run(0, 1, Read(true)), Run(0, 1, Invoke(Failure("", "")))],
                     With(launched, 0, TrioBatch(Spawned, Finishing(Failure("", ""))), multiset{}))
    ensures Reaches(s, FirstLaunch(0) + B_FAILS, With(t, 0, TrioBatch(Spawned, Returned(true)), multiset{}))
    ensures t == TaskOf([A_RUNNING, B_FAILED, C], true, TaskRunning)
  {
    var outcome := Failure("", "");
    var answered := FirstLaunch(0) + [Run(0, 1, Read(true)), Run(0, 1, Invoke(outcome))];
    t := BFinishes(launched);
    Then(s, answered, With(launched, 0, TrioBatch(Spawned, Finishing(outcome)), multiset{}),
         Run(0, 1, System.Finish(0, true)),
         With(t, 0, TrioBatch(Spawned, Returned(true)), multiset{}));
    assert FirstLaunch(0) + B_FAILS == answered + [Run(0, 1, System.Finish(0, true))];
  }

  lemma BFinishes(launched: Task) returns (t: Task)
    requires launched == TaskOf([A_RUNNING, B_RUNNING, C], true, TaskRunning)
    ensures t == TaskOf([A_RUNNING, B_FAILED, C], true, TaskRunning)
    ensures Next(With(launched, 0, TrioBatch(Spawned, Finishing(Failure("", ""))), multiset{}),
                 Run(0, 1, System.Finish(0, true)),
                 With(t, 0, TrioBatch(Spawned, Returned(true)), multiset{}))
  {
    t := TaskOps.Finish(launched, "b", Failure("", ""), 0);
    assert launched.nodes[1] in launched.nodes && Finishable(launched.nodes[1], "b");
    assert t.nodes == [A_RUNNING, B_FAILED, C];
    var execs := [Exec(A_RUNNING, Spawned), Exec(B_RUNNING, Finishing(Failure("", "")))];
    MovesExec(launched, 0, execs, multiset{}, 1, System.Finish(0, true), t, Returned(true));
    assert execs[1 := execs[1].(phase := Returned(true))]
        == [Exec(A_RUNNING, Spawned), Exec(B_RUNNING, Returned(true))];
  }

  const SUBMIT_AGAIN := [Api(RecoverCall), Api(SubmitAgain)]

  /** The worker started over whatever was left looks while Recover still has to lock the task. */
  const LOOK_TOO_EARLY := [Api(Start), Work(1, Look(true))]
  const REQUEUE_THEN_SETTLE := [Api(Requeue(0, true)), Work(1, Settle(0, true))]

  function StartedOverLeftovers(): seq<Step> {
    FirstLaunch(0) + B_FAILS + [Crash] + SUBMIT_AGAIN + LOOK_TOO_EARLY + REQUEUE_THEN_SETTLE
  }

  /** A submission with the same key starts a worker before Recover has requeued: it finds A running, so nothing ready,
      and settles after the requeue has made A pending again. The task fails and gives up A, on which nothing weighs. */
  lemma StartedOverLeftoversGivesUpTooMuch() returns (s: State, s': State)
    ensures Initial(s) && GraphOk(s.task.nodes) && Reaches(s, StartedOverLeftovers(), s')
    ensures s'.task.status.TaskFailed? && |s'.task.nodes| == 3 && s'.task.nodes[0].status.Cancelled?
    ensures !HasFailedAncestor(s'.task.nodes, 0)
  {
    s := Submitted([A, B, C], true);
    TrioIsInitial();
    var t := BFails();
    var failed := FirstLaunch(0) + B_FAILS;
    Crashing(t, 0, TrioBatch(Spawned, Returned(true)), multiset{});
    Then(s, failed, With(t, 0, TrioBatch(Spawned, Returned(true)), multiset{}), Crash, Alone(t, multiset{}, 1));
    SubmittedAgain(s, failed + [Crash], t);
    LookedTooEarly(s, failed + [Crash] + SUBMIT_AGAIN, t);
    s' := RequeuedThenSettled(s, failed + [Crash] + SUBMIT_AGAIN + LOOK_TOO_EARLY, t);
    InitialOk(s);
    RunsKeep(s, StartedOverLeftovers());
    NoFailedAncestor(s'.task.nodes, 0);
  }

  lemma SubmittedAgain(s: State, schedule: seq<Step>, t: Task)
    requires Reaches(s, schedule, Alone(t, multiset{}, 1)) && !t.status.Terminal()
    ensures Reaches(s, schedule + SUBMIT_AGAIN, Alone(t, multiset{ToRequeue} + multiset{ToStart}, 1))
  {
    CallingAlone(t, multiset{}, 1, RecoverCall, multiset{ToRequeue});
    CallingAlone(t, multiset{ToRequeue}, 1, SubmitAgain, multiset{ToRequeue} + multiset{ToStart});
    Then2(s, schedule, Alone(t, multiset{}, 1), Api(RecoverCall), Alone(t, multiset{ToRequeue}, 1),
          Api(SubmitAgain), Alone(t, multiset{ToRequeue} + multiset{ToStart}, 1));
  }

  lemma LookedTooEarly(s: State, schedule: seq<Step>, t: Task)
    requires Reaches(s, schedule, Alone(t, multiset{ToRequeue} + multiset{ToStart}, 1))
    requires t == TaskOf([A_RUNNING, B_FAILED, C], true, TaskRunning)
    ensures Reaches(s, schedule + LOOK_TOO_EARLY, With(t, 1, Settling, multiset{ToRequeue}))
  {
    NothingReadyYet(A_RUNNING, B_FAILED);
    Starting(t, multiset{ToRequeue}, 1);
    Looking(t, 1, multiset{ToRequeue});
    Then2(s, schedule, Alone(t, multiset{ToRequeue} + multiset{ToStart}, 1), Api(Start),
          With(t, 1, Top, multiset{ToRequeue}),
          Work(1, Look(true)), With(t, 1, Settling, multiset{ToRequeue}));
  }

  lemma RequeuedThenSettled(s: State, schedule: seq<Step>, t: Task) returns (s': State)
    requires Reaches(s, schedule, With(t, 1, Settling, multiset{ToRequeue}))
    requires t == TaskOf([A_RUNNING, B_FAILED, C], true, TaskRunning)
    ensures Reaches(s, schedule + REQUEUE_THEN_SETTLE, s')
    ensures s'.task.status.TaskFailed? && |s'.task.nodes| == 3 && s'.task.nodes[0].status.Cancelled?
    ensures s'.task.nodes[0].dependsOn == []
  {
    var t' := Recover(t, 0);
    CallingWith(t, 1, Settling, multiset{ToRequeue}, Requeue(0, true), multiset{ToStart});
    Settles(t', 1, multiset{ToStart});
    AGivenUp(t);
    s' := With(Complete(t', 0), 1, Top, multiset{ToStart});
    Then2(s, schedule, With(t, 1, Settling, multiset{ToRequeue}), Api(Requeue(0, true)),
          With(t', 1, Settling, multiset{ToStart}),
          Work(1, Settle(0, true)), s');
  }

  lemma AGivenUp(t: Task)
    requires t == TaskOf([A_RUNNING, B_FAILED, C], true, TaskRunning)
    ensures var t' := Complete(Recover(t, 0), 0);
      && t'.status.TaskFailed? && |t'.nodes| == 3 && t'.nodes[0].status.Cancelled? && t'.nodes[0].dependsOn == []
  {
    RecoveredIsIdle(t);
    FailsWith(Recover(t, 0), 1);
  }

  lemma RecoveredIsIdle(t: Task)
    requires t == TaskOf([A_RUNNING, B_FAILED, C], true, TaskRunning)
    ensures var t' := Recover(t, 0);
      && t'.nodes == [RequeueNode(A_RUNNING, 0), B_FAILED, C] && !t'.status.Terminal() && !t'.cancelRequested
      && RequeueNode(A_RUNNING, 0).status.Pending? && B_FAILED.status.Failed?
  {
    assert t.nodes[0].status.Running? && t.nodes[0] in t.nodes;
    assert Recover(t, 0).nodes == [RequeueNode(A_RUNNING, 0), B_FAILED, C];
  }

  lemma FailsWith(t: Task, f: nat)
    requires !t.status.Terminal() && !t.cancelRequested && f < |t.nodes| && t.nodes[f].status.Failed?
    requires forall i :: 0 <= i < |t.nodes| ==> !Busy(t.nodes[i])
    ensures Complete(t, 0).status.TaskFailed? && |Complete(t, 0).nodes| == |t.nodes|
    ensures forall i :: 0 <= i < |t.nodes| ==> Complete(t, 0).nodes[i] == DropNode(t.nodes[i], 0)
  {
    assert t.nodes[f] in t.nodes;
    assert !AnyBusy(t.nodes);
  }

  // ---------------------------------------------------------------- confirmed too late

  const A_PARKS := [Run(0, 0, Read(true)), Run(0, 0, Invoke(Output(OUT))), Run(0, 0, System.Park(0, true))]
  const LOOK := [Work(1, Look(true))]
  const CONFIRM_THEN_SETTLE := [Api(ConfirmCall("a", None, 0)), Work(1, Settle(0, true))]

  function ConfirmedTooLateSchedule(): seq<Step> {
    FirstLaunch(0) + B_FAILS + A_PARKS + [Crash] + RECOVER + StartAgain(1) + LOOK + CONFIRM_THEN_SETTLE
  }

  const A_WAITING := A_RUNNING.(status := Waiting, output := Some(OUT))

  /** A waiting node that a crash orphaned: the next worker finds nothing ready, A is confirmed before it settles, and
      C, which depends on A alone, is given up although nothing above it failed. */
  lemma ConfirmedTooLateInARun() returns (s: State, s': State)
    ensures Initial(s) && GraphOk(s.task.nodes) && Reaches(s, ConfirmedTooLateSchedule(), s')
    ensures s'.task.status.TaskFailed? && |s'.task.nodes| == 3 && s'.task.nodes[2].status.Cancelled?
    ensures !HasFailedAncestor(s'.task.nodes, 2)
  {
    s := Submitted([A, B, C], true);
    TrioIsInitial();
    var t := AParks();
    var parked := FirstLaunch(0) + B_FAILS + A_PARKS;
    Crashing(t, 0, TrioBatch(Parked, Returned(true)), multiset{});
    Then(s, parked, With(t, 0, TrioBatch(Parked, Returned(true)), multiset{}), Crash, Alone(t, multiset{}, 1));
    var t' := RecoveredAndLooked(s, parked + [Crash], t);
    s' := ConfirmedThenSettled(s, parked + [Crash] + RECOVER + StartAgain(1) + LOOK, t');
    InitialOk(s);
    RunsKeep(s, ConfirmedTooLateSchedule());
    assert DepSet(s'.task.nodes[2]) <= Done(s'.task.nodes);
    NoFailedAncestor(s'.task.nodes, 2);
  }

  lemma AParks() returns (t: Task)
    ensures t == TaskOf([A_WAITING, B_FAILED, C], true, TaskRunning)
    ensures Reaches(Submitted([A, B, C], true), FirstLaunch(0) + B_FAILS + A_PARKS,
                    With(t, 0, TrioBatch(Parked, Returned(true)), multiset{}))
  {
    var s, failed := Submitted([A, B, C], true), FirstLaunch(0) + B_FAILS;
    var before := BFails();
    var execs := [Exec(A_RUNNING, Spawned), Exec(B_RUNNING, Returned(true))];
    Invoked(s, failed, before, 0, execs, multiset{}, 0, Output(OUT), Parking(OUT));
    assert execs[0 := execs[0].(phase := Parking(OUT))]
        == [Exec(A_RUNNING, Parking(OUT)), Exec(B_RUNNING, Returned(true))];
    var answered := failed + [Run(0, 0, Read(true)), Run(0, 0, Invoke(Output(OUT)))];
    t := AIsParked(before);
    Then(s, answered, With(before, 0, TrioBatch(Parking(OUT), Returned(true)), multiset{}), PARK,
         With(t, 0, TrioBatch(Parked, Returned(true)), multiset{}));
    assert failed + A_PARKS == answered + [PARK];
  }

  lemma AIsParked(before: Task) returns (t: Task)
    requires before == TaskOf([A_RUNNING, B_FAILED, C], true, TaskRunning)
    ensures t == TaskOf([A_WAITING, B_FAILED, C], true, TaskRunning)
    ensures Next(With(before, 0, TrioBatch(Parking(OUT), Returned(true)), multiset{}), PARK,
                 With(t, 0, TrioBatch(Parked, Returned(true)), multiset{}))
  {
    assert before.nodes[0].id in Ids(before.nodes);
    t := TaskOps.Park(before, "a", OUT, 0).value;
    assert t.nodes == [A_WAITING, B_FAILED, C];
    var execs := [Exec(A_RUNNING, Parking(OUT)), Exec(B_RUNNING, Returned(true))];
    MovesExec(before, 0, execs, multiset{}, 0, System.Park(0, true), t, Parked);
    assert execs[0 := execs[0].(phase := Parked)] == [Exec(A_RUNNING, Parked), Exec(B_RUNNING, Returned(true))];
  }

  lemma RecoveredAndLooked(s: State, schedule: seq<Step>, t: Task) returns (t': Task)
    requires Reaches(s, schedule, Alone(t, multiset{}, 1)) && t == TaskOf([A_WAITING, B_FAILED, C], true, TaskRunning)
    ensures t' == TaskOf([A_WAITING, B_FAILED, C], true, TaskRunning)
    ensures Reaches(s, schedule + RECOVER + StartAgain(1) + LOOK, With(t', 1, Settling, multiset{}))
  {
    Requeued(s, schedule, t, 1);
    var pending := Recover(t, 0);
    assert pending.nodes == [A_WAITING, B_FAILED, C];
    assert multiset{ToStart} == multiset{} + multiset{ToStart};
    StartMarked(s, schedule + RECOVER, pending, multiset{}, 1);
    t' := MarkRunning(pending, 0);
    NothingReadyYet(A_WAITING, B_FAILED);
    Looking(t', 1, multiset{});
    Then(s, schedule + RECOVER + StartAgain(1), With(t', 1, Top, multiset{}), Work(1, Look(true)),
         With(t', 1, Settling, multiset{}));
  }

  lemma ConfirmedThenSettled(s: State, schedule: seq<Step>, t: Task) returns (s': State)
    requires Reaches(s, schedule, With(t, 1, Settling, multiset{}))
    requires t == TaskOf([A_WAITING, B_FAILED, C], true, TaskRunning)
    ensures Reaches(s, schedule + CONFIRM_THEN_SETTLE, s')
    ensures s'.task.status.TaskFailed? && |s'.task.nodes| == 3 && s'.task.nodes[2].status.Cancelled?
    ensures s'.task.nodes[2].dependsOn == ["a"] && s'.task.nodes[0].status.Succeeded? && s'.task.nodes[0].id == "a"
  {
    var t' := AIsConfirmed(t);
    CGivenUp(t');
    AIsConfirmedNext(t, t');
    Settles(t', 1, multiset{ToSignal("a")});
    s' := With(Complete(t', 0), 1, Top, multiset{ToSignal("a")});
    Then2(s, schedule, With(t, 1, Settling, multiset{}), Api(ConfirmCall("a", None, 0)),
          With(t', 1, Settling, multiset{ToSignal("a")}), Work(1, Settle(0, true)), s');
  }

  lemma CGivenUp(t: Task)
    requires t.nodes == [ConfirmOne(A_WAITING, None, 0), B_FAILED, C] && !t.status.Terminal() && !t.cancelRequested
    ensures var t' := Complete(t, 0);
      && t'.status.TaskFailed? && |t'.nodes| == 3 && t'.nodes[2].status.Cancelled? && t'.nodes[2].dependsOn == ["a"]
      && t'.nodes[0].status.Succeeded? && t'.nodes[0].id == "a"
  {
    FailsWith(t, 1);
  }

  lemma AIsConfirmedNext(t: Task, t': Task)
    requires Confirm(t, "a", None, 0) == Ok(t')
    ensures Next(With(t, 1, Settling, multiset{}), Api(ConfirmCall("a", None, 0)),
                 With(t', 1, Settling, multiset{ToSignal("a")}))
  {
    CallingWith(t, 1, Settling, multiset{}, ConfirmCall("a", None, 0), multiset{ToSignal("a")});
  }

  lemma AIsConfirmed(t: Task) returns (t': Task)
    requires t == TaskOf([A_WAITING, B_FAILED, C], true, TaskRunning)
    ensures Confirm(t, "a", None, 0) == Ok(t') && t'.nodes == [ConfirmOne(A_WAITING, None, 0), B_FAILED, C]
    ensures !t'.status.Terminal() && !t'.cancelRequested
  {
    assert Find(t.nodes, "a") == Some(A_WAITING);
    t' := Confirm(t, "a", None, 0).value;
    assert t'.nodes == [ConfirmOne(A_WAITING, None, 0), B_FAILED, C];
  }
}
