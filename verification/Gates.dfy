/** What the human gate holds back: everything below it in the graph, and in the shot-preview workflow all rendering,
    encoding and publishing. */
module Gates {
  import opened Types
  import opened TaskOps
  import opened TaskInvariant
  import opened Progress
  import opened System
  import opened SystemInvariant
  import opened SystemResults
  import opened Confirmation
  import opened Validate
  import opened ShotPreview

  // ---------------------------------------------------------------- below a gate

  ghost predicate LeadsTo(nodes: seq<Node>, p: seq<nat>, j: nat, i: nat) {
    DependencyPath(nodes, p) && |p| >= 2 && p[0] == j && p[|p| - 1] == i
  }

  /** Node j depends on node i, directly or through others. */
  ghost predicate Below(nodes: seq<Node>, j: nat, i: nat) {
    exists p :: LeadsTo(nodes, p, j, i)
  }

  /** Whatever may be started has successes all the way up. */
  lemma {:induction false} SuccessAbove(nodes: seq<Node>, p: seq<nat>, j: nat, i: nat)
    requires UniqueIds(nodes) && NodesOk(nodes) && LeadsTo(nodes, p, j, i) && DepSet(nodes[j]) <= Done(nodes)
    ensures nodes[i].status.Succeeded?
    decreases |p|
  {
    assert nodes[p[0 + 1]].id in nodes[p[0]].dependsOn;
    DoneOf(nodes, p[1]);
    if |p| > 2 {
      var q := p[1..];
      forall k | 0 <= k < |q| - 1 ensures nodes[q[k + 1]].id in nodes[q[k]].dependsOn {
        assert nodes[p[(k + 1) + 1]].id in nodes[p[k + 1]].dependsOn;
      }
      SuccessAbove(nodes, q, p[1], i);
    }
  }

  lemma BelowIsNotLaunched(s: State, step: Step, j: nat, i: nat)
    requires Inv(s) && Enabled(s, step) && Below(s.task.nodes, j, i) && !s.task.nodes[i].status.Succeeded?
    ensures s.task.nodes[j].id !in Launched(s, step)
  {
    if step.Work? && step.work.Launch? {
      assert WorkerOk(s.task, s.workers[step.w]);
      BelowIsNotStarted(s.task, s.workers[step.w].phase.ready, step.work.now, j, i);
    }
  }

  lemma BelowIsNotStarted(t: Task, ready: seq<NodeID>, now: Time, j: nat, i: nat)
    requires TaskOk(t) && Distinct(ready) && Below(t.nodes, j, i) && !t.nodes[i].status.Succeeded?
    ensures forall m <- Started(t, ready, now) :: m.id != t.nodes[j].id
  {
    var p :| LeadsTo(t.nodes, p, j, i);
    if DepSet(t.nodes[j]) <= Done(t.nodes) { SuccessAbove(t.nodes, p, j, i); }
    DependenciesAreDone(t.nodes[j], t.nodes);
    StartedSound(t, ready, now);
    forall m <- Started(t, ready, now) ensures m.id != t.nodes[j].id {
      var l: nat :| StartedFrom(t, ready, now, m, l);
      assert l != j;
    }
  }

  lemma BelowIsKept(nodes: seq<Node>, nodes': seq<Node>, j: nat, i: nat)
    requires Below(nodes, j, i) && SameShapes(nodes, nodes')
    ensures Below(nodes', j, i)
  {
    var p :| LeadsTo(nodes, p, j, i);
    forall k | 0 <= k < |p| - 1 ensures nodes'[p[k + 1]].id in nodes'[p[k]].dependsOn {
      assert SameShape(nodes[p[k]], nodes'[p[k]]) && SameShape(nodes[p[k + 1]], nodes'[p[k + 1]]);
    }
    assert LeadsTo(nodes', p, j, i);
  }

  /** Until someone confirms a gated node, no node below it is ever started, however far below and whatever else
      happens. */
  lemma {:induction false} NothingBelowTheGateStarts(s: State, schedule: seq<Step>, s': State, i: nat, j: nat)
    requires Inv(s) && Reaches(s, schedule, s') && Below(s.task.nodes, j, i)
    requires i < |s.task.nodes| && Gated(s.task, s.task.nodes[i]) && !s.task.nodes[i].status.Succeeded?
    requires j < |s.task.nodes| && forall step <- schedule :: !Confirms(step, s.task.nodes[i].id)
    ensures Launches(s, schedule, s.task.nodes[j].id) == 0
    decreases |schedule|
  {
    if schedule != [] {
      var mid := Fire(s, schedule[0]);
      assert schedule[0] in schedule;
      StepKeeps(s, schedule[0]);
      StepMoves(s, schedule[0]);
      StepLeavesGate(s, schedule[0], i);
      assert SameShape(s.task.nodes[i], mid.task.nodes[i]) && SameShape(s.task.nodes[j], mid.task.nodes[j]);
      BelowIsNotLaunched(s, schedule[0], j, i);
      BelowIsKept(s.task.nodes, mid.task.nodes, j, i);
      NothingBelowTheGateStarts(mid, schedule[1..], s', i, j);
    }
  }

  // ---------------------------------------------------------------- the gates of the workflow

  /** A human confirms the five nodes whose results shape what is rendered, and no other. */
  lemma GatesOfTheWorkflow(input: string, nodes: seq<Node>, i: nat)
    requires BuiltFrom(nodes, ShotPreviewWorkflow(input).nodes) && i < |nodes|
    ensures NeedsConfirmation(nodes[i])
      <==> nodes[i].id in {"Intent", "ScenePlan", "DesignShots", "AssembleScene", "Inspect"}
  {
    PositionsOfNames();
    assert AGENT[0] != STEP[0] && AGENT[0] != TOOL[0];
  }

  /** A dependency of each node after Intent, and one of each node after Inspect. */
  function Parent(j: nat): nat {
    if j == 5 then 2 else if j == 6 then 4 else if j == 9 then 8 else if j == 0 then 0 else j - 1
  }

  lemma ParentIsDependency(input: string, nodes: seq<Node>, j: nat)
    requires BuiltFrom(nodes, ShotPreviewWorkflow(input).nodes) && 1 <= j < 13
    ensures Parent(j) < j && |nodes| == 13 && nodes[Parent(j)].id in nodes[j].dependsOn
  {
  }

  lemma {:induction false} BelowParents(input: string, nodes: seq<Node>, j: nat, i: nat) returns (p: seq<nat>)
    requires BuiltFrom(nodes, ShotPreviewWorkflow(input).nodes) && i < j < 13 && (i == 1 || i == 8)
    ensures |nodes| == 13 && LeadsTo(nodes, p, j, i)
    decreases j
  {
    ParentIsDependency(input, nodes, j);
    if Parent(j) == i {
      p := [j, i];
    } else {
      var q := BelowParents(input, nodes, Parent(j), i);
      PrependStep(nodes, j, q);
      p := [j] + q;
    }
  }

  /** In a run of the workflow that asks for confirmation, nothing but Initialize and Intent is started before Intent
      has been confirmed, and neither the final render nor anything after it before Inspect has. */
  lemma RenderingWaitsForHumans(input: string, s: State, schedule: seq<Step>, s': State, i: nat, j: nat)
    requires Initial(s) && s.task.requireConfirmation && BuiltFrom(s.task.nodes, ShotPreviewWorkflow(input).nodes)
    requires Reaches(s, schedule, s') && (i == Position(INTENT) || i == Position(INSPECT)) && i < j < 13
    requires |s.task.nodes| == 13 && forall step <- schedule :: !Confirms(step, s.task.nodes[i].id)
    ensures s.task.nodes[i].id == (if i == Position(INTENT) then INTENT else INSPECT)
    ensures Launches(s, schedule, s.task.nodes[j].id) == 0
  {
    PositionsOfNames();
    WorkflowGraphIsOk(input, s.task.nodes);
    InitialOk(s);
    assert s.task.nodes[i] in s.task.nodes;
    var p := BelowParents(input, s.task.nodes, j, i);
    assert Below(s.task.nodes, j, i);
    NothingBelowTheGateStarts(s, schedule, s', i, j);
  }
}
