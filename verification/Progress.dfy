/** Why the scheduler is never stuck, and which nodes a failed task gives up on. */
module Progress {
  import opened Types
  import opened TaskOps
  import opened TaskInvariant

  // ---------------------------------------------------------------- the ready list

  ghost predicate Ready(nodes: seq<Node>, i: nat) {
    i < |nodes| && nodes[i].status.Pending? && DepSet(nodes[i]) <= Done(nodes)
  }

  ghost predicate Distinct(ids: seq<NodeID>) {
    forall i, j :: 0 <= i < j < |ids| ==> ids[i] != ids[j]
  }

  /** readyNodes lists exactly the pending nodes whose dependencies have all succeeded, each once. */
  lemma {:induction false} ReadyNodesExact(nodes: seq<Node>, from: nat)
    requires UniqueIds(nodes) && from <= |nodes|
    ensures forall id <- ReadyNodes(nodes, from) :: exists i ::
      from <= i < |nodes| && nodes[i].id == id && Ready(nodes, i)
    ensures forall i :: from <= i && Ready(nodes, i) ==> nodes[i].id in ReadyNodes(nodes, from)
    ensures Distinct(ReadyNodes(nodes, from))
    decreases |nodes| - from
  {
    if from < |nodes| {
      ReadyNodesExact(nodes, from + 1);
      DependenciesAreDone(nodes[from], nodes);
      var rest := ReadyNodes(nodes, from + 1);
      if Ready(nodes, from) {
        assert ReadyNodes(nodes, from) == [nodes[from].id] + rest;
        assert nodes[from].id !in rest;
      } else {
        assert ReadyNodes(nodes, from) == [] + rest == rest;
      }
    }
  }

  /** The list is in node order. */
  lemma {:induction false} ReadyInNodeOrder(nodes: seq<Node>, from: nat, j: nat, k: nat) returns (a: nat, b: nat)
    requires from <= |nodes| && j < k < |ReadyNodes(nodes, from)|
    ensures from <= a < b < |nodes|
    ensures ReadyNodes(nodes, from)[j] == nodes[a].id && ReadyNodes(nodes, from)[k] == nodes[b].id
    decreases |nodes| - from
  {
    var rest := ReadyNodes(nodes, from + 1);
    if nodes[from].status.Pending? && DependenciesSucceeded(nodes[from], nodes) {
      assert ReadyNodes(nodes, from) == [nodes[from].id] + rest;
      if j == 0 {
        a := from;
        b := ReadyIndex(nodes, from + 1, k - 1);
      } else {
        a, b := ReadyInNodeOrder(nodes, from + 1, j - 1, k - 1);
      }
    } else {
      assert ReadyNodes(nodes, from) == [] + rest == rest;
      a, b := ReadyInNodeOrder(nodes, from + 1, j, k);
    }
  }

  lemma {:induction false} ReadyIndex(nodes: seq<Node>, from: nat, k: nat) returns (b: nat)
    requires from <= |nodes| && k < |ReadyNodes(nodes, from)|
    ensures from <= b < |nodes| && ReadyNodes(nodes, from)[k] == nodes[b].id
    decreases |nodes| - from
  {
    var rest := ReadyNodes(nodes, from + 1);
    if nodes[from].status.Pending? && DependenciesSucceeded(nodes[from], nodes) {
      assert ReadyNodes(nodes, from) == [nodes[from].id] + rest;
      if k == 0 { b := from; } else { b := ReadyIndex(nodes, from + 1, k - 1); }
    } else {
      assert ReadyNodes(nodes, from) == [] + rest == rest;
      b := ReadyIndex(nodes, from + 1, k);
    }
  }

  /** `m` is node i, startable, as startNodes leaves it. */
  ghost predicate StartedFrom(t: Task, ready: seq<NodeID>, now: Time, m: Node, i: nat) {
    i < |t.nodes| && Startable(t.nodes[i], ready, t.nodes) && m == StartNode(t.nodes[i], now)
  }

  /** startNodes starts only startable nodes of the list, each once. */
  lemma {:induction false} StartedSound(t: Task, ready: seq<NodeID>, now: Time)
    requires Distinct(ready)
    ensures forall m <- Started(t, ready, now) :: exists i: nat :: StartedFrom(t, ready, now, m, i)
    ensures forall j, k :: 0 <= j < k < |Started(t, ready, now)| ==>
      Started(t, ready, now)[j].id != Started(t, ready, now)[k].id
    decreases |ready|
  {
    if !t.cancelRequested && !t.status.Terminal() && ready != [] {
      StartedSound(t, ready[1..], now);
      var rest, started := Started(t, ready[1..], now), Started(t, ready, now);
      var m := Find(t.nodes, ready[0]);
      var first := if m.Some? && Startable(m.value, ready, t.nodes) then [StartNode(m.value, now)] else [];
      assert started == first + rest;
      forall k | 0 <= k < |started|
        ensures exists i: nat :: StartedFrom(t, ready, now, started[k], i)
        ensures k >= |first| ==> started[k].id in ready[1..]
      {
        if k < |first| {
          var i: nat :| i < |t.nodes| && t.nodes[i] == m.value;
          assert StartedFrom(t, ready, now, started[k], i);
        } else {
          assert rest[k - |first|] in rest;
          var i: nat :| StartedFrom(t, ready[1..], now, rest[k - |first|], i);
          assert StartedFrom(t, ready, now, started[k], i);
        }
      }
      forall j, k | 0 <= j < k < |started| ensures started[j].id != started[k].id {
        if j < |first| {
          assert started[j].id == ready[0] && started[k].id in ready[1..];
          var l :| 0 <= l < |ready[1..]| && ready[1..][l] == started[k].id;
          assert ready[0] != ready[l + 1];
        } else {
          assert rest[j - |first|].id != rest[k - |first|].id;
        }
      }
    }
  }

  /** Whether the first node of the list is started. */
  predicate FirstStarts(t: Task, ready: seq<NodeID>)
    requires ready != []
  {
    var m := Find(t.nodes, ready[0]);
    m.Some? && Startable(m.value, ready, t.nodes)
  }

  lemma StartedFirst(t: Task, ready: seq<NodeID>, now: Time)
    requires Started(t, ready, now) != []
    ensures ready != []
    ensures FirstStarts(t, ready) ==>
      Started(t, ready, now)[0].id == ready[0] && Started(t, ready, now)[1..] == Started(t, ready[1..], now)
    ensures !FirstStarts(t, ready) ==> Started(t, ready, now) == Started(t, ready[1..], now)
  {
    if FirstStarts(t, ready) {
      var m := Find(t.nodes, ready[0]).value;
      assert Started(t, ready, now) == [StartNode(m, now)] + Started(t, ready[1..], now);
    } else {
      assert Started(t, ready, now) == [] + Started(t, ready[1..], now);
    }
  }

  /** The IDs are those of the list in its order, some of them left out. */
  ghost predicate Embeds(nodes: seq<Node>, ids: seq<NodeID>)
    decreases |ids|
  {
    nodes == []
    || (ids != [] && ((nodes[0].id == ids[0] && Embeds(nodes[1..], ids[1..])) || Embeds(nodes, ids[1..])))
  }

  /** The executors are started in the order of the list. */
  lemma {:induction false} StartedInOrder(t: Task, ready: seq<NodeID>, now: Time)
    ensures Embeds(Started(t, ready, now), ready)
    decreases |ready|
  {
    if Started(t, ready, now) != [] {
      StartedFirst(t, ready, now);
      StartedInOrder(t, ready[1..], now);
    }
  }

  /** startNodes starts every startable node of the list. */
  lemma {:induction false} StartedComplete(t: Task, ready: seq<NodeID>, now: Time, i: nat)
    requires UniqueIds(t.nodes) && i < |t.nodes| && Startable(t.nodes[i], ready, t.nodes)
    requires !t.cancelRequested && !t.status.Terminal()
    ensures StartNode(t.nodes[i], now) in Started(t, ready, now)
    decreases |ready|
  {
    DoneOf(t.nodes, i);
    if t.nodes[i].id != ready[0] {
      assert t.nodes[i].id in ready[1..];
      StartedComplete(t, ready[1..], now, i);
    }
  }

  // ---------------------------------------------------------------- paths of dependencies

  /** Each node of the path depends on the next one. */
  ghost predicate DependencyPath(nodes: seq<Node>, p: seq<nat>) {
    && |p| >= 1
    && (forall k :: 0 <= k < |p| ==> p[k] < |nodes|)
    && (forall k :: 0 <= k < |p| - 1 ==> nodes[p[k + 1]].id in nodes[p[k]].dependsOn)
  }

  ghost predicate LeadsToFailure(nodes: seq<Node>, p: seq<nat>, i: nat) {
    DependencyPath(nodes, p) && |p| >= 2 && p[0] == i && nodes[p[|p| - 1]].status.Failed?
  }

  ghost predicate HasFailedAncestor(nodes: seq<Node>, i: nat) {
    exists p :: LeadsToFailure(nodes, p, i)
  }

  /** No node is busy or given up. */
  ghost predicate Settled(nodes: seq<Node>) {
    forall i :: 0 <= i < |nodes| ==> nodes[i].status.Pending? || nodes[i].status.Succeeded? || nodes[i].status.Failed?
  }

  lemma MissingDependency(nodes: seq<Node>, rank: map<NodeID, nat>, i: nat) returns (j: nat)
    requires UniqueIds(nodes) && Ranked(nodes, rank) && i < |nodes| && nodes[i].status.Pending? && !Ready(nodes, i)
    ensures j < |nodes| && nodes[j].id in nodes[i].dependsOn && !nodes[j].status.Succeeded?
    ensures nodes[j].id in rank && nodes[i].id in rank && rank[nodes[j].id] < rank[nodes[i].id]
  {
    var d :| d in DepSet(nodes[i]) && d !in Done(nodes);
    j :| 0 <= j < |nodes| && nodes[j].id == d;
  }

  /** Acyclicity at work: below a pending node with nothing ready anywhere there is a failed one. */
  lemma {:induction false} BlockedByFailure(nodes: seq<Node>, rank: map<NodeID, nat>, i: nat) returns (p: seq<nat>)
    requires UniqueIds(nodes) && Ranked(nodes, rank) && i < |nodes| && nodes[i].status.Pending?
    requires Settled(nodes)
    requires forall j :: !Ready(nodes, j)
    ensures LeadsToFailure(nodes, p, i)
    decreases rank[nodes[i].id]
  {
    var j := MissingDependency(nodes, rank, i);
    if nodes[j].status.Failed? {
      p := [i, j];
    } else {
      var q := BlockedByFailure(nodes, rank, j);
      p := [i] + q;
      PrependStep(nodes, i, q);
    }
  }

  lemma PrependStep(nodes: seq<Node>, i: nat, q: seq<nat>)
    requires DependencyPath(nodes, q) && i < |nodes| && nodes[q[0]].id in nodes[i].dependsOn
    ensures DependencyPath(nodes, [i] + q)
  {
    var p := [i] + q;
    forall k | 0 <= k < |p| - 1 ensures nodes[p[k + 1]].id in nodes[p[k]].dependsOn {
      if k > 0 { assert nodes[q[(k - 1) + 1]].id in nodes[q[k - 1]].dependsOn; }
    }
  }

  /** Nothing above a node whose dependencies have succeeded has failed, because success is dependency-closed. */
  lemma {:induction false} NothingFailedAbove(nodes: seq<Node>, i: nat, p: seq<nat>)
    requires UniqueIds(nodes) && NodesOk(nodes)
    requires i < |nodes| && DepSet(nodes[i]) <= Done(nodes)
    ensures !LeadsToFailure(nodes, p, i)
    decreases |p|
  {
    if LeadsToFailure(nodes, p, i) {
      var j := p[1];
      assert nodes[p[0 + 1]].id in nodes[p[0]].dependsOn;
      DoneOf(nodes, j);
      assert nodes[j].status.Succeeded?;
      if |p| > 2 {
        var q := p[1..];
        forall k | 0 <= k < |q| - 1 ensures nodes[q[k + 1]].id in nodes[q[k]].dependsOn {
          assert nodes[p[(k + 1) + 1]].id in nodes[p[k + 1]].dependsOn;
        }
        NothingFailedAbove(nodes, j, q);
      }
    }
  }

  // ---------------------------------------------------------------- main results

  lemma IdleIsSettled(t: Task)
    requires TaskOk(t) && !t.status.Terminal() && !AnyBusy(t.nodes)
    ensures Settled(t.nodes)
  {
    forall i | 0 <= i < |t.nodes|
      ensures t.nodes[i].status.Pending? || t.nodes[i].status.Succeeded? || t.nodes[i].status.Failed?
    {
      assert t.nodes[i] in t.nodes;
    }
  }

  lemma NothingReady(nodes: seq<Node>)
    requires UniqueIds(nodes)
    ensures ReadyNodes(nodes) == [] <==> forall i :: !Ready(nodes, i)
  {
    ReadyNodesExact(nodes, 0);
    if ReadyNodes(nodes) != [] {
      var id := ReadyNodes(nodes)[0];
      assert id in ReadyNodes(nodes);
      var i: nat :| i < |nodes| && nodes[i].id == id && Ready(nodes, i);
    }
  }

  /** Scheduler progress: an unfinished task with nothing running or waiting has a ready node, or
      completeIfBlocked finishes it. */
  lemma SchedulerProgress(t: Task, now: Time)
    requires TaskOk(t) && !t.status.Terminal() && !AnyBusy(t.nodes)
    ensures ReadyNodes(t.nodes) != [] || Complete(t, now).status.Terminal()
  {
    if ReadyNodes(t.nodes) == [] && !AllSucceeded(t.nodes) {
      NothingReady(t.nodes);
      IdleIsSettled(t);
      var i :| 0 <= i < |t.nodes| && !t.nodes[i].status.Succeeded?;
      if t.nodes[i].status.Pending? {
        var rank :| Ranked(t.nodes, rank);
        var p := BlockedByFailure(t.nodes, rank, i);
        assert t.nodes[p[|p| - 1]] in t.nodes;
      } else {
        assert t.nodes[i] in t.nodes;
      }
    }
  }

  /** Every node the task gives up on has a failed ancestor, and nothing else has. */
  ghost predicate GivesUpOnlyOnFailure(nodes: seq<Node>) {
    forall i: nat :: i < |nodes| ==> (nodes[i].status.Cancelled? <==> HasFailedAncestor(nodes, i))
  }

  /** A failed task gives up exactly on the nodes with a failed ancestor if and only if nothing was ready when
      completeIfBlocked took its lock. */
  lemma FailureIsMaximal(t: Task, now: Time)
    requires TaskOk(t) && !t.status.Terminal() && Complete(t, now).status.TaskFailed?
    ensures GivesUpOnlyOnFailure(Complete(t, now).nodes) <==> ReadyNodes(t.nodes) == []
  {
    var nodes := Complete(t, now).nodes;
    CompleteKeeps(t, now);
    IdleIsSettled(t);
    if ReadyNodes(t.nodes) == [] {
      NothingReady(t.nodes);
      forall i: nat | i < |nodes| ensures nodes[i].status.Cancelled? <==> HasFailedAncestor(nodes, i) {
        GivenUpByFailure(t, now, i);
      }
    } else {
      ReadyNodeGivenUp(t, now);
    }
  }

  lemma ReadyNodeGivenUp(t: Task, now: Time)
    requires TaskOk(t) && !t.status.Terminal() && Complete(t, now).status.TaskFailed?
    requires ReadyNodes(t.nodes) != []
    ensures !GivesUpOnlyOnFailure(Complete(t, now).nodes)
  {
    var nodes := Complete(t, now).nodes;
    CompleteKeeps(t, now);
    ReadyNodesExact(t.nodes, 0);
    var id := ReadyNodes(t.nodes)[0];
    assert id in ReadyNodes(t.nodes);
    var i: nat :| i < |t.nodes| && t.nodes[i].id == id && Ready(t.nodes, i);
    assert SameShape(t.nodes[i], nodes[i]);
    NoFailedAncestor(nodes, i);
    assert nodes[i].status.Cancelled?;
  }

  lemma NoFailedAncestor(nodes: seq<Node>, i: nat)
    requires UniqueIds(nodes) && NodesOk(nodes) && i < |nodes| && DepSet(nodes[i]) <= Done(nodes)
    ensures !HasFailedAncestor(nodes, i)
  {
    forall p ensures !LeadsToFailure(nodes, p, i) { NothingFailedAbove(nodes, i, p); }
  }

  lemma GivenUpByFailure(t: Task, now: Time, i: nat)
    requires TaskOk(t) && Settled(t.nodes) && !t.status.Terminal() && Complete(t, now).status.TaskFailed?
    requires TaskOk(Complete(t, now)) && Evolves(t, Complete(t, now)) && i < |t.nodes|
    requires forall j :: !Ready(t.nodes, j)
    ensures var nodes := Complete(t, now).nodes; nodes[i].status.Cancelled? <==> HasFailedAncestor(nodes, i)
  {
    var nodes := Complete(t, now).nodes;
    if t.nodes[i].status.Pending? {
      var rank :| Ranked(t.nodes, rank);
      var p := BlockedByFailure(t.nodes, rank, i);
      SamePath(t.nodes, nodes, p, i);
    } else {
      NoFailedAncestor(nodes, i);
    }
  }

  lemma SamePath(nodes: seq<Node>, nodes': seq<Node>, p: seq<nat>, i: nat)
    requires SameShapes(nodes, nodes') && LeadsToFailure(nodes, p, i)
    requires forall k :: 0 <= k < |nodes| && nodes[k].status.Failed? ==> nodes'[k].status.Failed?
    ensures LeadsToFailure(nodes', p, i)
  {
    forall k | 0 <= k < |p| - 1 ensures nodes'[p[k + 1]].id in nodes'[p[k]].dependsOn {
      assert SameShape(nodes[p[k]], nodes'[p[k]]) && SameShape(nodes[p[k + 1]], nodes'[p[k + 1]]);
    }
  }
}
