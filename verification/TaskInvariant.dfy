/** The invariant of a persisted task, and that every critical section keeps it. No single function of the runner
    checks it: `startNodes` never looks at the attempt budget, and `completeIfBlocked` never looks for cycles. */
module TaskInvariant {
  import opened Types
  import opened TaskOps

  // ---------------------------------------------------------------- the graph, which no step changes

  predicate SameShape(n: Node, m: Node) {
    n.id == m.id && n.dependsOn == m.dependsOn && n.invocation == m.invocation && n.input == m.input
    && n.maxAttempts == m.maxAttempts
  }

  ghost predicate SameShapes(nodes: seq<Node>, nodes': seq<Node>) {
    |nodes| == |nodes'| && forall i :: 0 <= i < |nodes| ==> SameShape(nodes[i], nodes'[i])
  }

  /** `rank` is a topological rank: every dependency exists and ranks strictly below its dependant. */
  ghost predicate Ranked(nodes: seq<Node>, rank: map<NodeID, nat>) {
    forall i :: 0 <= i < |nodes| ==>
      nodes[i].id in rank && forall d <- nodes[i].dependsOn ::
          d in rank && d in Ids(nodes) && rank[d] < rank[nodes[i].id]
  }

  /** What a validated workflow guarantees of the task built from it. */
  ghost predicate GraphOk(nodes: seq<Node>) {
    UniqueIds(nodes) && |nodes| > 0 && (exists rank :: Ranked(nodes, rank))
  }

  lemma SameIds(nodes: seq<Node>, nodes': seq<Node>)
    requires SameShapes(nodes, nodes')
    ensures Ids(nodes) == Ids(nodes')
  {
    forall i | 0 <= i < |nodes| ensures nodes[i].id in Ids(nodes') && nodes'[i].id in Ids(nodes) {
      assert nodes[i].id == nodes'[i].id;
    }
  }

  lemma GraphKept(nodes: seq<Node>, nodes': seq<Node>)
    requires GraphOk(nodes) && SameShapes(nodes, nodes')
    ensures GraphOk(nodes')
  {
    SameIds(nodes, nodes');
    var rank :| Ranked(nodes, rank);
    forall i | 0 <= i < |nodes'|
      ensures nodes'[i].id in rank
      ensures forall d <- nodes'[i].dependsOn :: d in rank && d in Ids(nodes') && rank[d] < rank[nodes'[i].id]
    {
      assert SameShape(nodes[i], nodes'[i]);
    }
    assert Ranked(nodes', rank);
  }

  // ---------------------------------------------------------------- the invariant

  ghost predicate NodeOk(n: Node, done: set<NodeID>) {
    && 1 <= n.maxAttempts
    && 0 <= n.attempts <= n.maxAttempts
    && (n.status.Pending? ==> n.attempts < n.maxAttempts && n.finishedAt.None?)
    && (n.status.Running? ==> 1 <= n.attempts && n.finishedAt.None?)
    && (n.status.Waiting? ==> 1 <= n.attempts && n.output.Some?)
    && (n.status.Succeeded? ==> 1 <= n.attempts && n.output.Some? && n.finishedAt.Some?)
    && (n.status.Failed? ==> n.attempts == n.maxAttempts && n.finishedAt.Some?)
    && (n.status.Cancelled? ==> n.finishedAt.Some?)
    && (n.status.Running? || n.status.Waiting? || n.status.Succeeded? || n.status.Failed? ==> DepSet(n) <= done)
  }

  ghost predicate StatusOk(t: Task) {
    && (t.cancelRequested <==> t.status.TaskCancelled?)
    && (t.finishedAt.Some? <==> t.status.Terminal())
    && (!t.status.Terminal() ==> forall n <- t.nodes :: !n.status.Cancelled?)
    && (t.status.TaskSucceeded? ==> AllSucceeded(t.nodes))
    && (t.status.TaskFailed? ==> AnyFailed(t.nodes) && !AnyBusy(t.nodes) && forall n <- t.nodes :: !n.status.Pending?)
    && (t.status.TaskCancelled? ==> forall n <- t.nodes :: !n.status.Pending? && !n.status.Running?)
  }

  ghost predicate NodesOk(nodes: seq<Node>) {
    forall i :: 0 <= i < |nodes| ==> NodeOk(nodes[i], Done(nodes))
  }

  ghost predicate TaskOk(t: Task) {
    GraphOk(t.nodes) && NodesOk(t.nodes) && StatusOk(t)
  }

  /** What every step keeps of a task: its identity, its graph, and every success. */
  ghost predicate Evolves(t: Task, t': Task) {
    && t'.id == t.id && t'.key == t.key && t'.input == t.input && t'.createdAt == t.createdAt
    && t'.requireConfirmation == t.requireConfirmation
    && SameShapes(t.nodes, t'.nodes)
    && Done(t.nodes) <= Done(t'.nodes)
  }

  /** What anyone but its own executor may do to a node while the executor runs. */
  ghost predicate FromOutside(n: Node, n': Node) {
    && SameShape(n, n') && n'.attempts == n.attempts
    && (|| n'.status == n.status
        || ((n.status.Running? || n.status.Pending? || n.status.Failed?)
            && (n'.status.Pending? || n'.status.Failed? || n'.status.Cancelled?))
        || (n.status.Waiting? && (n'.status.Succeeded? || n'.status.Cancelled?)))
  }

  /** The task changed, and only `own` (if any) by its own executor. */
  ghost predicate Disturbs(t: Task, t': Task, own: set<NodeID>) {
    && Evolves(t, t')
    && (t.status.TaskCancelled? ==> t'.status.TaskCancelled?)
    && (!t.status.Terminal() ==> !t'.status.TaskFailed? && !t'.status.TaskSucceeded?)
    && forall i :: 0 <= i < |t.nodes| && t.nodes[i].id !in own ==> FromOutside(t.nodes[i], t'.nodes[i])
  }

  // ---------------------------------------------------------------- the two readings of a dependency

  lemma DoneOf(nodes: seq<Node>, i: nat)
    requires UniqueIds(nodes) && i < |nodes|
    ensures nodes[i].id in Done(nodes) <==> nodes[i].status.Succeeded?
    ensures Find(nodes, nodes[i].id) == Some(nodes[i])
  {
  }

  lemma DoneGrows(nodes: seq<Node>, nodes': seq<Node>)
    requires SameShapes(nodes, nodes')
    requires forall i :: 0 <= i < |nodes| && nodes[i].status.Succeeded? ==> nodes'[i].status.Succeeded?
    ensures Done(nodes) <= Done(nodes')
  {
    forall id | id in Done(nodes) ensures id in Done(nodes') {
      var i :| 0 <= i < |nodes| && nodes[i].status.Succeeded? && nodes[i].id == id;
      assert SameShape(nodes[i], nodes'[i]);
    }
  }

  /** The runner's look-ups by first match agree with the set of succeeded IDs. */
  lemma DependenciesAreDone(n: Node, nodes: seq<Node>)
    requires UniqueIds(nodes)
    ensures DependenciesSucceeded(n, nodes) <==> DepSet(n) <= Done(nodes)
  {
    forall d | d in DepSet(n)
      ensures (var m := Find(nodes, d); m.Some? && m.value.status.Succeeded?) <==> d in Done(nodes)
    {
      var m := Find(nodes, d);
      if m.Some? {
        var i :| 0 <= i < |nodes| && nodes[i] == m.value;
        DoneOf(nodes, i);
      }
    }
    if DependenciesSucceeded(n, nodes) {
      forall d | d in DepSet(n) ensures d in Done(nodes) {
        assert d in n.dependsOn;
      }
    }
  }

  // ---------------------------------------------------------------- every step keeps it

  /** The common shape of the proofs: nodes change one by one, each into a good node, and no success is lost. */
  lemma NodesKept(t: Task, t': Task)
    requires GraphOk(t.nodes) && SameShapes(t.nodes, t'.nodes)
    requires forall i :: 0 <= i < |t.nodes| && t.nodes[i].status.Succeeded? ==> t'.nodes[i].status.Succeeded?
    requires forall i :: 0 <= i < |t.nodes| ==> NodeOk(t'.nodes[i], Done(t.nodes))
    ensures GraphOk(t'.nodes) && NodesOk(t'.nodes) && Done(t.nodes) <= Done(t'.nodes)
  {
    GraphKept(t.nodes, t'.nodes);
    DoneGrows(t.nodes, t'.nodes);
  }

  lemma CancelKeeps(t: Task, now: Time)
    requires TaskOk(t) && !t.status.Terminal()
    ensures TaskOk(Cancel(t, now)) && Disturbs(t, Cancel(t, now), {})
  {
    NodesKept(t, Cancel(t, now));
  }

  lemma RetryKeeps(t: Task, now: Time)
    requires TaskOk(t) && t.status.TaskFailed?
    ensures TaskOk(Retry(t, now).value) && Evolves(t, Retry(t, now).value)
  {
    NodesKept(t, Retry(t, now).value);
  }

  lemma RecoverKeeps(t: Task, now: Time)
    requires TaskOk(t)
    ensures TaskOk(Recover(t, now)) && Disturbs(t, Recover(t, now), {})
  {
    NodesKept(t, Recover(t, now));
  }

  lemma MarkRunningKeeps(t: Task, now: Time)
    requires TaskOk(t)
    ensures TaskOk(MarkRunning(t, now)) && Disturbs(t, MarkRunning(t, now), {})
  {
  }

  lemma StartKeeps(t: Task, ready: seq<NodeID>, now: Time)
    requires TaskOk(t)
    ensures TaskOk(StartNodes(t, ready, now)) && Evolves(t, StartNodes(t, ready, now))
  {
    if Started(t, ready, now) != [] {
      StartedOnlyIfOpen(t, ready, now);
      var t' := StartNodes(t, ready, now);
      forall i | 0 <= i < |t.nodes| ensures NodeOk(t'.nodes[i], Done(t.nodes)) {
        DependenciesAreDone(t.nodes[i], t.nodes);
      }
      NodesKept(t, t');
    }
  }

  lemma StartedOnlyIfOpen(t: Task, ready: seq<NodeID>, now: Time)
    ensures Started(t, ready, now) != [] ==> !t.cancelRequested && !t.status.Terminal()
  {
  }

  lemma FinishOneNode(n: Node, id: NodeID, outcome: Outcome, now: Time, done: set<NodeID>)
    requires NodeOk(n, done) && Finishable(n, id)
    ensures NodeOk(FinishNode(n, outcome, now), done) && SameShape(n, FinishNode(n, outcome, now))
    ensures !FinishNode(n, outcome, now).status.Cancelled?
  {
  }

  lemma FinishKeeps(t: Task, id: NodeID, outcome: Outcome, now: Time)
    requires TaskOk(t)
    ensures TaskOk(Finish(t, id, outcome, now)) && Disturbs(t, Finish(t, id, outcome, now), {id})
  {
    var t' := Finish(t, id, outcome, now);
    if t' != t {
      forall i | 0 <= i < |t.nodes|
        ensures NodeOk(t'.nodes[i], Done(t.nodes)) && SameShape(t.nodes[i], t'.nodes[i])
        ensures !t'.nodes[i].status.Cancelled?
        ensures t'.nodes[i] == t.nodes[i] || (t.nodes[i].id == id && !t.nodes[i].status.Succeeded?)
      {
        if Finishable(t.nodes[i], id) { FinishOneNode(t.nodes[i], id, outcome, now, Done(t.nodes)); }
      }
      NodesKept(t, t');
    }
  }

  /** Parking has no guard, so its caller must know that the node has not succeeded and was started. */
  lemma ParkKeeps(t: Task, id: NodeID, output: Snapshot, now: Time)
    requires TaskOk(t) && id in Ids(t.nodes) && !t.status.TaskFailed? && !t.status.TaskSucceeded?
    requires forall n <- t.nodes :: n.id == id ==> !n.status.Succeeded? && 1 <= n.attempts && DepSet(n) <= Done(t.nodes)
    ensures TaskOk(Park(t, id, output, now).value) && Disturbs(t, Park(t, id, output, now).value, {id})
  {
    NodesKept(t, Park(t, id, output, now).value);
  }

  lemma ConfirmKeeps(t: Task, id: NodeID, adjusted: Option<Snapshot>, now: Time)
    requires TaskOk(t) && Confirm(t, id, adjusted, now).Ok?
    ensures TaskOk(Confirm(t, id, adjusted, now).value) && Disturbs(t, Confirm(t, id, adjusted, now).value, {})
  {
    var t' := Confirm(t, id, adjusted, now).value;
    forall i | 0 <= i < |t.nodes|
      ensures NodeOk(t'.nodes[i], Done(t.nodes)) && FromOutside(t.nodes[i], t'.nodes[i])
      ensures t'.nodes[i] == t.nodes[i] || (t.nodes[i].status.Waiting? && t'.nodes[i].status.Succeeded?)
    {
      if t.nodes[i].id == id {
        DoneOf(t.nodes, i);
        ConfirmOneNode(t.nodes[i], adjusted, now, Done(t.nodes));
      }
    }
    NodesKept(t, t');
  }

  lemma ConfirmOneNode(n: Node, adjusted: Option<Snapshot>, now: Time, done: set<NodeID>)
    requires NodeOk(n, done) && n.status.Waiting?
    ensures NodeOk(ConfirmOne(n, adjusted, now), done) && FromOutside(n, ConfirmOne(n, adjusted, now))
  {
  }

  lemma AdjustKeeps(t: Task, id: NodeID, output: Snapshot, now: Time)
    requires TaskOk(t) && Adjust(t, id, output, now).Ok?
    ensures TaskOk(Adjust(t, id, output, now).value) && Disturbs(t, Adjust(t, id, output, now).value, {})
  {
    NodesKept(t, Adjust(t, id, output, now).value);
  }

  lemma CompleteKeeps(t: Task, now: Time)
    requires TaskOk(t)
    ensures TaskOk(Complete(t, now)) && Evolves(t, Complete(t, now))
  {
    var t' := Complete(t, now);
    NodesKept(t, t');
    if t'.status.TaskFailed? && !t.status.Terminal() {
      DropLeavesNothingPending(t, now);
    }
  }

  lemma DropLeavesNothingPending(t: Task, now: Time)
    requires TaskOk(t) && !t.status.Terminal() && Complete(t, now).status.TaskFailed?
    ensures StatusOk(Complete(t, now))
  {
    var t' := Complete(t, now);
    var i :| 0 <= i < |t.nodes| && t.nodes[i].status.Failed?;
    assert t'.nodes[i] in t'.nodes && t'.nodes[i].status.Failed?;
    forall j | 0 <= j < |t'.nodes|
      ensures !t'.nodes[j].status.Pending? && !t'.nodes[j].status.Running? && !t'.nodes[j].status.Waiting?
    {
      assert t.nodes[j] in t.nodes;
    }
  }
}
