/** What the critical sections store: whose output, whose error, and that nothing else is touched. The invariant of
    TaskInvariant admits a node with any output; here the output is the one that was returned, confirmed or adjusted. */
module Contents {
  import opened Types
  import opened TaskOps
  import opened TaskInvariant
  import opened Progress
  import opened Submissions
  import opened Validate

  // ---------------------------------------------------------------- completions

  /** The node took up what its invocation returned. */
  ghost predicate Records(n: Node, n': Node, outcome: Outcome, now: Time) {
    && SameShape(n, n') && n'.attempts == n.attempts && n'.startedAt == n.startedAt
    && match outcome
       case Output(snapshot) =>
         && n'.status.Succeeded? && n'.output == Some(snapshot) && n'.finishedAt == Some(now)
         && n'.error == "" && n'.errorCode == ""
       case Failure(message, code) =>
         && n'.output == n.output && n'.error == TrimSpace(message) && n'.errorCode == code
         && (if n.attempts < n.maxAttempts then n'.status.Pending? && n'.finishedAt.None?
             else n'.status.Failed? && n'.finishedAt == Some(now))
  }

  /** All nodes but the one at `i` are as they were. */
  ghost predicate OnlyAt(nodes: seq<Node>, nodes': seq<Node>, i: nat) {
    |nodes'| == |nodes| && forall j :: 0 <= j < |nodes| && j != i ==> nodes'[j] == nodes[j]
  }

  /** The output a completion stores is the one the invocation returned, the error is its error, and no other node is
      touched. */
  lemma FinishStores(t: Task, id: NodeID, outcome: Outcome, now: Time, i: nat)
    requires UniqueIds(t.nodes) && !t.cancelRequested && !t.status.Terminal()
    requires i < |t.nodes| && t.nodes[i].id == id && (t.nodes[i].status.Running? || t.nodes[i].status.Waiting?)
    ensures var t' := Finish(t, id, outcome, now);
      && OnlyAt(t.nodes, t'.nodes, i) && Records(t.nodes[i], t'.nodes[i], outcome, now)
      && t'.updatedAt == now && t' == t.(nodes := t'.nodes, updatedAt := now)
  {
    assert t.nodes[i] in t.nodes;
  }

  /** A parked node holds the output its invocation returned, for the human to look at. */
  lemma ParkStores(t: Task, id: NodeID, output: Snapshot, now: Time, i: nat)
    requires UniqueIds(t.nodes) && i < |t.nodes| && t.nodes[i].id == id
    ensures Park(t, id, output, now).Ok?
    ensures var t' := Park(t, id, output, now).value;
      && OnlyAt(t.nodes, t'.nodes, i) && t' == t.(nodes := t'.nodes, updatedAt := now)
      && t'.nodes[i].status.Waiting? && t'.nodes[i].output == Some(output)
      && t'.nodes[i] == t.nodes[i].(status := Waiting, output := t'.nodes[i].output)
  {
    assert t.nodes[i].id in Ids(t.nodes);
  }

  // ---------------------------------------------------------------- the human's word

  /** Confirmation is accepted exactly for a waiting node of an unfinished task, and the error names the first
      reason. */
  lemma ConfirmAccepts(t: Task, id: NodeID, adjusted: Option<Snapshot>, now: Time)
    requires UniqueIds(t.nodes)
    ensures var r, over := Confirm(t, id, adjusted, now), t.status.Terminal() || t.cancelRequested;
      && (r == Err(TaskAlreadyTerminal) <==> over)
      && (r == Err(NodeNotFound) <==> !over && id !in Ids(t.nodes))
      && (r == Err(NodeNotWaiting) <==>
            !over && id in Ids(t.nodes) && !exists n <- t.nodes :: n.id == id && n.status.Waiting?)
      && (r.Ok? <==> !over && exists n <- t.nodes :: n.id == id && n.status.Waiting?)
  {
    if id in Ids(t.nodes) {
      var i :| 0 <= i < |t.nodes| && t.nodes[i].id == id;
      DoneOf(t.nodes, i);
      assert t.nodes[i] in t.nodes;
      forall n <- t.nodes | n.id == id ensures n == t.nodes[i] {
        var j :| 0 <= j < |t.nodes| && t.nodes[j] == n;
        assert j == i;
      }
    }
  }

  /** A confirmation stores the adjusted output if it has one and otherwise keeps the one the human saw. */
  lemma ConfirmStores(t: Task, id: NodeID, adjusted: Option<Snapshot>, now: Time, i: nat)
    requires UniqueIds(t.nodes) && Confirm(t, id, adjusted, now).Ok? && i < |t.nodes| && t.nodes[i].id == id
    ensures var t' := Confirm(t, id, adjusted, now).value;
      && OnlyAt(t.nodes, t'.nodes, i) && t' == t.(nodes := t'.nodes, updatedAt := now)
      && t'.nodes[i].status.Succeeded? && t'.nodes[i].finishedAt == Some(now)
      && (adjusted.Some? && adjusted.value.json != "" ==> t'.nodes[i].output == adjusted)
      && (adjusted.None? || adjusted.value.json == "" ==> t'.nodes[i].output == t.nodes[i].output)
      && SameShape(t.nodes[i], t'.nodes[i]) && t'.nodes[i].attempts == t.nodes[i].attempts
      && t'.nodes[i].error == t.nodes[i].error && t'.nodes[i].errorCode == t.nodes[i].errorCode
  {
    assert adjusted.Some? ==> (|adjusted.value.json| > 0 <==> adjusted.value.json != "");
  }

  /** An adjustment replaces the output of one node, whatever its status, and nothing else of it. */
  lemma AdjustStores(t: Task, id: NodeID, output: Snapshot, now: Time, i: nat)
    requires UniqueIds(t.nodes) && Adjust(t, id, output, now).Ok? && i < |t.nodes| && t.nodes[i].id == id
    ensures var t' := Adjust(t, id, output, now).value;
      && OnlyAt(t.nodes, t'.nodes, i) && t' == t.(nodes := t'.nodes, updatedAt := now)
      && t'.nodes[i].output == Some(output) && t'.nodes[i].(output := None) == t.nodes[i].(output := None)
  {
  }

  // ---------------------------------------------------------------- the ends of a task

  /** Cancelling leaves no node open, waiting ones included, and takes nothing away: a node that had ended is as it was,
      and any other keeps its output, its error and its attempts. */
  lemma CancelEnds(t: Task, now: Time)
    ensures var t' := Cancel(t, now);
      && t'.status.TaskCancelled? && t'.cancelRequested && t'.finishedAt == Some(now) && |t'.nodes| == |t.nodes|
      && forall i :: 0 <= i < |t.nodes| ==>
           && t'.nodes[i].status.Terminal()
           && (t.nodes[i].status.Terminal() ==> t'.nodes[i] == t.nodes[i])
           && (!t.nodes[i].status.Terminal() ==>
                 && t'.nodes[i].status.Cancelled? && t'.nodes[i].finishedAt == Some(now)
                 && t'.nodes[i].output == t.nodes[i].output && t'.nodes[i].error == t.nodes[i].error
                 && t'.nodes[i].attempts == t.nodes[i].attempts && SameShape(t.nodes[i], t'.nodes[i]))
  {
  }

  /** Settling gives up exactly the pending nodes, and every other node is as it was, whichever way the task ends. */
  lemma CompleteGivesUpPending(t: Task, now: Time, i: nat)
    requires i < |t.nodes| && Complete(t, now) != t
    ensures var t', n' := Complete(t, now), Complete(t, now).nodes[i];
      && t'.finishedAt == Some(now) && (t'.status.TaskFailed? <==> AnyFailed(t.nodes))
      && (t'.status.TaskSucceeded? <==> !AnyFailed(t.nodes) && AllSucceeded(t.nodes))
      && (!t.nodes[i].status.Pending? ==> n' == t.nodes[i])
      && (t.nodes[i].status.Pending? ==>
            n'.status.Cancelled? && n'.finishedAt == Some(now) && n'.output == t.nodes[i].output
            && n'.error == t.nodes[i].error && n'.attempts == t.nodes[i].attempts && SameShape(t.nodes[i], n'))
  {
    if AllSucceeded(t.nodes) { assert t.nodes[i] in t.nodes; }
  }

  /** A node no attempt has been made at. */
  predicate Untried(n: Node) {
    n.status.Pending? && n.attempts == 0 && n.output.None? && n.error == "" && n.errorCode == ""
    && n.startedAt.None? && n.finishedAt.None?
  }

  /** A retry keeps every success as it is and starts every other node over, with its whole budget and nothing left of
      its earlier attempts. */
  lemma RetryStartsOver(t: Task, now: Time)
    requires t.status.TaskFailed?
    ensures Retry(t, now).Ok?
    ensures var t' := Retry(t, now).value;
      && t'.status.TaskPending? && !t'.cancelRequested && t'.finishedAt.None? && t'.input == t.input
      && |t'.nodes| == |t.nodes|
      && forall i :: 0 <= i < |t.nodes| ==>
           if t.nodes[i].status.Succeeded? then t'.nodes[i] == t.nodes[i]
           else Untried(t'.nodes[i]) && SameShape(t.nodes[i], t'.nodes[i])
  {
  }

  /** Recovery touches running nodes only: with attempts left they are pending again, otherwise they have failed with
      the fixed text; attempts and outputs stay. */
  lemma RecoverTouchesRunning(t: Task, now: Time, i: nat)
    requires i < |t.nodes| && !t.status.Terminal()
    ensures var n, n' := t.nodes[i], Recover(t, now).nodes[i];
      && (!n.status.Running? ==> n' == n)
      && (n.status.Running? ==>
            && SameShape(n, n') && n'.attempts == n.attempts && n'.output == n.output
            && (n.attempts < n.maxAttempts ==> n'.status.Pending? && n'.startedAt.None? && n'.finishedAt.None?)
            && (n.attempts >= n.maxAttempts ==>
                  && n'.status.Failed? && n'.finishedAt == Some(now)
                  && n'.error == "interrupted during final allowed attempt"))
    ensures t.status.TaskRunning? || t.nodes[i].status.Running? ==> Recover(t, now).status.TaskPending?
  {
    if t.nodes[i].status.Running? { assert t.nodes[i] in t.nodes; }
  }

  /** An adjustment is accepted exactly for a node of an unfinished task, and a retry exactly of a failed task. */
  lemma AdjustAccepts(t: Task, id: NodeID, output: Snapshot, now: Time)
    ensures var r, over := Adjust(t, id, output, now), t.status.Terminal() || t.cancelRequested;
      && (r == Err(TaskAlreadyTerminal) <==> over) && (r == Err(NodeNotFound) <==> !over && id !in Ids(t.nodes))
      && (r.Ok? <==> !over && id in Ids(t.nodes))
    ensures Retry(t, now) == Err(TaskNotFailed) <==> !t.status.TaskFailed?
    ensures Park(t, id, output, now) == Err(NodeNotFound) <==> id !in Ids(t.nodes)
  {
  }

  /** A started node has one more attempt behind it, a new starting time and no error; its output and its error code are
      those of the attempt before. A node that is not started is as it was. */
  lemma StartCounts(t: Task, ready: seq<NodeID>, now: Time, i: nat)
    requires i < |t.nodes| && StartNodes(t, ready, now).nodes[i] != t.nodes[i]
    ensures var n, n' := t.nodes[i], StartNodes(t, ready, now).nodes[i];
      && n.status.Pending? && n'.status.Running? && n'.attempts == n.attempts + 1
      && n'.startedAt == Some(now) && n'.finishedAt.None? && n'.error == ""
      && SameShape(n, n') && n'.output == n.output && n'.errorCode == n.errorCode
  {
  }

  // ---------------------------------------------------------------- submissions

  /** The snapshot of a submitted text: the text itself, or the empty object for none, and always valid. */
  ghost predicate Snaps(raw: string, capturedAt: Time, now: Time, valid: string -> bool, s: Snapshot) {
    && s.json == (if raw == "" then "{}" else raw) && valid(s.json)
    && s.capturedAt == (if capturedAt == 0 then now else capturedAt)
  }

  lemma InputSnaps(raw: string, now: Time, valid: string -> bool)
    requires SnapshotOf(raw, now, now, valid).Ok?
    ensures Snaps(raw, now, now, valid, SnapshotOf(raw, now, now, valid).value)
  {
  }

  /** One turn of the loop: the first spec's input is taken, the rest follow. */
  lemma NodesOfStep(specs: seq<NodeSpec>, now: Time, valid: string -> bool, i: nat)
    requires NodesOf(specs, now, valid).Ok? && i < |specs|
    ensures NodesOf(specs[1..], now, valid).Ok? && SnapshotOf(specs[0].input, now, now, valid).Ok?
    ensures i == 0 ==> NodesOf(specs, now, valid).value[0].input == SnapshotOf(specs[0].input, now, now, valid).value
    ensures i > 0 ==> NodesOf(specs, now, valid).value[i] == NodesOf(specs[1..], now, valid).value[i - 1]
  {
  }

  lemma {:induction false} NodeInputsSnap(specs: seq<NodeSpec>, now: Time, valid: string -> bool, i: nat)
    requires NodesOf(specs, now, valid).Ok? && i < |specs|
    ensures Snaps(specs[i].input, now, now, valid, NodesOf(specs, now, valid).value[i].input)
    decreases |specs|
  {
    NodesOfStep(specs, now, valid, i);
    if i == 0 {
      InputSnaps(specs[0].input, now, valid);
    } else {
      NodeInputsSnap(specs[1..], now, valid, i - 1);
      assert specs[1..][i - 1] == specs[i];
    }
  }

  /** A drafted node says what its spec says, with one attempt where the spec asks for none, and nothing more. */
  ghost predicate DraftedFrom(n: Node, spec: NodeSpec, now: Time, valid: string -> bool) {
    && n.id == spec.id && n.dependsOn == spec.dependsOn && n.invocation == spec.invocation
    && (spec.maxAttempts == 0 ==> n.maxAttempts == 1) && (spec.maxAttempts != 0 ==> n.maxAttempts == spec.maxAttempts)
    && Snaps(spec.input, now, now, valid, n.input) && Untried(n)
  }

  /** The task a submission is turned into carries the submission: its key without surrounding space, its input, its
      demand for confirmation, and node for node its workflow. */
  lemma DraftKeepsSubmission(s: Submission, id: string, now: Time, valid: string -> bool, t: Task)
    requires Draft(s, id, now, valid) == Ok(t)
    ensures t.id == id && t.key == TrimSpace(s.key) && t.key != "" && t.requireConfirmation == s.requireConfirmation
    ensures Snaps(s.input.json, s.input.capturedAt, now, valid, t.input)
    ensures t.status.TaskPending? && !t.cancelRequested && t.finishedAt.None? && t.createdAt == now == t.updatedAt
    ensures |t.nodes| == |s.workflow.nodes|
    ensures forall i :: 0 <= i < |t.nodes| ==> DraftedFrom(t.nodes[i], s.workflow.nodes[i], now, valid)
  {
    forall i: nat | i < |t.nodes| ensures DraftedFrom(t.nodes[i], s.workflow.nodes[i], now, valid) {
      NodeInputsSnap(s.workflow.nodes, now, valid, i);
    }
  }

  /** The text taken for a submitted one. */
  function TextOf(raw: string): string {
    if raw == "" then "{}" else raw
  }

  lemma {:induction false} NodesAccepted(specs: seq<NodeSpec>, now: Time, valid: string -> bool)
    ensures NodesOf(specs, now, valid).Ok? <==> forall i :: 0 <= i < |specs| ==> valid(TextOf(specs[i].input))
    ensures NodesOf(specs, now, valid).Err? ==> NodesOf(specs, now, valid).error == InvalidSubmission
    decreases |specs|
  {
    if specs != [] {
      NodesAccepted(specs[1..], now, valid);
      assert forall i :: 0 < i < |specs| ==> specs[i] == specs[1..][i - 1];
      assert forall i :: 0 <= i < |specs[1..]| ==> specs[1..][i] == specs[i + 1];
    }
  }

  /** A submission is accepted exactly if its key is not blank, its workflow is well-formed and acyclic, and every text
      in it is valid JSON; a fault of the workflow is reported before one of a text, a blank key before both. */
  lemma DraftAccepts(s: Submission, id: string, now: Time, valid: string -> bool)
    ensures var r, sound := Draft(s, id, now, valid), WellFormed(s.workflow, valid) && Acyclic(s.workflow.nodes);
      && (r.Ok? <==>
            && TrimSpace(s.key) != "" && sound && valid(TextOf(s.input.json))
            && forall i :: 0 <= i < |s.workflow.nodes| ==> valid(TextOf(s.workflow.nodes[i].input)))
      && (r == Err(InvalidWorkflow) <==> TrimSpace(s.key) != "" && !sound)
      && (r.Err? ==> r.error.InvalidWorkflow? || r.error.InvalidSubmission?)
  {
    NodesAccepted(s.workflow.nodes, now, valid);
  }

  /** What the checks are good for: every node of a drafted task has a name, a kind that can be invoked and a target,
      its dependencies are other nodes of the task, each named once, and it has at least one attempt. */
  lemma DraftedTasksAreSound(s: Submission, id: string, now: Time, valid: string -> bool, t: Task, i: nat)
    requires Draft(s, id, now, valid) == Ok(t) && i < |t.nodes|
    ensures var n := t.nodes[i];
      && TrimSpace(n.id) != "" && TrimSpace(n.invocation.target) != "" && n.maxAttempts >= 1
      && (n.invocation.kind == "agent" || n.invocation.kind == "step" || n.invocation.kind == "tool")
      && (forall d <- n.dependsOn :: d != n.id && d in Ids(t.nodes))
      && (forall j, k :: 0 <= j < k < |n.dependsOn| ==> n.dependsOn[j] != n.dependsOn[k])
      && (forall j :: 0 <= j < |t.nodes| && j != i ==> t.nodes[j].id != n.id)
  {
    var specs := s.workflow.nodes;
    DraftKeepsSubmission(s, id, now, valid, t);
    assert DraftedFrom(t.nodes[i], specs[i], now, valid) && specs[i] in specs;
    forall j: nat | j < |t.nodes| ensures t.nodes[j].id == specs[j].id {
      assert DraftedFrom(t.nodes[j], specs[j], now, valid);
    }
    forall d <- t.nodes[i].dependsOn ensures d in Ids(t.nodes) {
      var j: nat :| j < |specs| && specs[j].id == d;
      assert t.nodes[j].id == d;
    }
  }

  // ---------------------------------------------------------------- inputs of an invocation

  /** What a node is handed for a dependency is the output stored there. */
  lemma InputsAreOutputs(n: Node, nodes: seq<Node>, i: nat)
    requires UniqueIds(nodes) && i < |nodes| && nodes[i].id in n.dependsOn
    ensures nodes[i].output.Some? <==> nodes[i].id in CompletedDependencies(n, nodes)
    ensures nodes[i].output.Some? ==> CompletedDependencies(n, nodes)[nodes[i].id] == nodes[i].output.value
  {
    DoneOf(nodes, i);
  }
}
