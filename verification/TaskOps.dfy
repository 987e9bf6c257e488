/** What each critical section of the runner does to the persisted task
    (internal/service/pipeline/runner.go). Every function is the effect of one `withTask` body, written node by node;
    the Runner class proves its loops against them and the System module interleaves them. */
module TaskOps {
  import opened Types

  // ---------------------------------------------------------------- vocabulary

  function Ids(nodes: seq<Node>): set<NodeID> {
    set i | 0 <= i < |nodes| :: nodes[i].id
  }

  /** The IDs of the succeeded nodes. */
  function Done(nodes: seq<Node>): set<NodeID> {
    set i | 0 <= i < |nodes| && nodes[i].status.Succeeded? :: nodes[i].id
  }

  function DepSet(n: Node): set<NodeID> {
    set d | d in n.dependsOn
  }

  ghost predicate UniqueIds(nodes: seq<Node>) {
    forall i, j :: 0 <= i < j < |nodes| ==> nodes[i].id != nodes[j].id
  }

  function MapNodes(nodes: seq<Node>, f: Node -> Node): (r: seq<Node>)
    ensures |r| == |nodes| && forall i :: 0 <= i < |nodes| ==> r[i] == f(nodes[i])
  {
    seq(|nodes|, i requires 0 <= i < |nodes| => f(nodes[i]))
  }

  // ---------------------------------------------------------------- reading the task

  /** Task.Node: the first node with the ID. */
  function Find(nodes: seq<Node>, id: NodeID): (r: Option<Node>)
    ensures r.Some? ==> r.value in nodes && r.value.id == id
    ensures r.None? <==> id !in Ids(nodes)
  {
    if nodes == [] then None
    else if nodes[0].id == id then Some(nodes[0])
    else
      assert nodes == [nodes[0]] + nodes[1..];
      Find(nodes[1..], id)
  }

  predicate DependenciesSucceeded(n: Node, nodes: seq<Node>) {
    forall d <- n.dependsOn :: var m := Find(nodes, d); m.Some? && m.value.status.Succeeded?
  }

  function ReadyNodes(all: seq<Node>, from: nat := 0): seq<NodeID>
    requires from <= |all|
    decreases |all| - from
  {
    if from == |all| then []
    else (if all[from].status.Pending? && DependenciesSucceeded(all[from], all) then [all[from].id] else [])
         + ReadyNodes(all, from + 1)
  }

  function CompletedDependencies(n: Node, nodes: seq<Node>): map<NodeID, Snapshot> {
    map d | d in n.dependsOn && Find(nodes, d).Some? && Find(nodes, d).value.output.Some?
      :: Find(nodes, d).value.output.value
  }

  predicate NeedsConfirmation(n: Node) {
    n.invocation.kind == AGENT || n.id == "Inspect"
  }

  // ---------------------------------------------------------------- changing the task

  function CancelNode(n: Node, now: Time): Node {
    if n.status.Terminal() then n else n.(status := Cancelled, finishedAt := Some(now))
  }

  function Cancel(t: Task, now: Time): Task {
    t.(cancelRequested := true, status := TaskCancelled, updatedAt := now, finishedAt := Some(now),
    nodes := MapNodes(t.nodes, (n: Node) => CancelNode(n, now)))
  }

  function ResetNode(n: Node): Node {
    if n.status.Succeeded? then n
    else n.(status := Pending, attempts := 0, error := "", errorCode := "", startedAt := None, finishedAt := None,
            output := None)
  }

  function Retry(t: Task, now: Time): Result<Task, Error> {
    if !t.status.TaskFailed? then Err(TaskNotFailed)
    else Ok(t.(status := TaskPending, cancelRequested := false, finishedAt := None, updatedAt := now,
            nodes := MapNodes(t.nodes, ResetNode)))
  }

  const INTERRUPTED := "interrupted during final allowed attempt"

  function RequeueNode(n: Node, now: Time): Node {
    if !n.status.Running? then n
    else if n.attempts >= n.maxAttempts then n.(status := Failed, error := INTERRUPTED, finishedAt := Some(now))
    else n.(status := Pending, startedAt := None, finishedAt := None)
  }

  predicate AnyRunning(nodes: seq<Node>) {
    exists n <- nodes :: n.status.Running?
  }

  function Recover(t: Task, now: Time): Task {
    if t.status.Terminal() || !(AnyRunning(t.nodes) || t.status.TaskRunning?) then t
    else t.(status := TaskPending, updatedAt := now, nodes := MapNodes(t.nodes, (n: Node) => RequeueNode(n, now)))
  }

  function MarkRunning(t: Task, now: Time): Task {
    if t.status.TaskPending? && !t.cancelRequested then t.(status := TaskRunning, updatedAt := now) else t
  }

  predicate Startable(n: Node, ready: seq<NodeID>, nodes: seq<Node>) {
    n.id in ready && n.status.Pending? && DependenciesSucceeded(n, nodes)
  }

  function StartNode(n: Node, now: Time): Node {
    n.(status := Running, attempts := n.attempts + 1, startedAt := Some(now), finishedAt := None, error := "")
  }

  /** The nodes started, in the order of `ready`. */
  function Started(t: Task, ready: seq<NodeID>, now: Time): seq<Node> {
    if t.cancelRequested || t.status.Terminal() || ready == [] then []
    else
      var m := Find(t.nodes, ready[0]);
      (if m.Some? && Startable(m.value, ready, t.nodes) then [StartNode(m.value, now)] else [])
      + Started(t, ready[1..], now)
  }

  function StartNodes(t: Task, ready: seq<NodeID>, now: Time): Task {
    if Started(t, ready, now) == [] then t
    else t.(updatedAt := now,
            nodes := MapNodes(t.nodes, (n: Node) => if Startable(n, ready, t.nodes) then StartNode(n, now) else n))
  }

  function FinishNode(n: Node, outcome: Outcome, now: Time): Node {
    match outcome
    case Output(snapshot) =>
      n.(finishedAt := Some(now), output := Some(snapshot), status := Succeeded, error := "", errorCode := "")
    case Failure(message, code) =>
      if n.attempts < n.maxAttempts
      then n.(error := TrimSpace(message), errorCode := code, status := Pending, finishedAt := None)
      else n.(error := TrimSpace(message), errorCode := code, status := Failed, finishedAt := Some(now))
  }

  predicate Finishable(n: Node, id: NodeID) {
    n.id == id && (n.status.Running? || n.status.Waiting?)
  }

  function Finish(t: Task, id: NodeID, outcome: Outcome, now: Time): Task {
    if t.cancelRequested || t.status.Terminal() || (forall n <- t.nodes :: !Finishable(n, id)) then t
    else t.(updatedAt := now,
            nodes := MapNodes(t.nodes, (n: Node) => if Finishable(n, id) then FinishNode(n, outcome, now) else n))
  }

  /** setNodeWaitingConfirmation: whatever the node's and the task's status. */
  function Park(t: Task, id: NodeID, output: Snapshot, now: Time): Result<Task, Error> {
    if id !in Ids(t.nodes) then Err(NodeNotFound)
    else Ok(t.(updatedAt := now,
            nodes := MapNodes(t.nodes, (n: Node) =>
              if n.id == id then n.(status := Waiting, output := Some(output)) else n)))
  }

  function ConfirmOne(n: Node, adjusted: Option<Snapshot>, now: Time): Node {
    n.(finishedAt := Some(now), status := Succeeded,
    output := if adjusted.Some? && |adjusted.value.json| > 0 then adjusted else n.output)
  }

  function Confirm(t: Task, id: NodeID, adjusted: Option<Snapshot>, now: Time): Result<Task, Error> {
    if t.status.Terminal() || t.cancelRequested then Err(TaskAlreadyTerminal)
    else
      match Find(t.nodes, id)
      case None => Err(NodeNotFound)
      case Some(n) =>
        if !n.status.Waiting? then Err(NodeNotWaiting)
        else Ok(t.(updatedAt := now,
                   nodes := MapNodes(t.nodes, (n: Node) => if n.id == id then ConfirmOne(n, adjusted, now) else n)))
  }

  function Adjust(t: Task, id: NodeID, output: Snapshot, now: Time): Result<Task, Error> {
    if t.status.Terminal() || t.cancelRequested then Err(TaskAlreadyTerminal)
    else if id !in Ids(t.nodes) then Err(NodeNotFound)
    else Ok(t.(updatedAt := now,
               nodes := MapNodes(t.nodes, (n: Node) => if n.id == id then n.(output := Some(output)) else n)))
  }

  predicate AnyBusy(nodes: seq<Node>) {
    exists n <- nodes :: n.status.Running? || n.status.Waiting?
  }

  predicate AnyFailed(nodes: seq<Node>) {
    exists n <- nodes :: n.status.Failed?
  }

  predicate AllSucceeded(nodes: seq<Node>) {
    forall n <- nodes :: n.status.Succeeded?
  }

  function DropNode(n: Node, now: Time): Node {
    if n.status.Pending? then n.(status := Cancelled, finishedAt := Some(now)) else n
  }

  /** completeIfBlocked. */
  function Complete(t: Task, now: Time): Task {
    if t.status.Terminal() || t.cancelRequested || AnyBusy(t.nodes) then t
    else if AnyFailed(t.nodes) then
      t.(status := TaskFailed, finishedAt := Some(now), updatedAt := now,
         nodes := MapNodes(t.nodes, (n: Node) => DropNode(n, now)))
    else if AllSucceeded(t.nodes) then t.(status := TaskSucceeded, finishedAt := Some(now), updatedAt := now)
    else t
  }

  // ---------------------------------------------------------------- building the task

  function SnapshotOf(raw: string, capturedAt: Time, now: Time, valid: string -> bool): Result<Snapshot, Error> {
    var json := if raw == "" then "{}" else raw;
    if !valid(json) then Err(InvalidSubmission) else Ok(Snapshot(json, if capturedAt == 0 then now else capturedAt))
  }

  function NodeOf(spec: NodeSpec, input: Snapshot): Node {
    Node(spec.id, spec.dependsOn, spec.invocation, input, None, Pending, 0,
         if spec.maxAttempts == 0 then 1 else spec.maxAttempts, "", "", None, None)
  }

  /** The nodes of a submission, when every node input is a valid snapshot. */
  function NodesOf(specs: seq<NodeSpec>, now: Time, valid: string -> bool): (r: Result<seq<Node>, Error>)
    ensures r.Ok? ==> |r.value| == |specs| && forall i :: 0 <= i < |specs| ==>
      r.value[i] == NodeOf(specs[i], r.value[i].input)
  {
    if specs == [] then Ok([])
    else
      match SnapshotOf(specs[0].input, now, now, valid)
      case Err(e) => Err(e)
      case Ok(input) =>
        match NodesOf(specs[1..], now, valid)
        case Err(e) => Err(e)
        case Ok(rest) => Ok([NodeOf(specs[0], input)] + rest)
  }

  function NewTask(id: string, key: string, input: Snapshot, nodes: seq<Node>, confirm: bool, now: Time): Task {
    Task(id, key, input, nodes, TaskPending, confirm, false, now, now, None)
  }
}
