/** The values the pipeline persists and exchanges (internal/service/pipeline/types.go).

    JSON text, timestamps and IDs are opaque: JSON is a `string`, a time is a number whose
    zero is Go's zero time, and JSON validity is a parameter of the operations that ask for it. */
module Types {
  datatype Option<+T> = None | Some(value: T)

  datatype Result<+T, +E> = Ok(value: T) | Err(error: E)

  type NodeID = string
  type Time = nat

  datatype TaskStatus = TaskPending | TaskRunning | TaskSucceeded | TaskFailed | TaskCancelled {
    predicate Terminal() { TaskSucceeded? || TaskFailed? || TaskCancelled? }
  }

  datatype NodeStatus = Pending | Running | Waiting | Succeeded | Failed | Cancelled {
    predicate Terminal() { Succeeded? || Failed? || Cancelled? }
  }

  const AGENT := "agent"
  const STEP := "step"
  const TOOL := "tool"

  datatype Invocation = Invocation(kind: string, target: string)

  datatype Snapshot = Snapshot(json: string, capturedAt: Time)

  datatype NodeSpec = NodeSpec(id: NodeID, dependsOn: seq<NodeID>, input: string, invocation: Invocation,
                               maxAttempts: int)

  datatype Workflow = Workflow(nodes: seq<NodeSpec>)

  datatype Node = Node(
    id: NodeID, dependsOn: seq<NodeID>, invocation: Invocation, input: Snapshot, output: Option<Snapshot>,
    status: NodeStatus, attempts: int, maxAttempts: int, error: string, errorCode: string,
    startedAt: Option<Time>, finishedAt: Option<Time>)

  datatype Task = Task(
    id: string, key: string, input: Snapshot, nodes: seq<Node>, status: TaskStatus, requireConfirmation: bool,
    cancelRequested: bool, createdAt: Time, updatedAt: Time, finishedAt: Option<Time>)

  datatype Submission = Submission(key: string, input: Snapshot, workflow: Workflow, requireConfirmation: bool)

  /** The errors the package declares, and the two unnamed ones of the confirmation calls. */
  datatype Error =
    | TaskNotFound | InvalidWorkflow | InvalidSubmission | IdempotencyConflict | TaskNotFailed
    | TaskAlreadyTerminal | NodeNotWaiting | NodeNotFound

  /** What one invocation of a node returned: a snapshot, or an error text with its optional code. */
  datatype Outcome = Output(snapshot: Snapshot) | Failure(message: string, code: string)

  /** unicode.IsSpace, which strings.TrimSpace strips. */
  predicate IsSpace(c: char) {
    c in {'\t', '\n', '\U{0B}', '\U{0C}', '\r', ' ', '\U{85}', '\U{A0}', '\U{1680}', '\U{2028}', '\U{2029}', '\U{202F}',
          '\U{205F}', '\U{3000}'}
    || '\U{2000}' <= c <= '\U{200A}'
  }

  /** strings.TrimSpace. */
  function TrimSpace(s: string): (r: string)
    ensures r == "" <==> forall i :: 0 <= i < |s| ==> IsSpace(s[i])
    ensures r != "" ==> !IsSpace(r[0]) && !IsSpace(r[|r| - 1])
    decreases |s|
  {
    if s == "" then ""
    else if IsSpace(s[0]) then TrimSpace(s[1..])
    else if IsSpace(s[|s| - 1]) then TrimSpace(s[..|s| - 1])
    else s
  }

  ghost predicate AllSpace(s: string) {
    forall c <- s :: IsSpace(c)
  }

  lemma TrimFront(s: string)
    requires s != "" && IsSpace(s[0])
    ensures TrimSpace(s) == TrimSpace(s[1..])
  {
  }

  lemma TrimBack(s: string)
    requires s != "" && !IsSpace(s[0]) && IsSpace(s[|s| - 1])
    ensures TrimSpace(s) == TrimSpace(s[..|s| - 1])
  {
  }

  lemma OneMoreSpace(c: char, s: string)
    requires IsSpace(c) && AllSpace(s)
    ensures AllSpace([c] + s) && AllSpace(s + [c])
  {
  }

  lemma NothingToTrim(s: string)
    requires s == "" || (!IsSpace(s[0]) && !IsSpace(s[|s| - 1]))
    ensures TrimSpace(s) == s && s == "" + s + ""
  {
  }

  lemma Regrouped(c: string, a: string, t: string, b: string, d: string)
    ensures c + (a + t + b) == (c + a) + t + b && (a + t + b) + d == a + t + (b + d)
  {
  }

  /** It takes space off both ends and nothing else. */
  lemma {:induction false} TrimIsMiddle(s: string) returns (before: string, after: string)
    ensures s == before + TrimSpace(s) + after && AllSpace(before) && AllSpace(after)
    decreases |s|
  {
    if s != "" && IsSpace(s[0]) {
      before, after := TrimIsMiddle(s[1..]);
      TrimFront(s);
      OneMoreSpace(s[0], before);
      assert s == [s[0]] + s[1..];
      Regrouped([s[0]], before, TrimSpace(s), after, "");
      before := [s[0]] + before;
    } else if s != "" && IsSpace(s[|s| - 1]) {
      before, after := TrimIsMiddle(s[..|s| - 1]);
      TrimBack(s);
      OneMoreSpace(s[|s| - 1], after);
      assert s == s[..|s| - 1] + [s[|s| - 1]];
      Regrouped("", before, TrimSpace(s), after, [s[|s| - 1]]);
      after := after + [s[|s| - 1]];
    } else {
      before, after := "", "";
      NothingToTrim(s);
    }
  }
}
