/** Idempotent submission over histories (internal/service/pipeline/repository.go, runner.go): the task table and the
    key index as values, and what any sequence of submissions and other operations is answered. */
module Submissions {
  import opened Types
  import opened TaskOps
  import opened TaskInvariant
  import opened Repository
  import opened Validate
  import System

  /** No operation on a stored task touches its ID, its key, its input or the IDs of its nodes. */
  ghost predicate SameIdentity(t: Task, v: Task) {
    && v.id == t.id && v.key == t.key && v.input == t.input && |v.nodes| == |t.nodes|
    && forall i :: 0 <= i < |t.nodes| ==> v.nodes[i].id == t.nodes[i].id
  }

  datatype Store = Store(tasks: map<string, Task>, byKey: map<string, string>)

  datatype Answer = Created(id: string) | Existing(id: string) | Conflict

  /** CreateIfAbsent on values. */
  function Create(s: Store, v: Task): (r: (Store, Answer))
    requires v.key in s.byKey ==> s.byKey[v.key] in s.tasks
  {
    if v.key !in s.byKey then (Store(s.tasks[v.id := v], s.byKey[v.key := v.id]), Created(v.id))
    else if s.tasks[s.byKey[v.key]].input.json == v.input.json then (s, Existing(s.byKey[v.key]))
    else (s, Conflict)
  }

  // ---------------------------------------------------------------- the task a submission asks for

  /** What Submit puts before the repository, or the error it returns first. */
  ghost function Draft(s: Submission, id: string, now: Time, valid: string -> bool): Result<Task, Error> {
    var key := TrimSpace(s.key);
    if key == "" then Err(InvalidSubmission)
    else if !WellFormed(s.workflow, valid) || !Acyclic(s.workflow.nodes) then Err(InvalidWorkflow)
    else
      match SnapshotOf(s.input.json, s.input.capturedAt, now, valid)
      case Err(e) => Err(e)
      case Ok(input) =>
        match NodesOf(s.workflow.nodes, now, valid)
        case Err(e) => Err(e)
        case Ok(nodes) => Ok(NewTask(id, key, input, nodes, s.requireConfirmation, now))
  }

  /** A task that Submit creates is one the state machine may start from. */
  lemma DraftsStartTheMachine(s: Submission, id: string, now: Time, valid: string -> bool, nextId: nat)
    requires Draft(s, id, now, valid).Ok?
    ensures var t := Draft(s, id, now, valid).value;
            && GraphOk(t.nodes) && UniqueIds(t.nodes)
            && System.Initial(System.State(t, None, map[], multiset{System.ToStart}, map[], {}, nextId))
  {
    var t := Draft(s, id, now, valid).value;
    ValidatedGraphIsOk(s.workflow, valid, t.nodes);
  }

  // ---------------------------------------------------------------- histories

  /** A submission that drew a new ID, or any other operation that stored a new version of a task. */
  datatype Event = Submitted(v: Task) | Rewritten(v: Task)

  ghost predicate Allowed(s: Store, e: Event) {
    match e
    case Submitted(v) => v.id !in s.tasks
    case Rewritten(v) => v.id in s.tasks && SameIdentity(s.tasks[v.id], v)
  }

  function After(s: Store, e: Event): Store
    requires forall key <- s.byKey :: s.byKey[key] in s.tasks
  {
    match e
    case Submitted(v) => Create(s, v).0
    case Rewritten(v) => s.(tasks := s.tasks[v.id := v])
  }

  lemma StaysConsistent(s: Store, e: Event)
    requires Consistent(s.tasks, s.byKey) && Allowed(s, e)
    ensures Consistent(After(s, e).tasks, After(s, e).byKey)
  {
  }

  ghost predicate History(s: Store, events: seq<Event>)
    decreases |events|
  {
    && Consistent(s.tasks, s.byKey)
    && (events != [] ==> Allowed(s, events[0]) && History(After(s, events[0]), events[1..]))
  }

  /** The state before event `k`. */
  ghost function Before(s: Store, events: seq<Event>, k: nat): Store
    requires History(s, events) && k <= |events|
    ensures Consistent(Before(s, events, k).tasks, Before(s, events, k).byKey)
    decreases k
  {
    if k == 0 then s else Before(After(s, events[0]), events[1..], k - 1)
  }

  /** What submission `k` is answered. */
  ghost function AnswerTo(s: Store, events: seq<Event>, k: nat): Answer
    requires History(s, events) && k < |events| && events[k].Submitted?
  {
    Create(Before(s, events, k), events[k].v).1
  }

  ghost predicate Bound(s: Store, key: string, id: string, json: string) {
    key in s.byKey && s.byKey[key] == id && id in s.tasks && s.tasks[id].input.json == json
  }

  lemma {:induction false} BoundForever(s: Store, events: seq<Event>, k: nat, key: string, id: string, json: string)
    requires History(s, events) && k <= |events| && Bound(s, key, id, json)
    ensures Bound(Before(s, events, k), key, id, json)
    decreases k
  {
    if k > 0 { BoundForever(After(s, events[0]), events[1..], k - 1, key, id, json); }
  }

  lemma {:induction false} UnboundUntil(s: Store, events: seq<Event>, k: nat, key: string)
    requires History(s, events) && k <= |events| && key !in s.byKey
    requires forall j :: 0 <= j < k && events[j].Submitted? ==> events[j].v.key != key
    ensures key !in Before(s, events, k).byKey
    decreases k
  {
    if k > 0 { UnboundUntil(After(s, events[0]), events[1..], k - 1, key); }
  }

  lemma {:induction false} BeforeStep(s: Store, events: seq<Event>, k: nat)
    requires History(s, events) && k < |events|
    ensures Before(s, events, k + 1) == After(Before(s, events, k), events[k])
    decreases k
  {
    if k > 0 { BeforeStep(After(s, events[0]), events[1..], k - 1); }
  }

  lemma {:induction false} BeforeSplits(s: Store, events: seq<Event>, j: nat, k: nat)
    requires History(s, events) && j <= k <= |events|
    ensures History(Before(s, events, j), events[j..])
    ensures Before(s, events, k) == Before(Before(s, events, j), events[j..], k - j)
    decreases j
  {
    if j > 0 {
      BeforeSplits(After(s, events[0]), events[1..], j - 1, k - 1);
      assert events[1..][j - 1..] == events[j..];
    }
  }

  /** Over any history the first submission of a key creates, every later one with the same input is answered with
      the same task and creates nothing, and every later one with another input conflicts. */
  lemma IdempotentSubmission(s: Store, events: seq<Event>, first: nat, k: nat)
    requires History(s, events) && first < k < |events| && events[first].Submitted? && events[k].Submitted?
    requires events[first].v.key == events[k].v.key && events[k].v.key !in s.byKey
    requires forall j :: 0 <= j < first && events[j].Submitted? ==> events[j].v.key != events[first].v.key
    ensures AnswerTo(s, events, first) == Created(events[first].v.id)
    ensures AnswerTo(s, events, k) == if events[k].v.input.json == events[first].v.input.json
                                      then Existing(events[first].v.id) else Conflict
    ensures Before(s, events, k + 1) == Before(s, events, k)
  {
    var v := events[first].v;
    UnboundUntil(s, events, first, v.key);
    BeforeStep(s, events, first);
    BeforeSplits(s, events, first + 1, k);
    BoundForever(Before(s, events, first + 1), events[first + 1..], k - first - 1, v.key, v.id, v.input.json);
    BeforeStep(s, events, k);
  }
}
