/** Runner (internal/service/pipeline/runner.go): every critical section as a method that loads a copy of the task,
    rewrites it in place and stores it, against the functions of TaskOps. An operation that returns an error leaves
    the repository as it was. */
module Runner {
  import opened Types
  import opened TaskOps
  import opened Repository
  import opened NodeLoops
  import opened Submissions
  import Progress
  import Validate

  /** Submit up to the repository: checks, snapshots and nodes. */
  method BuildTask(s: Submission, id: string, now: Time, valid: string -> bool)
    returns (r: Result<HeapTask, Error>, ghost own: set<object>)
    ensures fresh(own)
    ensures match Draft(s, id, now, valid) case Err(e) => r == Err(e) case Ok(v) => r.Ok? && TaskIs(own, r.value, v)
  {
    own := {};
    var key := TrimSpace(s.key);
    if key == "" {
      return Err(InvalidSubmission), own;
    }
    var defect := Validate.Validate(s.workflow, valid);
    if defect.Some? {
      return Err(InvalidWorkflow), own;
    }
    var built;
    built, own := BuildParts(s.input, s.workflow.nodes, now, valid);
    if built.Err? {
      return Err(built.error), own;
    }
    var (input, nodes) := built.value;
    return Ok(HeapTask(id, key, input, nodes, TaskPending, s.requireConfirmation, false, now, now, None)), own;
  }

  /** The input snapshot and the nodes. */
  method BuildParts(input: Snapshot, specs: seq<NodeSpec>, now: Time, valid: string -> bool)
    returns (r: Result<(HeapSnapshot, array<HeapNode>), Error>, ghost own: set<object>)
    ensures fresh(own)
    ensures match SnapshotOf(input.json, input.capturedAt, now, valid)
            case Err(e) => r == Err(e)
            case Ok(i) =>
              match NodesOf(specs, now, valid)
              case Err(e) => r == Err(e)
              case Ok(v) => r.Ok? && SnapshotIs(own, r.value.0, i) && NodesAre(own, r.value.1, v)
  {
    own := {};
    var snapshot := NewSnapshot(input.json, input.capturedAt, now, valid);
    if snapshot.Err? {
      return Err(snapshot.error), own;
    }
    var nodes;
    nodes, own := BuildNodes(specs, now, valid);
    if nodes.Err? {
      return Err(nodes.error), own;
    }
    own := own + {snapshot.value.json};
    return Ok((snapshot.value, nodes.value)), own;
  }

  // ---------------------------------------------------------------- the closures passed to withTask

  method RetryOperation(task: HeapTask, now: Time, ghost own: set<object>, ghost t: Task)
    returns (r: Result<HeapTask, Error>)
    requires TaskIs(own, task, t)
    modifies task.nodes
    ensures match TaskOps.Retry(t, now)
            case Err(e) => r == Err(e)
            case Ok(v) => r.Ok? && TaskIs(own, r.value, v) && SameIdentity(t, v)
  {
    if !task.status.TaskFailed? {
      return Err(TaskNotFailed);
    }
    ResetNodes(task.nodes, own, t.nodes, TaskOps.Retry(t, now).value.nodes);
    return Ok(task.(status := TaskPending, cancelRequested := false, finishedAt := None, updatedAt := now));
  }

  method ConfirmOperation(task: HeapTask, id: NodeID, adjusted: Option<HeapSnapshot>, now: Time, ghost own: set<object>,
                          ghost t: Task, ghost given: set<object>, ghost a: Option<Snapshot>)
    returns (r: Result<HeapTask, Error>, ghost more: set<object>)
    requires TaskIs(own, task, t) && UniqueIds(t.nodes) && OutputIs(given, adjusted, a)
    modifies task.nodes
    ensures match TaskOps.Confirm(t, id, a, now)
            case Err(e) => r == Err(e)
            case Ok(v) => r.Ok? && TaskIs(more, r.value, v) && SameIdentity(t, v)
  {
    more := own;
    if task.status.Terminal() || task.cancelRequested {
      return Err(TaskAlreadyTerminal), more;
    }
    ghost var w := MapNodes(t.nodes, (n: Node) => if n.id == id then ConfirmOne(n, a, now) else n);
    var error;
    error, more := ConfirmAt(task.nodes, id, adjusted, now, own, t.nodes, w, given, a);
    if error.Some? {
      return Err(error.value), more;
    }
    return Ok(task.(updatedAt := now)), more;
  }

  method StartOperation(task: HeapTask, ready: seq<NodeID>, now: Time, ghost own: set<object>, ghost t: Task)
    returns (task': HeapTask, started: seq<HeapNode>, ghost copies: set<object>)
    requires TaskIs(own, task, t) && UniqueIds(t.nodes) && Progress.Distinct(ready)
    modifies task.nodes
    ensures TaskIs(own, task', TaskOps.StartNodes(t, ready, now)) && SameIdentity(t, TaskOps.StartNodes(t, ready, now))
    ensures fresh(copies) && CopiesAre(copies, started, Started(t, ready, now))
  {
    task', started, copies := task, [], {};
    if !task.cancelRequested && !task.status.Terminal() {
      started, copies := StartReady(task.nodes, ready, now, own, t);
      if |started| > 0 {
        task' := task.(updatedAt := now);
      }
    }
  }

  method FinishOperation(task: HeapTask, id: NodeID, outcome: HeapOutcome, now: Time, ghost own: set<object>,
                         ghost t: Task, ghost given: set<object>, ghost o: Outcome)
    returns (task': HeapTask, ghost more: set<object>)
    requires TaskIs(own, task, t) && UniqueIds(t.nodes) && OutcomeIs(given, outcome, o)
    modifies task.nodes
    ensures TaskIs(more, task', TaskOps.Finish(t, id, o, now)) && SameIdentity(t, TaskOps.Finish(t, id, o, now))
  {
    task', more := task, own;
    if !task.cancelRequested && !task.status.Terminal() {
      ghost var w := MapNodes(t.nodes, (n: Node) => if Finishable(n, id) then TaskOps.FinishNode(n, o, now) else n);
      var hit;
      hit, more := FinishAt(task.nodes, id, outcome, now, own, t.nodes, w, given, o);
      if hit {
        task' := task.(updatedAt := now);
      } else {
        assert w == t.nodes;
      }
    }
  }

  method CompleteOperation(task: HeapTask, now: Time, ghost own: set<object>, ghost t: Task) returns (task': HeapTask)
    requires TaskIs(own, task, t)
    modifies task.nodes
    ensures TaskIs(own, task', TaskOps.Complete(t, now)) && SameIdentity(t, TaskOps.Complete(t, now))
  {
    task' := task;
    if !task.status.Terminal() && !task.cancelRequested {
      var busy := HasBusy(task.nodes, own, t.nodes);
      if !busy {
        var failed := HasFailed(task.nodes, own, t.nodes);
        if failed {
          DropNodes(task.nodes, now, own, t.nodes, TaskOps.Complete(t, now).nodes);
          task' := task.(status := TaskFailed, finishedAt := Some(now), updatedAt := now);
        } else {
          var all := HasAllSucceeded(task.nodes, own, t.nodes);
          if all {
            task' := task.(status := TaskSucceeded, finishedAt := Some(now), updatedAt := now);
          }
        }
      }
    }
  }

  /** The index stays right as long as a stored task keeps its identity. */
  lemma IdentityKeepsIndex(tasks: map<string, Task>, byKey: map<string, string>, t: Task, v: Task)
    requires Consistent(tasks, byKey) && t.id in tasks && tasks[t.id] == t && SameIdentity(t, v)
    ensures Consistent(tasks[t.id := v], byKey)
    ensures UniqueIds(t.nodes) ==> UniqueIds(v.nodes)
  {
  }

  method RequeueOperation(task: HeapTask, now: Time, ghost own: set<object>, ghost t: Task)
    returns (r: Option<HeapTask>)
    requires TaskIs(own, task, t)
    modifies task.nodes
    ensures r.None? ==> TaskOps.Recover(t, now) == t
    ensures r.Some? ==> TaskIs(own, r.value, TaskOps.Recover(t, now)) && SameIdentity(t, TaskOps.Recover(t, now))
  {
    if task.status.Terminal() {
      return None;
    }
    ghost var w := MapNodes(t.nodes, (n: Node) => RequeueNode(n, now));
    var changed := RequeueNodes(task.nodes, now, own, t.nodes, w);
    var task' := task;
    if task.status.TaskRunning? {
      task' := task'.(status := TaskPending);
      changed := true;
    }
    if !changed {
      return None;
    }
    return Some(task'.(updatedAt := now));
  }

  class Runner {
    const repository: MemoryRepository
    const validJson: string -> bool

    ghost predicate Valid()
      reads this, repository, repository.Repr
    {
      && repository.Valid() && repository.Indexed()
      && forall id <- repository.Contents :: UniqueIds(repository.Contents[id].nodes)
    }

    ghost function Contents(): Store
      reads this, repository
    {
      Store(repository.Contents, repository.byIdempotencyKey)
    }

    /** The runner is intact and the repository took over nothing that existed before. */
    twostate predicate Intact()
      reads this, repository, repository.Repr
    {
      Valid() && forall o <- repository.Repr :: o in old(repository.Repr) || fresh(o)
    }

    twostate predicate Untouched()
      reads repository
    {
      repository.Contents == old(repository.Contents) && repository.byIdempotencyKey == old(repository.byIdempotencyKey)
    }

    /** Exactly one stored task changed. */
    twostate predicate Stored(id: string, v: Task)
      reads repository
    {
      && repository.Contents == old(repository.Contents)[id := v]
      && repository.byIdempotencyKey == old(repository.byIdempotencyKey)
    }

    constructor (repository: MemoryRepository, validJson: string -> bool)
      requires repository.Valid() && repository.Indexed() && repository.Contents == map[]
      ensures Valid() && this.repository == repository && this.validJson == validJson
    {
      this.repository, this.validJson := repository, validJson;
    }

    /** The Update that ends a critical section. */
    method Save(task: HeapTask, ghost own: set<object>, ghost t: Task, ghost v: Task) returns (r: Option<Error>)
      requires Valid() && TaskIs(own, task, v) && SameIdentity(t, v)
      requires t.id in repository.Contents && repository.Contents[t.id] == t
      modifies repository`tasks, repository`Repr, repository`Contents
      ensures Intact() && Stored(t.id, v) && r.None?
    {
      IdentityKeepsIndex(repository.Contents, repository.byIdempotencyKey, t, v);
      r := repository.Update(task, own, v);
    }

    /** Update if the operation succeeded; otherwise its error. */
    method SaveResult(task: Result<HeapTask, Error>, ghost own: set<object>, ghost t: Task,
                      ghost v: Result<Task, Error>)
      returns (r: Option<Error>)
      requires Valid() && t.id in repository.Contents && repository.Contents[t.id] == t
      requires match v
               case Err(e) => task == Err(e)
               case Ok(v) => task.Ok? && TaskIs(own, task.value, v) && SameIdentity(t, v)
      modifies repository`tasks, repository`Repr, repository`Contents
      ensures Intact()
      ensures match v case Err(e) => r == Some(e) && Untouched() case Ok(v) => r == None && Stored(t.id, v)
    {
      if task.Err? {
        return Some(task.error);
      }
      r := Save(task.value, own, t, v.value);
    }

    /** Save, while the caller holds other copies. */
    method SaveBeside(task: HeapTask, ghost own: set<object>, ghost t: Task, ghost v: Task, ghost held: set<object>)
      requires Valid() && TaskIs(own, task, v) && SameIdentity(t, v) && repository !in held
      requires t.id in repository.Contents && repository.Contents[t.id] == t
      modifies repository`tasks, repository`Repr, repository`Contents
      ensures Intact() && Stored(t.id, v) && forall o <- held :: unchanged(o)
    {
      var _ := Save(task, own, t, v);
    }

    /** The copy `task` of the stored task `t` shares nothing with the repository. */
    ghost predicate Loaded(task: HeapTask, own: set<object>, t: Task)
      reads this, repository, repository.Repr, own
    {
      && Valid() && TaskIs(own, task, t) && task.nodes !in repository.Repr && repository !in own && this !in own
      && t.id in repository.Contents && repository.Contents[t.id] == t
    }

    // -------------------------------------------------------------- API calls

    /** The answer of a submission and the copy of the task that comes with it. */
    ghost predicate Answered(r: Result<(HeapTask, bool), Error>, copy: set<object>, answer: Answer)
      reads this, repository, copy
    {
      match answer
      case Conflict => r == Err(IdempotencyConflict)
      case Existing(id) =>
        r.Ok? && !r.value.1 && id in repository.Contents && TaskIs(copy, r.value.0, repository.Contents[id])
      case Created(id) =>
        r.Ok? && r.value.1 && id in repository.Contents && TaskIs(copy, r.value.0, repository.Contents[id])
    }

    /** The call of CreateIfAbsent in Submit. */
    method Persist(task: HeapTask, ghost own: set<object>, ghost v: Task)
      returns (r: Result<(HeapTask, bool), Error>, ghost copy: set<object>)
      requires Valid() && TaskIs(own, task, v) && repository !in own && v.id !in repository.Contents
      requires UniqueIds(v.nodes)
      modifies repository
      ensures Intact() && Contents() == old(Create(Contents(), v)).0 && Answered(r, copy, old(Create(Contents(), v)).1)
      ensures forall o <- copy :: fresh(o) && o !in repository.Repr
    {
      r, copy := repository.CreateIfAbsent(task, own, v);
    }

    method Submit(submission: Submission, newID: string, now: Time)
      returns (r: Result<(HeapTask, bool), Error>, ghost copy: set<object>)
      requires Valid() && newID !in repository.Contents
      modifies repository
      ensures Intact()
      ensures match Draft(submission, newID, now, validJson)
        case Err(e) => r == Err(e) && Untouched()
        case Ok(v) =>
          Contents() == old(Create(Contents(), v)).0 && Answered(r, copy, old(Create(Contents(), v)).1)
      ensures forall o <- copy :: fresh(o) && o !in repository.Repr
    {
      copy := {};
      var task, own := BuildTask(submission, newID, now, validJson);
      if task.Err? {
        return Err(task.error), copy;
      }
      DraftsStartTheMachine(submission, newID, now, validJson, 0);
      r, copy := Persist(task.value, own, Draft(submission, newID, now, validJson).value);
    }

    method Cancel(taskID: string, now: Time) returns (r: Option<Error>)
      requires Valid()
      modifies repository`tasks, repository`Repr, repository`Contents
      ensures Intact()
      ensures var id := TrimSpace(taskID);
        if id == "" || id !in old(repository.Contents) then r == Some(TaskNotFound) && Untouched()
        else
          var t := old(repository.Contents)[id];
          if t.status.TaskCancelled? then r == None && Untouched()
          else if t.status.Terminal() then r == Some(TaskAlreadyTerminal) && Untouched()
          else r == None && Stored(id, TaskOps.Cancel(t, now))
    {
      var id := TrimSpace(taskID);
      if id == "" {
        return Some(TaskNotFound);
      }
      var found, own := repository.Get(id);
      if found.None? {
        return Some(TaskNotFound);
      }
      ghost var t := repository.Contents[id];
      var task := found.value;
      if task.status.TaskCancelled? {
        return None;
      }
      if task.status.Terminal() {
        return Some(TaskAlreadyTerminal);
      }
      ghost var v := TaskOps.Cancel(t, now);
      task := task.(cancelRequested := true, status := TaskCancelled, updatedAt := now, finishedAt := Some(now));
      CancelNodes(task.nodes, now, own, t.nodes, v.nodes);
      r := Save(task, own, t, v);
    }

    method Retry(taskID: string, now: Time) returns (r: Result<HeapTask, Error>, ghost copy: set<object>)
      requires Valid()
      modifies repository`tasks, repository`Repr, repository`Contents
      ensures Intact()
      ensures var id := TrimSpace(taskID);
        if id !in old(repository.Contents) then r == Err(TaskNotFound) && Untouched()
        else match TaskOps.Retry(old(repository.Contents)[id], now)
             case Err(e) => r == Err(e) && Untouched()
             case Ok(v) => Stored(id, v) && r.Ok? && TaskIs(copy, r.value, v)
      ensures forall o <- copy :: fresh(o) && o !in repository.Repr
    {
      copy := {};
      var id := TrimSpace(taskID);
      var found, own := repository.Get(id);
      if found.None? {
        return Err(TaskNotFound), copy;
      }
      r, copy := RetryLoaded(found.value, now, own, repository.Contents[id]);
    }

    method RetryLoaded(task: HeapTask, now: Time, ghost own: set<object>, ghost t: Task)
      returns (r: Result<HeapTask, Error>, ghost copy: set<object>)
      requires Loaded(task, own, t)
      modifies repository`tasks, repository`Repr, repository`Contents, task.nodes
      ensures Intact()
      ensures match TaskOps.Retry(t, now)
              case Err(e) => r == Err(e) && Untouched()
              case Ok(v) => Stored(t.id, v) && r.Ok? && TaskIs(copy, r.value, v)
      ensures forall o <- copy :: fresh(o) && o !in repository.Repr
    {
      copy := {};
      var task' := RetryOperation(task, now, own, t);
      if task'.Err? {
        return Err(task'.error), copy;
      }
      ghost var v := TaskOps.Retry(t, now).value;
      var retried;
      retried, copy := CloneTask(task'.value, own, v);
      SaveBeside(task'.value, own, t, v, copy);
      assert TaskIs(copy, retried, v);
      return Ok(retried), copy;
    }

    /** The section of Recover that holds the lock of one task. */
    method Requeue(id: string, now: Time) returns (r: Option<Error>)
      requires Valid()
      modifies repository`tasks, repository`Repr, repository`Contents
      ensures Intact()
      ensures if id !in old(repository.Contents) then r == Some(TaskNotFound) && Untouched()
              else r == None && Stored(id, TaskOps.Recover(old(repository.Contents)[id], now))
    {
      var found, own := repository.Get(id);
      if found.None? {
        return Some(TaskNotFound);
      }
      ghost var t := repository.Contents[id];
      var task := RequeueOperation(found.value, now, own, t);
      if task.Some? {
        r := Save(task.value, own, t, TaskOps.Recover(t, now));
        return;
      }
      return None;
    }

    method ConfirmNode(taskID: string, id: NodeID, adjusted: Option<HeapSnapshot>, now: Time,
                       ghost given: set<object>, ghost a: Option<Snapshot>) returns (r: Option<Error>)
      requires Valid() && OutputIs(given, adjusted, a)
      modifies repository`tasks, repository`Repr, repository`Contents
      ensures Intact()
      ensures if taskID !in old(repository.Contents) then r == Some(TaskNotFound) && Untouched()
              else match TaskOps.Confirm(old(repository.Contents)[taskID], id, a, now)
                   case Err(e) => r == Some(e) && Untouched()
                   case Ok(v) => r == None && Stored(taskID, v)
    {
      var found, own := repository.Get(taskID);
      if found.None? {
        return Some(TaskNotFound);
      }
      r := ConfirmLoaded(found.value, id, adjusted, now, own, repository.Contents[taskID], given, a);
    }

    method ConfirmLoaded(task: HeapTask, id: NodeID, adjusted: Option<HeapSnapshot>, now: Time, ghost own: set<object>,
                         ghost t: Task, ghost given: set<object>, ghost a: Option<Snapshot>) returns (r: Option<Error>)
      requires Loaded(task, own, t) && OutputIs(given, adjusted, a)
      modifies repository`tasks, repository`Repr, repository`Contents, task.nodes
      ensures Intact()
      ensures match TaskOps.Confirm(t, id, a, now)
              case Err(e) => r == Some(e) && Untouched()
              case Ok(v) => r == None && Stored(t.id, v)
    {
      var task', more := ConfirmOperation(task, id, adjusted, now, own, t, given, a);
      r := SaveResult(task', more, t, TaskOps.Confirm(t, id, a, now));
    }

    method AdjustNodeOutput(taskID: string, id: NodeID, output: HeapSnapshot, now: Time,
                            ghost given: set<object>, ghost o: Snapshot) returns (r: Option<Error>)
      requires Valid() && SnapshotIs(given, output, o)
      modifies repository`tasks, repository`Repr, repository`Contents
      ensures Intact()
      ensures if taskID !in old(repository.Contents) then r == Some(TaskNotFound) && Untouched()
              else match TaskOps.Adjust(old(repository.Contents)[taskID], id, o, now)
                   case Err(e) => r == Some(e) && Untouched()
                   case Ok(v) => r == None && Stored(taskID, v)
    {
      var found, own := repository.Get(taskID);
      if found.None? {
        return Some(TaskNotFound);
      }
      ghost var t := repository.Contents[taskID];
      var task := found.value;
      if task.status.Terminal() || task.cancelRequested {
        return Some(TaskAlreadyTerminal);
      }
      ghost var w := MapNodes(t.nodes, (n: Node) => if n.id == id then n.(output := Some(o)) else n);
      var hit, more := AdjustAt(task.nodes, id, output, own, t.nodes, w, given, o);
      if !hit {
        return Some(NodeNotFound);
      }
      task := task.(updatedAt := now);
      r := Save(task, more, t, TaskOps.Adjust(t, id, o, now).value);
    }

    // -------------------------------------------------------------- worker and executors

    method SetTaskRunning(taskID: string, now: Time) returns (r: Option<Error>)
      requires Valid()
      modifies repository`tasks, repository`Repr, repository`Contents
      ensures Intact()
      ensures if taskID !in old(repository.Contents) then r == Some(TaskNotFound) && Untouched()
              else r == None && Stored(taskID, MarkRunning(old(repository.Contents)[taskID], now))
    {
      var found, own := repository.Get(taskID);
      if found.None? {
        return Some(TaskNotFound);
      }
      ghost var t := repository.Contents[taskID];
      var task := found.value;
      if task.status.TaskPending? && !task.cancelRequested {
        task := task.(status := TaskRunning, updatedAt := now);
      }
      r := Save(task, own, t, MarkRunning(t, now));
    }

    /** readyNodes of the stored task. */
    method Ready(taskID: string) returns (ready: Option<seq<NodeID>>)
      requires Valid()
      ensures ready == if taskID in repository.Contents then Some(ReadyNodes(repository.Contents[taskID].nodes))
        else None
    {
      var found, own := repository.Get(taskID);
      if found.None? {
        return None;
      }
      var ids := CollectReady(found.value.nodes, own, repository.Contents[taskID].nodes);
      return Some(ids);
    }

    method StartNodes(taskID: string, ready: seq<NodeID>, now: Time)
      returns (r: Result<seq<HeapNode>, Error>, ghost copies: set<object>)
      requires Valid() && Progress.Distinct(ready)
      modifies repository`tasks, repository`Repr, repository`Contents
      ensures Intact()
      ensures if taskID !in old(repository.Contents) then r == Err(TaskNotFound) && Untouched()
              else
                var t := old(repository.Contents)[taskID];
                && Stored(taskID, TaskOps.StartNodes(t, ready, now))
                && r.Ok? && CopiesAre(copies, r.value, Started(t, ready, now))
    {
      copies := {};
      var found, own := repository.Get(taskID);
      if found.None? {
        return Err(TaskNotFound), copies;
      }
      r, copies := StartLoaded(found.value, ready, now, own, repository.Contents[taskID]);
    }

    method StartLoaded(task: HeapTask, ready: seq<NodeID>, now: Time, ghost own: set<object>, ghost t: Task)
      returns (r: Result<seq<HeapNode>, Error>, ghost copies: set<object>)
      requires Loaded(task, own, t) && Progress.Distinct(ready)
      modifies repository`tasks, repository`Repr, repository`Contents, task.nodes
      ensures Intact() && Stored(t.id, TaskOps.StartNodes(t, ready, now))
      ensures r.Ok? && CopiesAre(copies, r.value, Started(t, ready, now))
    {
      var task', started, c := StartOperation(task, ready, now, own, t);
      assert repository !in c;
      SaveBeside(task', own, t, TaskOps.StartNodes(t, ready, now), c);
      assert CopiesAre(c, started, Started(t, ready, now));
      return Ok(started), c;
    }

    method FinishNode(taskID: string, id: NodeID, outcome: HeapOutcome, now: Time,
                      ghost given: set<object>, ghost o: Outcome) returns (r: Option<Error>)
      requires Valid() && OutcomeIs(given, outcome, o)
      modifies repository`tasks, repository`Repr, repository`Contents
      ensures Intact()
      ensures if taskID !in old(repository.Contents) then r == Some(TaskNotFound) && Untouched()
              else r == None && Stored(taskID, TaskOps.Finish(old(repository.Contents)[taskID], id, o, now))
    {
      var found, own := repository.Get(taskID);
      if found.None? {
        return Some(TaskNotFound);
      }
      ghost var t := repository.Contents[taskID];
      var task, more := FinishOperation(found.value, id, outcome, now, own, t, given, o);
      r := Save(task, more, t, TaskOps.Finish(t, id, o, now));
    }

    method SetNodeWaitingConfirmation(taskID: string, id: NodeID, output: HeapSnapshot, now: Time,
                                      ghost given: set<object>, ghost o: Snapshot) returns (r: Option<Error>)
      requires Valid() && SnapshotIs(given, output, o)
      modifies repository`tasks, repository`Repr, repository`Contents
      ensures Intact()
      ensures if taskID !in old(repository.Contents) then r == Some(TaskNotFound) && Untouched()
              else match TaskOps.Park(old(repository.Contents)[taskID], id, o, now)
                   case Err(e) => r == Some(e) && Untouched()
                   case Ok(v) => r == None && Stored(taskID, v)
    {
      var found, own := repository.Get(taskID);
      if found.None? {
        return Some(TaskNotFound);
      }
      ghost var t := repository.Contents[taskID];
      var task := found.value;
      ghost var w := MapNodes(t.nodes, (n: Node) => if n.id == id then n.(status := Waiting, output := Some(o)) else n);
      var hit, more := ParkAt(task.nodes, id, output, own, t.nodes, w, given, o);
      if !hit {
        return Some(NodeNotFound);
      }
      task := task.(updatedAt := now);
      r := Save(task, more, t, TaskOps.Park(t, id, o, now).value);
    }

    method CompleteIfBlocked(taskID: string, now: Time) returns (r: Option<Error>)
      requires Valid()
      modifies repository`tasks, repository`Repr, repository`Contents
      ensures Intact()
      ensures if taskID !in old(repository.Contents) then r == Some(TaskNotFound) && Untouched()
              else r == None && Stored(taskID, TaskOps.Complete(old(repository.Contents)[taskID], now))
    {
      var found, own := repository.Get(taskID);
      if found.None? {
        return Some(TaskNotFound);
      }
      ghost var t := repository.Contents[taskID];
      var task := CompleteOperation(found.value, now, own, t);
      r := Save(task, own, t, TaskOps.Complete(t, now));
    }
  }
}
