/** MemoryRepository (internal/service/pipeline/repository.go) over heap tasks: a Go slice is an array, so two tasks
    can share one, and the defensive copies are what keeps them apart. */
module Repository {
  import opened Types
  import opened TaskOps

  // ---------------------------------------------------------------- tasks on the heap

  datatype HeapSnapshot = HeapSnapshot(json: array<char>, capturedAt: Time)

  datatype HeapNode = HeapNode(
    id: NodeID, dependsOn: array<NodeID>, invocation: Invocation, input: HeapSnapshot, output: Option<HeapSnapshot>,
    status: NodeStatus, attempts: int, maxAttempts: int, error: string, errorCode: string,
    startedAt: Option<Time>, finishedAt: Option<Time>)

  datatype HeapTask = HeapTask(
    id: string, key: string, input: HeapSnapshot, nodes: array<HeapNode>, status: TaskStatus, requireConfirmation: bool,
    cancelRequested: bool, createdAt: Time, updatedAt: Time, finishedAt: Option<Time>)

  /** The snapshot says `v` and reaches nothing outside `repr`; likewise for nodes, slices of nodes and tasks. */
  ghost predicate SnapshotIs(repr: set<object>, s: HeapSnapshot, v: Snapshot)
    reads repr
  {
    s.json in repr && s.json[..] == v.json && s.capturedAt == v.capturedAt
  }

  ghost predicate OutputIs(repr: set<object>, s: Option<HeapSnapshot>, v: Option<Snapshot>)
    reads repr
  {
    if s.Some? then v.Some? && SnapshotIs(repr, s.value, v.value) else v.None?
  }

  ghost predicate NodeIs(repr: set<object>, n: HeapNode, v: Node)
    reads repr
  {
    && n.dependsOn in repr && SnapshotIs(repr, n.input, v.input) && OutputIs(repr, n.output, v.output)
    && v == Node(n.id, n.dependsOn[..], n.invocation, v.input, v.output, n.status, n.attempts, n.maxAttempts,
                 n.error, n.errorCode, n.startedAt, n.finishedAt)
  }

  ghost predicate NodesAre(repr: set<object>, nodes: array<HeapNode>, v: seq<Node>)
    reads repr
  {
    nodes in repr && nodes.Length == |v| && forall i :: 0 <= i < |v| ==> NodeIs(repr, nodes[i], v[i])
  }

  ghost predicate TaskIs(repr: set<object>, t: HeapTask, v: Task)
    reads repr
  {
    && SnapshotIs(repr, t.input, v.input) && NodesAre(repr, t.nodes, v.nodes)
    && v == Task(t.id, t.key, v.input, v.nodes, t.status, t.requireConfirmation, t.cancelRequested,
                 t.createdAt, t.updatedAt, t.finishedAt)
  }

  lemma StillIs(repr: set<object>, more: set<object>, t: HeapTask, v: Task)
    requires TaskIs(repr, t, v) && repr <= more
    ensures TaskIs(more, t, v)
  {
    forall i | 0 <= i < |v.nodes| ensures NodeIs(more, t.nodes[i], v.nodes[i]) {
      assert NodeIs(repr, t.nodes[i], v.nodes[i]);
    }
  }

  // ---------------------------------------------------------------- cloning

  method CloneSnapshot(s: HeapSnapshot, ghost repr: set<object>, ghost v: Snapshot) returns (c: HeapSnapshot)
    requires SnapshotIs(repr, s, v)
    ensures fresh(c.json) && SnapshotIs({c.json}, c, v)
  {
    var json := new char[s.json.Length](i requires 0 <= i < s.json.Length reads s.json => s.json[i]);
    c := s.(json := json);
  }

  method CloneNode(n: HeapNode, ghost repr: set<object>, ghost v: Node) returns (c: HeapNode, ghost own: set<object>)
    requires NodeIs(repr, n, v)
    ensures fresh(own) && NodeIs(own, c, v)
  {
    var dependsOn :=
        new NodeID[n.dependsOn.Length](i requires 0 <= i < n.dependsOn.Length reads n.dependsOn => n.dependsOn[i]);
    var input := CloneSnapshot(n.input, repr, v.input);
    own := {dependsOn, input.json};
    var output := None;
    if n.output.Some? {
      var copy := CloneSnapshot(n.output.value, repr, v.output.value);
      output := Some(copy);
      own := own + {copy.json};
    }
    c := n.(dependsOn := dependsOn, input := input, output := output);
  }

  method CloneNodes(nodes: array<HeapNode>, ghost repr: set<object>, ghost v: seq<Node>)
    returns (c: array<HeapNode>, ghost own: set<object>)
    requires NodesAre(repr, nodes, v)
    ensures fresh(own) && NodesAre(own, c, v)
  {
    c := new HeapNode[nodes.Length](i requires 0 <= i < nodes.Length reads nodes => nodes[i]);
    own := {};
    for i := 0 to nodes.Length
      invariant fresh(own) && c !in own
      invariant forall j :: 0 <= j < i ==> NodeIs(own, c[j], v[j])
    {
      var copy, reached := CloneNode(nodes[i], repr, v[i]);
      assert forall j :: 0 <= j < i ==> NodeIs(own + reached, c[j], v[j]);
      c[i] := copy;
      own := own + reached;
    }
    own := own + {c};
  }

  method CloneTask(t: HeapTask, ghost repr: set<object>, ghost v: Task) returns (c: HeapTask, ghost own: set<object>)
    requires TaskIs(repr, t, v)
    ensures fresh(own) && TaskIs(own, c, v)
  {
    var input := CloneSnapshot(t.input, repr, v.input);
    var nodes, reached := CloneNodes(t.nodes, repr, v.nodes);
    own := reached + {input.json};
    c := t.(input := input, nodes := nodes);
    assert forall i :: 0 <= i < |v.nodes| ==> NodeIs(reached, nodes[i], v.nodes[i]);
  }

  // ---------------------------------------------------------------- the repository

  /** The idempotency index and the tasks name each other. */
  ghost predicate Consistent(tasks: map<string, Task>, byKey: map<string, string>) {
    && (forall id <- tasks :: tasks[id].id == id && tasks[id].key in byKey && byKey[tasks[id].key] == id)
    && (forall key <- byKey :: byKey[key] in tasks && tasks[byKey[key]].key == key)
  }

  class MemoryRepository {
    var tasks: map<string, HeapTask>
    var byIdempotencyKey: map<string, string>
    ghost var Repr: set<object>
    ghost var Contents: map<string, Task>

    /** The stored tasks reach only what the repository owns, and `Contents` is what they say. */
    ghost predicate Valid()
      reads this, Repr
    {
      this !in Repr && tasks.Keys == Contents.Keys && forall id <- tasks :: TaskIs(Repr, tasks[id], Contents[id])
    }

    constructor ()
      ensures Valid() && fresh(Repr) && Contents == map[] && byIdempotencyKey == map[]
    {
      tasks, byIdempotencyKey := map[], map[];
      Repr, Contents := {}, map[];
    }

    ghost predicate Indexed()
      reads this
    {
      Consistent(Contents, byIdempotencyKey)
    }

    /** r.tasks[id] = task, for a copy nobody else holds. */
    method Store(stored: HeapTask, ghost own: set<object>, ghost v: Task)
      requires Valid() && this !in own && TaskIs(own, stored, v)
      modifies this`tasks, this`Repr, this`Contents
      ensures Valid() && Repr == old(Repr) + own && Contents == old(Contents)[v.id := v]
    {
      forall id <- tasks ensures TaskIs(Repr + own, tasks[id], Contents[id]) {
        StillIs(Repr, Repr + own, tasks[id], Contents[id]);
      }
      StillIs(own, Repr + own, stored, v);
      Repr := Repr + own;
      tasks := tasks[stored.id := stored];
      Contents := Contents[v.id := v];
    }

    /** The second half of CreateIfAbsent, for a new key. */
    method Insert(task: HeapTask, ghost given: set<object>, ghost v: Task)
      returns (returned: HeapTask, ghost own: set<object>)
      requires Valid() && TaskIs(given, task, v) && this !in given
      modifies this
      ensures Valid() && fresh(Repr - old(Repr)) && old(Repr) <= Repr
      ensures Contents == old(Contents)[v.id := v] && byIdempotencyKey == old(byIdempotencyKey)[v.key := v.id]
      ensures TaskIs(own, returned, v) && fresh(own) && own !! Repr
    {
      var stored, kept := CloneTask(task, given, v);
      Store(stored, kept, v);
      byIdempotencyKey := byIdempotencyKey[task.key := task.id];
      assert TaskIs(given, task, v);
      returned, own := CloneTask(task, given, v);
    }

    /** The task a key is bound to is returned when the input is the same and refused when it differs; a new key is
        bound to the new task. What is returned shares nothing with what is stored. */
    method CreateIfAbsent(task: HeapTask, ghost given: set<object>, ghost v: Task)
      returns (r: Result<(HeapTask, bool), Error>, ghost own: set<object>)
      requires Valid() && Indexed() && v.id !in Contents && TaskIs(given, task, v) && this !in given
      modifies this
      ensures Valid() && Indexed() && fresh(Repr - old(Repr)) && old(Repr) <= Repr
      ensures v.key in old(byIdempotencyKey) ==>
        var bound := old(Contents[byIdempotencyKey[v.key]]);
        && Contents == old(Contents) && byIdempotencyKey == old(byIdempotencyKey)
        && (if bound.input.json != v.input.json then r == Err(IdempotencyConflict)
            else r.Ok? && !r.value.1 && TaskIs(own, r.value.0, bound))
      ensures v.key !in old(byIdempotencyKey) ==>
        && Contents == old(Contents)[v.id := v] && byIdempotencyKey == old(byIdempotencyKey)[v.key := v.id]
        && r.Ok? && r.value.1 && TaskIs(own, r.value.0, v)
      ensures fresh(own) && own !! Repr
    {
      own := {};
      if task.key in byIdempotencyKey {
        var existing := tasks[byIdempotencyKey[task.key]];
        ghost var bound := Contents[byIdempotencyKey[task.key]];
        if existing.input.json[..] != task.input.json[..] {
          return Err(IdempotencyConflict), own;
        }
        var copy;
        copy, own := CloneTask(existing, Repr, bound);
        return Ok((copy, false)), own;
      }
      var returned;
      returned, own := Insert(task, given, v);
      return Ok((returned, true)), own;
    }

    method Get(taskID: string) returns (r: Option<HeapTask>, ghost own: set<object>)
      requires Valid()
      ensures r.None? <==> taskID !in Contents
      ensures r.Some? ==> TaskIs(own, r.value, Contents[taskID])
      ensures fresh(own) && own !! Repr
    {
      own := {};
      if taskID !in tasks {
        return None, own;
      }
      var copy;
      copy, own := CloneTask(tasks[taskID], Repr, Contents[taskID]);
      return Some(copy), own;
    }

    method Update(task: HeapTask, ghost given: set<object>, ghost v: Task) returns (r: Option<Error>)
      requires Valid() && TaskIs(given, task, v)
      modifies this`tasks, this`Repr, this`Contents
      ensures Valid() && fresh(Repr - old(Repr)) && old(Repr) <= Repr
      ensures if v.id in old(Contents) then r.None? && Contents == old(Contents)[v.id := v]
              else r == Some(TaskNotFound) && Contents == old(Contents)
    {
      if task.id !in tasks {
        return Some(TaskNotFound);
      }
      var stored, kept := CloneTask(task, given, v);
      Store(stored, kept, v);
      return None;
    }
  }

  /** Copy isolation: whatever a caller writes to, as long as the repository does not own it, the stored tasks stay
      what they were; and nothing a caller was handed or handed in is owned by the repository. */
  twostate lemma CallersCannotReachStoredTasks(r: MemoryRepository)
    requires old(r.Valid()) && unchanged(r) && forall o <- old(r.Repr) :: unchanged(o)
    ensures r.Valid() && r.Contents == old(r.Contents)
  {
  }
}
