/** The loops of runner.go over the nodes of one task, on the heap copy a critical section works on, each proved
    against the node-by-node functions of TaskOps. `v` is what the slice says on entry, `w` what it should say. */
module NodeLoops {
  import opened Types
  import opened TaskOps
  import opened Repository
  import opened Progress

  // ---------------------------------------------------------------- one element of the slice

  lemma Inner(own: set<object>, nodes: array<HeapNode>, n: HeapNode, v: Node)
    requires NodeIs(own, n, v)
    ensures NodeIs(own - {nodes}, n, v)
  {
  }

  lemma Outer(own: set<object>, more: set<object>, n: HeapNode, v: Node)
    requires NodeIs(own, n, v) && own <= more
    ensures NodeIs(more, n, v)
  {
  }

  method Put(nodes: array<HeapNode>, i: nat, n: HeapNode, ghost own: set<object>, ghost more: set<object>,
             ghost v: seq<Node>, ghost x: Node)
    requires NodesAre(own, nodes, v) && i < |v| && own <= more && NodeIs(more, n, x)
    modifies nodes
    ensures NodesAre(more, nodes, v[i := x])
  {
    ghost var inner := more - {nodes};
    forall j | 0 <= j < |v| ensures NodeIs(inner, nodes[j], v[j]) {
      Inner(own, nodes, nodes[j], v[j]);
      Outer(own - {nodes}, inner, nodes[j], v[j]);
    }
    Inner(more, nodes, n, x);
    nodes[i] := n;
    forall j | 0 <= j < |v| ensures NodeIs(more, nodes[j], v[i := x][j]) {
      assert NodeIs(inner, nodes[j], v[i := x][j]);
      Outer(inner, more, nodes[j], v[i := x][j]);
    }
  }

  // ---------------------------------------------------------------- reading

  lemma FindFirst(v: seq<Node>, id: NodeID, i: nat)
    requires i < |v| && v[i].id == id && forall j :: 0 <= j < i ==> v[j].id != id
    ensures Find(v, id) == Some(v[i])
  {
    if i > 0 { FindFirst(v[1..], id, i - 1); }
  }

  /** Task.Node. */
  method FindNode(nodes: array<HeapNode>, id: NodeID, ghost own: set<object>, ghost v: seq<Node>)
    returns (r: Option<HeapNode>, ghost copy: set<object>)
    requires NodesAre(own, nodes, v)
    ensures fresh(copy) && (r.Some? <==> Find(v, id).Some?) && (r.Some? ==> NodeIs(copy, r.value, Find(v, id).value))
  {
    copy := {};
    for i := 0 to nodes.Length
      invariant forall j :: 0 <= j < i ==> v[j].id != id
    {
      if nodes[i].id == id {
        FindFirst(v, id, i);
        var c;
        c, copy := CloneNode(nodes[i], own, v[i]);
        return Some(c), copy;
      }
    }
    return None, copy;
  }

  method HasAllDependencies(node: HeapNode, nodes: array<HeapNode>, ghost own: set<object>, ghost n: Node,
                            ghost v: seq<Node>)
    returns (r: bool)
    requires NodesAre(own, nodes, v) && NodeIs(own, node, n)
    ensures r == DependenciesSucceeded(n, v)
  {
    for i := 0 to node.dependsOn.Length
      invariant forall j :: 0 <= j < i ==> var m := Find(v, n.dependsOn[j]); m.Some? && m.value.status.Succeeded?
    {
      assert node.dependsOn[i] == n.dependsOn[i] && n.dependsOn[i] in n.dependsOn;
      var matched, _ := FindNode(nodes, node.dependsOn[i], own, v);
      if matched.None? || !matched.value.status.Succeeded? {
        return false;
      }
    }
    return true;
  }

  /** readyNodes. */
  method CollectReady(nodes: array<HeapNode>, ghost own: set<object>, ghost v: seq<Node>) returns (ready: seq<NodeID>)
    requires NodesAre(own, nodes, v)
    ensures ready == ReadyNodes(v)
  {
    ready := [];
    for i := 0 to nodes.Length
      invariant ready + ReadyNodes(v, i) == ReadyNodes(v)
    {
      assert NodeIs(own, nodes[i], v[i]);
      if nodes[i].status.Pending? {
        var all := HasAllDependencies(nodes[i], nodes, own, v[i], v);
        if all {
          ready := ready + [nodes[i].id];
        }
      }
    }
  }

  /** completedDependencies. */
  method CollectInputs(node: HeapNode, nodes: array<HeapNode>, ghost own: set<object>, ghost n: Node,
                       ghost v: seq<Node>)
    returns (inputs: map<NodeID, HeapSnapshot>, ghost copies: set<object>)
    requires NodesAre(own, nodes, v) && NodeIs(own, node, n)
    ensures fresh(copies) && inputs.Keys == CompletedDependencies(n, v).Keys
    ensures forall d <- inputs :: SnapshotIs(copies, inputs[d], CompletedDependencies(n, v)[d])
  {
    inputs, copies := map[], {};
    for i := 0 to node.dependsOn.Length
      invariant fresh(copies)
      invariant forall d :: d in inputs <==> d in n.dependsOn[..i] && d in CompletedDependencies(n, v)
      invariant forall d <- inputs :: SnapshotIs(copies, inputs[d], CompletedDependencies(n, v)[d])
    {
      var dependency := node.dependsOn[i];
      assert n.dependsOn[..i + 1] == n.dependsOn[..i] + [dependency];
      assert dependency in n.dependsOn;
      var matched, own' := FindNode(nodes, dependency, own, v);
      if matched.Some? && matched.value.output.Some? {
        var copy := CloneSnapshot(matched.value.output.value, own', Find(v, dependency).value.output.value);
        inputs := inputs[dependency := copy];
        copies := copies + {copy.json};
      }
    }
    assert n.dependsOn[..|n.dependsOn|] == n.dependsOn;
  }

  // ---------------------------------------------------------------- rewriting every node

  /** The first `i` elements have become `w`. */
  ghost predicate Reached(u: seq<Node>, v: seq<Node>, w: seq<Node>, i: nat) {
    |u| == |v| == |w| && forall j :: 0 <= j < |v| ==> u[j] == if j < i then w[j] else v[j]
  }

  lemma Advance(u: seq<Node>, v: seq<Node>, w: seq<Node>, i: nat)
    requires Reached(u, v, w, i) && i < |v|
    ensures u[i] == v[i] && Reached(u[i := w[i]], v, w, i + 1)
    ensures w[i] == v[i] ==> u[i := w[i]] == u
  {
  }

  method CancelNodes(nodes: array<HeapNode>, now: Time, ghost own: set<object>, ghost v: seq<Node>, ghost w: seq<Node>)
    requires NodesAre(own, nodes, v) && |w| == |v| && forall i :: 0 <= i < |v| ==> w[i] == CancelNode(v[i], now)
    modifies nodes
    ensures NodesAre(own, nodes, w)
  {
    ghost var u := v;
    for index := 0 to nodes.Length
      invariant NodesAre(own, nodes, u) && Reached(u, v, w, index)
    {
      assert NodeIs(own, nodes[index], u[index]);
      Advance(u, v, w, index);
      if !nodes[index].status.Terminal() {
        Put(nodes, index, nodes[index].(status := Cancelled, finishedAt := Some(now)), own, own, u, w[index]);
        u := u[index := w[index]];
      }
    }
  }

  method ResetNodes(nodes: array<HeapNode>, ghost own: set<object>, ghost v: seq<Node>, ghost w: seq<Node>)
    requires NodesAre(own, nodes, v) && |w| == |v| && forall i :: 0 <= i < |v| ==> w[i] == ResetNode(v[i])
    modifies nodes
    ensures NodesAre(own, nodes, w)
  {
    ghost var u := v;
    for index := 0 to nodes.Length
      invariant NodesAre(own, nodes, u) && Reached(u, v, w, index)
    {
      assert NodeIs(own, nodes[index], u[index]);
      Advance(u, v, w, index);
      if !nodes[index].status.Succeeded? {
        var node := nodes[index].(status := Pending, attempts := 0, error := "", errorCode := "", startedAt := None,
        finishedAt := None, output := None);
        Put(nodes, index, node, own, own, u, w[index]);
        u := u[index := w[index]];
      }
    }
  }

  method RequeueNodes(nodes: array<HeapNode>, now: Time, ghost own: set<object>, ghost v: seq<Node>, ghost w: seq<Node>)
    returns (changed: bool)
    requires NodesAre(own, nodes, v) && |w| == |v| && forall i :: 0 <= i < |v| ==> w[i] == RequeueNode(v[i], now)
    modifies nodes
    ensures NodesAre(own, nodes, w) && changed == AnyRunning(v)
  {
    changed := false;
    ghost var u := v;
    for index := 0 to nodes.Length
      invariant NodesAre(own, nodes, u) && Reached(u, v, w, index) && changed == AnyRunning(v[..index])
    {
      assert NodeIs(own, nodes[index], u[index]);
      Advance(u, v, w, index);
      assert v[..index + 1] == v[..index] + [v[index]];
      if nodes[index].status.Running? {
        var node := nodes[index];
        if node.attempts >= node.maxAttempts {
          node := node.(status := Failed, error := INTERRUPTED, finishedAt := Some(now));
        } else {
          node := node.(status := Pending, startedAt := None, finishedAt := None);
        }
        Put(nodes, index, node, own, own, u, w[index]);
        u := u[index := w[index]];
        changed := true;
      }
    }
    assert v[..|v|] == v;
  }

  method DropNodes(nodes: array<HeapNode>, now: Time, ghost own: set<object>, ghost v: seq<Node>, ghost w: seq<Node>)
    requires NodesAre(own, nodes, v) && |w| == |v| && forall i :: 0 <= i < |v| ==> w[i] == DropNode(v[i], now)
    modifies nodes
    ensures NodesAre(own, nodes, w)
  {
    ghost var u := v;
    for index := 0 to nodes.Length
      invariant NodesAre(own, nodes, u) && Reached(u, v, w, index)
    {
      assert NodeIs(own, nodes[index], u[index]);
      Advance(u, v, w, index);
      if nodes[index].status.Pending? {
        Put(nodes, index, nodes[index].(status := Cancelled, finishedAt := Some(now)), own, own, u, w[index]);
        u := u[index := w[index]];
      }
    }
  }

  // ---------------------------------------------------------------- rewriting the node with an ID

  /** What finishNode is called with. */
  datatype HeapOutcome = HeapOutput(snapshot: HeapSnapshot) | HeapFailure(message: string, code: string)

  ghost predicate OutcomeIs(repr: set<object>, h: HeapOutcome, o: Outcome)
    reads repr
  {
    match h
    case HeapOutput(s) => o.Output? && SnapshotIs(repr, s, o.snapshot)
    case HeapFailure(message, code) => o == Failure(message, code)
  }

  /** `w` differs from `v` at most at `i`. */
  lemma OnlyAt(v: seq<Node>, w: seq<Node>, i: nat)
    requires |v| == |w| && i < |v| && forall j :: 0 <= j < |v| && j != i ==> w[j] == v[j]
    ensures v[i := w[i]] == w
  {
  }

  method FinishAt(nodes: array<HeapNode>, id: NodeID, outcome: HeapOutcome, now: Time, ghost own: set<object>,
                  ghost v: seq<Node>, ghost w: seq<Node>, ghost given: set<object>, ghost o: Outcome)
    returns (hit: bool, ghost more: set<object>)
    requires NodesAre(own, nodes, v) && UniqueIds(v) && OutcomeIs(given, outcome, o) && |w| == |v|
    requires forall i :: 0 <= i < |v| ==> w[i] == if Finishable(v[i], id) then FinishNode(v[i], o, now) else v[i]
    modifies nodes
    ensures hit <==> exists n <- v :: Finishable(n, id)
    ensures own <= more && fresh(more - own) && NodesAre(more, nodes, w)
  {
    more := own;
    for index := 0 to nodes.Length
      invariant forall j :: 0 <= j < index ==> !Finishable(v[j], id)
    {
      assert NodeIs(own, nodes[index], v[index]);
      var node := nodes[index];
      if node.id != id || (!node.status.Running? && !node.status.Waiting?) {
        continue;
      }
      assert v[index] in v;
      node := node.(finishedAt := Some(now));
      match outcome {
        case HeapOutput(output) =>
          var copy := CloneSnapshot(output, given, o.snapshot);
          more := own + {copy.json};
          node := node.(output := Some(copy), status := Succeeded, error := "", errorCode := "");
        case HeapFailure(message, code) =>
          node := node.(error := TrimSpace(message), errorCode := code);
          if node.attempts < node.maxAttempts {
            node := node.(status := Pending, finishedAt := None);
          } else {
            node := node.(status := Failed);
          }
      }
      Put(nodes, index, node, own, more, v, w[index]);
      OnlyAt(v, w, index);
      return true, more;
    }
    assert w == v;
    return false, more;
  }

  method ParkAt(nodes: array<HeapNode>, id: NodeID, output: HeapSnapshot, ghost own: set<object>,
                ghost v: seq<Node>, ghost w: seq<Node>, ghost given: set<object>, ghost o: Snapshot)
    returns (hit: bool, ghost more: set<object>)
    requires NodesAre(own, nodes, v) && UniqueIds(v) && SnapshotIs(given, output, o) && |w| == |v|
    requires forall i :: 0 <= i < |v| ==>
      w[i] == if v[i].id == id then v[i].(status := Waiting, output := Some(o)) else v[i]
    modifies nodes
    ensures hit <==> id in Ids(v)
    ensures own <= more && fresh(more - own) && NodesAre(more, nodes, w)
  {
    more := own;
    for index := 0 to nodes.Length
      invariant forall j :: 0 <= j < index ==> v[j].id != id
    {
      assert NodeIs(own, nodes[index], v[index]);
      if nodes[index].id == id {
        var copy := CloneSnapshot(output, given, o);
        more := own + {copy.json};
        Put(nodes, index, nodes[index].(status := Waiting, output := Some(copy)), own, more, v, w[index]);
        OnlyAt(v, w, index);
        return true, more;
      }
    }
    assert w == v;
    return false, more;
  }

  method AdjustAt(nodes: array<HeapNode>, id: NodeID, output: HeapSnapshot, ghost own: set<object>,
                  ghost v: seq<Node>, ghost w: seq<Node>, ghost given: set<object>, ghost o: Snapshot)
    returns (hit: bool, ghost more: set<object>)
    requires NodesAre(own, nodes, v) && UniqueIds(v) && SnapshotIs(given, output, o) && |w| == |v|
    requires forall i :: 0 <= i < |v| ==> w[i] == if v[i].id == id then v[i].(output := Some(o)) else v[i]
    modifies nodes
    ensures hit <==> id in Ids(v)
    ensures own <= more && fresh(more - own) && NodesAre(more, nodes, w)
  {
    more := own;
    for index := 0 to nodes.Length
      invariant forall j :: 0 <= j < index ==> v[j].id != id
    {
      assert NodeIs(own, nodes[index], v[index]);
      if nodes[index].id == id {
        var copy := CloneSnapshot(output, given, o);
        more := own + {copy.json};
        Put(nodes, index, nodes[index].(output := Some(copy)), own, more, v, w[index]);
        OnlyAt(v, w, index);
        return true, more;
      }
    }
    assert w == v;
    return false, more;
  }

  /** The loop of ConfirmNode: the node with the ID must be waiting; a non-empty adjustment replaces its output. */
  method ConfirmAt(nodes: array<HeapNode>, id: NodeID, adjusted: Option<HeapSnapshot>, now: Time,
                   ghost own: set<object>, ghost v: seq<Node>, ghost w: seq<Node>, ghost given: set<object>,
                   ghost a: Option<Snapshot>)
    returns (r: Option<Error>, ghost more: set<object>)
    requires NodesAre(own, nodes, v) && UniqueIds(v) && OutputIs(given, adjusted, a) && |w| == |v|
    requires forall i :: 0 <= i < |v| ==> w[i] == if v[i].id == id then ConfirmOne(v[i], a, now) else v[i]
    modifies nodes
    ensures r == match Find(v, id)
                 case None => Some(NodeNotFound)
                 case Some(n) => if n.status.Waiting? then None else Some(NodeNotWaiting)
    ensures own <= more && fresh(more - own) && (r.None? ==> NodesAre(more, nodes, w))
  {
    more := own;
    for index := 0 to nodes.Length
      invariant forall j :: 0 <= j < index ==> v[j].id != id
    {
      assert NodeIs(own, nodes[index], v[index]);
      var node := nodes[index];
      if node.id == id {
        FindFirst(v, id, index);
        if !node.status.Waiting? {
          return Some(NodeNotWaiting), more;
        }
        node := node.(finishedAt := Some(now), status := Succeeded);
        if adjusted.Some? && adjusted.value.json.Length > 0 {
          var copy := CloneSnapshot(adjusted.value, given, a.value);
          more := own + {copy.json};
          node := node.(output := Some(copy));
        }
        Put(nodes, index, node, own, more, v, w[index]);
        OnlyAt(v, w, index);
        return None, more;
      }
    }
    return Some(NodeNotFound), more;
  }

  // ---------------------------------------------------------------- startNodes

  predicate Open(n: Node, nodes: seq<Node>) {
    n.status.Pending? && DependenciesSucceeded(n, nodes)
  }

  /** `u` is `v` with the open nodes among `begun` started. */
  ghost predicate Begun(u: seq<Node>, v: seq<Node>, begun: seq<NodeID>, now: Time) {
    |u| == |v| && forall j :: 0 <= j < |v| ==>
      u[j] == if v[j].id in begun && Open(v[j], v) then StartNode(v[j], now) else v[j]
  }

  /** Starting nodes does not change which dependencies have succeeded. */
  lemma {:induction false} SameVerdict(u: seq<Node>, v: seq<Node>, d: NodeID)
    requires |u| == |v|
    requires forall j :: 0 <= j < |v| ==> u[j].id == v[j].id && (u[j].status.Succeeded? <==> v[j].status.Succeeded?)
    ensures Find(u, d).Some? == Find(v, d).Some?
    ensures Find(v, d).Some? ==> (Find(u, d).value.status.Succeeded? <==> Find(v, d).value.status.Succeeded?)
  {
    if v != [] {
      SameVerdict(u[1..], v[1..], d);
    }
  }

  lemma SameOpen(u: seq<Node>, v: seq<Node>, begun: seq<NodeID>, now: Time, n: Node)
    requires Begun(u, v, begun, now)
    ensures Open(n, u) == Open(n, v)
  {
    forall d <- n.dependsOn
      ensures Find(u, d).Some? == Find(v, d).Some?
      ensures Find(v, d).Some? ==> (Find(u, d).value.status.Succeeded? <==> Find(v, d).value.status.Succeeded?)
    {
      SameVerdict(u, v, d);
    }
  }

  /** The inner loop of startNodes: the node with the ID is started if it is still open. */
  method StartOne(nodes: array<HeapNode>, id: NodeID, now: Time, ghost own: set<object>, ghost u: seq<Node>)
    returns (hit: Option<HeapNode>, ghost i: nat, ghost copies: set<object>)
    requires NodesAre(own, nodes, u)
    modifies nodes
    ensures hit.None? ==> NodesAre(own, nodes, u) && forall j :: 0 <= j < |u| ==> !(u[j].id == id && Open(u[j], u))
    ensures hit.Some? ==>
      i < |u| && u[i].id == id && Open(u[i], u) && NodesAre(own, nodes, u[i := StartNode(u[i], now)])
                          && NodeIs(copies, hit.value, StartNode(u[i], now))
    ensures fresh(copies)
  {
    i, copies := 0, {};
    for index := 0 to nodes.Length
      invariant NodesAre(own, nodes, u) && forall j :: 0 <= j < index ==> !(u[j].id == id && Open(u[j], u))
    {
      var node := nodes[index];
      assert NodeIs(own, node, u[index]);
      if node.id != id || !node.status.Pending? {
        continue;
      }
      var all := HasAllDependencies(node, nodes, own, u[index], u);
      if !all {
        continue;
      }
      node := node.(status := Running, attempts := node.attempts + 1, startedAt := Some(now), finishedAt := None,
                    error := "");
      var copy;
      copy, copies := CloneNode(node, own, StartNode(u[index], now));
      Put(nodes, index, node, own, own, u, StartNode(u[index], now));
      return Some(copy), index, copies;
    }
    return None, i, copies;
  }

  lemma NextBegun(u: seq<Node>, v: seq<Node>, ready: seq<NodeID>, k: nat, now: Time, hit: bool, i: nat)
    requires k < |ready| && Begun(u, v, ready[..k], now) && UniqueIds(v)
    requires forall j :: 0 <= j < k ==> ready[j] != ready[k]
    requires if hit then i < |u| && u[i].id == ready[k] && Open(u[i], u)
             else forall j :: 0 <= j < |u| ==> !(u[j].id == ready[k] && Open(u[j], u))
    ensures Begun(if hit then u[i := StartNode(u[i], now)] else u, v, ready[..k + 1], now)
    ensures hit ==> Find(v, ready[k]) == Some(v[i]) && u[i] == v[i] && Open(v[i], v)
    ensures !hit ==> (Find(v, ready[k]).None? || !Open(Find(v, ready[k]).value, v))
  {
    assert ready[..k + 1] == ready[..k] + [ready[k]];
    forall j | 0 <= j < |v| ensures Open(u[j], u) == Open(u[j], v) { SameOpen(u, v, ready[..k], now, u[j]); }
    forall j | 0 <= j < |v| && v[j].id == ready[k] ensures Find(v, ready[k]) == Some(v[j]) && u[j] == v[j] {
      FindFirst(v, ready[k], j);
    }
  }

  ghost predicate CopiesAre(copies: set<object>, c: seq<HeapNode>, s: seq<Node>)
    reads copies
  {
    |c| == |s| && forall i :: 0 <= i < |s| ==> NodeIs(copies, c[i], s[i])
  }

  lemma OneMoreCopy(copies: set<object>, c: seq<HeapNode>, s: seq<Node>, more: set<object>, n: HeapNode, x: Node)
    requires CopiesAre(copies, c, s) && NodeIs(more, n, x)
    ensures CopiesAre(copies + more, c + [n], s + [x])
  {
    Outer(more, copies + more, n, x);
    forall i | 0 <= i < |s| ensures NodeIs(copies + more, c[i], s[i]) { Outer(copies, copies + more, c[i], s[i]); }
  }

  lemma StartedStep(t: Task, ready: seq<NodeID>, k: nat, now: Time, s: seq<Node>)
    requires k < |ready| && !t.cancelRequested && !t.status.Terminal()
    ensures var m := Find(t.nodes, ready[k]);
            s + Started(t, ready[k..], now)
            == (if m.Some? && Open(m.value, t.nodes) then s + [StartNode(m.value, now)] else s)
                + Started(t, ready[k + 1..], now)
  {
    assert ready[k..][1..] == ready[k + 1..];
  }

  /** After `k` IDs of `ready` the slice says `u` and the copies say `s`. */
  ghost predicate Halfway(t: Task, ready: seq<NodeID>, k: nat, now: Time, u: seq<Node>, s: seq<Node>) {
    && k <= |ready| && Begun(u, t.nodes, ready[..k], now)
    && s + Started(t, ready[k..], now) == Started(t, ready, now)
  }

  lemma HalfwayStep(t: Task, ready: seq<NodeID>, k: nat, now: Time, u: seq<Node>, s: seq<Node>, hit: bool, i: nat)
    requires Halfway(t, ready, k, now, u, s) && k < |ready| && Distinct(ready) && UniqueIds(t.nodes)
    requires !t.cancelRequested && !t.status.Terminal()
    requires if hit then i < |u| && u[i].id == ready[k] && Open(u[i], u)
             else forall j :: 0 <= j < |u| ==> !(u[j].id == ready[k] && Open(u[j], u))
    ensures if hit then Halfway(t, ready, k + 1, now, u[i := StartNode(u[i], now)], s + [StartNode(u[i], now)])
            else Halfway(t, ready, k + 1, now, u, s)
  {
    NextBegun(u, t.nodes, ready, k, now, hit, i);
    StartedStep(t, ready, k, now, s);
  }

  /** Both loops of startNodes: the whole new slice, and the copies of the nodes started in the order of `ready`. */
  method StartReady(nodes: array<HeapNode>, ready: seq<NodeID>, now: Time, ghost own: set<object>, ghost t: Task)
    returns (started: seq<HeapNode>, ghost copies: set<object>)
    requires NodesAre(own, nodes, t.nodes) && UniqueIds(t.nodes) && !t.cancelRequested && !t.status.Terminal()
    requires Distinct(ready)
    modifies nodes
    ensures fresh(copies) && CopiesAre(copies, started, Started(t, ready, now))
    ensures NodesAre(own, nodes, StartNodes(t, ready, now).nodes)
  {
    started, copies := [], {};
    ghost var u, s := t.nodes, [];
    for k := 0 to |ready|
      invariant NodesAre(own, nodes, u) && Halfway(t, ready, k, now, u, s)
      invariant fresh(copies) && CopiesAre(copies, started, s)
    {
      var hit, i, c := StartOne(nodes, ready[k], now, own, u);
      HalfwayStep(t, ready, k, now, u, s, hit.Some?, i);
      if hit.Some? {
        OneMoreCopy(copies, started, s, c, hit.value, StartNode(u[i], now));
        u, s := u[i := StartNode(u[i], now)], s + [StartNode(u[i], now)];
        started, copies := started + [hit.value], copies + c;
      }
    }
    AllBegun(u, t, ready, now);
  }

  lemma AllBegun(u: seq<Node>, t: Task, ready: seq<NodeID>, now: Time)
    requires Begun(u, t.nodes, ready[..|ready|], now) && UniqueIds(t.nodes) && !t.cancelRequested
    requires !t.status.Terminal()
    ensures u == StartNodes(t, ready, now).nodes
  {
    assert ready[..|ready|] == ready;
    if Started(t, ready, now) == [] {
      forall j | 0 <= j < |u| ensures u[j] == t.nodes[j] {
        if t.nodes[j].id in ready && Open(t.nodes[j], t.nodes) { StartedComplete(t, ready, now, j); }
      }
    }
  }

  // ---------------------------------------------------------------- completeIfBlocked

  method HasBusy(nodes: array<HeapNode>, ghost own: set<object>, ghost v: seq<Node>) returns (r: bool)
    requires NodesAre(own, nodes, v)
    ensures r == AnyBusy(v)
  {
    for index := 0 to nodes.Length
      invariant !AnyBusy(v[..index])
    {
      assert NodeIs(own, nodes[index], v[index]) && v[..index + 1] == v[..index] + [v[index]] && v[index] in v;
      if nodes[index].status.Running? || nodes[index].status.Waiting? {
        return true;
      }
    }
    assert v[..|v|] == v;
    return false;
  }

  method HasFailed(nodes: array<HeapNode>, ghost own: set<object>, ghost v: seq<Node>) returns (r: bool)
    requires NodesAre(own, nodes, v)
    ensures r == AnyFailed(v)
  {
    for index := 0 to nodes.Length
      invariant !AnyFailed(v[..index])
    {
      assert NodeIs(own, nodes[index], v[index]) && v[..index + 1] == v[..index] + [v[index]] && v[index] in v;
      if nodes[index].status.Failed? {
        return true;
      }
    }
    assert v[..|v|] == v;
    return false;
  }

  method HasAllSucceeded(nodes: array<HeapNode>, ghost own: set<object>, ghost v: seq<Node>) returns (r: bool)
    requires NodesAre(own, nodes, v)
    ensures r == AllSucceeded(v)
  {
    for index := 0 to nodes.Length
      invariant AllSucceeded(v[..index])
    {
      assert NodeIs(own, nodes[index], v[index]) && v[..index + 1] == v[..index] + [v[index]] && v[index] in v;
      if !nodes[index].status.Succeeded? {
        return false;
      }
    }
    assert v[..|v|] == v;
    return true;
  }

  // ---------------------------------------------------------------- Submit

  /** newSnapshot, on raw bytes. */
  method NewSnapshot(raw: string, capturedAt: Time, now: Time, valid: string -> bool)
    returns (r: Result<HeapSnapshot, Error>)
    ensures match SnapshotOf(raw, capturedAt, now, valid)
            case Err(e) => r == Err(e)
            case Ok(v) => r.Ok? && fresh(r.value.json) && SnapshotIs({r.value.json}, r.value, v)
  {
    var text := raw;
    if |text| == 0 {
      text := "{}";
    }
    if !valid(text) {
      return Err(InvalidSubmission);
    }
    var json := new char[|text|](i requires 0 <= i < |text| => text[i]);
    assert json[..] == text;
    return Ok(HeapSnapshot(json, if capturedAt == 0 then now else capturedAt));
  }

  method BuildNode(spec: NodeSpec, input: HeapSnapshot, ghost v: Snapshot) returns (n: HeapNode, ghost own: set<object>)
    requires SnapshotIs({input.json}, input, v)
    ensures fresh(own - {input.json}) && input.json in own && NodeIs(own, n, NodeOf(spec, v))
  {
    var maxAttempts := spec.maxAttempts;
    if maxAttempts == 0 {
      maxAttempts := 1;
    }
    var dependsOn := new NodeID[|spec.dependsOn|](i requires 0 <= i < |spec.dependsOn| => spec.dependsOn[i]);
    assert dependsOn[..] == spec.dependsOn;
    own := {input.json, dependsOn};
    n := HeapNode(spec.id, dependsOn, spec.invocation, input, None, Pending, 0, maxAttempts, "", "", None, None);
  }

  lemma {:induction false} NodesOfPrefix(specs: seq<NodeSpec>, k: nat, now: Time, valid: string -> bool)
    requires k < |specs| && NodesOf(specs[..k], now, valid).Ok?
    ensures match SnapshotOf(specs[k].input, now, now, valid)
            case Err(e) => NodesOf(specs[..k + 1], now, valid) == Err(e) && NodesOf(specs, now, valid) == Err(e)
            case Ok(v) =>
              NodesOf(specs[..k + 1], now, valid) == Ok(NodesOf(specs[..k], now, valid).value + [NodeOf(specs[k], v)])
  {
    if k == 0 {
      assert specs[..0] == [] && specs[..1][1..] == [] && specs[..1][0] == specs[0];
      if SnapshotOf(specs[0].input, now, now, valid).Ok? {
        var first := [NodeOf(specs[0], SnapshotOf(specs[0].input, now, now, valid).value)];
        assert NodesOf(specs[..1], now, valid) == Ok(first + []) && first + [] == [] + first;
      }
    } else {
      assert specs[..k][1..] == specs[1..][..k - 1] && specs[..k + 1][1..] == specs[1..][..k];
      NodesOfPrefix(specs[1..], k - 1, now, valid);
      assert specs[1..][k - 1] == specs[k];
      if SnapshotOf(specs[k].input, now, now, valid).Ok? {
        var input := SnapshotOf(specs[0].input, now, now, valid).value;
        var rest := NodesOf(specs[1..][..k - 1], now, valid).value;
        assert NodesOf(specs[..k], now, valid).value == [NodeOf(specs[0], input)] + rest;
        var last := NodeOf(specs[k], SnapshotOf(specs[k].input, now, now, valid).value);
        assert [NodeOf(specs[0], input)] + (rest + [last]) == [NodeOf(specs[0], input)] + rest + [last];
      }
    }
  }

  /** The loop of Submit over the node specs. */
  method BuildNodes(specs: seq<NodeSpec>, now: Time, valid: string -> bool)
    returns (r: Result<array<HeapNode>, Error>, ghost own: set<object>)
    ensures fresh(own)
    ensures match NodesOf(specs, now, valid)
            case Err(e) => r == Err(e)
            case Ok(v) => r.Ok? && NodesAre(own, r.value, v)
  {
    own := {};
    var nodes: seq<HeapNode> := [];
    for k := 0 to |specs|
      invariant fresh(own) && NodesOf(specs[..k], now, valid).Ok?
      invariant CopiesAre(own, nodes, NodesOf(specs[..k], now, valid).value)
    {
      var input := NewSnapshot(specs[k].input, now, now, valid);
      NodesOfPrefix(specs, k, now, valid);
      if input.Err? {
        return Err(input.error), own;
      }
      ghost var v := SnapshotOf(specs[k].input, now, now, valid).value;
      var node, reached := BuildNode(specs[k], input.value, v);
      OneMoreCopy(own, nodes, NodesOf(specs[..k], now, valid).value, reached, node, NodeOf(specs[k], v));
      nodes, own := nodes + [node], own + reached;
    }
    assert specs[..|specs|] == specs;
    var slice := new HeapNode[|nodes|](i requires 0 <= i < |nodes| => nodes[i]);
    ghost var v := NodesOf(specs, now, valid).value;
    forall i | 0 <= i < |v| ensures NodeIs(own + {slice}, slice[i], v[i]) { Outer(own, own + {slice}, nodes[i], v[i]); }
    own := own + {slice};
    return Ok(slice), own;
  }
}
