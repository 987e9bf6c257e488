/** Workflow.Validate (internal/service/pipeline/types.go) accepts exactly the well-formed acyclic workflows. */
module Validate {
  import opened Types
  import opened TaskOps
  import opened TaskInvariant

  datatype Defect =
    | Empty | BlankId | DuplicateNode(id: NodeID) | BadKind(id: NodeID) | BlankTarget(id: NodeID)
    | NegativeAttempts(id: NodeID) | BadInput(id: NodeID)
    | UnknownDependency(id: NodeID, dependency: NodeID) | SelfDependency(id: NodeID)
    | DuplicateDependency(id: NodeID, dependency: NodeID) | Cycle(id: NodeID)

  // ---------------------------------------------------------------- what a good workflow is

  predicate Known(nodes: seq<NodeSpec>, id: NodeID) {
    exists n <- nodes :: n.id == id
  }

  predicate KnownKind(kind: string) {
    kind == AGENT || kind == STEP || kind == TOOL
  }

  predicate NodeWellFormed(n: NodeSpec, valid: string -> bool) {
    && TrimSpace(n.id) != "" && KnownKind(n.invocation.kind) && TrimSpace(n.invocation.target) != ""
    && 0 <= n.maxAttempts && (n.input == "" || valid(n.input))
  }

  ghost predicate DependenciesWellFormed(nodes: seq<NodeSpec>, n: NodeSpec) {
    && (forall d <- n.dependsOn :: Known(nodes, d) && d != n.id)
    && (forall j, k :: 0 <= j < k < |n.dependsOn| ==> n.dependsOn[j] != n.dependsOn[k])
  }

  ghost predicate WellFormed(w: Workflow, valid: string -> bool) {
    && w.nodes != []
    && (forall i, j :: 0 <= i < j < |w.nodes| ==> w.nodes[i].id != w.nodes[j].id)
    && (forall n <- w.nodes :: NodeWellFormed(n, valid) && DependenciesWellFormed(w.nodes, n))
  }

  /** A topological rank of the dependency graph. */
  ghost predicate IsRank(nodes: seq<NodeSpec>, rank: map<NodeID, nat>) {
    forall n <- nodes :: n.id in rank && forall d <- n.dependsOn :: d in rank && rank[d] < rank[n.id]
  }

  ghost predicate Acyclic(nodes: seq<NodeSpec>) {
    exists rank :: IsRank(nodes, rank)
  }

  ghost predicate Depends(nodes: seq<NodeSpec>, from: NodeID, to: NodeID) {
    exists n <- nodes :: n.id == from && to in n.dependsOn
  }

  ghost predicate Chain(nodes: seq<NodeSpec>, p: seq<NodeID>) {
    forall k :: 0 <= k < |p| - 1 ==> Depends(nodes, p[k], p[k + 1])
  }

  /** A closed walk of at least one dependency edge through `id`. */
  ghost predicate CycleThrough(nodes: seq<NodeSpec>, id: NodeID) {
    exists p :: |p| >= 2 && p[0] == id && p[|p| - 1] == id && Chain(nodes, p)
  }

  /** What each error message claims. */
  ghost predicate Describes(w: Workflow, valid: string -> bool, e: Defect) {
    match e
    case Empty => w.nodes == []
    case BlankId => exists n <- w.nodes :: TrimSpace(n.id) == ""
    case DuplicateNode(id) => exists i, j :: 0 <= i < j < |w.nodes| && w.nodes[i].id == w.nodes[j].id == id
    case BadKind(id) => exists n <- w.nodes :: n.id == id && !KnownKind(n.invocation.kind)
    case BlankTarget(id) => exists n <- w.nodes :: n.id == id && TrimSpace(n.invocation.target) == ""
    case NegativeAttempts(id) => exists n <- w.nodes :: n.id == id && n.maxAttempts < 0
    case BadInput(id) => exists n <- w.nodes :: n.id == id && n.input != "" && !valid(n.input)
    case UnknownDependency(id, d) => Depends(w.nodes, id, d) && !Known(w.nodes, d)
    case SelfDependency(id) => Depends(w.nodes, id, id)
    case DuplicateDependency(id, d) =>
      exists n <- w.nodes :: n.id == id && exists j, k ::
          0 <= j < k < |n.dependsOn| && n.dependsOn[j] == n.dependsOn[k] == d
    case Cycle(id) => CycleThrough(w.nodes, id)
  }

  // ---------------------------------------------------------------- a cycle excludes a rank

  lemma {:induction false} RanksFall(nodes: seq<NodeSpec>, rank: map<NodeID, nat>, p: seq<NodeID>)
    requires IsRank(nodes, rank) && Chain(nodes, p) && |p| >= 2
    ensures p[0] in rank && p[|p| - 1] in rank && rank[p[|p| - 1]] < rank[p[0]]
    decreases |p|
  {
    assert Depends(nodes, p[0], p[0 + 1]);
    if |p| > 2 {
      forall k | 0 <= k < |p[1..]| - 1 ensures Depends(nodes, p[1..][k], p[1..][k + 1]) {
        assert Depends(nodes, p[k + 1], p[k + 1 + 1]);
      }
      RanksFall(nodes, rank, p[1..]);
    }
  }

  lemma CyclesAreNotRanked(nodes: seq<NodeSpec>, id: NodeID)
    requires CycleThrough(nodes, id)
    ensures !Acyclic(nodes)
  {
    var p :| |p| >= 2 && p[0] == id && p[|p| - 1] == id && Chain(nodes, p);
    forall rank ensures !IsRank(nodes, rank) {
      if IsRank(nodes, rank) {
        RanksFall(nodes, rank, p);
        assert false;
      }
    }
  }

  // ---------------------------------------------------------------- the depth-first search

  predicate Edge(known: map<NodeID, NodeSpec>, id: NodeID, d: NodeID) {
    id in known && d in known[id].dependsOn
  }

  ghost predicate Indexed(nodes: seq<NodeSpec>, known: map<NodeID, NodeSpec>) {
    && (forall n <- nodes :: n.id in known)
    && (forall id <- known :: known[id] in nodes && known[id].id == id)
    && (forall id, d :: Edge(known, id, d) ==> d in known)
  }

  /** What has been visited is closed under dependencies and ranked by finishing order. */
  ghost predicate Closed(known: map<NodeID, NodeSpec>, visited: set<NodeID>, rank: map<NodeID, nat>) {
    && visited <= known.Keys && rank.Keys == visited
    && (forall id <- visited :: rank[id] < |visited|)
    && (forall id, d :: id in visited && Edge(known, id, d) ==> d in visited && rank[d] < rank[id])
  }

  lemma ClosedAfter(known: map<NodeID, NodeSpec>, visited: set<NodeID>, rank: map<NodeID, nat>, id: NodeID)
    requires Closed(known, visited, rank) && id in known && id !in visited
    requires AllIn(known[id].dependsOn, |known[id].dependsOn|, visited)
    ensures Closed(known, visited + {id}, rank[id := |visited|])
  {
    assert |visited + {id}| == |visited| + 1;
  }

  ghost predicate AllIn(ids: seq<NodeID>, n: nat, visited: set<NodeID>)
    requires n <= |ids|
  {
    forall j :: 0 <= j < n ==> ids[j] in visited
  }

  lemma OneMoreIn(ids: seq<NodeID>, n: nat, before: set<NodeID>, after: set<NodeID>)
    requires n < |ids| && AllIn(ids, n, before) && before <= after && ids[n] in after
    ensures AllIn(ids, n + 1, after)
  {
  }

  /** The variables the closure `visit` captures. */
  class DepthFirst {
    const nodes: seq<NodeSpec>
    const known: map<NodeID, NodeSpec>
    var visiting: set<NodeID>
    var visited: set<NodeID>
    ghost var rank: map<NodeID, nat>

    ghost predicate Valid()
      reads this
    {
      Indexed(nodes, known) && Closed(known, visited, rank) && visiting <= known.Keys && visited !! visiting
    }

    constructor (nodes: seq<NodeSpec>, known: map<NodeID, NodeSpec>)
      requires Indexed(nodes, known)
      ensures Valid() && this.nodes == nodes && this.known == known && visiting == {} && visited == {}
    {
      this.nodes, this.known := nodes, known;
      visiting, visited := {}, {};
      rank := map[];
    }

    /** visit(id), reached along the chain `stack` of nodes being visited. */
    method Visit(id: NodeID, ghost stack: seq<NodeID>) returns (cycle: Option<NodeID>)
      requires Valid() && id in known
      requires Chain(nodes, stack + [id]) && visiting == (set x | x in stack)
      modifies this
      ensures cycle.None? ==> Valid() && id in visited && visiting == old(visiting) && old(visited) <= visited
      ensures cycle.Some? ==> CycleThrough(nodes, cycle.value)
      decreases known.Keys - visited - visiting
    {
      if id in visiting {
        CycleOnStack(nodes, stack, id);
        return Some(id);
      }
      if id in visited {
        return None;
      }
      visiting := visiting + {id};
      var dependsOn := known[id].dependsOn;
      var i := 0;
      while i < |dependsOn|
        invariant 0 <= i <= |dependsOn|
        invariant Valid() && visiting == old(visiting) + {id} && old(visited) <= visited
        invariant AllIn(dependsOn, i, visited)
      {
        assert Edge(known, id, dependsOn[i]);
        assert Depends(nodes, id, dependsOn[i]) by { assert known[id] in nodes; }
        ChainExtends(nodes, stack + [id], dependsOn[i]);
        assert visiting == set x | x in stack + [id];
        ghost var before := visited;
        var inner := Visit(dependsOn[i], stack + [id]);
        if inner.Some? {
          return inner;
        }
        OneMoreIn(dependsOn, i, before, visited);
        i := i + 1;
      }
      ClosedAfter(known, visited, rank, id);
      visiting := visiting - {id};
      rank := rank[id := |visited|];
      visited := visited + {id};
      return None;
    }
  }

  lemma ChainExtends(nodes: seq<NodeSpec>, p: seq<NodeID>, id: NodeID)
    requires Chain(nodes, p) && p != [] && Depends(nodes, p[|p| - 1], id)
    ensures Chain(nodes, p + [id])
  {
    var q := p + [id];
    forall k | 0 <= k < |q| - 1 ensures Depends(nodes, q[k], q[k + 1]) {
      if k < |p| - 1 { assert Depends(nodes, p[k], p[k + 1]); }
    }
  }

  /** A node met again while it is being visited closes a cycle. */
  lemma CycleOnStack(nodes: seq<NodeSpec>, stack: seq<NodeID>, id: NodeID)
    requires Chain(nodes, stack + [id]) && id in stack
    ensures CycleThrough(nodes, id)
  {
    var at :| 0 <= at < |stack| && stack[at] == id;
    var full := stack + [id];
    var p := full[at..];
    forall k | 0 <= k < |p| - 1 ensures Depends(nodes, p[k], p[k + 1]) {
      assert Depends(nodes, full[at + k], full[at + k + 1]);
    }
    assert Chain(nodes, p);
  }

  // ---------------------------------------------------------------- Validate

  /** The first n nodes are well-formed, have distinct IDs, and are what `known` holds. */
  ghost predicate Checked(nodes: seq<NodeSpec>, n: nat, known: map<NodeID, NodeSpec>, valid: string -> bool)
    requires n <= |nodes|
  {
    && (forall i :: 0 <= i < n ==>
        NodeWellFormed(nodes[i], valid) && nodes[i].id in known && known[nodes[i].id] == nodes[i])
    && (forall id <- known :: known[id].id == id && known[id] in nodes[..n])
    && (forall i, j :: 0 <= i < j < n ==> nodes[i].id != nodes[j].id)
  }

  lemma OneMoreChecked(nodes: seq<NodeSpec>, n: nat, known: map<NodeID, NodeSpec>, valid: string -> bool)
    requires n < |nodes| && Checked(nodes, n, known, valid)
    requires NodeWellFormed(nodes[n], valid) && nodes[n].id !in known
    ensures Checked(nodes, n + 1, known[nodes[n].id := nodes[n]], valid)
  {
    assert nodes[..n + 1] == nodes[..n] + [nodes[n]];
  }

  lemma DuplicateIsReal(nodes: seq<NodeSpec>, n: nat, known: map<NodeID, NodeSpec>, valid: string -> bool)
    requires n < |nodes| && Checked(nodes, n, known, valid) && nodes[n].id in known
    ensures exists i, j :: 0 <= i < j < |nodes| && nodes[i].id == nodes[j].id == nodes[n].id
  {
    var i :| 0 <= i < n && nodes[i] == known[nodes[n].id];
  }

  /** The first loop: every node on its own, and the index by ID. */
  method CheckNodes(w: Workflow, valid: string -> bool) returns (defect: Option<Defect>, known: map<NodeID, NodeSpec>)
    ensures defect.Some? ==> Describes(w, valid, defect.value) && !defect.value.Cycle?
    ensures defect.None? ==> Checked(w.nodes, |w.nodes|, known, valid)
  {
    known := map[];
    for i := 0 to |w.nodes|
      invariant Checked(w.nodes, i, known, valid)
    {
      var node := w.nodes[i];
      assert node in w.nodes;
      if TrimSpace(node.id) == "" {
        return Some(BlankId), known;
      }
      if node.id in known {
        DuplicateIsReal(w.nodes, i, known, valid);
        return Some(DuplicateNode(node.id)), known;
      }
      if !KnownKind(node.invocation.kind) {
        return Some(BadKind(node.id)), known;
      }
      if TrimSpace(node.invocation.target) == "" {
        return Some(BlankTarget(node.id)), known;
      }
      if node.maxAttempts < 0 {
        return Some(NegativeAttempts(node.id)), known;
      }
      if |node.input| > 0 && !valid(node.input) {
        return Some(BadInput(node.id)), known;
      }
      OneMoreChecked(w.nodes, i, known, valid);
      known := known[node.id := node];
    }
    return None, known;
  }

  /** The second loop: the dependencies of one node. */
  method CheckDependencies(w: Workflow, valid: string -> bool, known: map<NodeID, NodeSpec>, node: NodeSpec)
    returns (defect: Option<Defect>)
    requires node in w.nodes && forall id :: id in known <==> Known(w.nodes, id)
    ensures defect.Some? ==> Describes(w, valid, defect.value) && !defect.value.Cycle?
    ensures defect.None? ==> DependenciesWellFormed(w.nodes, node)
  {
    var seen: set<NodeID> := {};
    for i := 0 to |node.dependsOn|
      invariant seen == set j | 0 <= j < i :: node.dependsOn[j]
      invariant forall j :: 0 <= j < i ==> Known(w.nodes, node.dependsOn[j]) && node.dependsOn[j] != node.id
      invariant forall j, k :: 0 <= j < k < i ==> node.dependsOn[j] != node.dependsOn[k]
    {
      var dependency := node.dependsOn[i];
      assert Depends(w.nodes, node.id, dependency);
      if dependency !in known {
        return Some(UnknownDependency(node.id, dependency));
      }
      if dependency == node.id {
        return Some(SelfDependency(node.id));
      }
      if dependency in seen {
        return Some(DuplicateDependency(node.id, dependency));
      }
      seen := seen + {dependency};
    }
    return None;
  }

  /** Every message states a defect the workflow has. */
  lemma DefectsAreReal(w: Workflow, valid: string -> bool, e: Defect)
    requires Describes(w, valid, e)
    ensures if e.Cycle? then !Acyclic(w.nodes) else !WellFormed(w, valid)
  {
    match e
    case Cycle(id) => CyclesAreNotRanked(w.nodes, id);
    case _ =>
  }

  /** Validate returns nil exactly on the well-formed workflows whose graph has a topological rank; an error states a
      defect the workflow has, and a cycle is reported only on a workflow without any other. */
  method Validate(w: Workflow, valid: string -> bool) returns (defect: Option<Defect>)
    ensures defect.None? <==> WellFormed(w, valid) && Acyclic(w.nodes)
    ensures defect.Some? ==> Describes(w, valid, defect.value)
    ensures defect.Some? && defect.value.Cycle? ==> WellFormed(w, valid)
  {
    if |w.nodes| == 0 {
      return Some(Empty);
    }
    var known;
    defect, known := CheckNodes(w, valid);
    if defect.Some? {
      DefectsAreReal(w, valid, defect.value);
      return;
    }
    KnownIsIndex(w.nodes, known, valid);
    for i := 0 to |w.nodes|
      invariant DependenciesChecked(w.nodes, i)
    {
      defect := CheckDependencies(w, valid, known, w.nodes[i]);
      if defect.Some? {
        DefectsAreReal(w, valid, defect.value);
        return;
      }
      OneMoreDependenciesChecked(w.nodes, i);
    }
    AllChecked(w, known, valid);
    defect := FindCycle(w, known);
    if defect.Some? { DefectsAreReal(w, valid, defect.value); }
  }

  ghost predicate DependenciesChecked(nodes: seq<NodeSpec>, n: nat)
    requires n <= |nodes|
  {
    forall j :: 0 <= j < n ==> DependenciesWellFormed(nodes, nodes[j])
  }

  lemma OneMoreDependenciesChecked(nodes: seq<NodeSpec>, n: nat)
    requires n < |nodes| && DependenciesChecked(nodes, n) && DependenciesWellFormed(nodes, nodes[n])
    ensures DependenciesChecked(nodes, n + 1)
  {
  }

  lemma KnownIsIndex(nodes: seq<NodeSpec>, known: map<NodeID, NodeSpec>, valid: string -> bool)
    requires Checked(nodes, |nodes|, known, valid)
    ensures forall id :: id in known <==> Known(nodes, id)
  {
    assert nodes[..|nodes|] == nodes;
  }

  lemma AllChecked(w: Workflow, known: map<NodeID, NodeSpec>, valid: string -> bool)
    requires w.nodes != [] && Checked(w.nodes, |w.nodes|, known, valid)
    requires DependenciesChecked(w.nodes, |w.nodes|)
    ensures WellFormed(w, valid) && Indexed(w.nodes, known)
    ensures forall i :: 0 <= i < |w.nodes| ==> known[w.nodes[i].id] == w.nodes[i]
  {
    KnownIsIndex(w.nodes, known, valid);
    assert w.nodes[..|w.nodes|] == w.nodes;
    forall id, d | Edge(known, id, d) ensures d in known {
      assert DependenciesWellFormed(w.nodes, known[id]);
    }
  }

  ghost predicate AllVisited(nodes: seq<NodeSpec>, n: nat, visited: set<NodeID>)
    requires n <= |nodes|
  {
    forall j :: 0 <= j < n ==> nodes[j].id in visited
  }

  lemma OneMoreVisited(nodes: seq<NodeSpec>, n: nat, before: set<NodeID>, after: set<NodeID>)
    requires n < |nodes| && AllVisited(nodes, n, before) && before <= after && nodes[n].id in after
    ensures AllVisited(nodes, n + 1, after)
  {
  }

  /** Once every node has been visited the finishing order ranks the whole graph. */
  lemma VisitedAllIsRanked(nodes: seq<NodeSpec>, known: map<NodeID, NodeSpec>, visited: set<NodeID>,
                           rank: map<NodeID, nat>)
    requires Closed(known, visited, rank) && AllVisited(nodes, |nodes|, visited)
    requires forall i :: 0 <= i < |nodes| ==> nodes[i].id in known && known[nodes[i].id] == nodes[i]
    ensures IsRank(nodes, rank)
  {
    forall n <- nodes ensures n.id in rank && forall d <- n.dependsOn :: d in rank && rank[d] < rank[n.id] {
      forall d <- n.dependsOn ensures d in rank && rank[d] < rank[n.id] { assert Edge(known, n.id, d); }
    }
  }

  /** The third loop: visit from every node. */
  method FindCycle(w: Workflow, known: map<NodeID, NodeSpec>) returns (defect: Option<Defect>)
    requires Indexed(w.nodes, known)
    requires forall i :: 0 <= i < |w.nodes| ==> w.nodes[i].id in known && known[w.nodes[i].id] == w.nodes[i]
    ensures defect.None? ==> Acyclic(w.nodes)
    ensures defect.Some? ==> defect.value.Cycle? && CycleThrough(w.nodes, defect.value.id)
  {
    var search := new DepthFirst(w.nodes, known);
    for i := 0 to |w.nodes|
      invariant search.Valid() && search.visiting == {}
      invariant AllVisited(w.nodes, i, search.visited)
    {
      ghost var before := search.visited;
      var cycle := search.Visit(w.nodes[i].id, []);
      if cycle.Some? {
        return Some(Cycle(cycle.value));
      }
      OneMoreVisited(w.nodes, i, before, search.visited);
    }
    VisitedAllIsRanked(w.nodes, known, search.visited, search.rank);
    return None;
  }

  // ---------------------------------------------------------------- the task built from a valid workflow

  /** The nodes Submit builds from the specs. */
  ghost predicate BuiltFrom(nodes: seq<Node>, specs: seq<NodeSpec>) {
    |nodes| == |specs| && forall i :: 0 <= i < |nodes| ==> nodes[i] == NodeOf(specs[i], nodes[i].input)
  }

  /** Acceptance by Validate is what the scheduler relies on. */
  lemma ValidatedGraphIsOk(w: Workflow, valid: string -> bool, nodes: seq<Node>)
    requires WellFormed(w, valid) && Acyclic(w.nodes) && BuiltFrom(nodes, w.nodes)
    ensures GraphOk(nodes) && forall n <- nodes :: 1 <= n.maxAttempts
  {
    var rank :| IsRank(w.nodes, rank);
    forall i | 0 <= i < |nodes|
      ensures nodes[i].id in rank && 1 <= nodes[i].maxAttempts
      ensures forall d <- nodes[i].dependsOn :: d in rank && d in Ids(nodes) && rank[d] < rank[nodes[i].id]
    {
      assert w.nodes[i] in w.nodes;
      forall d <- nodes[i].dependsOn ensures d in Ids(nodes) {
        assert Known(w.nodes, d);
        var j :| 0 <= j < |w.nodes| && w.nodes[j].id == d;
        assert nodes[j].id == d;
      }
    }
    assert Ranked(nodes, rank);
  }
}
