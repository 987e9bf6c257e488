/** The four structs of the task view (kitex_gen/handler/v0_1/shot_preview.go) and their tables: field IDs, types and
    write order as the generated code has them. */
module Views {
  import opened Types
  import opened Thrift
  import opened Codec
  import opened CodecResults

  datatype FailureView = FailureView(code: Bytes, message: Bytes, retryable: bool)

  datatype NodeView = NodeView(
    nodeId: Bytes, status: int, attempts: int, startedAt: Option<Bytes>, finishedAt: Option<Bytes>,
    failure: Option<FailureView>)

  datatype ArtifactView = ArtifactView(kind: Bytes, uri: Bytes, name: Bytes)

  /** Lists hold pointers, so an element may be nil (None). */
  datatype TaskView = TaskView(
    taskId: Bytes, status: int, workflowId: Bytes, workflowVersion: Bytes, nodes: seq<Option<NodeView>>,
    artifacts: seq<Option<ArtifactView>>, failure: Option<FailureView>, createdAt: Bytes, updatedAt: Bytes,
    finishedAt: Option<Bytes>)

  // ---------------------------------------------------------------- the tables

  const FAILURE := Schema([FieldSpec(3, BoolT, true), FieldSpec(1, StringT, true), FieldSpec(2, StringT, true)])

  const NODE := Schema([
                         FieldSpec(3, I32T, true), FieldSpec(1, StringT, true), FieldSpec(2, I32T, true),
                         FieldSpec(4, StringT, false), FieldSpec(5, StringT, false),
                         FieldSpec(6, StructT(FAILURE), false)])

  const ARTIFACT := Schema([FieldSpec(1, StringT, true), FieldSpec(2, StringT, true), FieldSpec(3, StringT, true)])

  const TASK := Schema([
                         FieldSpec(1, StringT, true), FieldSpec(2, I32T, true), FieldSpec(3, StringT, true),
                         FieldSpec(4, StringT, true), FieldSpec(5, ListT(NODE), true),
                         FieldSpec(6, ListT(ARTIFACT), true),
                         FieldSpec(7, StructT(FAILURE), false), FieldSpec(8, StringT, true),
                         FieldSpec(9, StringT, true),
                         FieldSpec(10, StringT, false)])

  lemma SmallTablesAreWellFormed()
    ensures WellFormed(FAILURE) && WellFormed(NODE) && WellFormed(ARTIFACT)
  {
  }

  lemma TablesAreWellFormed()
    ensures WellFormed(FAILURE) && WellFormed(NODE) && WellFormed(ARTIFACT) && WellFormed(TASK)
  {
    SmallTablesAreWellFormed();
    assert TypeOk(ListT(NODE)) && TypeOk(ListT(ARTIFACT)) && TypeOk(StructT(FAILURE));
  }

  // ---------------------------------------------------------------- structs as field maps

  function Optional(m: Fields, id: nat, v: Option<Value>): Fields {
    if v.Some? then m[id := v.value] else m
  }

  function MaybeString(s: Option<Bytes>): Option<Value> {
    match s case None => None case Some(x) => Some(StringV(x))
  }

  function MaybeFailure(f: Option<FailureView>): Option<Value> {
    match f case None => None case Some(x) => Some(StructV(FailureFields(x)))
  }

  function FailureFields(f: FailureView): Fields {
    map[1 := StringV(f.code), 2 := StringV(f.message), 3 := BoolV(f.retryable)]
  }

  function NodeFields(n: NodeView): Fields {
    Optional(Optional(Optional(
                        map[1 := StringV(n.nodeId), 2 := I32V(n.status), 3 := I32V(n.attempts)],
                        4, MaybeString(n.startedAt)), 5, MaybeString(n.finishedAt)), 6, MaybeFailure(n.failure))
  }

  function ArtifactFields(a: ArtifactView): Fields {
    map[1 := StringV(a.kind), 2 := StringV(a.uri), 3 := StringV(a.name)]
  }

  function NodeItems(nodes: seq<Option<NodeView>>): (r: seq<Option<Fields>>)
    ensures |r| == |nodes|
    ensures forall i :: 0 <= i < |r| ==> r[i] == if nodes[i].Some? then Some(NodeFields(nodes[i].value)) else None
  {
    seq(|nodes|, i requires 0 <= i < |nodes| => if nodes[i].Some? then Some(NodeFields(nodes[i].value)) else None)
  }

  function ArtifactItems(artifacts: seq<Option<ArtifactView>>): (r: seq<Option<Fields>>)
    ensures |r| == |artifacts|
    ensures forall i :: 0 <= i < |r| ==>
      r[i] == if artifacts[i].Some? then Some(ArtifactFields(artifacts[i].value)) else None
  {
    seq(|artifacts|, i requires 0 <= i < |artifacts| =>
      if artifacts[i].Some? then Some(ArtifactFields(artifacts[i].value)) else None)
  }

  function TaskFields(t: TaskView): Fields {
    Optional(Optional(
               map[1 := StringV(t.taskId), 2 := I32V(t.status), 3 := StringV(t.workflowId),
                   4 := StringV(t.workflowVersion),
                   5 := ListV(NodeItems(t.nodes)), 6 := ListV(ArtifactItems(t.artifacts)),
                   8 := StringV(t.createdAt), 9 := StringV(t.updatedAt)],
               7, MaybeFailure(t.failure)), 10, MaybeString(t.finishedAt))
  }

  // ---------------------------------------------------------------- field maps as structs

  function StringAt(m: Fields, id: nat): Bytes {
    if id in m && m[id].StringV? then m[id].s else []
  }

  function NumberAt(m: Fields, id: nat): int {
    if id in m && m[id].I32V? then m[id].n else 0
  }

  function StringPointerAt(m: Fields, id: nat): Option<Bytes> {
    if id in m && m[id].StringV? then Some(m[id].s) else None
  }

  function FailureAt(m: Fields, id: nat): Option<FailureView> {
    if id in m && m[id].StructV? then Some(FailureOf(m[id].fields)) else None
  }

  function ItemsAt(m: Fields, id: nat): seq<Option<Fields>> {
    if id in m && m[id].ListV? then m[id].items else []
  }

  function FailureOf(m: Fields): FailureView {
    FailureView(StringAt(m, 1), StringAt(m, 2), 3 in m && m[3].BoolV? && m[3].b)
  }

  function NodeOf(m: Fields): NodeView {
    NodeView(StringAt(m, 1), NumberAt(m, 2), NumberAt(m, 3), StringPointerAt(m, 4), StringPointerAt(m, 5),
             FailureAt(m, 6))
  }

  function ArtifactOf(m: Fields): ArtifactView {
    ArtifactView(StringAt(m, 1), StringAt(m, 2), StringAt(m, 3))
  }

  function NodesOf(items: seq<Option<Fields>>): (r: seq<Option<NodeView>>)
    ensures |r| == |items|
    ensures forall i :: 0 <= i < |r| ==> r[i] == if items[i].Some? then Some(NodeOf(items[i].value)) else None
  {
    seq(|items|, i requires 0 <= i < |items| => if items[i].Some? then Some(NodeOf(items[i].value)) else None)
  }

  function ArtifactsOf(items: seq<Option<Fields>>): (r: seq<Option<ArtifactView>>)
    ensures |r| == |items|
    ensures forall i :: 0 <= i < |r| ==> r[i] == if items[i].Some? then Some(ArtifactOf(items[i].value)) else None
  {
    seq(|items|, i requires 0 <= i < |items| => if items[i].Some? then Some(ArtifactOf(items[i].value)) else None)
  }

  function TaskOf(m: Fields): TaskView {
    TaskView(StringAt(m, 1), NumberAt(m, 2), StringAt(m, 3), StringAt(m, 4), NodesOf(ItemsAt(m, 5)),
             ArtifactsOf(ItemsAt(m, 6)),
             FailureAt(m, 7), StringAt(m, 8), StringAt(m, 9), StringPointerAt(m, 10))
  }

  lemma FailureThere(f: FailureView)
    ensures FailureOf(FailureFields(f)) == f
  {
  }

  lemma NodeThere(n: NodeView)
    ensures NodeOf(NodeFields(n)) == n
  {
    if n.failure.Some? { FailureThere(n.failure.value); }
  }

  lemma ListsThere(nodes: seq<Option<NodeView>>, artifacts: seq<Option<ArtifactView>>)
    ensures NodesOf(NodeItems(nodes)) == nodes && ArtifactsOf(ArtifactItems(artifacts)) == artifacts
  {
    forall i | 0 <= i < |nodes| ensures NodesOf(NodeItems(nodes))[i] == nodes[i] {
      if nodes[i].Some? { NodeThere(nodes[i].value); }
    }
    forall i | 0 <= i < |artifacts| ensures ArtifactsOf(ArtifactItems(artifacts))[i] == artifacts[i] {
    }
  }

  lemma PlainFieldsThere(t: TaskView)
    ensures var m := TaskFields(t);
            && StringAt(m, 1) == t.taskId && NumberAt(m, 2) == t.status && StringAt(m, 3) == t.workflowId
            && StringAt(m, 4) == t.workflowVersion && StringAt(m, 8) == t.createdAt && StringAt(m, 9) == t.updatedAt
            && StringPointerAt(m, 10) == t.finishedAt
  {
  }

  lemma OtherFieldsThere(t: TaskView)
    ensures var m := TaskFields(t);
            && ItemsAt(m, 5) == NodeItems(t.nodes) && ItemsAt(m, 6) == ArtifactItems(t.artifacts)
            && FailureAt(m, 7) == t.failure
  {
    if t.failure.Some? { FailureThere(t.failure.value); }
  }

  lemma TaskThere(t: TaskView)
    ensures TaskOf(TaskFields(t)) == t
  {
    PlainFieldsThere(t);
    OtherFieldsThere(t);
    ListsThere(t.nodes, t.artifacts);
  }

  // ---------------------------------------------------------------- what survives the wire

  predicate Short(s: Bytes) {
    |s| < TWO31
  }

  predicate ShortPointer(s: Option<Bytes>) {
    s.Some? ==> Short(s.value)
  }

  predicate InI32(n: int) {
    -TWO31 <= n < TWO31
  }

  predicate FailureFits(f: FailureView) {
    Short(f.code) && Short(f.message)
  }

  predicate FailurePointerFits(f: Option<FailureView>) {
    f.Some? ==> FailureFits(f.value)
  }

  predicate NodeFits(n: NodeView) {
    && Short(n.nodeId) && InI32(n.status) && InI32(n.attempts) && ShortPointer(n.startedAt)
    && ShortPointer(n.finishedAt)
    && FailurePointerFits(n.failure)
  }

  predicate ArtifactFits(a: ArtifactView) {
    Short(a.kind) && Short(a.uri) && Short(a.name)
  }

  /** Lengths below 2^31, enums and counts in 32 bits, and no nil elements. */
  predicate TaskFits(t: TaskView) {
    && Short(t.taskId) && InI32(t.status) && Short(t.workflowId) && Short(t.workflowVersion)
    && |t.nodes| < TWO31 && (forall i :: 0 <= i < |t.nodes| ==> t.nodes[i].Some? && NodeFits(t.nodes[i].value))
    && |t.artifacts| < TWO31
    && (forall i :: 0 <= i < |t.artifacts| ==> t.artifacts[i].Some? && ArtifactFits(t.artifacts[i].value))
    && FailurePointerFits(t.failure) && Short(t.createdAt) && Short(t.updatedAt) && ShortPointer(t.finishedAt)
  }

  /** The `k`-th field of a table, if present, is of its type. */
  ghost predicate FieldFits(schema: Schema, m: Fields, k: nat) {
    k < |schema.fields| ==> schema.fields[k].id in m ==> Fits(schema.fields[k].ty, m[schema.fields[k].id])
  }

  lemma FailureFieldsFit(f: FailureView)
    ensures FieldsFit(FAILURE, FailureFields(f)) <==> FailureFits(f)
  {
    var m := FailureFields(f);
    assert FieldFits(FAILURE, m, 0);
    assert FieldFits(FAILURE, m, 1) <==> Short(f.code);
    assert FieldFits(FAILURE, m, 2) <==> Short(f.message);
  }

  lemma ArtifactFieldsFit(a: ArtifactView)
    ensures FieldsFit(ARTIFACT, ArtifactFields(a)) <==> ArtifactFits(a)
  {
    var m := ArtifactFields(a);
    assert FieldFits(ARTIFACT, m, 0) <==> Short(a.kind);
    assert FieldFits(ARTIFACT, m, 1) <==> Short(a.uri);
    assert FieldFits(ARTIFACT, m, 2) <==> Short(a.name);
  }

  lemma FailureFieldFits(m: Fields, id: nat, f: Option<FailureView>)
    requires if f.Some? then id in m && m[id] == StructV(FailureFields(f.value)) else id !in m
    ensures (id in m ==> Fits(StructT(FAILURE), m[id])) <==> FailurePointerFits(f)
  {
    if f.Some? { FailureFieldsFit(f.value); }
  }

  lemma NodeFieldByField(n: NodeView)
    ensures var m := NodeFields(n);
            && (FieldFits(NODE, m, 0) <==> InI32(n.attempts)) && (FieldFits(NODE, m, 1) <==> Short(n.nodeId))
            && (FieldFits(NODE, m, 2) <==> InI32(n.status)) && (FieldFits(NODE, m, 3) <==> ShortPointer(n.startedAt))
            && (FieldFits(NODE, m, 4) <==> ShortPointer(n.finishedAt))
  {
  }

  lemma FailureFieldOfNodeFits(n: NodeView)
    ensures FieldFits(NODE, NodeFields(n), 5) <==> FailurePointerFits(n.failure)
  {
    var m := NodeFields(n);
    FailureFieldFits(m, 6, n.failure);
  }

  lemma NodeFieldsFit(n: NodeView)
    ensures FieldsFit(NODE, NodeFields(n)) <==> NodeFits(n)
  {
    NodeFieldByField(n);
    FailureFieldOfNodeFits(n);
    NodeHasItsFields(n);
    FieldByField(NODE, NodeFields(n));
    SixFields(NODE, NodeFields(n));
  }

  lemma SixFields(schema: Schema, m: Fields)
    requires |schema.fields| == 6
    ensures (forall k: nat :: k < |schema.fields| ==> FieldFits(schema, m, k)) <==>
      && FieldFits(schema, m, 0) && FieldFits(schema, m, 1) && FieldFits(schema, m, 2) && FieldFits(schema, m, 3)
      && FieldFits(schema, m, 4) && FieldFits(schema, m, 5)
  {
  }

  lemma TenFields(schema: Schema, m: Fields)
    requires |schema.fields| == 10
    ensures (forall k: nat :: k < |schema.fields| ==> FieldFits(schema, m, k)) <==>
      && FieldFits(schema, m, 0) && FieldFits(schema, m, 1) && FieldFits(schema, m, 2) && FieldFits(schema, m, 3)
      && FieldFits(schema, m, 4) && FieldFits(schema, m, 5) && FieldFits(schema, m, 6) && FieldFits(schema, m, 7)
      && FieldFits(schema, m, 8) && FieldFits(schema, m, 9)
  {
  }

  lemma NodeHasItsFields(n: NodeView)
    ensures forall id <- NodeFields(n) :: Lookup(NODE.fields, id).Some?
    ensures Required(NODE.fields) <= NodeFields(n).Keys
  {
  }

  lemma FieldByField(schema: Schema, m: Fields)
    requires (forall id <- m :: Lookup(schema.fields, id).Some?) && Required(schema.fields) <= m.Keys
    ensures FieldsFit(schema, m) <==> forall k: nat :: k < |schema.fields| ==> FieldFits(schema, m, k)
  {
    if forall k: nat :: k < |schema.fields| ==> FieldFits(schema, m, k) {
      forall i | 0 <= i < |schema.fields| && schema.fields[i].id in m
        ensures Fits(schema.fields[i].ty, m[schema.fields[i].id])
      {
        assert FieldFits(schema, m, i);
      }
    }
  }

  // ---------------------------------------------------------------- the task view

  lemma ListsFit(t: TaskView)
    ensures Fits(ListT(NODE), ListV(NodeItems(t.nodes))) <==>
      |t.nodes| < TWO31 && forall i :: 0 <= i < |t.nodes| ==> t.nodes[i].Some? && NodeFits(t.nodes[i].value)
    ensures Fits(ListT(ARTIFACT), ListV(ArtifactItems(t.artifacts))) <==>
      |t.artifacts| < TWO31 && forall i :: 0 <= i < |t.artifacts| ==>
          t.artifacts[i].Some? && ArtifactFits(t.artifacts[i].value)
  {
    forall i | 0 <= i < |t.nodes| && t.nodes[i].Some?
      ensures FieldsFit(NODE, NodeItems(t.nodes)[i].value) <==> NodeFits(t.nodes[i].value)
    {
      NodeFieldsFit(t.nodes[i].value);
    }
    forall i | 0 <= i < |t.artifacts| && t.artifacts[i].Some?
      ensures FieldsFit(ARTIFACT, ArtifactItems(t.artifacts)[i].value) <==> ArtifactFits(t.artifacts[i].value)
    {
      ArtifactFieldsFit(t.artifacts[i].value);
    }
  }

  lemma TaskIds(id: nat)
    requires 1 <= id <= 10
    ensures Lookup(TASK.fields, id).Some?
  {
    assert TASK.fields[id - 1] in TASK.fields && TASK.fields[id - 1].id == id;
  }

  lemma TaskHasItsFields(t: TaskView)
    ensures forall id <- TaskFields(t) :: Lookup(TASK.fields, id).Some?
    ensures Required(TASK.fields) <= TaskFields(t).Keys
  {
    forall id <- TaskFields(t) ensures Lookup(TASK.fields, id).Some? { TaskIds(id); }
    forall id <- Required(TASK.fields) ensures id in TaskFields(t) {
      var k :| 0 <= k < |TASK.fields| && TASK.fields[k].required && TASK.fields[k].id == id;
    }
  }

  lemma StringFieldsFit(t: TaskView)
    ensures var m := TaskFields(t);
            && (FieldFits(TASK, m, 0) <==> Short(t.taskId)) && (FieldFits(TASK, m, 1) <==> InI32(t.status))
            && (FieldFits(TASK, m, 2) <==> Short(t.workflowId)) && (FieldFits(TASK, m, 3) <==> Short(t.workflowVersion))
  {
  }

  lemma TimeFieldsFit(t: TaskView)
    ensures var m := TaskFields(t);
            && (FieldFits(TASK, m, 7) <==> Short(t.createdAt)) && (FieldFits(TASK, m, 8) <==> Short(t.updatedAt))
            && (FieldFits(TASK, m, 9) <==> ShortPointer(t.finishedAt))
  {
  }

  lemma ListFieldsFit(t: TaskView)
    ensures var m := TaskFields(t);
            && (FieldFits(TASK, m, 4) <==> Fits(ListT(NODE), ListV(NodeItems(t.nodes))))
            && (FieldFits(TASK, m, 5) <==> Fits(ListT(ARTIFACT), ListV(ArtifactItems(t.artifacts))))
  {
    var m := TaskFields(t);
    assert m[5] == ListV(NodeItems(t.nodes)) && m[6] == ListV(ArtifactItems(t.artifacts));
  }

  lemma FailureFieldOfTaskFits(t: TaskView)
    ensures FieldFits(TASK, TaskFields(t), 6) <==> FailurePointerFits(t.failure)
  {
    var m := TaskFields(t);
    FailureFieldFits(m, 7, t.failure);
  }

  lemma TaskFieldsFit(t: TaskView)
    ensures FieldsFit(TASK, TaskFields(t)) <==> TaskFits(t)
  {
    TaskHasItsFields(t);
    FieldByField(TASK, TaskFields(t));
    TenFields(TASK, TaskFields(t));
    StringFieldsFit(t);
    TimeFieldsFit(t);
    ListFieldsFit(t);
    FailureFieldOfTaskFits(t);
    ListsFit(t);
  }

  function Encode(t: TaskView): Bytes {
    EncodeStruct(TASK, TaskFields(t))
  }

  /** FastRead into an empty view: the view and the number of bytes taken. */
  function Decode(b: Bytes): Option<(TaskView, nat)> {
    match ReadStruct(TASK, map[], b)
    case None => None
    case Some(m) => Some((TaskOf(m.0), m.1))
  }

  lemma FailureFitsBack(m: Fields)
    requires FieldsFit(FAILURE, m)
    ensures FailureFits(FailureOf(m))
  {
    assert FieldFits(FAILURE, m, 1) && FieldFits(FAILURE, m, 2);
  }

  lemma NodeFitsBack(m: Fields)
    requires FieldsFit(NODE, m)
    ensures NodeFits(NodeOf(m))
  {
    SixthFits(m);
    NodeStringsFitBack(m);
    if 6 in m { FailureFitsBack(m[6].fields); }
  }

  lemma SixthFits(m: Fields)
    requires FieldsFit(NODE, m)
    ensures forall k: nat :: k < 6 ==> FieldFits(NODE, m, k)
    ensures 6 in m ==> m[6].StructV? && FieldsFit(FAILURE, m[6].fields)
  {
    FieldByField(NODE, m);
    assert FieldFits(NODE, m, 5);
  }

  lemma NodeStringsFitBack(m: Fields)
    requires FieldFits(NODE, m, 0) && FieldFits(NODE, m, 1) && FieldFits(NODE, m, 2) && FieldFits(NODE, m, 3)
    requires FieldFits(NODE, m, 4)
    ensures var n := NodeOf(m);
            && Short(n.nodeId) && InI32(n.status) && InI32(n.attempts) && ShortPointer(n.startedAt)
            && ShortPointer(n.finishedAt)
  {
  }

  lemma ArtifactFitsBack(m: Fields)
    requires FieldsFit(ARTIFACT, m)
    ensures ArtifactFits(ArtifactOf(m))
  {
    assert FieldFits(ARTIFACT, m, 0) && FieldFits(ARTIFACT, m, 1) && FieldFits(ARTIFACT, m, 2);
  }

  lemma ListsFitBack(nodes: seq<Option<Fields>>, artifacts: seq<Option<Fields>>)
    requires Fits(ListT(NODE), ListV(nodes)) && Fits(ListT(ARTIFACT), ListV(artifacts))
    ensures forall i :: 0 <= i < |nodes| ==> NodesOf(nodes)[i].Some? && NodeFits(NodesOf(nodes)[i].value)
    ensures forall i :: 0 <= i < |artifacts| ==>
      ArtifactsOf(artifacts)[i].Some? && ArtifactFits(ArtifactsOf(artifacts)[i].value)
  {
    forall i | 0 <= i < |nodes| ensures NodesOf(nodes)[i].Some? && NodeFits(NodesOf(nodes)[i].value) {
      NodeFitsBack(nodes[i].value);
    }
    forall i | 0 <= i < |artifacts|
      ensures ArtifactsOf(artifacts)[i].Some? && ArtifactFits(ArtifactsOf(artifacts)[i].value)
    {
      ArtifactFitsBack(artifacts[i].value);
    }
  }

  lemma StringsFitBack(m: Fields)
    requires FieldFits(TASK, m, 0) && FieldFits(TASK, m, 1) && FieldFits(TASK, m, 2) && FieldFits(TASK, m, 3)
    requires FieldFits(TASK, m, 7) && FieldFits(TASK, m, 8) && FieldFits(TASK, m, 9)
    ensures var t := TaskOf(m);
            && Short(t.taskId) && InI32(t.status) && Short(t.workflowId) && Short(t.workflowVersion)
            && Short(t.createdAt) && Short(t.updatedAt) && ShortPointer(t.finishedAt)
  {
  }

  lemma ListsAreThere(m: Fields)
    requires FieldsFit(TASK, m)
    ensures 5 in m && Fits(ListT(NODE), m[5]) && 6 in m && Fits(ListT(ARTIFACT), m[6])
  {
    assert TASK.fields[4] in TASK.fields && TASK.fields[5] in TASK.fields;
    assert 5 in Required(TASK.fields) && 6 in Required(TASK.fields);
    assert FieldFits(TASK, m, 4) && FieldFits(TASK, m, 5);
  }

  lemma TaskFitsBack(m: Fields)
    requires FieldsFit(TASK, m)
    ensures TaskFits(TaskOf(m))
  {
    FieldByField(TASK, m);
    TenFields(TASK, m);
    StringsFitBack(m);
    ListsAreThere(m);
    ListsFitBack(m[5].items, m[6].items);
    FailureThereFits(m);
  }

  lemma FailureThereFits(m: Fields)
    requires FieldFits(TASK, m, 6)
    ensures FailurePointerFits(TaskOf(m).failure)
  {
    if 7 in m { FailureFitsBack(m[7].fields); }
  }

  /** FastRead undoes FastWrite and takes exactly the written bytes, whatever follows them, exactly for the views whose
      lengths and numbers fit 32 bits and whose lists hold no nil element. */
  lemma DecodingUndoesEncoding(t: TaskView, rest: Bytes)
    ensures Decode(Encode(t) + rest) == Some((t, |Encode(t)|)) <==> TaskFits(t)
  {
    TablesAreWellFormed();
    if TaskFits(t) {
      TaskFieldsFit(t);
      TaskThere(t);
      ReadsStruct(TASK, TaskFields(t), rest);
      assert StructRead(TASK, map[], EncodeStruct(TASK, TaskFields(t)) + rest,
                        Some((TaskFields(t), |EncodeStruct(TASK, TaskFields(t))|)));
    } else if Decode(Encode(t) + rest).Some? {
      ReadStructFits(TASK, map[], Encode(t) + rest);
      TaskFitsBack(ReadStruct(TASK, map[], Encode(t) + rest).value.0);
    }
  }

  /** Whatever bytes FastRead accepts - fields in any order, unknown fields between them - writing the view it read and
      reading that again gives the same view. */
  lemma ReadingIsStable(b: Bytes)
    requires Decode(b).Some?
    ensures var t := Decode(b).value.0; TaskFits(t) && Decode(Encode(t)) == Some((t, |Encode(t)|))
  {
    TablesAreWellFormed();
    ReadStructFits(TASK, map[], b);
    TaskFitsBack(ReadStruct(TASK, map[], b).value.0);
    var t := Decode(b).value.0;
    DecodingUndoesEncoding(t, []);
    assert Encode(t) + [] == Encode(t);
  }

  /** A peer may send the fields of a view in any order, and fields this version does not know: the view is the same. */
  lemma TaskReadsInAnyOrder(t: TaskView, fs: seq<WireField>, rest: Bytes)
    requires TaskFits(t) && SetOnce(fs) && forall i :: 0 <= i < |fs| ==> FieldOk(TASK, fs[i])
    requires forall id, v :: Sets(fs, id, v) <==> id in TaskFields(t) && TaskFields(t)[id] == v
    ensures Decode(AllBytes(TASK, fs) + [STOP] + rest) == Some((t, |AllBytes(TASK, fs)| + 1))
  {
    TablesAreWellFormed();
    TaskFieldsFit(t);
    TaskThere(t);
    ReadsFields(TASK, map[], fs, rest);
    SetsAll(TaskFields(t), fs);
  }

  lemma SetsAll(m: Fields, fs: seq<WireField>)
    requires SetOnce(fs) && forall id, v :: Sets(fs, id, v) <==> id in m && m[id] == v
    ensures Fold(map[], fs) == m
  {
    forall id: nat
      ensures id in Fold(map[], fs) <==> id in m
      ensures id in m ==> Fold(map[], fs)[id] == m[id]
    {
      if id in m {
        assert Sets(fs, id, m[id]);
        FoldSets(map[], fs, id, m[id]);
      } else {
        FoldLeavesOthers(map[], fs, id);
      }
    }
  }
}
