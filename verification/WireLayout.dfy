/** The bytes of the task view spelled out, against the interface definition (idl/v0_1/shot_preview.thrift) and the
    binary protocol - field IDs and type codes written as numbers - and what a reader skips that knows none of them. */
module WireLayout {
  import opened Types
  import opened Thrift
  import opened Codec
  import opened CodecResults
  import opened Views

  // ---------------------------------------------------------------- the primitives

  /** Numbers go out in two's complement, highest byte first. */
  lemma I32IsBigEndian(n: int)
    requires -0x8000_0000 <= n < 0x8000_0000
    ensures var b := WriteI32(n);
      && b[0] as int * 0x100_0000 + b[1] as int * 0x1_0000 + b[2] as int * 0x100 + b[3] as int
         == (if n < 0 then n + 0x1_0000_0000 else n)
      && (b[0] >= 128 <==> n < 0)
  {
    Digits(n % TWO32);
  }

  /** A text is its length, in four bytes, and its bytes. */
  lemma TextLayout(s: Bytes)
    requires |s| < 0x8000_0000
    ensures |WriteString(s)| == 4 + |s| && WriteString(s)[4..] == s
    ensures var b := WriteString(s);
      b[0] as int * 0x100_0000 + b[1] as int * 0x1_0000 + b[2] as int * 0x100 + b[3] as int == |s|
  {
    I32IsBigEndian(|s|);
  }

  /** A flag is read as set exactly from the byte 1. */
  lemma FlagReading(x: Byte, rest: Bytes)
    ensures ReadValue(BoolT, [x] + rest) == Some((BoolV(x == 1), 1))
  {
  }

  function Text(id: Byte, s: Bytes): Bytes {
    [11, 0, id] + WriteString(s)
  }

  function Number(id: Byte, n: int): Bytes {
    [8, 0, id] + WriteI32(n)
  }

  function Flag(id: Byte, b: bool): Bytes {
    [2, 0, id, if b then 1 else 0]
  }

  function OptionalText(id: Byte, s: Option<Bytes>): Bytes {
    match s case None => [] case Some(t) => Text(id, t)
  }

  // ---------------------------------------------------------------- the four structs

  /** TaskFailure: 1 code, 2 message, 3 retryable, the flag first. */
  function FailureBytes(f: FailureView): Bytes {
    Flag(3, f.retryable) + Text(1, f.code) + Text(2, f.message) + [0]
  }

  function OptionalFailure(id: Byte, f: Option<FailureView>): Bytes {
    match f case None => [] case Some(x) => [12, 0, id] + FailureBytes(x)
  }

  /** TaskNodeView: 1 node_id, 2 status, 3 attempts, 4 started_at, 5 finished_at, 6 failure, the attempts first. */
  function NodeBytes(n: NodeView): Bytes {
    Number(3, n.attempts) + Text(1, n.nodeId) + Number(2, n.status) + OptionalText(4, n.startedAt)
    + OptionalText(5, n.finishedAt) + OptionalFailure(6, n.failure) + [0]
  }

  /** TaskArtifactView: 1 type (here kind), 2 uri, 3 name. */
  function ArtifactBytes(a: ArtifactView): Bytes {
    Text(1, a.kind) + Text(2, a.uri) + Text(3, a.name) + [0]
  }

  function AllNodes(nodes: seq<Option<NodeView>>): Bytes {
    if nodes == [] then []
    else (if nodes[0].Some? then NodeBytes(nodes[0].value) else [0]) + AllNodes(nodes[1..])
  }

  function AllArtifacts(artifacts: seq<Option<ArtifactView>>): Bytes {
    if artifacts == [] then []
    else (if artifacts[0].Some? then ArtifactBytes(artifacts[0].value) else [0]) + AllArtifacts(artifacts[1..])
  }

  /** A list field: its header, the type code of structs, the number of elements, the elements. */
  function StructList(id: Byte, count: nat, elements: Bytes): Bytes {
    [15, 0, id] + ([12] + WriteI32(count) + elements)
  }

  /** ShotPreviewTaskView: fields 1 to 10 in order. */
  function TaskBytes(t: TaskView): Bytes {
    Text(1, t.taskId) + (Number(2, t.status) + (Text(3, t.workflowId) + (Text(4, t.workflowVersion)
    + (StructList(5, |t.nodes|, AllNodes(t.nodes)) + (StructList(6, |t.artifacts|, AllArtifacts(t.artifacts))
    + (OptionalFailure(7, t.failure) + (Text(8, t.createdAt) + (Text(9, t.updatedAt)
    + (OptionalText(10, t.finishedAt) + [0])))))))))
  }

  // ---------------------------------------------------------------- what the generated code writes

  /** Field k of the table is `id` of type `ty`. */
  ghost predicate Is(schema: Schema, k: nat, id: Byte, ty: FieldType) {
    k < |schema.fields| && schema.fields[k].id == id && schema.fields[k].ty == ty
  }

  lemma TextField(schema: Schema, m: Fields, k: nat, id: Byte, s: Bytes)
    requires Is(schema, k, id, StringT) && id in m && m[id] == StringV(s)
    ensures EncodeFrom(schema, m, k) == Text(id, s) + EncodeFrom(schema, m, k + 1)
  {
  }

  lemma NumberField(schema: Schema, m: Fields, k: nat, id: Byte, n: int)
    requires Is(schema, k, id, I32T) && id in m && m[id] == I32V(n)
    ensures EncodeFrom(schema, m, k) == Number(id, n) + EncodeFrom(schema, m, k + 1)
  {
  }

  lemma FlagField(schema: Schema, m: Fields, k: nat, id: Byte, b: bool)
    requires Is(schema, k, id, BoolT) && id in m && m[id] == BoolV(b)
    ensures EncodeFrom(schema, m, k) == Flag(id, b) + EncodeFrom(schema, m, k + 1)
  {
  }

  lemma AbsentField(schema: Schema, m: Fields, k: nat)
    requires k < |schema.fields| && schema.fields[k].id !in m
    ensures EncodeFrom(schema, m, k) == EncodeFrom(schema, m, k + 1)
  {
    assert EncodeFrom(schema, m, k) == [] + EncodeFrom(schema, m, k + 1);
  }

  lemma OptionalTextField(schema: Schema, m: Fields, k: nat, id: Byte, s: Option<Bytes>)
    requires Is(schema, k, id, StringT)
    requires s.Some? ==> id in m && m[id] == StringV(s.value)
    requires s.None? ==> id !in m
    ensures EncodeFrom(schema, m, k) == OptionalText(id, s) + EncodeFrom(schema, m, k + 1)
  {
    if s.Some? { TextField(schema, m, k, id, s.value); } else { AbsentField(schema, m, k); }
  }

  lemma OptionalFailureField(schema: Schema, m: Fields, k: nat, id: Byte, f: Option<FailureView>)
    requires Is(schema, k, id, StructT(FAILURE))
    requires f.Some? ==> id in m && m[id] == StructV(FailureFields(f.value))
    requires f.None? ==> id !in m
    ensures EncodeFrom(schema, m, k) == OptionalFailure(id, f) + EncodeFrom(schema, m, k + 1)
  {
    if f.Some? { FailureField(schema, m, k, id, f.value); } else { AbsentField(schema, m, k); }
  }

  lemma FailureField(schema: Schema, m: Fields, k: nat, id: Byte, f: FailureView)
    requires Is(schema, k, id, StructT(FAILURE)) && id in m && m[id] == StructV(FailureFields(f))
    ensures EncodeFrom(schema, m, k) == [12, 0, id] + FailureBytes(f) + EncodeFrom(schema, m, k + 1)
  {
    FailureLayout(f);
  }

  lemma ListField(schema: Schema, m: Fields, k: nat, id: Byte, element: Schema, items: seq<Option<Fields>>,
                  elements: Bytes)
    requires Is(schema, k, id, ListT(element)) && id in m && m[id] == ListV(items)
    requires EncodeItems(element, items) == elements
    ensures EncodeFrom(schema, m, k) == StructList(id, |items|, elements) + EncodeFrom(schema, m, k + 1)
  {
  }

  lemma NoMoreFields(schema: Schema, m: Fields)
    ensures EncodeFrom(schema, m, |schema.fields|) == []
  {
  }

  lemma FailureHead(schema: Schema, m: Fields, f: FailureView)
    requires schema == FAILURE && m == FailureFields(f)
    ensures EncodeFrom(schema, m, 0) == Flag(3, f.retryable) + (Text(1, f.code) + (Text(2, f.message) + []))
  {
    FlagField(schema, m, 0, 3, f.retryable);
    TextField(schema, m, 1, 1, f.code);
    TextField(schema, m, 2, 2, f.message);
    NoMoreFields(schema, m);
  }

  lemma FailureLayout(f: FailureView)
    ensures EncodeStruct(FAILURE, FailureFields(f)) == FailureBytes(f)
  {
    FailureHead(FAILURE, FailureFields(f), f);
    FourParts(Flag(3, f.retryable), Text(1, f.code), Text(2, f.message), [0]);
  }

  lemma FourParts(a: Bytes, b: Bytes, c: Bytes, d: Bytes)
    ensures (a + (b + (c + []))) + d == a + b + c + d
  {
    assert c + [] == c;
  }

  lemma ArtifactLayout(a: ArtifactView)
    ensures EncodeStruct(ARTIFACT, ArtifactFields(a)) == ArtifactBytes(a)
  {
    ArtifactHead(ARTIFACT, ArtifactFields(a), a);
    FourParts(Text(1, a.kind), Text(2, a.uri), Text(3, a.name), [0]);
  }

  lemma ArtifactHead(schema: Schema, m: Fields, a: ArtifactView)
    requires schema == ARTIFACT && m == ArtifactFields(a)
    ensures EncodeFrom(schema, m, 0) == Text(1, a.kind) + (Text(2, a.uri) + (Text(3, a.name) + []))
  {
    TextField(schema, m, 0, 1, a.kind);
    TextField(schema, m, 1, 2, a.uri);
    TextField(schema, m, 2, 3, a.name);
    NoMoreFields(schema, m);
  }

  /** The field map holds the node. */
  ghost predicate HoldsNode(m: Fields, n: NodeView) {
    && 1 in m && m[1] == StringV(n.nodeId) && 2 in m && m[2] == I32V(n.status) && 3 in m && m[3] == I32V(n.attempts)
    && (if n.startedAt.Some? then 4 in m && m[4] == StringV(n.startedAt.value) else 4 !in m)
    && (if n.finishedAt.Some? then 5 in m && m[5] == StringV(n.finishedAt.value) else 5 !in m)
    && (if n.failure.Some? then 6 in m && m[6] == StructV(FailureFields(n.failure.value)) else 6 !in m)
  }

  lemma NodeTail(m: Fields, n: NodeView)
    requires HoldsNode(m, n)
    ensures EncodeFrom(NODE, m, 3)
      == OptionalText(4, n.startedAt) + (OptionalText(5, n.finishedAt) + (OptionalFailure(6, n.failure) + []))
  {
    OptionalTextField(NODE, m, 3, 4, n.startedAt);
    OptionalTextField(NODE, m, 4, 5, n.finishedAt);
    OptionalFailureField(NODE, m, 5, 6, n.failure);
    NoMoreFields(NODE, m);
  }

  lemma NodeHead(m: Fields, n: NodeView)
    requires HoldsNode(m, n)
    ensures EncodeFrom(NODE, m, 0)
      == Number(3, n.attempts) + (Text(1, n.nodeId) + (Number(2, n.status) + EncodeFrom(NODE, m, 3)))
  {
    NumberField(NODE, m, 0, 3, n.attempts);
    TextField(NODE, m, 1, 1, n.nodeId);
    NumberField(NODE, m, 2, 2, n.status);
  }

  lemma SevenParts(a: Bytes, b: Bytes, c: Bytes, d: Bytes, e: Bytes, f: Bytes, g: Bytes)
    ensures (a + (b + (c + (d + (e + (f + [])))))) + g == a + b + c + d + e + f + g
  {
    assert f + [] == f;
    assert a + b + c + d + e + f == a + (b + (c + (d + (e + f))));
  }

  lemma NodeLayout(n: NodeView)
    ensures EncodeStruct(NODE, NodeFields(n)) == NodeBytes(n)
  {
    var m := NodeFields(n);
    assert HoldsNode(m, n);
    NodeHead(m, n);
    NodeTail(m, n);
    SevenParts(Number(3, n.attempts), Text(1, n.nodeId), Number(2, n.status), OptionalText(4, n.startedAt),
               OptionalText(5, n.finishedAt), OptionalFailure(6, n.failure), [0]);
  }

  lemma {:induction false} NodesLayout(nodes: seq<Option<NodeView>>)
    ensures EncodeItems(NODE, NodeItems(nodes)) == AllNodes(nodes)
    decreases |nodes|
  {
    if nodes != [] {
      assert NodeItems(nodes)[1..] == NodeItems(nodes[1..]);
      if nodes[0].Some? { NodeLayout(nodes[0].value); }
      NodesLayout(nodes[1..]);
    }
  }

  lemma {:induction false} ArtifactsLayout(artifacts: seq<Option<ArtifactView>>)
    ensures EncodeItems(ARTIFACT, ArtifactItems(artifacts)) == AllArtifacts(artifacts)
    decreases |artifacts|
  {
    if artifacts != [] {
      assert ArtifactItems(artifacts)[1..] == ArtifactItems(artifacts[1..]);
      if artifacts[0].Some? { ArtifactLayout(artifacts[0].value); }
      ArtifactsLayout(artifacts[1..]);
    }
  }

  /** The field map holds the task. */
  ghost predicate HoldsTask(m: Fields, t: TaskView) {
    && 1 in m && m[1] == StringV(t.taskId) && 2 in m && m[2] == I32V(t.status)
    && 3 in m && m[3] == StringV(t.workflowId) && 4 in m && m[4] == StringV(t.workflowVersion)
    && 5 in m && m[5] == ListV(NodeItems(t.nodes)) && 6 in m && m[6] == ListV(ArtifactItems(t.artifacts))
    && (if t.failure.Some? then 7 in m && m[7] == StructV(FailureFields(t.failure.value)) else 7 !in m)
    && 8 in m && m[8] == StringV(t.createdAt) && 9 in m && m[9] == StringV(t.updatedAt)
    && (if t.finishedAt.Some? then 10 in m && m[10] == StringV(t.finishedAt.value) else 10 !in m)
  }

  lemma TaskTail(m: Fields, t: TaskView)
    requires HoldsTask(m, t)
    ensures EncodeFrom(TASK, m, 6)
      == OptionalFailure(7, t.failure) + (Text(8, t.createdAt) + (Text(9, t.updatedAt)
         + (OptionalText(10, t.finishedAt) + [])))
  {
    OptionalFailureField(TASK, m, 6, 7, t.failure);
    TextField(TASK, m, 7, 8, t.createdAt);
    TextField(TASK, m, 8, 9, t.updatedAt);
    OptionalTextField(TASK, m, 9, 10, t.finishedAt);
    NoMoreFields(TASK, m);
  }

  lemma TaskLists(m: Fields, t: TaskView)
    requires HoldsTask(m, t)
    ensures EncodeFrom(TASK, m, 4)
      == StructList(5, |t.nodes|, AllNodes(t.nodes))
         + (StructList(6, |t.artifacts|, AllArtifacts(t.artifacts)) + EncodeFrom(TASK, m, 6))
  {
    NodesLayout(t.nodes);
    ArtifactsLayout(t.artifacts);
    ListField(TASK, m, 4, 5, NODE, NodeItems(t.nodes), AllNodes(t.nodes));
    ListField(TASK, m, 5, 6, ARTIFACT, ArtifactItems(t.artifacts), AllArtifacts(t.artifacts));
  }

  lemma TaskHead(schema: Schema, m: Fields, t: TaskView)
    requires schema == TASK && HoldsTask(m, t)
    ensures EncodeFrom(schema, m, 0)
      == Text(1, t.taskId) + (Number(2, t.status) + (Text(3, t.workflowId) + (Text(4, t.workflowVersion)
         + EncodeFrom(schema, m, 4))))
  {
    IdAndStatus(schema, m, t.taskId, t.status);
    WorkflowFields(schema, m, t.workflowId, t.workflowVersion);
  }

  lemma IdAndStatus(schema: Schema, m: Fields, id: Bytes, status: int)
    requires schema == TASK && 1 in m && m[1] == StringV(id) && 2 in m && m[2] == I32V(status)
    ensures EncodeFrom(schema, m, 0) == Text(1, id) + (Number(2, status) + EncodeFrom(schema, m, 2))
  {
    TextField(schema, m, 0, 1, id);
    NumberField(schema, m, 1, 2, status);
  }

  lemma WorkflowFields(schema: Schema, m: Fields, workflowId: Bytes, version: Bytes)
    requires schema == TASK && 3 in m && m[3] == StringV(workflowId) && 4 in m && m[4] == StringV(version)
    ensures EncodeFrom(schema, m, 2) == Text(3, workflowId) + (Text(4, version) + EncodeFrom(schema, m, 4))
  {
    TextField(schema, m, 2, 3, workflowId);
    TextField(schema, m, 3, 4, version);
  }

  lemma Regroup(a: Bytes, b: Bytes, c: Bytes, d: Bytes, e: Bytes, f: Bytes, g: Bytes, h: Bytes, i: Bytes, j: Bytes)
    ensures (a + (b + (c + (d + (e + (f + (g + (h + (i + (j + [])))))))))) + [0]
      == a + (b + (c + (d + (e + (f + (g + (h + (i + (j + [0])))))))))
  {
    assert j + [] == j;
    assert (h + (i + j)) + [0] == h + (i + (j + [0]));
    var x := h + (i + j);
    assert (e + (f + (g + x))) + [0] == e + (f + (g + (x + [0])));
    var y := e + (f + (g + x));
    assert (a + (b + (c + (d + y)))) + [0] == a + (b + (c + (d + (y + [0]))));
  }

  lemma TaskFieldsHold(t: TaskView)
    ensures HoldsTask(TaskFields(t), t)
  {
  }

  /** The task view goes out as the interface definition has it, field by field and byte by byte. */
  lemma TaskLayout(t: TaskView)
    ensures EncodeStruct(TASK, TaskFields(t)) == TaskBytes(t)
  {
    var m := TaskFields(t);
    TaskFieldsHold(t);
    TaskHead(TASK, m, t);
    TaskLists(m, t);
    TaskTail(m, t);
    Regroup(Text(1, t.taskId), Number(2, t.status), Text(3, t.workflowId), Text(4, t.workflowVersion),
            StructList(5, |t.nodes|, AllNodes(t.nodes)), StructList(6, |t.artifacts|, AllArtifacts(t.artifacts)),
            OptionalFailure(7, t.failure), Text(8, t.createdAt), Text(9, t.updatedAt), OptionalText(10, t.finishedAt));
  }

  // ---------------------------------------------------------------- skipping what was written

  ghost predicate ValueSkipped(ty: Byte, b: Bytes, n: nat) {
    Skip(ty, b) == Some(n)
  }

  ghost predicate FieldsSkipped(b: Bytes, n: nat) {
    SkipFields(b) == Some(n)
  }

  /** `types` is the type code of structs. */
  ghost predicate StructsSkipped(types: Bytes, count: nat, b: Bytes, n: nat) {
    types == [12] && SkipMany(types, count, b) == Some(n)
  }

  lemma StructSkipped(b: Bytes, n: nat)
    ensures ValueSkipped(12, b, n) <==> FieldsSkipped(b, n)
  {
  }

  lemma ListSkipped(count: nat, elements: Bytes, rest: Bytes, n: nat)
    requires count < TWO31 && StructsSkipped([12], count, elements + rest, n)
    ensures ValueSkipped(15, [12] + WriteI32(count) + elements + rest, 5 + n)
  {
    var b := [12] + WriteI32(count) + elements + rest;
    assert b[1..] == WriteI32(count) + (elements + rest) && b[5..] == elements + rest && b[0] == 12;
    ReadWriteI32(count, elements + rest);
    assert [b[0]] == [12];
  }

  lemma NoStructs(types: Bytes, b: Bytes)
    requires types == [12]
    ensures StructsSkipped(types, 0, b, 0)
  {
  }

  lemma OneMoreStruct(types: Bytes, b: Bytes, count: nat, first: Bytes, more: Bytes, n: nat)
    requires b == first + more && ValueSkipped(12, first + more, |first|) && StructsSkipped(types, count, more, n)
    ensures StructsSkipped(types, count + 1, b, |first| + n)
  {
    assert b[|first|..] == more;
    assert types[1..] == [] && SkipGroup([], more) == Some(0);
    assert SkipGroup(types, b) == Some(|first|);
  }

  lemma NoFieldsLeft(rest: Bytes)
    ensures FieldsSkipped([0] + rest, 1)
  {
  }

  lemma OneMoreField(b: Bytes, header: Bytes, v: Bytes, more: Bytes, n: nat)
    requires b == header + v + more
    requires |header| == 3 && header[0] != 0 && ValueSkipped(header[0], v + more, |v|) && FieldsSkipped(more, n)
    ensures FieldsSkipped(b, 3 + |v| + n)
  {
    assert b[3..] == v + more && b[3 + |v|..] == more;
  }

  lemma FieldWritten(schema: Schema, m: Fields, k: nat, rest: Bytes)
    requires k < |schema.fields|
    ensures var spec, more := schema.fields[k], EncodeFrom(schema, m, k + 1);
      if spec.id in m && spec.id < 0x8000 then
        var header, v := FieldHeader(WireType(spec.ty), spec.id), EncodeValue(spec.ty, m[spec.id]);
        && EncodeFrom(schema, m, k) + ([0] + rest) == header + v + (more + ([0] + rest))
        && |EncodeFrom(schema, m, k)| == 3 + |v| + |more|
      else EncodeFrom(schema, m, k) == more
  {
    if !(schema.fields[k].id in m && schema.fields[k].id < 0x8000) { AbsentWritten(schema, m, k); }
  }

  lemma ScalarSkipped(ty: FieldType, v: Value, rest: Bytes)
    requires Fits(ty, v) && (ty.StringT? || ty.I32T? || ty.BoolT?)
    ensures ValueSkipped(WireType(ty), EncodeValue(ty, v) + rest, |EncodeValue(ty, v)|)
  {
    if ty.StringT? { ReadWriteString(v.s, rest); }
  }

  /** A reader that does not know a field skips exactly the bytes its value was written with, nested structs and lists
      included. */
  lemma {:induction false} SkipsWrittenValue(ty: FieldType, v: Value, rest: Bytes)
    requires Fits(ty, v)
    ensures ValueSkipped(WireType(ty), EncodeValue(ty, v) + rest, |EncodeValue(ty, v)|)
    decreases ty, 3, 0
  {
    match ty
    case StructT(schema) => SkipsWrittenStruct(schema, v.fields, rest);
    case ListT(schema) =>
      SkipsWrittenItems([12], schema, v.items, rest);
      ListSkipped(|v.items|, EncodeItems(schema, v.items), rest, |EncodeItems(schema, v.items)|);
    case _ => ScalarSkipped(ty, v, rest);
  }

  lemma ItemsWritten(schema: Schema, items: seq<Option<Fields>>, rest: Bytes)
    requires items != [] && items[0].Some?
    ensures var first, more := EncodeStruct(schema, items[0].value), EncodeItems(schema, items[1..]);
      EncodeItems(schema, items) + rest == first + (more + rest) && |EncodeItems(schema, items)| == |first| + |more|
  {
  }

  ghost predicate ItemsFit(schema: Schema, items: seq<Option<Fields>>) {
    forall i :: 0 <= i < |items| ==> items[i].Some? && FieldsFit(schema, items[i].value)
  }

  lemma {:induction false} SkipsWrittenItems(types: Bytes, schema: Schema, items: seq<Option<Fields>>, rest: Bytes)
    requires ItemsFit(schema, items) && types == [12]
    ensures StructsSkipped(types, |items|, EncodeItems(schema, items) + rest, |EncodeItems(schema, items)|)
    decreases schema, 2, |items|
  {
    if items == [] {
      NoStructs(types, EncodeItems(schema, items) + rest);
    } else {
      var first, more := EncodeStruct(schema, items[0].value), EncodeItems(schema, items[1..]);
      SkipsWrittenStruct(schema, items[0].value, more + rest);
      SkipsWrittenItems(types, schema, items[1..], rest);
      ItemsWritten(schema, items, rest);
      OneMoreStruct(types, EncodeItems(schema, items) + rest, |items| - 1, first, more + rest, |more|);
    }
  }

  lemma {:induction false} SkipsWrittenStruct(schema: Schema, m: Fields, rest: Bytes)
    requires FieldsFit(schema, m)
    ensures ValueSkipped(12, EncodeStruct(schema, m) + rest, |EncodeStruct(schema, m)|)
    decreases schema, 1, 0
  {
    SkipsWrittenFields(schema, m, 0, rest);
    assert EncodeStruct(schema, m) + rest == EncodeFrom(schema, m, 0) + ([0] + rest);
    StructSkipped(EncodeStruct(schema, m) + rest, |EncodeStruct(schema, m)|);
  }

  lemma {:induction false} SkipsWrittenFields(schema: Schema, m: Fields, k: nat, rest: Bytes)
    requires FieldsFit(schema, m) && k <= |schema.fields|
    ensures FieldsSkipped(EncodeFrom(schema, m, k) + ([0] + rest), |EncodeFrom(schema, m, k)| + 1)
    decreases schema, 0, |schema.fields| - k
  {
    if k == |schema.fields| {
      NoMoreFields(schema, m);
      NoFieldsLeft(rest);
      assert EncodeFrom(schema, m, k) + ([0] + rest) == [0] + rest;
    } else {
      var spec, more := schema.fields[k], EncodeFrom(schema, m, k + 1);
      SkipsWrittenFields(schema, m, k + 1, rest);
      if spec.id in m && spec.id < 0x8000 { SkipsWrittenValue(spec.ty, m[spec.id], more + ([0] + rest)); }
      SkipsFieldAndRest(schema, m, k, rest);
    }
  }

  lemma SkipsFieldAndRest(schema: Schema, m: Fields, k: nat, rest: Bytes)
    requires k < |schema.fields|
    requires FieldsSkipped(EncodeFrom(schema, m, k + 1) + ([0] + rest), |EncodeFrom(schema, m, k + 1)| + 1)
    requires var spec, more := schema.fields[k], EncodeFrom(schema, m, k + 1) + ([0] + rest);
      spec.id in m && spec.id < 0x8000 ==>
        ValueSkipped(WireType(spec.ty), EncodeValue(spec.ty, m[spec.id]) + more, |EncodeValue(spec.ty, m[spec.id])|)
    ensures FieldsSkipped(EncodeFrom(schema, m, k) + ([0] + rest), |EncodeFrom(schema, m, k)| + 1)
  {
    var spec, more := schema.fields[k], EncodeFrom(schema, m, k + 1);
    if spec.id in m && spec.id < 0x8000 {
      var header, v := FieldHeader(WireType(spec.ty), spec.id), EncodeValue(spec.ty, m[spec.id]);
      var tail := more + ([0] + rest);
      FieldWritten(schema, m, k, rest);
      OneMoreField(EncodeFrom(schema, m, k) + ([0] + rest), header, v, tail, |more| + 1);
    } else {
      AbsentWritten(schema, m, k);
    }
  }

  lemma AbsentWritten(schema: Schema, m: Fields, k: nat)
    requires k < |schema.fields| && !(schema.fields[k].id in m && schema.fields[k].id < 0x8000)
    ensures EncodeFrom(schema, m, k) == EncodeFrom(schema, m, k + 1)
  {
    assert EncodeFrom(schema, m, k) == [] + EncodeFrom(schema, m, k + 1);
  }

  /** So an old reader skips a whole task view. */
  lemma TaskViewIsSkipped(t: TaskView, rest: Bytes)
    requires TaskFits(t)
    ensures Skip(12, TaskBytes(t) + rest) == Some(|TaskBytes(t)|)
  {
    TaskFieldsFit(t);
    TaskLayout(t);
    SkipsWrittenStruct(TASK, TaskFields(t), rest);
  }

  /** The types the view does not use, by their codes: one byte, 16 bits, 64 bits, and double precision. */
  lemma FixedWidths(b: Bytes)
    ensures |b| >= 8 ==>
      Skip(3, b) == Some(1) && Skip(6, b) == Some(2) && Skip(10, b) == Some(8) && Skip(4, b) == Some(8)
    ensures |b| < 8 ==> Skip(10, b) == None && Skip(4, b) == None
    ensures |b| < 2 ==> Skip(6, b) == None
    ensures |b| < 1 ==> Skip(3, b) == None
  {
  }

  // ---------------------------------------------------------------- required fields

  /** A field with the ID is among those on the wire. */
  ghost predicate OnTheWire(fs: seq<WireField>, id: nat) {
    exists i :: 0 <= i < |fs| && fs[i].Known? && fs[i].id == id
  }

  lemma {:induction false} FoldKeys(acc: Fields, fs: seq<WireField>, id: nat)
    ensures id in Fold(acc, fs) <==> id in acc || OnTheWire(fs, id)
    decreases |fs|
  {
    if fs != [] {
      FoldKeys(Set(acc, fs[0]), fs[1..], id);
      assert forall i :: 0 < i < |fs| ==> fs[i] == fs[1..][i - 1];
      assert forall i :: 0 <= i < |fs[1..]| ==> fs[1..][i] == fs[i + 1];
    }
  }

  lemma RequiredOfTask()
    ensures Required(TASK.fields) == {1, 2, 3, 4, 5, 6, 8, 9}
  {
    RequiredOfTen(TASK.fields);
  }

  /** Ten fields numbered in order, of which the seventh and the tenth are optional. */
  lemma RequiredOfTen(fields: seq<FieldSpec>)
    requires |fields| == 10 && forall k :: 0 <= k < 10 ==> fields[k].id == k + 1
    requires forall k :: 0 <= k < 10 ==> (fields[k].required <==> k != 6 && k != 9)
    ensures Required(fields) == {1, 2, 3, 4, 5, 6, 8, 9}
  {
    forall id | id in {1, 2, 3, 4, 5, 6, 8, 9} ensures id in Required(fields) {
      assert fields[id - 1] in fields;
    }
    forall id | id in Required(fields) ensures id in {1, 2, 3, 4, 5, 6, 8, 9} {
      var f :| f in fields && f.required && f.id == id;
      var k :| 0 <= k < 10 && fields[k] == f;
      assert id == k + 1 && 1 <= id <= 10 && id != 7 && id != 10;
    }
  }

  lemma RequiredOfParts()
    ensures Required(NODE.fields) == {1, 2, 3} && Required(FAILURE.fields) == {1, 2, 3}
    ensures Required(ARTIFACT.fields) == {1, 2, 3}
  {
    RequiredOfThree(NODE.fields);
    RequiredOfThree(FAILURE.fields);
    RequiredOfThree(ARTIFACT.fields);
  }

  lemma RequiredOfThree(fields: seq<FieldSpec>)
    requires |fields| >= 3 && fields[0].required && fields[1].required && fields[2].required
    requires {fields[0].id, fields[1].id, fields[2].id} == {1, 2, 3}
    requires forall k :: 3 <= k < |fields| ==> !fields[k].required
    ensures Required(fields) == {1, 2, 3}
  {
    assert fields[0] in fields && fields[1] in fields && fields[2] in fields;
  }

  ghost predicate AllOnTheWire(fs: seq<WireField>, ids: set<nat>) {
    forall id <- ids :: OnTheWire(fs, id)
  }

  /** The required fields of a task view. */
  ghost predicate EightOnTheWire(fs: seq<WireField>) {
    && OnTheWire(fs, 1) && OnTheWire(fs, 2) && OnTheWire(fs, 3) && OnTheWire(fs, 4)
    && OnTheWire(fs, 5) && OnTheWire(fs, 6) && OnTheWire(fs, 8) && OnTheWire(fs, 9)
  }

  lemma EightOrAll(fs: seq<WireField>, ids: set<nat>)
    requires ids == {1, 2, 3, 4, 5, 6, 8, 9}
    ensures AllOnTheWire(fs, ids) <==> EightOnTheWire(fs)
  {
  }

  /** FastRead takes the fields for a struct. */
  ghost predicate Accepted(schema: Schema, fs: seq<WireField>, rest: Bytes) {
    ReadStruct(schema, map[], AllBytes(schema, fs) + [STOP] + rest).Some?
  }

  lemma StructAccepted(schema: Schema, fs: seq<WireField>, rest: Bytes)
    requires WellFormed(schema) && forall i :: 0 <= i < |fs| ==> FieldOk(schema, fs[i])
    ensures Accepted(schema, fs, rest) <==> AllOnTheWire(fs, Required(schema.fields))
  {
    ReadsFields(schema, map[], fs, rest);
    forall id: nat ensures id in Fold(map[], fs) <==> OnTheWire(fs, id) { FoldKeys(map[], fs, id); }
    assert Required(schema.fields) <= Fold(map[], fs).Keys <==>
      forall id <- Required(schema.fields) :: id in Fold(map[], fs);
  }

  /** A task view is accepted exactly when its eight required fields are on the wire, whatever their order and whatever
      else is between them. */
  lemma RequiredFieldsAreDemanded(schema: Schema, fs: seq<WireField>, rest: Bytes)
    requires schema == TASK && forall i :: 0 <= i < |fs| ==> FieldOk(schema, fs[i])
    ensures Accepted(schema, fs, rest) <==> EightOnTheWire(fs)
  {
    TablesAreWellFormed();
    RequiredOfTask();
    StructAccepted(schema, fs, rest);
    EightOrAll(fs, Required(schema.fields));
  }
}
