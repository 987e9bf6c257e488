/** Reading undoes writing, in any field order and past any unknown fields. */
module CodecResults {
  import opened Types
  import opened Thrift
  import opened Codec

  // ---------------------------------------------------------------- a struct on the wire

  /** One field as it may appear on the wire: one the schema knows, with a value of its type, or any other field the
      protocol can skip. */
  datatype WireField = Known(id: nat, value: Value) | Foreign(ty: Byte, id: nat, payload: Bytes)

  ghost predicate FieldOk(schema: Schema, f: WireField) {
    match f
    case Known(id, value) =>
      id < 0x8000 && Lookup(schema.fields, id).Some? && Fits(Lookup(schema.fields, id).value.ty, value)
    case Foreign(ty, id, payload) =>
      && id < 0x8000 && ty != STOP && Skip(ty, payload) == Some(|payload|)
      && (Lookup(schema.fields, id).Some? ==> WireType(Lookup(schema.fields, id).value.ty) != ty)
  }

  function FieldBytes(schema: Schema, f: WireField): Bytes {
    match f
    case Known(id, value) =>
      var spec := Lookup(schema.fields, id);
      if id < 0x8000 && spec.Some?
      then FieldHeader(WireType(spec.value.ty), id) + EncodeValue(spec.value.ty, value) else []
    case Foreign(ty, id, payload) => if id < 0x8000 then FieldHeader(ty, id) + payload else []
  }

  function AllBytes(schema: Schema, fs: seq<WireField>): Bytes {
    if fs == [] then [] else FieldBytes(schema, fs[0]) + AllBytes(schema, fs[1..])
  }

  /** What the fields set, the last one of an ID winning. */
  function Fold(acc: Fields, fs: seq<WireField>): Fields
    decreases |fs|
  {
    if fs == [] then acc
    else Fold(Set(acc, fs[0]), fs[1..])
  }

  function Finish(schema: Schema, m: Fields, n: nat): Option<(Fields, nat)> {
    if Required(schema.fields) <= m.Keys then Some((m, n)) else None
  }

  // ---------------------------------------------------------------- reading undoes writing

  lemma {:induction false} ReadsValue(ty: FieldType, v: Value, rest: Bytes)
    requires TypeOk(ty) && Fits(ty, v)
    ensures ReadValue(ty, EncodeValue(ty, v) + rest) == Some((v, |EncodeValue(ty, v)|))
    decreases ty, 3, 0
  {
    match ty
    case StringT => ReadWriteString(v.s, rest);
    case I32T => ReadWriteI32(v.n, rest);
    case BoolT =>
    case StructT(schema) => ReadsStruct(schema, v.fields, rest);
    case ListT(schema) =>
      var items := EncodeItems(schema, v.items);
      var b := EncodeValue(ty, v) + rest;
      assert b[1..] == WriteI32(|v.items|) + (items + rest) && b[5..] == items + rest;
      ReadWriteI32(|v.items|, items + rest);
      ReadsItems(schema, v.items, rest);
  }

  /** Reading `b` gives these elements and takes `n` bytes. */
  ghost predicate ItemsRead(schema: Schema, b: Bytes, items: seq<Option<Fields>>, n: nat) {
    ReadItems(schema, |items|, b) == Some((items, n))
  }

  ghost predicate StructRead(schema: Schema, acc: Fields, b: Bytes, end: Option<(Fields, nat)>) {
    ReadStruct(schema, acc, b) == end
  }

  lemma ItemThenRest(schema: Schema, items: seq<Option<Fields>>, all: Bytes, first: Bytes, more: Bytes, rest: Bytes)
    requires items != [] && items[0].Some? && all == first + more
    requires StructRead(schema, map[], first + (more + rest), Some((items[0].value, |first|)))
    requires ItemsRead(schema, more + rest, items[1..], |more|)
    ensures ItemsRead(schema, all + rest, items, |all|)
  {
    var b := first + more + rest;
    assert b == first + (more + rest) && b[|first|..] == more + rest && [Some(items[0].value)] + items[1..] == items;
  }

  lemma NoItems(schema: Schema, rest: Bytes)
    ensures EncodeItems(schema, []) == [] && ItemsRead(schema, [] + rest, [], 0)
  {
  }

  lemma FirstItem(schema: Schema, items: seq<Option<Fields>>)
    requires items != [] && items[0].Some?
    ensures EncodeItems(schema, items) == EncodeStruct(schema, items[0].value) + EncodeItems(schema, items[1..])
  {
  }

  lemma {:induction false} ReadsItems(schema: Schema, items: seq<Option<Fields>>, rest: Bytes)
    requires WellFormed(schema) && forall i :: 0 <= i < |items| ==> items[i].Some? && FieldsFit(schema, items[i].value)
    ensures ItemsRead(schema, EncodeItems(schema, items) + rest, items, |EncodeItems(schema, items)|)
    decreases schema, 2, |items|
  {
    if items == [] {
      NoItems(schema, rest);
    } else {
      var first, more := EncodeStruct(schema, items[0].value), EncodeItems(schema, items[1..]);
      ReadsStruct(schema, items[0].value, more + rest);
      ReadsItems(schema, items[1..], rest);
      FirstItem(schema, items);
      ItemThenRest(schema, items, EncodeItems(schema, items), first, more, rest);
    }
  }

  lemma {:induction false} ReadsStruct(schema: Schema, m: Fields, rest: Bytes)
    requires WellFormed(schema) && FieldsFit(schema, m)
    ensures StructRead(schema, map[], EncodeStruct(schema, m) + rest, Some((m, |EncodeStruct(schema, m)|)))
    decreases schema, 1, 0
  {
    var fs := InOrder(schema, m, 0);
    WrittenInOrder(schema, m, 0);
    ReadsFields(schema, map[], fs, rest);
    StructIsItsFields(schema, m);
    WholeStructRead(schema, m, fs, rest);
  }

  lemma WholeStructRead(schema: Schema, m: Fields, fs: seq<WireField>, rest: Bytes)
    requires FieldsRead(schema, map[], fs, rest) && EncodeStruct(schema, m) == AllBytes(schema, fs) + [STOP]
    requires Fold(map[], fs) == m && Required(schema.fields) <= m.Keys
    ensures StructRead(schema, map[], EncodeStruct(schema, m) + rest, Some((m, |EncodeStruct(schema, m)|)))
  {
    assert Finish(schema, m, |AllBytes(schema, fs)| + 1) == Some((m, |EncodeStruct(schema, m)|));
  }

  function Set(acc: Fields, f: WireField): Fields {
    if f.Known? then acc[f.id := f.value] else acc
  }

  lemma {:induction false} ReadsField(schema: Schema, acc: Fields, f: WireField, more: Bytes)
    requires WellFormed(schema) && FieldOk(schema, f)
    ensures |FieldBytes(schema, f)| >= 3 && FieldBytes(schema, f)[0] != STOP
    ensures ReadField(schema, acc, FieldBytes(schema, f) + more) == Some((Set(acc, f), |FieldBytes(schema, f)| - 3))
    decreases schema, 0, 0
  {
    if f.Known? {
      var spec := Lookup(schema.fields, f.id).value;
      var k :| 0 <= k < |schema.fields| && schema.fields[k] == spec;
      ReadsValue(spec.ty, f.value, more);
      KnownIsSet(schema, acc, f, EncodeValue(spec.ty, f.value), more);
    } else {
      SkipIsLocal(f.ty, f.payload, more);
      ForeignIsSkipped(schema, acc, f, more);
    }
  }

  lemma KnownIsSet(schema: Schema, acc: Fields, f: WireField, payload: Bytes, more: Bytes)
    requires f.Known? && f.id < 0x8000 && Lookup(schema.fields, f.id).Some?
    requires ReadValue(Lookup(schema.fields, f.id).value.ty, payload + more) == Some((f.value, |payload|))
    ensures ReadField(schema, acc, FieldHeader(WireType(Lookup(schema.fields, f.id).value.ty), f.id) + payload + more)
            == Some((Set(acc, f), |payload|))
  {
    var b := FieldHeader(WireType(Lookup(schema.fields, f.id).value.ty), f.id) + payload + more;
    assert FieldId(b) == f.id && b[3..] == payload + more;
  }

  lemma ForeignIsSkipped(schema: Schema, acc: Fields, f: WireField, more: Bytes)
    requires f.Foreign? && FieldOk(schema, f) && Skip(f.ty, f.payload + more) == Some(|f.payload|)
    ensures ReadField(schema, acc, FieldHeader(f.ty, f.id) + f.payload + more) == Some((acc, |f.payload|))
  {
    var b := FieldHeader(f.ty, f.id) + f.payload + more;
    assert FieldId(b) == f.id && b[3..] == f.payload + more;
  }

  function Longer(end: Option<(Fields, nat)>, n: nat): Option<(Fields, nat)> {
    match end case None => None case Some(rest) => Some((rest.0, n + rest.1))
  }

  lemma FieldThenRest(schema: Schema, acc: Fields, acc': Fields, first: Bytes, more: Bytes, end: Option<(Fields, nat)>)
    requires |first| >= 3 && first[0] != STOP && ReadField(schema, acc, first + more) == Some((acc', |first| - 3))
    requires StructRead(schema, acc', more, end)
    ensures StructRead(schema, acc, first + more, Longer(end, |first|))
  {
    assert (first + more)[3 + (|first| - 3)..] == more;
  }

  lemma NoFields(schema: Schema, acc: Fields, rest: Bytes)
    ensures StructRead(schema, acc, [STOP] + rest, Finish(schema, acc, 1))
  {
  }

  lemma FirstField(schema: Schema, fs: seq<WireField>, rest: Bytes)
    ensures fs == [] ==> AllBytes(schema, fs) + [STOP] + rest == [STOP] + rest
    ensures fs != [] ==>
      && AllBytes(schema, fs) + [STOP] + rest == FieldBytes(schema, fs[0]) + (AllBytes(schema, fs[1..]) + [STOP] + rest)
      && |AllBytes(schema, fs)| == |FieldBytes(schema, fs[0])| + |AllBytes(schema, fs[1..])|
  {
  }

  lemma LongerFinish(schema: Schema, m: Fields, n: nat, k: nat)
    ensures Longer(Finish(schema, m, n), k) == Finish(schema, m, k + n)
  {
  }

  /** What reading the fields `fs` and a stop after them comes to. */
  ghost predicate FieldsRead(schema: Schema, acc: Fields, fs: seq<WireField>, rest: Bytes) {
    StructRead(schema, acc, AllBytes(schema, fs) + [STOP] + rest,
               Finish(schema, Fold(acc, fs), |AllBytes(schema, fs)| + 1))
  }

  lemma OneMoreFieldRead(schema: Schema, acc: Fields, acc': Fields, first: Bytes, more: Bytes, m: Fields, n: nat)
    requires |first| >= 3 && first[0] != STOP && ReadField(schema, acc, first + more) == Some((acc', |first| - 3))
    requires StructRead(schema, acc', more, Finish(schema, m, n))
    ensures StructRead(schema, acc, first + more, Finish(schema, m, |first| + n))
  {
    FieldThenRest(schema, acc, acc', first, more, Finish(schema, m, n));
    LongerFinish(schema, m, n, |first|);
  }

  lemma FirstFieldRead(schema: Schema, acc: Fields, fs: seq<WireField>, rest: Bytes, first: Bytes, more: Bytes)
    requires fs != [] && first == FieldBytes(schema, fs[0]) && more == AllBytes(schema, fs[1..]) + [STOP] + rest
    requires |first| >= 3 && first[0] != STOP
    requires ReadField(schema, acc, first + more) == Some((Set(acc, fs[0]), |first| - 3))
    requires FieldsRead(schema, Set(acc, fs[0]), fs[1..], rest)
    ensures FieldsRead(schema, acc, fs, rest)
  {
    var m, n := Fold(Set(acc, fs[0]), fs[1..]), |AllBytes(schema, fs[1..])| + 1;
    StructReadAs(schema, Set(acc, fs[0]), fs[1..], rest, more, m, n);
    FirstField(schema, fs, rest);
    OneMoreFieldRead(schema, acc, Set(acc, fs[0]), first, more, m, n);
    FieldsReadAs(schema, acc, fs, rest, first + more, m, |first| + n);
  }

  lemma StructReadAs(schema: Schema, acc: Fields, fs: seq<WireField>, rest: Bytes, b: Bytes, m: Fields, n: nat)
    requires b == AllBytes(schema, fs) + [STOP] + rest && m == Fold(acc, fs) && n == |AllBytes(schema, fs)| + 1
    requires FieldsRead(schema, acc, fs, rest)
    ensures StructRead(schema, acc, b, Finish(schema, m, n))
  {
  }

  lemma FieldsReadAs(schema: Schema, acc: Fields, fs: seq<WireField>, rest: Bytes, b: Bytes, m: Fields, n: nat)
    requires b == AllBytes(schema, fs) + [STOP] + rest && m == Fold(acc, fs) && n == |AllBytes(schema, fs)| + 1
    requires StructRead(schema, acc, b, Finish(schema, m, n))
    ensures FieldsRead(schema, acc, fs, rest)
  {
  }

  /** Whatever fields are on the wire and in whatever order, reading sets what they say and stops after them. */
  lemma {:induction false} ReadsFields(schema: Schema, acc: Fields, fs: seq<WireField>, rest: Bytes)
    requires WellFormed(schema) && forall i :: 0 <= i < |fs| ==> FieldOk(schema, fs[i])
    ensures FieldsRead(schema, acc, fs, rest)
    decreases schema, 0, 1 + |fs|
  {
    if fs == [] {
      FirstField(schema, fs, rest);
      NoFields(schema, acc, rest);
    } else {
      var first, more := FieldBytes(schema, fs[0]), AllBytes(schema, fs[1..]) + [STOP] + rest;
      assert FieldOk(schema, fs[0]);
      ReadsField(schema, acc, fs[0], more);
      ReadsFields(schema, Set(acc, fs[0]), fs[1..], rest);
      FirstFieldRead(schema, acc, fs, rest, first, more);
    }
  }

  // ---------------------------------------------------------------- the writer's own order

  /** The fields of a struct in the order of the table. */
  function InOrder(schema: Schema, m: Fields, k: nat): seq<WireField>
    decreases |schema.fields| - k
  {
    if k >= |schema.fields| then []
    else
      var id := schema.fields[k].id;
      (if id in m then [Known(id, m[id])] else []) + InOrder(schema, m, k + 1)
  }

  lemma LookupAt(fields: seq<FieldSpec>, k: nat)
    requires k < |fields| && forall i, j :: 0 <= i < j < |fields| ==> fields[i].id != fields[j].id
    ensures Lookup(fields, fields[k].id) == Some(fields[k])
  {
    if k > 0 { LookupAt(fields[1..], k - 1); }
  }

  lemma {:induction false} WrittenInOrder(schema: Schema, m: Fields, k: nat)
    requires WellFormed(schema) && FieldsFit(schema, m)
    ensures EncodeFrom(schema, m, k) == AllBytes(schema, InOrder(schema, m, k))
    ensures forall i :: 0 <= i < |InOrder(schema, m, k)| ==> FieldOk(schema, InOrder(schema, m, k)[i])
    decreases |schema.fields| - k
  {
    if k < |schema.fields| {
      LookupAt(schema.fields, k);
      WrittenInOrder(schema, m, k + 1);
      var id, more := schema.fields[k].id, InOrder(schema, m, k + 1);
      if id in m { assert InOrder(schema, m, k)[1..] == more; } else { assert InOrder(schema, m, k) == more; }
    }
  }

  lemma StructIsItsFields(schema: Schema, m: Fields)
    requires WellFormed(schema) && FieldsFit(schema, m)
    ensures EncodeStruct(schema, m) == AllBytes(schema, InOrder(schema, m, 0)) + [STOP]
    ensures Fold(map[], InOrder(schema, m, 0)) == m && Required(schema.fields) <= m.Keys
  {
    WrittenInOrder(schema, m, 0);
    FoldedInOrder(schema, m, 0);
    assert Part(schema, m, 0) == map[];
  }

  /** The part of `m` that the first `k` fields of the table hold. */
  function Part(schema: Schema, m: Fields, k: nat): Fields {
    map id | id in m && id in (set i | 0 <= i < k && i < |schema.fields| :: schema.fields[i].id) :: m[id]
  }

  lemma NextPart(schema: Schema, m: Fields, k: nat)
    requires k < |schema.fields|
    ensures var id, part := schema.fields[k].id, Part(schema, m, k);
            Part(schema, m, k + 1) == if id in m then part[id := m[id]] else part
  {
  }

  lemma WholePart(schema: Schema, m: Fields)
    requires forall id <- m :: Lookup(schema.fields, id).Some?
    ensures Part(schema, m, |schema.fields|) == m
  {
    forall id <- m ensures id in Part(schema, m, |schema.fields|) {
      var i :| 0 <= i < |schema.fields| && schema.fields[i] == Lookup(schema.fields, id).value;
    }
  }

  lemma {:induction false} FoldedInOrder(schema: Schema, m: Fields, k: nat)
    requires (forall id <- m :: Lookup(schema.fields, id).Some?) && k <= |schema.fields|
    ensures Fold(Part(schema, m, k), InOrder(schema, m, k)) == m
    decreases |schema.fields| - k
  {
    if k < |schema.fields| {
      var id := schema.fields[k].id;
      NextPart(schema, m, k);
      FoldedInOrder(schema, m, k + 1);
      if id in m { assert InOrder(schema, m, k)[1..] == InOrder(schema, m, k + 1); }
      else { assert InOrder(schema, m, k) == InOrder(schema, m, k + 1); }
    } else {
      WholePart(schema, m);
    }
  }

  // ---------------------------------------------------------------- order and unknown fields

  /** No ID is set twice. */
  ghost predicate SetOnce(fs: seq<WireField>) {
    forall i, j :: 0 <= i < j < |fs| && fs[i].Known? && fs[j].Known? ==> fs[i].id != fs[j].id
  }

  ghost predicate Sets(fs: seq<WireField>, id: nat, v: Value) {
    Known(id, v) in fs
  }

  lemma {:induction false} FoldLeavesOthers(acc: Fields, fs: seq<WireField>, id: nat)
    requires forall v :: !Sets(fs, id, v)
    ensures id in Fold(acc, fs) <==> id in acc
    ensures id in acc ==> Fold(acc, fs)[id] == acc[id]
    decreases |fs|
  {
    if fs != [] {
      assert fs[0].Known? ==> Sets(fs, fs[0].id, fs[0].value);
      forall v ensures !Sets(fs[1..], id, v) { assert Sets(fs[1..], id, v) ==> Sets(fs, id, v); }
      FoldLeavesOthers(Set(acc, fs[0]), fs[1..], id);
    }
  }

  lemma {:induction false} FoldSets(acc: Fields, fs: seq<WireField>, id: nat, v: Value)
    requires SetOnce(fs) && Sets(fs, id, v)
    ensures id in Fold(acc, fs) && Fold(acc, fs)[id] == v
    decreases |fs|
  {
    if fs[0] == Known(id, v) {
      forall j | 0 <= j < |fs[1..]| ensures !(fs[1..][j].Known? && fs[1..][j].id == id) {
        assert fs[1..][j] == fs[j + 1];
      }
      assert forall x :: !Sets(fs[1..], id, x);
      FoldLeavesOthers(Set(acc, fs[0]), fs[1..], id);
    } else {
      assert Sets(fs[1..], id, v);
      FoldSets(Set(acc, fs[0]), fs[1..], id, v);
    }
  }

  /** Two encodings that set the same fields, each once, are read alike whatever the order and whatever unknown or
      mistyped fields stand between; each read takes exactly its own bytes. */
  lemma OrderAndForeignFieldsDoNotMatter(schema: Schema, fs: seq<WireField>, gs: seq<WireField>, rest: Bytes)
    requires WellFormed(schema) && SetOnce(fs) && SetOnce(gs)
    requires forall i :: 0 <= i < |fs| ==> FieldOk(schema, fs[i])
    requires forall i :: 0 <= i < |gs| ==> FieldOk(schema, gs[i])
    requires forall id, v :: Sets(fs, id, v) <==> Sets(gs, id, v)
    ensures var f := ReadStruct(schema, map[], AllBytes(schema, fs) + [STOP] + rest);
            var g := ReadStruct(schema, map[], AllBytes(schema, gs) + [STOP] + rest);
            && (f.Some? <==> g.Some?)
            && (f.Some? ==>
                  && f.value.0 == g.value.0 && f.value.1 == |AllBytes(schema, fs)| + 1
                  && g.value.1 == |AllBytes(schema, gs)| + 1)
  {
    ReadsFields(schema, map[], fs, rest);
    ReadsFields(schema, map[], gs, rest);
    forall id: nat
      ensures id in Fold(map[], fs) <==> id in Fold(map[], gs)
      ensures id in Fold(map[], fs) ==> Fold(map[], fs)[id] == Fold(map[], gs)[id]
    {
      if v :| Sets(fs, id, v) {
        assert Sets(gs, id, v);
        FoldSets(map[], fs, id, v);
        FoldSets(map[], gs, id, v);
      } else {
        FoldLeavesOthers(map[], fs, id);
        FoldLeavesOthers(map[], gs, id);
      }
    }
    assert Fold(map[], fs) == Fold(map[], gs);
  }

  // ---------------------------------------------------------------- whatever is read could have been written

  /** The fields set so far survive the wire. */
  ghost predicate PartFits(schema: Schema, m: Fields) {
    forall id <- m :: Lookup(schema.fields, id).Some? && Fits(Lookup(schema.fields, id).value.ty, m[id])
  }

  lemma PartIsWhole(schema: Schema, m: Fields)
    requires WellFormed(schema) && PartFits(schema, m) && Required(schema.fields) <= m.Keys
    ensures FieldsFit(schema, m)
  {
    forall i | 0 <= i < |schema.fields| && schema.fields[i].id in m
      ensures Fits(schema.fields[i].ty, m[schema.fields[i].id])
    {
      LookupAt(schema.fields, i);
    }
  }

  lemma {:induction false} ReadValueFits(ty: FieldType, b: Bytes)
    requires TypeOk(ty) && ReadValue(ty, b).Some?
    ensures Fits(ty, ReadValue(ty, b).value.0)
    decreases |b|, 2, 0
  {
    match ty
    case StructT(schema) => ReadStructFits(schema, map[], b);
    case ListT(schema) => ReadItemsFit(schema, ReadSize(b[1..]).value, b[5..]);
    case _ =>
  }

  lemma {:induction false} ReadItemsFit(schema: Schema, n: nat, b: Bytes)
    requires WellFormed(schema) && ReadItems(schema, n, b).Some?
    ensures var items := ReadItems(schema, n, b).value.0;
            forall i :: 0 <= i < |items| ==> items[i].Some? && FieldsFit(schema, items[i].value)
    decreases |b|, 1, n
  {
    if n > 0 {
      ReadStructFits(schema, map[], b);
      ReadItemsFit(schema, n - 1, b[ReadStruct(schema, map[], b).value.1..]);
    }
  }

  lemma {:induction false} ReadStructFits(schema: Schema, acc: Fields, b: Bytes)
    requires WellFormed(schema) && PartFits(schema, acc) && ReadStruct(schema, acc, b).Some?
    ensures FieldsFit(schema, ReadStruct(schema, acc, b).value.0)
    decreases |b|, 0, 0
  {
    if b[0] == STOP {
      PartIsWhole(schema, acc);
    } else {
      ReadFieldFits(schema, acc, b);
      var read := ReadField(schema, acc, b).value;
      ReadStructFits(schema, read.0, b[3 + read.1..]);
    }
  }

  lemma {:induction false} ReadFieldFits(schema: Schema, acc: Fields, b: Bytes)
    requires WellFormed(schema) && PartFits(schema, acc) && |b| >= 3 && ReadField(schema, acc, b).Some?
    ensures PartFits(schema, ReadField(schema, acc, b).value.0)
    decreases |b| - 3, 3, 0
  {
    var spec := Lookup(schema.fields, FieldId(b));
    if spec.Some? && WireType(spec.value.ty) == b[0] {
      var k :| 0 <= k < |schema.fields| && schema.fields[k] == spec.value;
      ReadValueFits(spec.value.ty, b[3..]);
    }
  }
}
