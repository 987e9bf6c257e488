/** FastRead, FastWriteNocopy and BLength as they work on a byte slice (kitex_gen/handler/v0_1/k-shot_preview.go):
    offsets advanced through a buffer, a list header written after its elements, lengths added up. */
module CodecLoops {
  import opened Types
  import opened Thrift
  import opened Codec
  import opened CodecResults
  import opened Views

  // ---------------------------------------------------------------- writing into the buffer

  /** The buffer `s` after `bytes` were written at `at`. */
  function Spliced(s: Bytes, at: nat, bytes: Bytes): (r: Bytes)
    requires at + |bytes| <= |s|
    ensures |r| == |s|
  {
    s[..at] + bytes + s[at + |bytes|..]
  }

  lemma SplicedTwice(s: Bytes, at: nat, a: Bytes, b: Bytes)
    requires at + |a| + |b| <= |s|
    ensures Spliced(Spliced(s, at, a), at + |a|, b) == Spliced(s, at, a + b)
    ensures Spliced(Spliced(s, at + |a|, b), at, a) == Spliced(s, at, a + b)
  {
  }

  method Put(buf: array<Byte>, at: nat, bytes: Bytes)
    requires at + |bytes| <= buf.Length
    modifies buf
    ensures buf[..] == Spliced(old(buf[..]), at, bytes)
  {
    ghost var before := buf[..];
    for i := 0 to |bytes|
      invariant forall j :: 0 <= j < buf.Length ==> buf[j] == if at <= j < at + i then bytes[j - at] else before[j]
    {
      buf[at + i] := bytes[i];
    }
    assert buf[..] == Spliced(before, at, bytes);
  }

  /** Bytes put right behind those written from `at` on. */
  method PutAfter(buf: array<Byte>, at: nat, n: nat, bytes: Bytes, ghost before: Bytes, ghost written: Bytes)
    requires at + n + |bytes| <= buf.Length == |before| && n == |written| && buf[..] == Spliced(before, at, written)
    modifies buf
    ensures buf[..] == Spliced(before, at, written + bytes)
  {
    SplicedTwice(before, at, written, bytes);
    Put(buf, at + n, bytes);
  }

  method WriteValue(ty: FieldType, v: Value, buf: array<Byte>, at: nat) returns (n: nat)
    requires at + |EncodeValue(ty, v)| <= buf.Length
    modifies buf
    ensures n == |EncodeValue(ty, v)| && buf[..] == Spliced(old(buf[..]), at, EncodeValue(ty, v))
    decreases ty, 3, 0
  {
    match (ty, v) {
      case (StringT, StringV(s)) =>
        Put(buf, at, WriteString(s));
        n := 4 + |s|;
      case (I32T, I32V(x)) =>
        Put(buf, at, WriteI32(x));
        n := 4;
      case (BoolT, BoolV(b)) =>
        Put(buf, at, [if b then 1 else 0]);
        n := 1;
      case (StructT(schema), StructV(m)) =>
        n := FastWrite(schema, m, buf, at);
      case (ListT(schema), ListV(items)) =>
        n := WriteList(schema, items, buf, at);
      case _ =>
        n := 0;
    }
  }

  function ItemBytes(schema: Schema, element: Option<Fields>): Bytes {
    if element.Some? then EncodeStruct(schema, element.value) else [STOP]
  }

  /** `written` holds the first `k` elements. */
  ghost predicate ItemsWritten(schema: Schema, items: seq<Option<Fields>>, k: nat, written: Bytes) {
    k <= |items| && written + EncodeItems(schema, items[k..]) == EncodeItems(schema, items)
  }

  lemma NextItem(schema: Schema, items: seq<Option<Fields>>, k: nat, written: Bytes)
    requires ItemsWritten(schema, items, k, written) && k < |items|
    ensures ItemsWritten(schema, items, k + 1, written + ItemBytes(schema, items[k]))
    ensures |written| + |ItemBytes(schema, items[k])| <= |EncodeItems(schema, items)|
  {
    var more, rest := ItemBytes(schema, items[k]), EncodeItems(schema, items[k + 1..]);
    assert items[k..][1..] == items[k + 1..];
    assert EncodeItems(schema, items[k..]) == more + rest;
    assert written + (more + rest) == written + more + rest;
  }

  lemma AllItems(schema: Schema, items: seq<Option<Fields>>, written: Bytes)
    requires ItemsWritten(schema, items, |items|, written)
    ensures written == EncodeItems(schema, items)
  {
    assert items[|items|..] == [];
  }

  method WriteItem(schema: Schema, element: Option<Fields>, buf: array<Byte>, at: nat) returns (n: nat)
    requires at + |ItemBytes(schema, element)| <= buf.Length
    modifies buf
    ensures n == |ItemBytes(schema, element)| && buf[..] == Spliced(old(buf[..]), at, ItemBytes(schema, element))
    decreases schema, 2, 0
  {
    if element.Some? {
      n := FastWrite(schema, element.value, buf, at);
    } else {
      Put(buf, at, [STOP]);
      n := 1;
    }
  }

  /** The loop over the elements, which also counts them. */
  method WriteItems(schema: Schema, items: seq<Option<Fields>>, buf: array<Byte>, at: nat) returns (n: nat, length: nat)
    requires at + |EncodeItems(schema, items)| <= buf.Length
    modifies buf
    ensures n == |EncodeItems(schema, items)| && length == |items|
    ensures buf[..] == Spliced(old(buf[..]), at, EncodeItems(schema, items))
    decreases schema, 2, 1
  {
    ghost var before, written: Bytes := buf[..], [];
    n, length := 0, 0;
    assert items[0..] == items;
    while length < |items|
      invariant ItemsWritten(schema, items, length, written) && n == |written|
      invariant at + n <= buf.Length && buf[..] == Spliced(before, at, written)
    {
      NextItem(schema, items, length, written);
      SplicedTwice(before, at, written, ItemBytes(schema, items[length]));
      var l := WriteItem(schema, items[length], buf, at + n);
      written, n, length := written + ItemBytes(schema, items[length]), n + l, length + 1;
    }
    AllItems(schema, items, written);
  }

  /** A list field: room is left for the header, which is written when the elements have been counted. */
  method WriteList(schema: Schema, items: seq<Option<Fields>>, buf: array<Byte>, at: nat) returns (n: nat)
    requires at + |EncodeValue(ListT(schema), ListV(items))| <= buf.Length
    modifies buf
    ensures n == |EncodeValue(ListT(schema), ListV(items))|
    ensures buf[..] == Spliced(old(buf[..]), at, EncodeValue(ListT(schema), ListV(items)))
    decreases schema, 2, 2
  {
    var header := [STRUCT] + WriteI32(|items|);
    SplicedTwice(buf[..], at, header, EncodeItems(schema, items));
    var l, length := WriteItems(schema, items, buf, at + 5);
    Put(buf, at, [STRUCT] + WriteI32(length));
    return 5 + l;
  }

  /** What the `k`-th field of the table puts on the wire: nothing when it is absent. */
  function FieldAt(schema: Schema, m: Fields, k: nat): Bytes
    requires k < |schema.fields|
  {
    var spec := schema.fields[k];
    if spec.id in m && spec.id < 0x8000
    then FieldHeader(WireType(spec.ty), spec.id) + EncodeValue(spec.ty, m[spec.id]) else []
  }

  ghost predicate FieldsWritten(schema: Schema, m: Fields, k: nat, written: Bytes) {
    written + EncodeFrom(schema, m, k) == EncodeFrom(schema, m, 0)
  }

  lemma NextField(schema: Schema, m: Fields, k: nat, written: Bytes)
    requires FieldsWritten(schema, m, k, written) && k < |schema.fields|
    ensures FieldsWritten(schema, m, k + 1, written + FieldAt(schema, m, k))
    ensures |written| + |FieldAt(schema, m, k)| < |EncodeStruct(schema, m)|
  {
    assert EncodeFrom(schema, m, k) == FieldAt(schema, m, k) + EncodeFrom(schema, m, k + 1);
  }

  lemma AllFields(schema: Schema, m: Fields, written: Bytes)
    requires FieldsWritten(schema, m, |schema.fields|, written)
    ensures EncodeStruct(schema, m) == written + [STOP] && written == EncodeFrom(schema, m, 0)
  {
  }

  method WriteField(schema: Schema, m: Fields, k: nat, buf: array<Byte>, at: nat) returns (n: nat)
    requires k < |schema.fields| && at + |FieldAt(schema, m, k)| <= buf.Length
    modifies buf
    ensures n == |FieldAt(schema, m, k)| && buf[..] == Spliced(old(buf[..]), at, FieldAt(schema, m, k))
    decreases schema, 0, 0
  {
    var spec := schema.fields[k];
    if spec.id !in m || spec.id >= 0x8000 {
      return 0;
    }
    var header := FieldHeader(WireType(spec.ty), spec.id);
    SplicedTwice(buf[..], at, header, EncodeValue(spec.ty, m[spec.id]));
    Put(buf, at, header);
    var l := WriteValue(spec.ty, m[spec.id], buf, at + 3);
    return 3 + l;
  }

  /** The fields in table order, before the stop byte. */
  method WriteFields(schema: Schema, m: Fields, buf: array<Byte>, at: nat) returns (n: nat)
    requires at + |EncodeStruct(schema, m)| <= buf.Length
    modifies buf
    ensures n == |EncodeFrom(schema, m, 0)| && n + 1 == |EncodeStruct(schema, m)|
    ensures buf[..] == Spliced(old(buf[..]), at, EncodeFrom(schema, m, 0))
    decreases schema, 1, 0
  {
    ghost var before, written: Bytes := buf[..], [];
    n := 0;
    for k := 0 to |schema.fields|
      invariant n == |written| && FieldsWritten(schema, m, k, written)
      invariant at + n < buf.Length && buf[..] == Spliced(before, at, written)
    {
      NextField(schema, m, k, written);
      SplicedTwice(before, at, written, FieldAt(schema, m, k));
      var l := WriteField(schema, m, k, buf, at + n);
      n, written := n + l, written + FieldAt(schema, m, k);
    }
    AllFields(schema, m, written);
  }

  /** FastWriteNocopy: the fields in table order, then the stop byte. */
  method FastWrite(schema: Schema, m: Fields, buf: array<Byte>, at: nat) returns (n: nat)
    requires at + |EncodeStruct(schema, m)| <= buf.Length
    modifies buf
    ensures n == |EncodeStruct(schema, m)| && buf[..] == Spliced(old(buf[..]), at, EncodeStruct(schema, m))
    decreases schema, 1, 1
  {
    ghost var before := buf[..];
    n := WriteFields(schema, m, buf, at);
    PutAfter(buf, at, n, [STOP], before, EncodeFrom(schema, m, 0));
    n := n + 1;
  }

  // ---------------------------------------------------------------- adding up lengths

  method ValueLength(ty: FieldType, v: Value) returns (l: nat)
    ensures l == |EncodeValue(ty, v)|
    decreases ty, 3, 0
  {
    match (ty, v) {
      case (StringT, StringV(s)) => l := 4 + |s|;
      case (I32T, I32V(_)) => l := 4;
      case (BoolT, BoolV(_)) => l := 1;
      case (StructT(schema), StructV(m)) => l := BLength(schema, m);
      case (ListT(schema), ListV(items)) =>
        var sum := ItemsLength(schema, items);
        l := 5 + sum;
      case _ => l := 0;
    }
  }

  method ItemsLength(schema: Schema, items: seq<Option<Fields>>) returns (l: nat)
    ensures l == |EncodeItems(schema, items)|
    decreases schema, 2, 0
  {
    l := 0;
    ghost var written: Bytes := [];
    assert items[0..] == items;
    for i := 0 to |items|
      invariant ItemsWritten(schema, items, i, written) && l == |written|
    {
      NextItem(schema, items, i, written);
      written := written + ItemBytes(schema, items[i]);
      var n := 1;
      if items[i].Some? {
        n := BLength(schema, items[i].value);
      }
      l := l + n;
    }
    AllItems(schema, items, written);
  }

  /** BLength: the size FastWriteNocopy needs and fills exactly. */
  method BLength(schema: Schema, m: Fields) returns (l: nat)
    ensures l == |EncodeStruct(schema, m)|
    decreases schema, 1, 0
  {
    l := 0;
    ghost var written: Bytes := [];
    for k := 0 to |schema.fields|
      invariant FieldsWritten(schema, m, k, written) && l == |written|
    {
      NextField(schema, m, k, written);
      written := written + FieldAt(schema, m, k);
      var spec := schema.fields[k];
      if spec.id in m && spec.id < 0x8000 {
        var n := ValueLength(spec.ty, m[spec.id]);
        l := l + 3 + n;
      }
    }
    AllFields(schema, m, written);
    l := l + 1;
  }

  // ---------------------------------------------------------------- reading from the buffer

  method ReadValueAt(ty: FieldType, buf: array<Byte>, at: nat) returns (r: Option<(Value, nat)>)
    requires at <= buf.Length
    ensures r == ReadValue(ty, buf[at..])
    decreases buf.Length - at, 3
  {
    ghost var b := buf[at..];
    match ty {
      case StructT(schema) =>
        var m := FastRead(schema, buf, at);
        r := if m.Some? then Some((StructV(m.value.0), m.value.1)) else None;
      case ListT(schema) =>
        if buf.Length - at < 5 {
          return None;
        }
        assert buf[at + 1..] == b[1..] && buf[at + 5..] == b[5..];
        var size := ReadSize(buf[at + 1..]);
        if size.None? {
          return None;
        }
        var items := ReadItemsAt(schema, size.value, buf, at + 5);
        r := if items.Some? then Some((ListV(items.value.0), 5 + items.value.1)) else None;
      case _ =>
        r := ReadValue(ty, buf[at..]);
    }
  }

  /** Reading `n` elements from `b` after `items`, which took `offset` bytes, comes to `whole`. */
  ghost predicate ItemsLeft(schema: Schema, n: nat, b: Bytes, items: seq<Option<Fields>>, offset: nat,
                            whole: Option<(seq<Option<Fields>>, nat)>) {
    match ReadItems(schema, n, b)
    case None => whole == None
    case Some(more) => whole == Some((items + more.0, offset + more.1))
  }

  lemma AllItemsLeft(schema: Schema, n: nat, b: Bytes)
    ensures ItemsLeft(schema, n, b, [], 0, ReadItems(schema, n, b))
  {
    if ReadItems(schema, n, b).Some? { assert [] + ReadItems(schema, n, b).value.0 == ReadItems(schema, n, b).value.0; }
  }

  lemma OneItemFewer(schema: Schema, n: nat, b: Bytes, items: seq<Option<Fields>>, offset: nat,
                     whole: Option<(seq<Option<Fields>>, nat)>)
    requires n > 0 && ItemsLeft(schema, n, b, items, offset, whole)
    ensures match ReadStruct(schema, map[], b)
            case None => whole == None
            case Some(m) => ItemsLeft(schema, n - 1, b[m.1..], items + [Some(m.0)], offset + m.1, whole)
  {
    if ReadStruct(schema, map[], b).Some? {
      var m := ReadStruct(schema, map[], b).value;
      if ReadItems(schema, n - 1, b[m.1..]).Some? {
        var rest := ReadItems(schema, n - 1, b[m.1..]).value.0;
        assert items + ([Some(m.0)] + rest) == items + [Some(m.0)] + rest;
      }
    }
  }

  lemma NoItemsLeft(schema: Schema, b: Bytes, items: seq<Option<Fields>>, offset: nat,
                    whole: Option<(seq<Option<Fields>>, nat)>)
    requires ItemsLeft(schema, 0, b, items, offset, whole)
    ensures whole == Some((items, offset))
  {
    assert items + [] == items;
  }

  /** One turn of the loop of a list field. */
  method ReadItem(schema: Schema, buf: array<Byte>, at: nat, offset: nat, ghost n: nat,
                  ghost items: seq<Option<Fields>>, ghost whole: Option<(seq<Option<Fields>>, nat)>)
    returns (element: Option<(Fields, nat)>)
    requires n > 0 && at + offset <= buf.Length && ItemsLeft(schema, n, buf[at + offset..], items, offset, whole)
    ensures element.None? ==> whole == None
    ensures element.Some? ==>
      && at + offset + element.value.1 <= buf.Length
      && ItemsLeft(schema, n - 1, buf[at + offset + element.value.1..], items + [Some(element.value.0)],
                   offset + element.value.1, whole)
    decreases buf.Length - at - offset, 2, 0
  {
    ghost var b := buf[at + offset..];
    OneItemFewer(schema, n, b, items, offset, whole);
    element := FastRead(schema, buf, at + offset);
    assert element.Some? ==> b[element.value.1..] == buf[at + offset + element.value.1..];
  }

  /** The loop of a list field. */
  method ReadItemsAt(schema: Schema, size: nat, buf: array<Byte>, at: nat)
    returns (r: Option<(seq<Option<Fields>>, nat)>)
    requires at <= buf.Length
    ensures r == ReadItems(schema, size, buf[at..])
    decreases buf.Length - at, 2, 1
  {
    var items: seq<Option<Fields>>, offset := [], 0;
    ghost var whole := ReadItems(schema, size, buf[at..]);
    AllItemsLeft(schema, size, buf[at..]);
    for i := 0 to size
      invariant at + offset <= buf.Length
      invariant ItemsLeft(schema, size - i, buf[at + offset..], items, offset, whole)
    {
      var element := ReadItem(schema, buf, at, offset, size - i, items, whole);
      if element.None? {
        return None;
      }
      items, offset := items + [Some(element.value.0)], offset + element.value.1;
    }
    NoItemsLeft(schema, buf[at + offset..], items, offset, whole);
    return Some((items, offset));
  }

  /** The switch of FastRead on one field whose header is at `at`. */
  method ReadFieldAt(schema: Schema, acc: Fields, buf: array<Byte>, at: nat) returns (r: Option<(Fields, nat)>)
    requires at + 3 <= buf.Length
    ensures r == ReadField(schema, acc, buf[at..])
    decreases buf.Length - at - 3, 4
  {
    ghost var b := buf[at..];
    var id := FieldId(buf[at..at + 3]);
    assert id == FieldId(b) && buf[at + 3..] == b[3..];
    var spec := Lookup(schema.fields, id);
    if spec.Some? && WireType(spec.value.ty) == buf[at] {
      var v := ReadValueAt(spec.value.ty, buf, at + 3);
      r := if v.Some? then Some((acc[spec.value.id := v.value.0], v.value.1)) else None;
    } else {
      var l := Skip(buf[at], buf[at + 3..]);
      r := if l.Some? then Some((acc, l.value)) else None;
    }
  }

  /** Reading on from `b` with `acc` set by the first `offset` bytes comes to `whole`. */
  ghost predicate FieldsLeft(schema: Schema, acc: Fields, b: Bytes, offset: nat, whole: Option<(Fields, nat)>) {
    whole == Longer(ReadStruct(schema, acc, b), offset)
  }

  lemma AllFieldsLeft(schema: Schema, b: Bytes)
    ensures FieldsLeft(schema, map[], b, 0, ReadStruct(schema, map[], b))
  {
  }

  lemma CutShort(schema: Schema, acc: Fields, b: Bytes, offset: nat, whole: Option<(Fields, nat)>)
    requires FieldsLeft(schema, acc, b, offset, whole) && (|b| == 0 || (|b| < 3 && b[0] != STOP))
    ensures whole == None
  {
  }

  lemma Stopped(schema: Schema, acc: Fields, b: Bytes, offset: nat, whole: Option<(Fields, nat)>)
    requires FieldsLeft(schema, acc, b, offset, whole) && |b| > 0 && b[0] == STOP
    ensures whole == if Required(schema.fields) <= acc.Keys then Some((acc, offset + 1)) else None
  {
  }

  lemma LongerTwice(end: Option<(Fields, nat)>, n: nat, k: nat)
    ensures Longer(Longer(end, n), k) == Longer(end, k + n)
  {
  }

  lemma OneFieldFewer(schema: Schema, acc: Fields, b: Bytes, offset: nat, whole: Option<(Fields, nat)>,
                      read: Option<(Fields, nat)>)
    requires FieldsLeft(schema, acc, b, offset, whole) && |b| >= 3 && b[0] != STOP && read == ReadField(schema, acc, b)
    ensures read.None? ==> whole == None
    ensures read.Some? ==> FieldsLeft(schema, read.value.0, b[3 + read.value.1..], offset + 3 + read.value.1, whole)
  {
    FieldThenTail(schema, acc, b, read);
    if read.Some? {
      LongerTwice(ReadStruct(schema, read.value.0, b[3 + read.value.1..]), 3 + read.value.1, offset);
    }
  }

  lemma FieldThenTail(schema: Schema, acc: Fields, b: Bytes, read: Option<(Fields, nat)>)
    requires |b| >= 3 && b[0] != STOP && read == ReadField(schema, acc, b)
    ensures read.None? ==> ReadStruct(schema, acc, b) == None
    ensures read.Some? ==>
      && 3 + read.value.1 <= |b|
      && ReadStruct(schema, acc, b) == Longer(ReadStruct(schema, read.value.0, b[3 + read.value.1..]), 3 + read.value.1)
  {
    if read.Some? {
      var l := 3 + read.value.1;
      assert b[..l] + b[l..] == b;
      FieldThenRest(schema, acc, read.value.0, b[..l], b[l..], ReadStruct(schema, read.value.0, b[l..]));
    }
  }

  datatype Turn = Over(r: Option<(Fields, nat)>) | Again(acc: Fields, offset: nat)

  /** One turn of the loop over field headers. */
  method ReadTurn(schema: Schema, acc: Fields, buf: array<Byte>, at: nat, offset: nat,
                  ghost whole: Option<(Fields, nat)>)
    returns (turn: Turn)
    requires at + offset <= buf.Length && FieldsLeft(schema, acc, buf[at + offset..], offset, whole)
    ensures turn.Over? ==> turn.r == whole
    ensures turn.Again? ==>
      offset < turn.offset && at + turn.offset <= buf.Length
      && FieldsLeft(schema, turn.acc, buf[at + turn.offset..], turn.offset, whole)
    decreases buf.Length - at - offset, 1, 1
  {
    ghost var b := buf[at + offset..];
    if at + offset == buf.Length {
      CutShort(schema, acc, b, offset, whole);
      return Over(None);
    }
    if buf[at + offset] == STOP {
      Stopped(schema, acc, b, offset, whole);
      return Over(if Required(schema.fields) <= acc.Keys then Some((acc, offset + 1)) else None);
    }
    if buf.Length - at - offset < 3 {
      CutShort(schema, acc, b, offset, whole);
      return Over(None);
    }
    turn := ReadOneField(schema, acc, buf, at, offset, whole);
  }

  lemma TailOfTail(buf: array<Byte>, i: nat, j: nat)
    requires i + j <= buf.Length
    ensures buf[i..][j..] == buf[i + j..]
  {
  }

  lemma NextTurn(schema: Schema, acc: Fields, buf: array<Byte>, at: nat, offset: nat, whole: Option<(Fields, nat)>,
                 read: Option<(Fields, nat)>)
    requires at + offset + 3 <= buf.Length && buf[at + offset] != STOP
    requires FieldsLeft(schema, acc, buf[at + offset..], offset, whole)
    requires read == ReadField(schema, acc, buf[at + offset..])
    ensures read.None? ==> whole == None
    ensures read.Some? ==>
      && at + (offset + 3 + read.value.1) <= buf.Length
      && FieldsLeft(schema, read.value.0, buf[at + (offset + 3 + read.value.1)..], offset + 3 + read.value.1, whole)
  {
    OneFieldFewer(schema, acc, buf[at + offset..], offset, whole, read);
    if read.Some? { TailOfTail(buf, at + offset, 3 + read.value.1); }
  }

  /** The field behind a header, and the rest of the buffer. */
  method ReadOneField(schema: Schema, acc: Fields, buf: array<Byte>, at: nat, offset: nat,
                      ghost whole: Option<(Fields, nat)>) returns (turn: Turn)
    requires at + offset + 3 <= buf.Length && buf[at + offset] != STOP
    requires FieldsLeft(schema, acc, buf[at + offset..], offset, whole)
    ensures turn.Over? ==> turn.r == whole
    ensures turn.Again? ==>
      offset < turn.offset && at + turn.offset <= buf.Length
      && FieldsLeft(schema, turn.acc, buf[at + turn.offset..], turn.offset, whole)
    decreases buf.Length - at - offset, 1, 0
  {
    var read := ReadFieldAt(schema, acc, buf, at + offset);
    NextTurn(schema, acc, buf, at, offset, whole, read);
    if read.None? {
      return Over(None);
    }
    return Again(read.value.0, offset + 3 + read.value.1);
  }

  /** FastRead into an empty struct: the loop over field headers. */
  method FastRead(schema: Schema, buf: array<Byte>, at: nat) returns (r: Option<(Fields, nat)>)
    requires at <= buf.Length
    ensures r == ReadStruct(schema, map[], buf[at..])
    decreases buf.Length - at, 1, 2
  {
    var acc: Fields, offset := map[], 0;
    ghost var whole := ReadStruct(schema, map[], buf[at..]);
    AllFieldsLeft(schema, buf[at..]);
    while true
      invariant at + offset <= buf.Length
      invariant FieldsLeft(schema, acc, buf[at + offset..], offset, whole)
      decreases buf.Length - at - offset
    {
      var turn := ReadTurn(schema, acc, buf, at, offset, whole);
      if turn.Over? {
        return turn.r;
      }
      acc, offset := turn.acc, turn.offset;
    }
  }

  // ---------------------------------------------------------------- the task view

  /** Writing a view into a buffer of exactly BLength bytes and reading the buffer gives the view back. */
  method WriteThenRead(t: TaskView) returns (buf: array<Byte>, r: Option<(TaskView, nat)>)
    ensures buf[..] == Encode(t)
    ensures r == Some((t, buf.Length)) <==> TaskFits(t)
  {
    var length := BLength(TASK, TaskFields(t));
    buf := new Byte[length](i => 0);
    var n := FastWrite(TASK, TaskFields(t), buf, 0);
    assert buf[..] == Encode(t) == Encode(t) + [];
    DecodingUndoesEncoding(t, []);
    var m := FastRead(TASK, buf, 0);
    assert buf[0..] == buf[..];
    r := if m.Some? then Some((TaskOf(m.value.0), m.value.1)) else None;
  }
}
