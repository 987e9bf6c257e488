/** The struct codec that the generator writes out once per struct (kitex_gen/handler/v0_1/k-shot_preview.go), written
    once over a table of fields: which IDs a struct has, of which type, which are required, and in which order they
    are written. */
module Codec {
  import opened Types
  import opened Thrift

  datatype FieldType = StringT | I32T | BoolT | StructT(schema: Schema) | ListT(element: Schema)

  datatype FieldSpec = FieldSpec(id: nat, ty: FieldType, required: bool)

  /** The fields of a struct in the order they are written. */
  datatype Schema = Schema(fields: seq<FieldSpec>)

  type Fields = map<nat, Value>

  /** A list holds pointers, so an element may be nil. */
  datatype Value = StringV(s: Bytes) | I32V(n: int) | BoolV(b: bool) | StructV(fields: map<nat, Value>)
    | ListV(items: seq<Option<map<nat, Value>>>)

  function WireType(ty: FieldType): Byte {
    match ty
    case StringT => STRING
    case I32T => I32
    case BoolT => BOOL
    case StructT(_) => STRUCT
    case ListT(_) => LIST
  }

  /** The field with the ID. */
  function Lookup(fields: seq<FieldSpec>, id: int): (r: Option<FieldSpec>)
    ensures r.Some? ==> r.value in fields && r.value.id == id
    ensures r.None? ==> forall f <- fields :: f.id != id
  {
    if fields == [] then None
    else if fields[0].id == id then Some(fields[0])
    else Lookup(fields[1..], id)
  }

  function Required(fields: seq<FieldSpec>): set<nat> {
    set f | f in fields && f.required :: f.id
  }

  ghost predicate WellFormed(schema: Schema)
    decreases schema
  {
    && (forall i, j :: 0 <= i < j < |schema.fields| ==> schema.fields[i].id != schema.fields[j].id)
    && (forall i :: 0 <= i < |schema.fields| ==> 0 < schema.fields[i].id < 0x8000 && TypeOk(schema.fields[i].ty))
  }

  ghost predicate TypeOk(ty: FieldType)
    decreases ty
  {
    match ty
    case StructT(schema) => WellFormed(schema)
    case ListT(schema) => WellFormed(schema)
    case _ => true
  }

  // ---------------------------------------------------------------- which values are of a type

  /** What the Go types admit. */
  ghost predicate HasType(ty: FieldType, v: Value)
    decreases ty, 0
  {
    match ty
    case StringT => v.StringV?
    case I32T => v.I32V?
    case BoolT => v.BoolV?
    case StructT(schema) => v.StructV? && HasFields(schema, v.fields)
    case ListT(schema) =>
      v.ListV? && forall i :: 0 <= i < |v.items| && v.items[i].Some? ==> HasFields(schema, v.items[i].value)
  }

  ghost predicate HasFields(schema: Schema, m: Fields)
    decreases schema, 1
  {
    && (forall id <- m :: Lookup(schema.fields, id).Some?)
    && (forall id <- Required(schema.fields) :: id in m)
    && (forall i :: 0 <= i < |schema.fields| && schema.fields[i].id in m ==>
        HasType(schema.fields[i].ty, m[schema.fields[i].id]))
  }

  /** What survives the wire: lengths and numbers in 32 bits, no nil elements. */
  ghost predicate Fits(ty: FieldType, v: Value)
    decreases ty, 0
  {
    match ty
    case StringT => v.StringV? && |v.s| < TWO31
    case I32T => v.I32V? && -TWO31 <= v.n < TWO31
    case BoolT => v.BoolV?
    case StructT(schema) => v.StructV? && FieldsFit(schema, v.fields)
    case ListT(schema) =>
      v.ListV? && |v.items| < TWO31 && forall i :: 0 <= i < |v.items| ==>
          v.items[i].Some? && FieldsFit(schema, v.items[i].value)
  }

  ghost predicate FieldsFit(schema: Schema, m: Fields)
    decreases schema, 1
  {
    && (forall id <- m :: Lookup(schema.fields, id).Some?)
    && (forall id <- Required(schema.fields) :: id in m)
    && (forall i :: 0 <= i < |schema.fields| && schema.fields[i].id in m ==>
        Fits(schema.fields[i].ty, m[schema.fields[i].id]))
  }

  // ---------------------------------------------------------------- writing

  function EncodeValue(ty: FieldType, v: Value): Bytes
    decreases ty, 0, 0
  {
    match (ty, v)
    case (StringT, StringV(s)) => WriteString(s)
    case (I32T, I32V(n)) => WriteI32(n)
    case (BoolT, BoolV(b)) => [if b then 1 else 0]
    case (StructT(schema), StructV(m)) => EncodeStruct(schema, m)
    case (ListT(schema), ListV(items)) => [STRUCT] + WriteI32(|items|) + EncodeItems(schema, items)
    case _ => []
  }

  /** The elements of a list; a nil element is written as an empty struct. */
  function EncodeItems(schema: Schema, items: seq<Option<Fields>>): Bytes
    decreases schema, 2, |items|
  {
    if items == [] then []
    else (if items[0].Some? then EncodeStruct(schema, items[0].value) else [STOP]) + EncodeItems(schema, items[1..])
  }

  function EncodeStruct(schema: Schema, m: Fields): Bytes
    decreases schema, 1, 1
  {
    EncodeFrom(schema, m, 0) + [STOP]
  }

  function EncodeFrom(schema: Schema, m: Fields, k: nat): Bytes
    decreases schema, 0, |schema.fields| - k
  {
    if k >= |schema.fields| then []
    else
      var spec := schema.fields[k];
      (if spec.id in m && spec.id < 0x8000
       then FieldHeader(WireType(spec.ty), spec.id) + EncodeValue(spec.ty, m[spec.id]) else [])
      + EncodeFrom(schema, m, k + 1)
  }

  // ---------------------------------------------------------------- reading

  function ReadValue(ty: FieldType, b: Bytes): (r: Option<(Value, nat)>)
    ensures r.Some? ==> r.value.1 <= |b|
    decreases |b|, 2, 0
  {
    match ty
    case StringT => (match ReadString(b) case None => None case Some(s) => Some((StringV(s.0), s.1)))
    case I32T => (match ReadI32(b) case None => None case Some(n) => Some((I32V(n), 4)))
    case BoolT => if |b| < 1 then None else Some((BoolV(b[0] == 1), 1))
    case StructT(schema) =>
      (match ReadStruct(schema, map[], b) case None => None case Some(m) => Some((StructV(m.0), m.1)))
    case ListT(schema) =>
      if |b| < 5 || ReadSize(b[1..]).None? then None
      else
        match ReadItems(schema, ReadSize(b[1..]).value, b[5..])
        case None => None
        case Some(items) => Some((ListV(items.0), 5 + items.1))
  }

  /** The loop of a list field; the element type in the header is not looked at. */
  function ReadItems(schema: Schema, n: nat, b: Bytes): (r: Option<(seq<Option<Fields>>, nat)>)
    ensures r.Some? ==> r.value.1 <= |b| && |r.value.0| == n
    decreases |b|, 1, n
  {
    if n == 0 then Some(([], 0))
    else
      match ReadStruct(schema, map[], b)
      case None => None
      case Some(m) =>
        match ReadItems(schema, n - 1, b[m.1..])
        case None => None
        case Some(rest) => Some(([Some(m.0)] + rest.0, m.1 + rest.1))
  }

  /** FastRead: the loop over field headers, with the fields set so far. */
  function ReadStruct(schema: Schema, acc: Fields, b: Bytes): (r: Option<(Fields, nat)>)
    ensures r.Some? ==> 1 <= r.value.1 <= |b|
    decreases |b|, 0, 0
  {
    if |b| < 1 then None
    else if b[0] == STOP then if Required(schema.fields) <= acc.Keys then Some((acc, 1)) else None
    else if |b| < 3 then None
    else
      match ReadField(schema, acc, b)
      case None => None
      case Some(read) =>
        match ReadStruct(schema, read.0, b[3 + read.1..])
        case None => None
        case Some(rest) => Some((rest.0, 3 + read.1 + rest.1))
  }

  /** The switch of FastRead: a known field of the right type is set, anything else is skipped. */
  function ReadField(schema: Schema, acc: Fields, b: Bytes): (r: Option<(Fields, nat)>)
    requires |b| >= 3
    ensures r.Some? ==> 3 + r.value.1 <= |b|
    decreases |b| - 3, 3, 0
  {
    var spec := Lookup(schema.fields, FieldId(b));
    if spec.Some? && WireType(spec.value.ty) == b[0] then
      match ReadValue(spec.value.ty, b[3..])
      case None => None
      case Some(v) => Some((acc[spec.value.id := v.0], v.1))
    else
      match Skip(b[0], b[3..])
      case None => None
      case Some(n) => Some((acc, n))
  }
}
