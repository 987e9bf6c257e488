/** The primitives of the Apache Thrift binary protocol (Binary protocol encoding, sections "Base types", "Struct",
    "Map", "List and Set") on which the generated codec stands. */
module Thrift {
  import opened Types

  type Byte = x: int | 0 <= x < 256

  type Bytes = seq<Byte>

  const STOP: Byte := 0
  const BOOL: Byte := 2
  const BYTE: Byte := 3
  const DOUBLE: Byte := 4
  const I16: Byte := 6
  const I32: Byte := 8
  const I64: Byte := 10
  const STRING: Byte := 11
  const STRUCT: Byte := 12
  const MAP: Byte := 13
  const SET: Byte := 14
  const LIST: Byte := 15

  const TWO31 := 0x8000_0000
  const TWO32 := 0x1_0000_0000

  // ---------------------------------------------------------------- integers

  /** int32(n), as Go truncates. */
  function Wrap32(n: int): (r: int)
    ensures -TWO31 <= r < TWO31 && (-TWO31 <= n < TWO31 ==> r == n)
  {
    var u := n % TWO32;
    if u < TWO31 then u else u - TWO32
  }

  function WriteI32(n: int): (r: Bytes)
    ensures |r| == 4
  {
    var u := n % TWO32;
    [u / 0x100_0000, u / 0x1_0000 % 256, u / 0x100 % 256, u % 256]
  }

  function ReadI32(b: Bytes): (r: Option<int>)
    ensures r.Some? <==> |b| >= 4
  {
    if |b| < 4 then None
    else
      var u := 0x100_0000 * (b[0] as int) + 0x1_0000 * (b[1] as int) + 0x100 * (b[2] as int) + b[3] as int;
      Some(if u < TWO31 then u else u - TWO32)
  }

  /** Writing truncates to 32 bits, and reading gives the truncated number back. */
  lemma ReadWriteI32(n: int, rest: Bytes)
    ensures ReadI32(WriteI32(n) + rest) == Some(Wrap32(n))
  {
    var u := n % TWO32;
    var w := WriteI32(n);
    assert (w + rest)[0] == w[0] && (w + rest)[1] == w[1] && (w + rest)[2] == w[2] && (w + rest)[3] == w[3];
    Digits(u);
  }

  lemma Digits(u: nat)
    requires u < TWO32
    ensures u == u / 0x100_0000 * 0x100_0000 + u / 0x1_0000 % 256 * 0x1_0000 + u / 0x100 % 256 * 0x100 + u % 256
  {
    assert u / 0x1_0000 == u / 0x100_0000 * 256 + u / 0x1_0000 % 256;
    assert u / 0x100 == u / 0x1_0000 * 256 + u / 0x100 % 256;
    assert u == u / 0x100 * 256 + u % 256;
  }

  /** Lengths and sizes are signed and must not be negative. */
  function ReadSize(b: Bytes): (r: Option<nat>) {
    match ReadI32(b)
    case None => None
    case Some(n) => if n < 0 then None else Some(n)
  }

  // ---------------------------------------------------------------- strings and headers

  function WriteString(s: Bytes): Bytes {
    WriteI32(|s|) + s
  }

  function ReadString(b: Bytes): (r: Option<(Bytes, nat)>)
    ensures r.Some? ==> r.value.1 == 4 + |r.value.0| <= |b|
  {
    match ReadSize(b)
    case None => None
    case Some(n) => if |b| < 4 + n then None else Some((b[4..4 + n], 4 + n))
  }

  lemma ReadWriteString(s: Bytes, rest: Bytes)
    requires |s| < TWO31
    ensures ReadString(WriteString(s) + rest) == Some((s, |WriteString(s)|))
  {
    var b := WriteString(s) + rest;
    assert b == WriteI32(|s|) + (s + rest);
    ReadWriteI32(|s|, s + rest);
    assert b[4..4 + |s|] == s;
  }

  /** The header of a field with a non-negative ID. */
  function FieldHeader(ty: Byte, id: nat): (r: Bytes)
    requires id < 0x8000
    ensures |r| == 3 && r[0] == ty
  {
    [ty, id / 256, id % 256]
  }

  /** The ID in a header: a signed 16-bit number. */
  function FieldId(b: Bytes): int
    requires |b| >= 3
  {
    var u := 256 * (b[1] as int) + b[2] as int;
    if u < 0x8000 then u else u - 0x1_0000
  }

  // ---------------------------------------------------------------- skipping

  /** The number of bytes a value of the type takes, if it is there. */
  function Skip(ty: Byte, b: Bytes): (r: Option<nat>)
    ensures r.Some? ==> 1 <= r.value <= |b|
    decreases |b|, 2, 0
  {
    if ty == BOOL || ty == BYTE then Fixed(1, b)
    else if ty == I16 then Fixed(2, b)
    else if ty == I32 then Fixed(4, b)
    else if ty == I64 || ty == DOUBLE then Fixed(8, b)
    else if ty == STRING then (match ReadString(b) case None => None case Some(s) => Some(s.1))
    else if ty == STRUCT then SkipFields(b)
    else if ty == SET || ty == LIST then
      if |b| < 5 || ReadSize(b[1..]).None? then None
      else Plus(5, SkipMany([b[0]], ReadSize(b[1..]).value, b[5..]))
    else if ty == MAP then
      if |b| < 6 || ReadSize(b[2..]).None? then None
      else Plus(6, SkipMany([b[0], b[1]], ReadSize(b[2..]).value, b[6..]))
    else None
  }

  function Fixed(n: nat, b: Bytes): Option<nat> {
    if |b| < n then None else Some(n)
  }

  function Plus(n: nat, r: Option<nat>): Option<nat> {
    match r case None => None case Some(m) => Some(n + m)
  }

  function SkipFields(b: Bytes): (r: Option<nat>)
    ensures r.Some? ==> 1 <= r.value <= |b|
    decreases |b|, 1, 0
  {
    if |b| < 1 then None
    else if b[0] == STOP then Some(1)
    else if |b| < 3 then None
    else
      match Skip(b[0], b[3..])
      case None => None
      case Some(n) => Plus(3 + n, SkipFields(b[3 + n..]))
  }

  /** `n` groups of values, each group one value of each type. */
  function SkipMany(types: Bytes, n: nat, b: Bytes): (r: Option<nat>)
    ensures r.Some? ==> r.value <= |b|
    decreases |b|, 3, n
  {
    if n == 0 then Some(0)
    else
      match SkipGroup(types, b)
      case None => None
      case Some(m) => Plus(m, SkipMany(types, n - 1, b[m..]))
  }

  function SkipGroup(types: Bytes, b: Bytes): (r: Option<nat>)
    ensures r.Some? ==> r.value <= |b|
    decreases |b|, 2, |types|
  {
    if types == [] then Some(0)
    else
      match Skip(types[0], b)
      case None => None
      case Some(m) => Plus(m, SkipGroup(types[1..], b[m..]))
  }

  // ---------------------------------------------------------------- what follows a value does not matter

  lemma SizeIsLocal(b: Bytes, rest: Bytes)
    requires |b| >= 4
    ensures ReadI32(b + rest) == ReadI32(b) && ReadSize(b + rest) == ReadSize(b)
  {
  }

  lemma {:induction false} SkipIsLocal(ty: Byte, b: Bytes, rest: Bytes)
    requires Skip(ty, b).Some?
    ensures Skip(ty, b + rest) == Skip(ty, b)
    decreases |b|, 2, 0
  {
    if ty == STRING {
      SizeIsLocal(b, rest);
    } else if ty == STRUCT {
      SkipFieldsIsLocal(b, rest);
    } else if ty == SET || ty == LIST {
      assert (b + rest)[1..] == b[1..] + rest && (b + rest)[5..] == b[5..] + rest;
      SizeIsLocal(b[1..], rest);
      SkipManyIsLocal([b[0]], ReadSize(b[1..]).value, b[5..], rest);
    } else if ty == MAP {
      assert (b + rest)[2..] == b[2..] + rest && (b + rest)[6..] == b[6..] + rest;
      SizeIsLocal(b[2..], rest);
      SkipManyIsLocal([b[0], b[1]], ReadSize(b[2..]).value, b[6..], rest);
    }
  }

  lemma {:induction false} SkipFieldsIsLocal(b: Bytes, rest: Bytes)
    requires SkipFields(b).Some?
    ensures SkipFields(b + rest) == SkipFields(b)
    decreases |b|, 1, 0
  {
    if b[0] != STOP {
      assert (b + rest)[3..] == b[3..] + rest;
      SkipIsLocal(b[0], b[3..], rest);
      var n := Skip(b[0], b[3..]).value;
      assert (b + rest)[3 + n..] == b[3 + n..] + rest;
      SkipFieldsIsLocal(b[3 + n..], rest);
    }
  }

  lemma {:induction false} SkipManyIsLocal(types: Bytes, n: nat, b: Bytes, rest: Bytes)
    requires SkipMany(types, n, b).Some?
    ensures SkipMany(types, n, b + rest) == SkipMany(types, n, b)
    decreases |b|, 3, n
  {
    if n > 0 {
      SkipGroupIsLocal(types, b, rest);
      var m := SkipGroup(types, b).value;
      assert (b + rest)[m..] == b[m..] + rest;
      SkipManyIsLocal(types, n - 1, b[m..], rest);
    }
  }

  lemma {:induction false} SkipGroupIsLocal(types: Bytes, b: Bytes, rest: Bytes)
    requires SkipGroup(types, b).Some?
    ensures SkipGroup(types, b + rest) == SkipGroup(types, b)
    decreases |b|, 2, |types|
  {
    if types != [] {
      SkipIsLocal(types[0], b, rest);
      var m := Skip(types[0], b).value;
      assert (b + rest)[m..] == b[m..] + rest;
      SkipGroupIsLocal(types[1..], b[m..], rest);
    }
  }
}
