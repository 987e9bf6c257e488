/** The fingerprint by which a render submission is recognised, and exactly which submissions share one
    (internal/productiontools/render_jobs.go). */
module Fingerprints {
  import opened ToolGuard

  // ---------------------------------------------------------------- numerals

  function Pow10(k: nat): nat {
    if k == 0 then 1 else 10 * Pow10(k - 1)
  }

  predicate Digits(s: string) {
    forall i :: 0 <= i < |s| ==> '0' <= s[i] <= '9'
  }

  function Width(n: nat): nat {
    |Itoa(n)|
  }

  lemma {:induction false} AtoiIsNat(s: string)
    requires Digits(s)
    ensures 0 <= Atoi(s) < Pow10(|s|)
    decreases |s|
  {
    if s != "" { AtoiIsNat(s[..|s| - 1]); }
  }

  lemma {:induction false} AtoiAppend(x: string, y: string)
    ensures Atoi(x + y) == Atoi(x) * Pow10(|y|) + Atoi(y)
    decreases |y|
  {
    if y == "" {
      assert x + y == x;
    } else {
      var y' := y[..|y| - 1];
      AtoiAppend(x, y');
      assert (x + y)[..|x + y| - 1] == x + y';
      assert Pow10(|y|) == 10 * Pow10(|y'|);
      assert Atoi(x) * Pow10(|y|) == 10 * (Atoi(x) * Pow10(|y'|));
    }
  }

  /** A string of digits without a leading zero is the numeral of its number. */
  lemma {:induction false} ItoaAtoi(s: string)
    requires s != "" && Digits(s) && s[0] != '0'
    ensures Atoi(s) >= 1 && Itoa(Atoi(s)) == s
    decreases |s|
  {
    var front, last := s[..|s| - 1], s[|s| - 1] as int - '0' as int;
    assert Atoi(s) == Atoi(front) * 10 + last;
    if |s| == 1 {
      assert Atoi(front) == 0;
      assert Itoa(last) == s;
    } else {
      ItoaAtoi(front);
      assert Atoi(s) / 10 == Atoi(front) && Atoi(s) % 10 == last;
      assert s == front + [s[|s| - 1]];
    }
  }

  lemma {:induction false} ItoaLeads(n: nat)
    ensures Digits(Itoa(n)) && (n >= 1 ==> Itoa(n)[0] != '0')
  {
    if n >= 10 { ItoaLeads(n / 10); }
    forall i | 0 <= i < |Itoa(n)| ensures '0' <= Itoa(n)[i] <= '9' { assert Itoa(n)[i] in Itoa(n); }
  }

  // ---------------------------------------------------------------- numbers run together

  /** The number whose digits are those of a followed by those of b. */
  function Joined(a: nat, b: nat): nat {
    a * Pow10(Width(b)) + b
  }

  lemma JoinedDigits(a: nat, b: nat)
    requires a >= 1
    ensures Itoa(Joined(a, b)) == Itoa(a) + Itoa(b) && Joined(a, b) >= 1
  {
    ItoaLeads(a);
    ItoaLeads(b);
    AtoiAppend(Itoa(a), Itoa(b));
    AtoiItoa(a);
    AtoiItoa(b);
    ItoaAtoi(Itoa(a) + Itoa(b));
  }

  lemma SameNumeral(a: nat, b: nat)
    ensures Itoa(a) == Itoa(b) <==> a == b
  {
    AtoiItoa(a);
    AtoiItoa(b);
  }

  /** A digit string after which a numeral goes on with another numeral is a numeral itself. */
  lemma Prefix(d: string, n: nat, rest: string)
    requires n >= 1 && d != "" && Itoa(n) == d + rest
    ensures Atoi(d) >= 1 && Itoa(Atoi(d)) == d
  {
    ItoaLeads(n);
    assert d[0] == Itoa(n)[0];
    forall i | 0 <= i < |d| ensures '0' <= d[i] <= '9' { assert d[i] == Itoa(n)[i]; }
    ItoaAtoi(d);
  }

  lemma Longer(x: string, y: string, x': string, y': string)
    requires x + y == x' + y' && |x| <= |x'|
    ensures x' == x + x'[|x|..] && y == x'[|x|..] + y'
  {
    assert (x + y)[..|x|] == x && (x' + y')[..|x|] == x'[..|x|];
    assert (x + y)[|x|..] == y && (x' + y')[|x|..] == x'[|x|..] + y';
  }

  /** Two pairs of numbers run together alike exactly when the first number of one is that of the other with digits
      moved over from its second. */
  lemma JoinedAlike(a: nat, b: nat, a': nat, b': nat)
    requires 1 <= a < a' && 1 <= b
    ensures Joined(a, b) == Joined(a', b') <==> exists q: nat :: q >= 1 && a' == Joined(a, q) && b == Joined(q, b')
  {
    JoinedDigits(a, b);
    JoinedDigits(a', b');
    SameNumeral(Joined(a, b), Joined(a', b'));
    if Joined(a, b) == Joined(a', b') {
      var q := MovedOver(a, b, a', b');
    }
    forall q: nat | q >= 1 && a' == Joined(a, q) && b == Joined(q, b') ensures Joined(a, b) == Joined(a', b') {
      JoinedDigits(a, q);
      JoinedDigits(q, b');
      assert Itoa(a) + (Itoa(q) + Itoa(b')) == (Itoa(a) + Itoa(q)) + Itoa(b');
    }
  }

  lemma MovedOver(a: nat, b: nat, a': nat, b': nat) returns (q: nat)
    requires 1 <= a < a' && 1 <= b && Itoa(a) + Itoa(b) == Itoa(a') + Itoa(b')
    ensures q >= 1 && a' == Joined(a, q) && b == Joined(q, b')
  {
    SameNumeral(a, a');
    if Width(a') < Width(a) {
      Longer(Itoa(a'), Itoa(b'), Itoa(a), Itoa(b));
      LongerIsGreater(a', a);
      assert false;
    }
    Longer(Itoa(a), Itoa(b), Itoa(a'), Itoa(b'));
    var d := Itoa(a')[Width(a)..];
    if d == "" {
      assert false;
    }
    Prefix(d, b, Itoa(b'));
    q := Atoi(d);
    JoinedDigits(a, q);
    JoinedDigits(q, b');
    SameNumeral(a', Joined(a, q));
    SameNumeral(b, Joined(q, b'));
  }

  lemma LongerIsGreater(a: nat, b: nat)
    requires 1 <= a && Width(a) < Width(b) && Itoa(b)[..Width(a)] == Itoa(a)
    ensures a <= b
  {
    var d := Itoa(b)[Width(a)..];
    assert Itoa(b) == Itoa(a) + d;
    ItoaLeads(b);
    AtoiIsNat(d);
    AtoiAppend(Itoa(a), d);
    AtoiItoa(a);
    AtoiItoa(b);
    Pow10IsPositive(|d|);
    NoLess(a, Pow10(|d|));
  }

  lemma NoLess(a: nat, p: nat)
    requires p >= 1
    ensures a <= a * p
  {
  }

  lemma {:induction false} Pow10IsPositive(k: nat)
    ensures Pow10(k) >= 1
  {
    if k > 0 { Pow10IsPositive(k - 1); }
  }

  // ---------------------------------------------------------------- fingerprints

  datatype Submission = Submission(project: string, output: string, first: nat, last: nat) {
    /** The ranges renderSubmit accepts. */
    predicate Valid() { 1 <= first <= last }

    function Head(): string { project + output }

    function Range(): nat { Joined(first, last) }
  }

  /** What renderSubmit hashes: the arguments one after another, without separators. */
  function Fingerprint(s: Submission): string {
    "blender.render.submit" + s.project + s.output + Itoa(s.first) + Itoa(s.last)
  }

  lemma FingerprintParts(s: Submission)
    requires s.Valid()
    ensures Fingerprint(s) == "blender.render.submit" + (s.Head() + Itoa(s.Range()))
  {
    JoinedDigits(s.first, s.last);
    FiveParts("blender.render.submit", s.project, s.output, Itoa(s.first), Itoa(s.last));
  }

  lemma FiveParts(a: string, b: string, c: string, d: string, e: string)
    ensures a + b + c + d + e == a + ((b + c) + (d + e))
  {
    assert a + b + c == a + (b + c);
    assert a + (b + c) + d + e == a + (b + c) + (d + e);
  }

  lemma SamePieces(x: string, y: string, x': string, y': string)
    requires |x| == |x'|
    ensures x + y == x' + y' <==> x == x' && y == y'
  {
    assert (x + y)[..|x|] == x && (x' + y')[..|x|] == x' && (x + y)[|x|..] == y && (x' + y')[|x|..] == y';
  }

  /** Paths of equal length: fingerprints agree exactly when the paths do and the ranges run together alike. */
  lemma EqualLengthsShareFingerprint(s: Submission, s': Submission)
    requires s.Valid() && s'.Valid() && |s.Head()| == |s'.Head()|
    ensures Fingerprint(s) == Fingerprint(s') <==> s.Head() == s'.Head() && s.Range() == s'.Range()
  {
    FingerprintParts(s);
    FingerprintParts(s');
    var stem := "blender.render.submit";
    SamePieces(stem, s.Head() + Itoa(s.Range()), stem, s'.Head() + Itoa(s'.Range()));
    SamePieces(s.Head(), Itoa(s.Range()), s'.Head(), Itoa(s'.Range()));
    SameNumeral(s.Range(), s'.Range());
  }

  /** For one project and output: two different ranges share a fingerprint exactly when the later first frame is the
      earlier one followed by some digits, and those digits lead the last frame of the other. */
  lemma RangesShareFingerprint(s: Submission, s': Submission)
    requires s.Valid() && s'.Valid() && s.Head() == s'.Head() && s.first < s'.first
    ensures Fingerprint(s) == Fingerprint(s')
      <==> exists q: nat :: q >= 1 && s'.first == Joined(s.first, q) && s.last == Joined(q, s'.last)
  {
    EqualLengthsShareFingerprint(s, s');
    JoinedAlike(s.first, s.last, s'.first, s'.last);
  }

  /** For different outputs: the longer path is the shorter one followed by a number, and that number leads the digits
      of the shorter one's range. */
  lemma OutputsShareFingerprint(s: Submission, s': Submission)
    requires s.Valid() && s'.Valid() && |s.Head()| < |s'.Head()|
    ensures Fingerprint(s) == Fingerprint(s')
      <==> exists q: nat :: q >= 1 && s'.Head() == s.Head() + Itoa(q) && s.Range() == Joined(q, s'.Range())
  {
    var a, b := Itoa(s.Range()), Itoa(s'.Range());
    FingerprintParts(s);
    FingerprintParts(s');
    var stem := "blender.render.submit";
    SamePieces(stem, s.Head() + a, stem, s'.Head() + b);
    if s.Head() + a == s'.Head() + b {
      JoinedDigits(s.first, s.last);
      Longer(s.Head(), a, s'.Head(), b);
      var d := s'.Head()[|s.Head()|..];
      Prefix(d, s.Range(), b);
      var q: nat := Atoi(d);
      JoinedDigits(q, s'.Range());
      SameNumeral(s.Range(), Joined(q, s'.Range()));
    }
    forall q: nat | q >= 1 && s'.Head() == s.Head() + Itoa(q) && s.Range() == Joined(q, s'.Range())
      ensures s.Head() + a == s'.Head() + b
    {
      JoinedDigits(q, s'.Range());
      assert s.Head() + (Itoa(q) + b) == (s.Head() + Itoa(q)) + b;
    }
  }

  /** Submissions whose first frames have equally many digits, for paths of equal length, are told apart. */
  lemma EqualWidthsDiffer(s: Submission, s': Submission)
    requires s.Valid() && s'.Valid() && |s.Head()| == |s'.Head()| && Width(s.first) == Width(s'.first)
    ensures Fingerprint(s) == Fingerprint(s') <==> s.Head() == s'.Head() && s.first == s'.first && s.last == s'.last
  {
    EqualLengthsShareFingerprint(s, s');
    SameNumeral(s.Range(), s'.Range());
    JoinedDigits(s.first, s.last);
    JoinedDigits(s'.first, s'.last);
    SamePieces(Itoa(s.first), Itoa(s.last), Itoa(s'.first), Itoa(s'.last));
    SameNumeral(s.first, s'.first);
    SameNumeral(s.last, s'.last);
  }

  /** Paths that do not end in a digit are told apart, whatever the ranges. */
  lemma NamesDiffer(s: Submission, s': Submission)
    requires s.Valid() && s'.Valid() && s.Head() != s'.Head()
    requires forall h <- [s.Head(), s'.Head()] :: h != "" ==> !('0' <= h[|h| - 1] <= '9')
    ensures Fingerprint(s) != Fingerprint(s')
  {
    assert s.Head() in [s.Head(), s'.Head()] && s'.Head() in [s.Head(), s'.Head()];
    if |s.Head()| < |s'.Head()| {
      LongerNameDiffers(s, s');
    } else if |s'.Head()| < |s.Head()| {
      LongerNameDiffers(s', s);
    } else {
      EqualLengthsShareFingerprint(s, s');
    }
  }

  lemma LongerNameDiffers(s: Submission, s': Submission)
    requires s.Valid() && s'.Valid() && |s.Head()| < |s'.Head()|
    requires !('0' <= s'.Head()[|s'.Head()| - 1] <= '9')
    ensures Fingerprint(s) != Fingerprint(s')
  {
    OutputsShareFingerprint(s, s');
    forall q: nat ensures s'.Head() != s.Head() + Itoa(q) {
      ItoaLeads(q);
      var h := s.Head() + Itoa(q);
      assert h[|h| - 1] == Itoa(q)[|Itoa(q)| - 1];
    }
  }

  /** Different ranges can have one fingerprint. */
  lemma FingerprintsCollide(project: string, output: string)
    ensures Fingerprint(Submission(project, output, 1, 123)) == Fingerprint(Submission(project, output, 11, 23))
  {
    var s, s' := Submission(project, output, 1, 123), Submission(project, output, 11, 23);
    assert Width(1) == 1 && Width(23) == 2;
    assert Pow10(1) == 10 && Pow10(2) == 100;
    assert s'.first == Joined(s.first, 1) && s.last == Joined(1, s'.last);
    RangesShareFingerprint(s, s');
  }

  /** And so can different outputs, with ranges whose digits differ. */
  lemma OutputsCollide(project: string, output: string)
    ensures Fingerprint(Submission(project, output, 12, 50)) == Fingerprint(Submission(project, output + "1", 2, 50))
  {
    var s, s' := Submission(project, output, 12, 50), Submission(project, output + "1", 2, 50);
    assert Width(50) == 2 && Pow10(1) == 10 && Pow10(2) == 100;
    assert s.Range() == 1250 && s'.Range() == 250;
    assert Itoa(25) == "25" && Itoa(250) == "250" && Itoa(1) == "1";
    assert Width(250) == 3 && Pow10(3) == 1000;
    assert s.Range() == Joined(1, s'.Range());
    assert s'.Head() == s.Head() + Itoa(1);
    OutputsShareFingerprint(s, s');
  }
}
