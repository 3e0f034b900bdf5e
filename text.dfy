/**
 * String primitives shared by the three sources: substring search
 * (Python's `p in s`, JavaScript's `s.includes(p)`) and lower-casing
 * (Python's `str.lower()`, JavaScript's `toLowerCase()`, both approximated
 * by ASCII case folding).
 */
module Text {

  /** `p` occurs in `s` at index `i`. */
  ghost predicate OccursAt(s: string, p: string, i: int)
  {
    0 <= i && i + |p| <= |s| && s[i..i + |p|] == p
  }

  lemma OccursAtShift(s: string, p: string, i: int)
    requires |s| > 0 && 0 <= i
    ensures OccursAt(s[1..], p, i) <==> OccursAt(s, p, i + 1)
  {
    if 0 <= i && i + |p| <= |s| - 1 {
      assert s[1..][i..i + |p|] == s[i + 1..i + 1 + |p|];
    }
  }

  /** Substring test, searching from the left. */
  function Contains(s: string, p: string): bool
    decreases |s|
  {
    if |p| > |s| then false
    else if s[..|p|] == p then true
    else Contains(s[1..], p)
  }

  /** The search finds `p` exactly when `p` occurs somewhere in `s`. */
  lemma {:induction false} ContainsIffOccurs(s: string, p: string)
    ensures Contains(s, p) <==> exists i :: OccursAt(s, p, i)
    decreases |s|
  {
    if |p| > |s| {
    } else if s[..|p|] == p {
      assert OccursAt(s, p, 0);
    } else {
      ContainsIffOccurs(s[1..], p);
      assert !OccursAt(s, p, 0);
      if exists i :: OccursAt(s[1..], p, i) {
        var i :| OccursAt(s[1..], p, i);
        OccursAtShift(s, p, i);
      }
      if exists i :: OccursAt(s, p, i) {
        var i :| OccursAt(s, p, i);
        OccursAtShift(s, p, i - 1);
      }
    }
  }

  /** True iff `s` contains at least one of `patterns`: the shape of the
      source's `for error in errors: if error in text: return ...` scans. */
  function ContainsAny(s: string, patterns: seq<string>): bool
  {
    patterns != [] && (Contains(s, patterns[0]) || ContainsAny(s, patterns[1..]))
  }

  /** The scan succeeds exactly when some pattern of the list occurs. */
  lemma {:induction false} ContainsAnyIffSome(s: string, patterns: seq<string>)
    ensures ContainsAny(s, patterns) <==> exists k :: 0 <= k < |patterns| && Contains(s, patterns[k])
  {
    if patterns != [] {
      ContainsAnyIffSome(s, patterns[1..]);
      assert forall k :: 1 <= k < |patterns| ==> patterns[k] == patterns[1..][k - 1];
    }
  }

  predicate IsUpper(c: char)
  {
    'A' <= c <= 'Z'
  }

  /** ASCII case folding of one character. */
  function LowerChar(c: char): (d: char)
    ensures !IsUpper(d)
    ensures !IsUpper(c) ==> d == c
    ensures IsUpper(c) ==> d as int == c as int + 32
  {
    if IsUpper(c) then (c as int + 32) as char else c
  }

  /** ASCII lower-casing of a whole string. */
  function Lower(s: string): (r: string)
    ensures |r| == |s|
    ensures forall i :: 0 <= i < |s| ==> r[i] == LowerChar(s[i])
  {
    seq(|s|, i requires 0 <= i < |s| => LowerChar(s[i]))
  }

  /** Whatever occurs in a lower-cased text has no upper-case letter, so a
      pattern with an upper-case letter can never match such a text. */
  lemma ContainedInLowerHasNoUpper(s: string, p: string)
    requires Contains(Lower(s), p)
    ensures forall j :: 0 <= j < |p| ==> !IsUpper(p[j])
  {
    var t := Lower(s);
    ContainsIffOccurs(t, p);
    var i :| OccursAt(t, p, i);
    forall j | 0 <= j < |p|
      ensures !IsUpper(p[j])
    {
      assert p[j] == t[i..i + |p|][j] == t[i + j];
    }
  }

  /** A text that contains `a + b` contains `b`. */
  lemma ContainsSuffixOf(s: string, a: string, b: string)
    requires Contains(s, a + b)
    ensures Contains(s, b)
  {
    ContainsIffOccurs(s, a + b);
    ContainsIffOccurs(s, b);
    var i :| OccursAt(s, a + b, i);
    assert s[i + |a|..i + |a| + |b|] == (a + b)[|a|..];
    assert OccursAt(s, b, i + |a|);
  }

  /** A pattern whose first character occurs nowhere in `s` is not
      contained in it. */
  lemma NotContainedWithoutFirstChar(s: string, p: string)
    requires |p| > 0 && forall i :: 0 <= i < |s| ==> s[i] != p[0]
    ensures !Contains(s, p)
  {
    forall i | 0 <= i && i + |p| <= |s| ensures !OccursAt(s, p, i) {
      assert s[i..i + |p|][0] == s[i];
    }
    ContainsIffOccurs(s, p);
  }

  /** Decimal rendering of a natural number, as Python's f-string prints it:
      digits only, and no leading zero. */
  function NatToDecimal(n: nat): (r: string)
    ensures |r| >= 1
    ensures forall i :: 0 <= i < |r| ==> '0' <= r[i] <= '9'
    ensures |r| > 1 ==> r[0] != '0'
  {
    var digit := ['0' + (n % 10) as char];
    if n < 10 then digit else NatToDecimal(n / 10) + digit
  }

  /** The value of a decimal digit; 0 for any other character. */
  function DigitValue(c: char): nat
  {
    if '0' <= c <= '9' then c as int - '0' as int else 0
  }

  /** The value of a string of decimal digits, as Python's `int` reads it. */
  function DecimalValue(s: string): nat
  {
    if s == [] then 0 else 10 * DecimalValue(s[..|s| - 1]) + DigitValue(s[|s| - 1])
  }

  /** Reading the rendering of a number back gives the number. */
  lemma {:induction false} DecimalRoundTrip(n: nat)
    ensures DecimalValue(NatToDecimal(n)) == n
  {
    var r := NatToDecimal(n);
    var digit := ['0' + (n % 10) as char];
    assert DigitValue(digit[0]) == n % 10;
    if n < 10 {
      assert r == digit && r[..0] == [];
    } else {
      DecimalRoundTrip(n / 10);
      assert r == NatToDecimal(n / 10) + digit;
      assert r[..|r| - 1] == NatToDecimal(n / 10);
    }
  }
}
