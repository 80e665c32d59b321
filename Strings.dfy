/**
 * The few JavaScript string operations the extension relies on, written
 * over Dafny strings (sequences of Unicode scalar values):
 * `String.prototype.trim`, `String.prototype.includes`, `'c'.repeat(n)`
 * and the decimal rendering of an integer by `+ ''`.
 */
module Strings {

  /** The characters `trim()` removes: ECMAScript WhiteSpace and LineTerminator. */
  predicate IsJsWhitespace(c: char) {
    var n := c as int;
    n == 0x09 || n == 0x0A || n == 0x0B || n == 0x0C || n == 0x0D || n == 0x20 ||
    n == 0xA0 || n == 0x1680 || (0x2000 <= n <= 0x200A) || n == 0x2028 || n == 0x2029 ||
    n == 0x202F || n == 0x205F || n == 0x3000 || n == 0xFEFF
  }

  ghost predicate AllWhitespace(s: string) {
    forall i :: 0 <= i < |s| ==> IsJsWhitespace(s[i])
  }

  /** Drops leading whitespace. */
  function TrimStart(s: string): (r: string)
    ensures |r| <= |s| && r == s[|s| - |r|..]
    ensures AllWhitespace(s[..|s| - |r|])
    ensures r != [] ==> !IsJsWhitespace(r[0])
  {
    if |s| > 0 && IsJsWhitespace(s[0]) then
      var u := s[1..];
      var t := TrimStart(u);
      assert s[..|s| - |t|] == [s[0]] + u[..|u| - |t|];
      AllWhitespaceConcat([s[0]], u[..|u| - |t|]);
      t
    else s
  }

  /** Drops trailing whitespace. */
  function TrimEnd(s: string): (r: string)
    ensures |r| <= |s| && r == s[..|r|]
    ensures AllWhitespace(s[|r|..])
    ensures r != [] ==> !IsJsWhitespace(r[|r| - 1])
  {
    if |s| > 0 && IsJsWhitespace(s[|s| - 1]) then
      var u := s[..|s| - 1];
      var t := TrimEnd(u);
      assert s[|t|..] == u[|t|..] + [s[|s| - 1]];
      AllWhitespaceConcat(u[|t|..], [s[|s| - 1]]);
      t
    else s
  }

  lemma AllWhitespaceConcat(x: string, y: string)
    requires AllWhitespace(x) && AllWhitespace(y)
    ensures AllWhitespace(x + y)
  {
    forall k | 0 <= k < |x + y| ensures IsJsWhitespace((x + y)[k]) {
      if k < |x| { assert (x + y)[k] == x[k]; } else { assert (x + y)[k] == y[k - |x|]; }
    }
  }

  /** What trimming both ends yields, from the contracts of the two halves alone. */
  lemma TrimBothEnds(s: string, a: string, r: string)
    requires |a| <= |s| && a == s[|s| - |a|..] && AllWhitespace(s[..|s| - |a|])
    requires a != [] ==> !IsJsWhitespace(a[0])
    requires |r| <= |a| && r == a[..|r|] && AllWhitespace(a[|r|..])
    ensures 0 <= |s| - |a| <= |s| - |a| + |r| <= |s|
    ensures r == s[|s| - |a|..|s| - |a| + |r|]
    ensures AllWhitespace(s[..|s| - |a|]) && AllWhitespace(s[|s| - |a| + |r|..])
    ensures r == [] <==> AllWhitespace(s)
  {
    var i := |s| - |a|;
    var j := i + |r|;
    assert a == s[i..];
    assert r == a[..|r|];
    assert r == s[i..j] by {
      forall k | 0 <= k < |r| ensures r[k] == s[i + k] {
        assert r[k] == a[k];
      }
    }
    assert s[j..] == a[|r|..];
    if r == [] {
      assert a[|r|..] == a;
      assert s == s[..i] + a;
      AllWhitespaceConcat(s[..i], a);
    } else {
      assert s[i] == r[0];
    }
  }

  /**
   * `s.trim()`: the slice of `s` left after removing whitespace at both ends.
   * It is empty exactly when `s` is whitespace only.
   */
  function Trim(s: string): (r: string)
    ensures |r| <= |s|
    ensures r != [] ==> !IsJsWhitespace(r[0]) && !IsJsWhitespace(r[|r| - 1])
    ensures r == [] <==> AllWhitespace(s)
  {
    var a := TrimStart(s);
    TrimBothEnds(s, a, TrimEnd(a));
    TrimEnd(a)
  }

  /** `trim()` keeps a contiguous slice of `s` and drops only whitespace around it. */
  lemma TrimIsSlice(s: string)
    ensures exists i, j :: (0 <= i <= j <= |s| && Trim(s) == s[i..j] &&
                            AllWhitespace(s[..i]) && AllWhitespace(s[j..]))
  {
    var a := TrimStart(s);
    TrimBothEnds(s, a, TrimEnd(a));
    var i := |s| - |a|;
    assert Trim(s) == s[i..i + |Trim(s)|];
  }

  /** The `!s.trim()` test of the source: the text is empty or whitespace only. */
  predicate IsBlank(s: string) {
    Trim(s) == []
  }

  /** Trimming twice is trimming once. */
  lemma {:induction false} TrimIdempotent(s: string)
    ensures Trim(Trim(s)) == Trim(s)
  {
    var r := Trim(s);
    var a := TrimStart(r);
    if r != [] {
      assert a == r;
      assert TrimEnd(a) == a;
    }
  }

  /** `p` occurs in `s` starting at index `i`. */
  ghost predicate OccursAt(s: string, p: string, i: int) {
    0 <= i <= |s| - |p| && s[i..i + |p|] == p
  }

  lemma OccursShift(s: string, p: string)
    requires |s| > 0
    ensures forall i :: 0 <= i ==> (OccursAt(s[1..], p, i) <==> OccursAt(s, p, i + 1))
  {
    forall i | 0 <= i ensures OccursAt(s[1..], p, i) <==> OccursAt(s, p, i + 1) {
      if 0 <= i <= |s| - 1 - |p| {
        assert s[1..][i..i + |p|] == s[i + 1..i + 1 + |p|];
      }
    }
  }

  /** `s.includes(p)`: plain substring search, true for an empty `p`. */
  function Includes(s: string, p: string): (r: bool)
    ensures r <==> exists i :: OccursAt(s, p, i)
    decreases |s|
  {
    if |p| > |s| then
      assert forall i :: !OccursAt(s, p, i);
      false
    else if s[..|p|] == p then
      assert OccursAt(s, p, 0);
      true
    else
      OccursShift(s, p);
      var r := Includes(s[1..], p);
      assert r ==> exists i :: OccursAt(s, p, i) by {
        if r {
          var i :| OccursAt(s[1..], p, i);
          assert OccursAt(s, p, i + 1);
        }
      }
      assert (exists i :: OccursAt(s, p, i)) ==> r by {
        if exists i :: OccursAt(s, p, i) {
          var i :| OccursAt(s, p, i);
          assert i != 0;
          assert OccursAt(s[1..], p, i - 1);
        }
      }
      r
  }

  /** `String(c).repeat(n)`. */
  function Repeat(c: char, n: nat): (r: string)
    ensures |r| == n
    ensures forall i :: 0 <= i < n ==> r[i] == c
  {
    if n == 0 then [] else [c] + Repeat(c, n - 1)
  }

  function DigitChar(d: nat): (c: char)
    requires d < 10
    ensures '0' <= c <= '9' && c as int - '0' as int == d
  {
    ('0' as int + d) as char
  }

  /** The number a string of decimal digits denotes. */
  ghost function DigitsValue(s: string): nat
    requires forall i :: 0 <= i < |s| ==> '0' <= s[i] <= '9'
  {
    if s == [] then 0 else DigitsValue(s[..|s| - 1]) * 10 + (s[|s| - 1] as int - '0' as int)
  }

  /** The decimal text of a non-negative number, as `n + ''` gives it. */
  function NatToString(n: nat): (r: string)
    ensures r != []
    ensures forall i :: 0 <= i < |r| ==> '0' <= r[i] <= '9'
    ensures r[0] == '0' ==> r == "0"
    ensures DigitsValue(r) == n
  {
    if n < 10 then
      assert DigitsValue([DigitChar(n)]) == DigitsValue([]) * 10 + n;
      [DigitChar(n)]
    else
      var r := NatToString(n / 10) + [DigitChar(n % 10)];
      assert r[..|r| - 1] == NatToString(n / 10);
      r
  }
}
