/** The JavaScript string operations the services rely on: `trim`, the
    regular-expression class `\s`, `includes`, `split('/').pop()` and the
    decimal rendering of integers. */
module Strings {

  /** The line terminators of ECMAScript (section 12.3 of ECMA-262). */
  predicate IsLineTerminator(c: char) {
    c == '\n' || c == '\r' || c == '\U{2028}' || c == '\U{2029}'
  }

  /** The characters matched by `\s` and removed by `String.prototype.trim`:
      ECMAScript white space together with the line terminators. */
  predicate IsJsWhitespace(c: char) {
    || c == ' ' || c == '\t' || c == '\U{000B}' || c == '\U{000C}'
    || c == '\U{00A0}' || c == '\U{FEFF}' || c == '\U{1680}'
    || ('\U{2000}' <= c <= '\U{200A}')
    || c == '\U{202F}' || c == '\U{205F}' || c == '\U{3000}'
    || IsLineTerminator(c)
  }

  /** `\d`: an ASCII digit. */
  predicate IsAsciiDigit(c: char) {
    '0' <= c <= '9'
  }

  predicate HasNonWhitespace(s: string) {
    exists i :: 0 <= i < |s| && !IsJsWhitespace(s[i])
  }

  /** Drops the leading white space: the result is the longest suffix of `s`
      that does not start with white space. */
  function TrimStart(s: string): (r: string)
    ensures |r| <= |s| && r == s[|s| - |r|..]
    ensures r == [] || !IsJsWhitespace(r[0])
    ensures forall i :: 0 <= i < |s| - |r| ==> IsJsWhitespace(s[i])
  {
    if |s| > 0 && IsJsWhitespace(s[0]) then TrimStart(s[1..]) else s
  }

  /** Drops the trailing white space: the result is the longest prefix of `s`
      that does not end with white space. */
  function TrimEnd(s: string): (r: string)
    ensures |r| <= |s| && r == s[..|r|]
    ensures r == [] || !IsJsWhitespace(r[|r| - 1])
    ensures forall i :: |r| <= i < |s| ==> IsJsWhitespace(s[i])
  {
    if |s| > 0 && IsJsWhitespace(s[|s| - 1]) then TrimEnd(s[..|s| - 1]) else s
  }

  /** `String.prototype.trim`: the part of `s` between its leading and its
      trailing white space; a blank `s` gives "". */
  function Trim(s: string): (r: string)
    ensures r == [] || (!IsJsWhitespace(r[0]) && !IsJsWhitespace(r[|r| - 1]))
    ensures HasNonWhitespace(s) <==> r != []
    ensures exists k: nat :: TrimmedAt(s, r, k)
  {
    TrimBothEnds(s, TrimStart(s), TrimEnd(TrimStart(s)));
    TrimEnd(TrimStart(s))
  }

  /** `r` sits at position `k` of `s` with only white space on either side. */
  predicate TrimmedAt(s: string, r: string, k: nat) {
    k + |r| <= |s| && r == s[k..k + |r|] &&
    (forall i :: 0 <= i < k ==> IsJsWhitespace(s[i])) &&
    (forall i :: k + |r| <= i < |s| ==> IsJsWhitespace(s[i]))
  }

  /** What `TrimStart` and then `TrimEnd` promise, put together. */
  lemma TrimBothEnds(s: string, t: string, r: string)
    requires |t| <= |s| && t == s[|s| - |t|..]
    requires t == [] || !IsJsWhitespace(t[0])
    requires forall i :: 0 <= i < |s| - |t| ==> IsJsWhitespace(s[i])
    requires |r| <= |t| && r == t[..|r|]
    requires r == [] || !IsJsWhitespace(r[|r| - 1])
    requires forall i :: |r| <= i < |t| ==> IsJsWhitespace(t[i])
    ensures TrimmedAt(s, r, |s| - |t|)
    ensures r == [] || (!IsJsWhitespace(r[0]) && !IsJsWhitespace(r[|r| - 1]))
    ensures HasNonWhitespace(s) <==> r != []
  {
    var k := |s| - |t|;
    assert r == s[k..k + |r|];
    forall i | k + |r| <= i < |s| ensures IsJsWhitespace(s[i]) {
      assert s[i] == t[i - k];
    }
    if HasNonWhitespace(s) {
      var j :| 0 <= j < |s| && !IsJsWhitespace(s[j]);
      assert j >= k && t[j - k] == s[j];
    }
    if r != [] {
      assert s[k] == r[0] && t[0] == r[0];
    }
  }

  /** Leading white space sits in front of the first non-blank character, so
      whatever follows `a` is left alone by `TrimStart`. */
  lemma {:induction false} TrimStartConcat(a: string, b: string)
    requires HasNonWhitespace(a)
    ensures TrimStart(a + b) == TrimStart(a) + b
  {
    if IsJsWhitespace(a[0]) {
      var i :| 0 <= i < |a| && !IsJsWhitespace(a[i]);
      assert i > 0 && !IsJsWhitespace(a[1..][i - 1]);
      assert (a + b)[1..] == a[1..] + b;
      TrimStartConcat(a[1..], b);
    }
  }

  /** Symmetrically, `TrimEnd` leaves alone whatever precedes `b` when `b`
      holds a non-blank character. */
  lemma {:induction false} TrimEndConcat(a: string, b: string)
    requires HasNonWhitespace(b)
    ensures TrimEnd(a + b) == a + TrimEnd(b)
  {
    var n := |b| - 1;
    var ab := a + b;
    assert ab[|ab| - 1] == b[n];
    if IsJsWhitespace(b[n]) {
      var i :| 0 <= i < |b| && !IsJsWhitespace(b[i]);
      assert i < n && !IsJsWhitespace(b[..n][i]);
      assert ab[..|ab| - 1] == a + b[..n];
      TrimEndConcat(a, b[..n]);
      assert TrimEnd(ab) == TrimEnd(a + b[..n]);
      assert TrimEnd(b) == TrimEnd(b[..n]);
    } else {
      assert TrimEnd(ab) == ab;
    }
  }

  /** White space around a text that neither starts nor ends with white
      space is exactly what `trim` removes. */
  lemma TrimPadded(pre: string, x: string, post: string)
    requires forall i :: 0 <= i < |pre| ==> IsJsWhitespace(pre[i])
    requires forall i :: 0 <= i < |post| ==> IsJsWhitespace(post[i])
    requires x != [] && !IsJsWhitespace(x[0]) && !IsJsWhitespace(x[|x| - 1])
    ensures Trim(pre + x + post) == x
  {
    var px := pre + x;
    assert px[|pre|] == x[0];
    TrimStartConcat(px, post);
    var t := TrimStart(px);
    assert |t| == |x|;
    assert t == x by { assert px[|pre|..] == x; }
    var e := TrimEnd(x + post);
    assert (x + post)[|x| - 1] == x[|x| - 1];
    assert |e| == |x|;
    assert e == x by { assert (x + post)[..|x|] == x; }
  }

  /** `s.replace(/\s/g, '')`: the characters of `s` that are not white space,
      in their order. */
  function StripWhitespace(s: string): (r: string)
    ensures |r| <= |s|
    ensures forall i :: 0 <= i < |r| ==> !IsJsWhitespace(r[i])
    ensures (forall i :: 0 <= i < |s| ==> !IsJsWhitespace(s[i])) ==> r == s
    ensures (forall i :: 0 <= i < |s| ==> IsJsWhitespace(s[i])) ==> r == []
  {
    if s == [] then [] else Kept(s[0]) + StripWhitespace(s[1..])
  }

  /** What stripping keeps of one character. */
  function Kept(c: char): (r: string)
    ensures IsJsWhitespace(c) ==> r == []
    ensures !IsJsWhitespace(c) ==> r == [c]
  {
    if IsJsWhitespace(c) then [] else [c]
  }

  /** Stripping works piece by piece: together with the all-blank and
      no-blank cases above, this says the result is the non-white-space
      characters of `s`, each kept, in their order. */
  lemma {:induction false} StripWhitespaceConcat(a: string, b: string)
    ensures StripWhitespace(a + b) == StripWhitespace(a) + StripWhitespace(b)
  {
    if a == [] {
      assert a + b == b;
    } else {
      assert (a + b)[0] == a[0];
      assert (a + b)[1..] == a[1..] + b;
      StripWhitespaceConcat(a[1..], b);
    }
  }

  /** Stripping twice strips nothing more. */
  lemma StripWhitespaceIdempotent(s: string)
    ensures StripWhitespace(StripWhitespace(s)) == StripWhitespace(s)
  {
  }

  /** `String.prototype.includes`: `sub` occurs in `s` at some position
      (the empty string occurs everywhere). */
  predicate Includes(s: string, sub: string) {
    exists i | 0 <= i <= |s| :: sub <= s[i..]
  }

  /** A string includes every part of a concatenation it is built from. */
  lemma IncludesMiddle(a: string, m: string, b: string)
    ensures Includes(a + m + b, m)
  {
    var s := a + m + b;
    assert m <= s[|a|..];
  }

  /** `s.split('/').pop()`: the part of `s` after its last '/', or all of `s`
      when it holds no '/'. */
  function LastSegment(s: string): (r: string)
    ensures '/' !in r
    ensures |r| <= |s| && r == s[|s| - |r|..]
    ensures |r| < |s| ==> s[|s| - |r| - 1] == '/'
  {
    if |s| == 0 then ""
    else if s[|s| - 1] == '/' then ""
    else LastSegment(s[..|s| - 1]) + [s[|s| - 1]]
  }

  /** The last segment of `a + "/" + b` is `b` whenever `b` holds no '/'. */
  lemma LastSegmentOfJoin(a: string, b: string)
    requires '/' !in b
    ensures LastSegment(a + "/" + b) == b
  {
    var s := a + "/" + b;
    assert s[|a|] == '/';
    assert s[|s| - |b|..] == b;
  }

  /** The digit character for `d`. */
  function DigitChar(d: nat): (c: char)
    requires d < 10
    ensures IsAsciiDigit(c)
  {
    "0123456789"[d]
  }

  /** The value of an ASCII digit. */
  function DigitValue(c: char): nat
    requires IsAsciiDigit(c)
  {
    (c as int - '0' as int) as nat
  }

  predicate AllDigits(s: string) {
    forall i :: 0 <= i < |s| ==> IsAsciiDigit(s[i])
  }

  /** `String(n)` for a non-negative integer: its decimal digits without
      leading zeros. */
  function NatToString(n: nat): (r: string)
    ensures |r| >= 1 && AllDigits(r)
    ensures '/' !in r
  {
    if n < 10 then [DigitChar(n)] else NatToString(n / 10) + [DigitChar(n % 10)]
  }

  /** The integer a string of decimal digits denotes. */
  function ParseDecimal(s: string): nat
    requires AllDigits(s)
  {
    if s == [] then 0 else 10 * ParseDecimal(s[..|s| - 1]) + DigitValue(s[|s| - 1])
  }

  /** Rendering a number in decimal loses nothing: parsing gives it back. */
  lemma {:induction false} NatToStringRoundTrip(n: nat)
    ensures ParseDecimal(NatToString(n)) == n
  {
    var r := NatToString(n);
    if n >= 10 {
      NatToStringRoundTrip(n / 10);
      assert r[..|r| - 1] == NatToString(n / 10);
      assert DigitValue(r[|r| - 1]) == n % 10;
    } else {
      assert r[..0] == [];
    }
  }

  /** Two numbers render alike only when they are equal. */
  lemma NatToStringInjective(m: nat, n: nat)
    requires NatToString(m) == NatToString(n)
    ensures m == n
  {
    NatToStringRoundTrip(m);
    NatToStringRoundTrip(n);
  }

  function Pow10(k: nat): (p: nat)
    ensures p >= 1
  {
    if k == 0 then 1 else 10 * Pow10(k - 1)
  }

  /** A number in [10^(k-1), 10^k) renders with exactly k digits. */
  lemma {:induction false} NatToStringLength(n: nat, k: nat)
    requires 1 <= k && Pow10(k - 1) <= n < Pow10(k)
    ensures |NatToString(n)| == k
  {
    if k > 1 {
      assert Pow10(k - 1) == 10 * Pow10(k - 2);
      assert Pow10(k - 2) <= n / 10 < Pow10(k - 1);
      NatToStringLength(n / 10, k - 1);
    } else {
      assert n < 10;
    }
  }

  /** `String(i)` for an integer: a minus sign in front of a negative one. */
  function IntToString(i: int): string {
    if i < 0 then "-" + NatToString(-i) else NatToString(i)
  }
}
