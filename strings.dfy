/**
 * The JavaScript string built-ins the application code relies on, stated over
 * `seq<char>`: `indexOf`, `lastIndexOf`, `substring` (with its argument swap),
 * `trim`, a global single-character `replace`, and the decimal rendering of an
 * integer inside a template literal.
 */
module Strings {

  /** `pat` occurs in `s` starting at index `i`. */
  predicate OccursAt(s: string, pat: string, i: int) {
    0 <= i && i + |pat| <= |s| && s[i..i + |pat|] == pat
  }

  /** `t` is a substring of `s`. */
  ghost predicate Contains(s: string, t: string) {
    exists i :: OccursAt(s, t, i)
  }

  // ---------------------------------------------------------------------------
  // indexOf / lastIndexOf

  /** `s.indexOf(pat, from)`: the first occurrence of `pat` at or after `from`, or -1. */
  function IndexOfFrom(s: string, pat: string, from: nat): (r: int)
    ensures r == -1 || (from <= r && OccursAt(s, pat, r))
    ensures forall i :: from <= i && (r == -1 || i < r) ==> !OccursAt(s, pat, i)
    decreases |s| - from
  {
    if from + |pat| > |s| then -1
    else if OccursAt(s, pat, from) then from
    else IndexOfFrom(s, pat, from + 1)
  }

  /** `s.indexOf(pat)`. */
  function IndexOf(s: string, pat: string): (r: int)
    ensures r == -1 <==> forall i :: !OccursAt(s, pat, i)
    ensures r != -1 ==> OccursAt(s, pat, r) && forall i :: 0 <= i < r ==> !OccursAt(s, pat, i)
  {
    IndexOfFrom(s, pat, 0)
  }

  /** The last occurrence of `pat` starting at or before `upTo`, or -1. */
  function LastIndexOfUpTo(s: string, pat: string, upTo: int): (r: int)
    ensures r == -1 || (r <= upTo && OccursAt(s, pat, r))
    ensures forall i :: r < i <= upTo ==> !OccursAt(s, pat, i)
    decreases if upTo < 0 then 0 else upTo + 1
  {
    if upTo < 0 then -1
    else if OccursAt(s, pat, upTo) then upTo
    else LastIndexOfUpTo(s, pat, upTo - 1)
  }

  /** `s.lastIndexOf(pat)`: the search starts at the last index where `pat` still fits. */
  function LastIndexOf(s: string, pat: string): (r: int)
    ensures r == -1 <==> forall i :: !OccursAt(s, pat, i)
    ensures r != -1 ==> OccursAt(s, pat, r) && forall i :: r < i ==> !OccursAt(s, pat, i)
  {
    LastIndexOfUpTo(s, pat, |s| - |pat|)
  }

  /** A pattern at the very start is the first occurrence. */
  lemma IndexOfAtStart(s: string, pat: string)
    requires |pat| <= |s| && s[..|pat|] == pat
    ensures IndexOf(s, pat) == 0
  {
    assert OccursAt(s, pat, 0);
  }

  /** A pattern at the very end is the last occurrence. */
  lemma LastIndexOfAtEnd(s: string, pat: string)
    requires |pat| <= |s| && s[|s| - |pat|..] == pat
    ensures LastIndexOf(s, pat) == |s| - |pat|
  {
    assert OccursAt(s, pat, |s| - |pat|);
  }

  // ---------------------------------------------------------------------------
  // substring

  /** An index argument of `substring` clamped into `[0, len]`. */
  function Clamp(i: int, len: nat): (r: nat)
    ensures r <= len
    ensures 0 <= i <= len ==> r == i
  {
    if i < 0 then 0 else if i > len then len else i
  }

  /**
   * `s.substring(start, end)`: both arguments are clamped into `[0, |s|]`, and
   * when the first is larger than the second the two are swapped.
   */
  function Substring(s: string, start: int, end: int): string {
    var a, b := Clamp(start, |s|), Clamp(end, |s|);
    if a <= b then s[a..b] else s[b..a]
  }

  /** Within bounds and in order, `substring` is the slice. */
  lemma SubstringInRange(s: string, start: int, end: int)
    requires 0 <= start <= end <= |s|
    ensures Substring(s, start, end) == s[start..end]
  {
  }

  /** Whatever the arguments, `substring` returns a piece of `s`. */
  lemma SubstringContained(s: string, start: int, end: int)
    ensures Contains(s, Substring(s, start, end))
  {
    var a, b := Clamp(start, |s|), Clamp(end, |s|);
    if a <= b {
      assert OccursAt(s, s[a..b], a);
    } else {
      assert OccursAt(s, s[b..a], b);
    }
  }

  /** The argument swap: the order of the two indices never matters. */
  lemma SubstringSymmetric(s: string, start: int, end: int)
    ensures Substring(s, start, end) == Substring(s, end, start)
  {
  }

  // ---------------------------------------------------------------------------
  // trim

  /**
   * The characters `String.prototype.trim` removes: the WhiteSpace code points
   * (tab, vertical tab, form feed, space, no-break space, byte order mark and
   * the space separators U+1680, U+2000 to U+200A, U+202F, U+205F, U+3000) and
   * the LineTerminator code points (line feed, carriage return, U+2028, U+2029).
   */
  const JS_WHITESPACE: set<char> := {
    '\t', '\U{000B}', '\U{000C}', ' ', '\U{00A0}', '\U{FEFF}',
    '\U{1680}', '\U{2000}', '\U{2001}', '\U{2002}', '\U{2003}', '\U{2004}', '\U{2005}',
    '\U{2006}', '\U{2007}', '\U{2008}', '\U{2009}', '\U{200A}', '\U{202F}', '\U{205F}',
    '\U{3000}',
    '\n', '\r', '\U{2028}', '\U{2029}'
  }

  predicate IsJsWhitespace(c: char) {
    c in JS_WHITESPACE
  }

  /** The index of the first non-whitespace character of `s` at or after `i`, or `|s|`. */
  function SkipLeading(s: string, i: nat): (n: nat)
    requires i <= |s|
    ensures i <= n <= |s|
    ensures forall k :: i <= k < n ==> IsJsWhitespace(s[k])
    ensures n < |s| ==> !IsJsWhitespace(s[n])
    decreases |s| - i
  {
    if i == |s| || !IsJsWhitespace(s[i]) then i else SkipLeading(s, i + 1)
  }

  /** Where `s[lo..j]` ends once its trailing whitespace is cut. */
  function SkipTrailing(s: string, lo: nat, j: nat): (m: nat)
    requires lo <= j <= |s|
    ensures lo <= m <= j
    ensures forall k :: m <= k < j ==> IsJsWhitespace(s[k])
    ensures lo < m ==> !IsJsWhitespace(s[m - 1])
  {
    if j == lo || !IsJsWhitespace(s[j - 1]) then j else SkipTrailing(s, lo, j - 1)
  }

  /**
   * `s.trim()`: the slice of `s` that keeps every character from the first to
   * the last non-whitespace one; everything before and after it is whitespace.
   */
  function Trim(s: string): (r: string)
    ensures r == [] || (!IsJsWhitespace(r[0]) && !IsJsWhitespace(r[|r| - 1]))
    ensures var i := SkipLeading(s, 0);
      && i + |r| <= |s| && r == s[i..i + |r|]
      && (forall k :: 0 <= k < i ==> IsJsWhitespace(s[k]))
      && (forall k :: i + |r| <= k < |s| ==> IsJsWhitespace(s[k]))
  {
    var i := SkipLeading(s, 0);
    s[i..SkipTrailing(s, i, |s|)]
  }

  /** A string that neither starts nor ends with whitespace is its own trim. */
  lemma TrimNoOp(s: string)
    requires s == [] || (!IsJsWhitespace(s[0]) && !IsJsWhitespace(s[|s| - 1]))
    ensures Trim(s) == s
  {
    assert SkipLeading(s, 0) == 0;
    assert SkipTrailing(s, 0, |s|) == |s|;
  }

  /** `!s.trim()` holds exactly when every character of `s` is whitespace. */
  lemma TrimEmptyIff(s: string)
    ensures Trim(s) == [] <==> forall k :: 0 <= k < |s| ==> IsJsWhitespace(s[k])
  {
  }

  // ---------------------------------------------------------------------------
  // replace(/c/g, rep)

  /** Number of occurrences of the character `c` in `s`. */
  function Count(c: char, s: string): (n: nat)
    ensures n <= |s|
    ensures n == 0 <==> c !in s
  {
    if s == [] then 0 else (if s[0] == c then 1 else 0) + Count(c, s[1..])
  }

  /** `s.replace(/c/g, rep)` for a single-character pattern `c`. */
  function ReplaceChar(s: string, c: char, rep: string): (r: string)
    ensures c !in rep ==> c !in r
  {
    if s == [] then []
    else (if s[0] == c then rep else [s[0]]) + ReplaceChar(s[1..], c, rep)
  }

  /** Each occurrence of `c` grows the string by `|rep| - 1` characters. */
  lemma {:induction false} ReplaceCharLength(s: string, c: char, rep: string)
    ensures |ReplaceChar(s, c, rep)| == |s| + Count(c, s) * (|rep| - 1)
  {
    if s != [] {
      ReplaceCharLength(s[1..], c, rep);
      var n := Count(c, s[1..]);
      if s[0] == c {
        assert |ReplaceChar(s, c, rep)| == |rep| + |s| - 1 + n * (|rep| - 1);
        assert (n + 1) * (|rep| - 1) == n * (|rep| - 1) + |rep| - 1;
      }
    }
  }

  /** Replacing distributes over concatenation. */
  lemma {:induction false} ReplaceCharAppend(a: string, b: string, c: char, rep: string)
    ensures ReplaceChar(a + b, c, rep) == ReplaceChar(a, c, rep) + ReplaceChar(b, c, rep)
  {
    if a != [] {
      var x := if a[0] == c then rep else [a[0]];
      assert (a + b)[0] == a[0];
      assert (a + b)[1..] == a[1..] + b;
      ReplaceCharAppend(a[1..], b, c, rep);
      calc {
        ReplaceChar(a + b, c, rep);
        x + ReplaceChar(a[1..] + b, c, rep);
        x + (ReplaceChar(a[1..], c, rep) + ReplaceChar(b, c, rep));
        (x + ReplaceChar(a[1..], c, rep)) + ReplaceChar(b, c, rep);
        ReplaceChar(a, c, rep) + ReplaceChar(b, c, rep);
      }
    } else {
      assert a + b == b;
    }
  }

  /** A string without the character is left as it is. */
  lemma {:induction false} ReplaceCharAbsent(s: string, c: char, rep: string)
    requires c !in s
    ensures ReplaceChar(s, c, rep) == s
  {
    if s != [] {
      ReplaceCharAbsent(s[1..], c, rep);
    }
  }

  // ---------------------------------------------------------------------------
  // Number to string, as `${n}` renders an integral number below 10^21

  predicate IsDigit(c: char) {
    '0' <= c <= '9'
  }

  function DigitChar(d: nat): (c: char)
    requires d < 10
    ensures IsDigit(c)
  {
    "0123456789"[d]
  }

  function DigitValue(c: char): (d: nat)
    requires IsDigit(c)
    ensures d < 10
  {
    (c as int - '0' as int) as nat
  }

  /** Decimal digits of `n`, most significant first, without leading zeros. */
  function NatToString(n: nat): (r: string)
    ensures |r| > 0 && forall k :: 0 <= k < |r| ==> IsDigit(r[k])
    ensures |r| > 1 ==> r[0] != '0'
    decreases n
  {
    if n < 10 then [DigitChar(n)] else NatToString(n / 10) + [DigitChar(n % 10)]
  }

  /** The value of a string of decimal digits. */
  function ParseDigits(r: string): nat
    requires forall k :: 0 <= k < |r| ==> IsDigit(r[k])
  {
    if r == [] then 0 else ParseDigits(r[..|r| - 1]) * 10 + DigitValue(r[|r| - 1])
  }

  /** Reading the digits back yields the number. */
  lemma {:induction false} ParseNatToString(n: nat)
    ensures ParseDigits(NatToString(n)) == n
  {
    if n >= 10 {
      var r := NatToString(n);
      assert r[..|r| - 1] == NatToString(n / 10);
      ParseNatToString(n / 10);
    }
  }

  /**
   * `${n}` for an integral number `n` below 10^21 in magnitude: an optional
   * minus sign, then the digits of `|n|`.
   */
  function IntToString(n: int): (r: string)
    ensures |r| > 0 && (IsDigit(r[0]) || r[0] == '-')
    ensures forall k :: 1 <= k < |r| ==> IsDigit(r[k])
    ensures r[0] == '-' <==> n < 0
  {
    if n < 0 then "-" + NatToString(-n) else NatToString(n)
  }

  /** Different naturals have different digits. */
  lemma NatToStringInjective(m: nat, n: nat)
    requires NatToString(m) == NatToString(n)
    ensures m == n
  {
    ParseNatToString(m);
    ParseNatToString(n);
  }

  /** Different numbers render differently. */
  lemma IntToStringInjective(a: int, b: int)
    requires IntToString(a) == IntToString(b)
    ensures a == b
  {
    var ra, rb := IntToString(a), IntToString(b);
    if a < 0 {
      assert rb[0] == ra[0] == '-';
      assert NatToString(-a) == ra[1..] == rb[1..] == NatToString(-b);
      NatToStringInjective(-a, -b);
    } else {
      assert rb[0] == ra[0] != '-';
      NatToStringInjective(a, b);
    }
  }

  /** The first index at or after `i` that does not hold a digit, or `|w|`. */
  function DigitsEnd(w: string, i: nat): (e: nat)
    ensures i <= |w| ==> i <= e <= |w|
    decreases |w| - i
  {
    if i >= |w| then |w| else if !IsDigit(w[i]) then i else DigitsEnd(w, i + 1)
  }

  /** Behind a rendered number, the digits run exactly to the number's end. */
  lemma {:induction false} DigitsEndOfNumber(n: int, rest: string, i: nat)
    requires rest != [] && !IsDigit(rest[0])
    requires 1 <= i <= |IntToString(n)|
    ensures DigitsEnd(IntToString(n) + rest, i) == |IntToString(n)|
    decreases |IntToString(n)| - i
  {
    var w := IntToString(n) + rest;
    if i < |IntToString(n)| {
      assert w[i] == IntToString(n)[i];
      DigitsEndOfNumber(n, rest, i + 1);
    } else {
      assert w[i] == rest[0];
    }
  }

  /**
   * A rendered number followed by text that starts with a non-digit can be
   * split back unambiguously: the number and the rest are both recovered.
   */
  lemma IntToStringSplit(a: int, r1: string, b: int, r2: string)
    requires r1 != [] && !IsDigit(r1[0])
    requires r2 != [] && !IsDigit(r2[0])
    requires IntToString(a) + r1 == IntToString(b) + r2
    ensures a == b && r1 == r2
  {
    var d1, d2 := IntToString(a), IntToString(b);
    var w := d1 + r1;
    DigitsEndOfNumber(a, r1, 1);
    DigitsEndOfNumber(b, r2, 1);
    assert |d1| == |d2|;
    assert d1 == w[..|d1|] == d2;
    assert r1 == w[|d1|..] == r2;
    IntToStringInjective(a, b);
  }

  // ---------------------------------------------------------------------------
  // Substrings of concatenations

  /** The middle part of a concatenation occurs in it, right after the first part. */
  lemma OccursInMiddle(a: string, t: string, b: string)
    ensures OccursAt(a + t + b, t, |a|)
    ensures Contains(a + t + b, t)
  {
    assert (a + t + b)[|a|..|a| + |t|] == t;
    assert OccursAt(a + t + b, t, |a|);
  }

  /** Concatenation is associative. */
  lemma Assoc(a: string, b: string, c: string)
    ensures a + b + c == a + (b + c)
  {
  }

  /** Every string occurs in itself. */
  lemma ContainsSelf(t: string)
    ensures Contains(t, t)
  {
    assert t[0..|t|] == t;
    assert OccursAt(t, t, 0);
  }

  /** The last part of a concatenation occurs in it. */
  lemma ContainsLast(a: string, t: string)
    ensures Contains(a + t, t)
  {
    assert (a + t)[|a|..|a| + |t|] == t;
    assert OccursAt(a + t, t, |a|);
  }

  /** An occurrence in a part is an occurrence in the whole. */
  lemma ContainsAppend(s: string, t: string, u: string)
    requires Contains(s, t)
    ensures Contains(s + u, t) && Contains(u + s, t)
  {
    var i :| OccursAt(s, t, i);
    assert (s + u)[i..i + |t|] == s[i..i + |t|];
    assert OccursAt(s + u, t, i);
    assert (u + s)[|u| + i..|u| + i + |t|] == s[i..i + |t|];
    assert OccursAt(u + s, t, |u| + i);
  }

  /** An occurrence in the middle part is an occurrence in the whole. */
  lemma ContainsMiddle(a: string, m: string, b: string, t: string)
    requires Contains(m, t)
    ensures Contains(a + m + b, t)
  {
    ContainsAppend(m, t, b);
    ContainsAppend(m + b, t, a);
    assert a + m + b == a + (m + b);
  }

  /** A substring of a substring is a substring. */
  lemma ContainsTrans(s: string, m: string, t: string)
    requires Contains(s, m) && Contains(m, t)
    ensures Contains(s, t)
  {
    var i :| OccursAt(s, m, i);
    var j :| OccursAt(m, t, j);
    assert s[i..i + |m|] == m;
    var w := s[i..i + |m|];
    forall q | i + j <= q < i + j + |t| ensures s[q] == w[q - i] {
    }
    assert s[i + j..i + j + |t|] == w[j..j + |t|];
    assert OccursAt(s, t, i + j);
  }

  /** Equal strings with an equal prefix have equal remainders. */
  lemma CancelPrefix(p: string, x: string, y: string)
    requires p + x == p + y
    ensures x == y
  {
    assert x == (p + x)[|p|..];
    assert y == (p + y)[|p|..];
  }

  /** The accumulation `acc += part` over `parts`, starting from the empty string. */
  function Concat(parts: seq<string>): string {
    if parts == [] then "" else Concat(parts[..|parts| - 1]) + parts[|parts| - 1]
  }

  lemma ConcatAppend(parts: seq<string>, part: string)
    ensures Concat(parts + [part]) == Concat(parts) + part
  {
    assert (parts + [part])[..|parts|] == parts;
  }

  /** The accumulated text only grows: after fewer parts it is a prefix of the text after more. */
  lemma {:induction false} ConcatPrefix(parts: seq<string>, k: nat, m: nat)
    requires k <= m <= |parts|
    ensures var a, b := Concat(parts[..k]), Concat(parts[..m]); |a| <= |b| && b[..|a|] == a
    decreases m
  {
    if k < m {
      ConcatPrefix(parts, k, m - 1);
      assert parts[..m][..m - 1] == parts[..m - 1];
      var a, c, b := Concat(parts[..k]), Concat(parts[..m - 1]), Concat(parts[..m]);
      assert b == c + parts[m - 1];
      assert b[..|c|] == c;
      assert b[..|a|] == c[..|a|];
    } else {
      assert parts[..k] == parts[..m];
    }
  }
}
