/**
 * String operations the front end (JavaScript) and the back end (Python) rely on:
 * case folding, substring search, Python's `strip` and `split`, and decimal rendering.
 */
module Text {
  import opened Wrappers

  // ----- Case folding -----------------------------------------------------------

  predicate IsAsciiUpper(c: char) {
    'A' <= c <= 'Z'
  }

  /** Lower-cases one character; only the ASCII letters A-Z change. */
  function LowerChar(c: char): (d: char)
    ensures !IsAsciiUpper(d)
    ensures IsAsciiUpper(c) ==> d as int == c as int + 32
    ensures !IsAsciiUpper(c) ==> d == c
  {
    if IsAsciiUpper(c) then (c as int + 32) as char else c
  }

  /** JavaScript `toLowerCase()` and Python `lower()`, restricted to ASCII letters. */
  function Lower(s: string): (r: string)
    ensures |r| == |s|
    ensures forall i :: 0 <= i < |s| ==> r[i] == LowerChar(s[i])
  {
    seq(|s|, i requires 0 <= i < |s| => LowerChar(s[i]))
  }

  /** Lower-casing works character by character, so it distributes over concatenation. */
  lemma LowerAppend(a: string, b: string)
    ensures Lower(a + b) == Lower(a) + Lower(b)
  {
  }

  // ----- Substring search -------------------------------------------------------

  /** `sub` occurs in `s` starting at index `k`. */
  ghost predicate OccursAt(s: string, sub: string, k: int) {
    0 <= k && k + |sub| <= |s| && s[k..k + |sub|] == sub
  }

  /** Python `sub in s` and JavaScript `s.includes(sub)`. */
  function Contains(s: string, sub: string): (r: bool)
    ensures r <==> exists k :: OccursAt(s, sub, k)
    decreases |s|
  {
    if |sub| > |s| then false
    else if s[..|sub|] == sub then assert OccursAt(s, sub, 0); true
    else ContainsStep(s, sub); Contains(s[1..], sub)
  }

  /** When `s` does not start with `sub`, `sub` occurs in `s` exactly when it occurs in `s[1..]`. */
  lemma ContainsStep(s: string, sub: string)
    requires |sub| <= |s| && s[..|sub|] != sub
    ensures (exists k :: OccursAt(s, sub, k)) <==> (exists k :: OccursAt(s[1..], sub, k))
  {
    if exists k :: OccursAt(s, sub, k) {
      var k :| OccursAt(s, sub, k);
      assert k != 0;
      assert s[1..][k - 1..k - 1 + |sub|] == s[k..k + |sub|];
      assert OccursAt(s[1..], sub, k - 1);
    }
    if exists k :: OccursAt(s[1..], sub, k) {
      var k :| OccursAt(s[1..], sub, k);
      assert s[1..][k..k + |sub|] == s[k + 1..k + 1 + |sub|];
      assert OccursAt(s, sub, k + 1);
    }
  }

  /** `sub` does not occur in `s` when one of its characters does not. */
  lemma MissingChar(s: string, sub: string, c: char)
    requires c in sub && c !in s
    ensures !Contains(s, sub)
  {
    var i :| 0 <= i < |sub| && sub[i] == c;
    forall k | 0 <= k ensures !OccursAt(s, sub, k) {
      if k + |sub| <= |s| {
        assert s[k..k + |sub|][i] == s[k + i];
      }
    }
  }

  /** When `s` and `sub` differ at position `i`, `sub` occurs in `s` exactly when it occurs
      in `s` without its first character. */
  lemma ContainsSkip(s: string, sub: string, i: nat)
    requires i < |sub| <= |s| && s[i] != sub[i]
    ensures Contains(s, sub) == Contains(s[1..], sub)
  {
    assert s[..|sub|][i] == s[i];
  }

  /** JavaScript `s.startsWith(prefix)`. */
  predicate StartsWith(s: string, prefix: string) {
    |prefix| <= |s| && s[..|prefix|] == prefix
  }

  /** Index of the first occurrence of `sub` in `s` at or after `from`. */
  function FindFrom(s: string, sub: string, from: nat): (r: Option<nat>)
    requires from <= |s|
    ensures r.Some? ==> from <= r.value && OccursAt(s, sub, r.value)
    ensures r.Some? ==> forall j :: from <= j < r.value ==> !OccursAt(s, sub, j)
    ensures r.None? ==> forall j :: from <= j ==> !OccursAt(s, sub, j)
    decreases |s| - from
  {
    if from + |sub| > |s| then None
    else if s[from..from + |sub|] == sub then Some(from)
    else FindFrom(s, sub, from + 1)
  }

  /** Index of the first occurrence of `sub` in `s`, as `s.find(sub)` gives it. */
  function Find(s: string, sub: string): (r: Option<nat>)
    ensures r.Some? <==> exists k :: OccursAt(s, sub, k)
    ensures r.Some? ==> OccursAt(s, sub, r.value) && forall j :: 0 <= j < r.value ==> !OccursAt(s, sub, j)
  {
    FindFrom(s, sub, 0)
  }

  /** An occurrence with none before it is the first one. */
  lemma FindIs(s: string, sub: string, k: nat)
    requires OccursAt(s, sub, k)
    requires forall j :: 0 <= j < k ==> !OccursAt(s, sub, j)
    ensures Find(s, sub) == Some(k)
  {
  }

  /** Python `s.split(sep)[0]`: the text before the first `sep`, or all of `s`. */
  function Before(s: string, sep: string): (r: string)
    ensures StartsWith(s, r)
    ensures !Contains(s, sep) ==> r == s
    ensures Contains(s, sep) ==> OccursAt(s, sep, |r|) && forall j :: 0 <= j < |r| ==> !OccursAt(s, sep, j)
  {
    match Find(s, sep)
    case Some(k) => s[..k]
    case None => s
  }

  /** The text after the first `sep` (the rest of `s` from its first split point). */
  function After(s: string, sep: string): (r: string)
    requires Contains(s, sep)
    ensures exists k :: OccursAt(s, sep, k) && r == s[k + |sep|..] && forall j :: 0 <= j < k ==> !OccursAt(s, sep, j)
  {
    var k := Find(s, sep).value;
    s[k + |sep|..]
  }

  /** Python `s.split(sep)[1]` when `sep` occurs in `s`: the text between the first and the
      second `sep`, or up to the end. */
  function SecondPiece(s: string, sep: string): string
    requires Contains(s, sep)
  {
    Before(After(s, sep), sep)
  }

  /** An occurrence inside a prefix is an occurrence in the whole string. */
  lemma OccursInPrefix(s: string, y: string, sub: string, k: int)
    requires StartsWith(s, y) && OccursAt(y, sub, k)
    ensures OccursAt(s, sub, k)
  {
    assert y == s[..|y|];
    assert s[k..k + |sub|] == y[k..k + |sub|];
  }

  /** Cutting at the first `sep` a second time changes nothing: the first piece holds no `sep`. */
  lemma BeforeIdempotent(s: string, sep: string)
    ensures Before(Before(s, sep), sep) == Before(s, sep)
  {
    var y := Before(s, sep);
    if sep != [] && Contains(y, sep) {
      var k :| OccursAt(y, sep, k);
      OccursInPrefix(s, y, sep, k);
      assert false;
    }
  }

  /**
   * Cutting at the first `outer` and then at the first `inner`, where `outer` starts with
   * `inner`, is cutting at the first `inner`, unless an `inner` straddles the first `outer`,
   * which can only happen when the text before that `outer` ends with a character of `inner`.
   */
  lemma BeforeNested(s: string, outer: string, inner: string)
    requires 0 < |inner| <= |outer| && outer[..|inner|] == inner
    requires var y := Before(s, outer); y == [] || y[|y| - 1] !in inner
    ensures Before(Before(s, outer), inner) == Before(s, inner)
  {
    var y := Before(s, outer);
    if Contains(s, outer) {
      InnerAtOuter(s, outer, inner, |y|);
      var q := |Before(s, inner)|;
      if q + |inner| <= |y| {
        BeforeOfPrefix(s, y, inner, q);
      } else {
        if q < |y| {
          NoStraddle(s, y, inner, q);
        }
        if Contains(y, inner) {
          var k :| OccursAt(y, inner, k);
          OccursInPrefix(s, y, inner, k);
          assert false;
        }
      }
    }
  }

  /** Where `outer` occurs, so does its prefix `inner`. */
  lemma InnerAtOuter(s: string, outer: string, inner: string, p: int)
    requires |inner| <= |outer| && outer[..|inner|] == inner && OccursAt(s, outer, p)
    ensures OccursAt(s, inner, p)
  {
    assert s[p..p + |inner|] == s[p..p + |outer|][..|inner|];
  }

  /** The first occurrence of `sub` in `s`, when it lies inside the prefix `y`, is also the first in `y`. */
  lemma BeforeOfPrefix(s: string, y: string, sub: string, q: int)
    requires StartsWith(s, y) && Contains(s, sub) && q == |Before(s, sub)| && q + |sub| <= |y|
    ensures Before(y, sub) == Before(s, sub)
  {
    assert y == s[..|y|];
    assert y[q..q + |sub|] == s[q..q + |sub|];
    assert OccursAt(y, sub, q);
    var w := Before(y, sub);
    if |w| < q {
      OccursInPrefix(s, y, sub, |w|);
    }
  }

  /** An occurrence of `inner` starting before `|y|` and reaching past it would put the first
      character of `inner` at the end of `y`. */
  lemma NoStraddle(s: string, y: string, inner: string, q: int)
    requires StartsWith(s, y) && 0 < |inner| && OccursAt(s, inner, q) && q < |y| < q + |inner|
    ensures y[|y| - 1] in inner
  {
    assert y == s[..|y|];
    assert s[q..q + |inner|][|y| - 1 - q] == s[|y| - 1];
    assert y[|y| - 1] == inner[|y| - 1 - q];
  }

  // ----- Python whitespace and strip() ------------------------------------------

  /** Python's `str.isspace()` for one character: tab to carriage return, the four
      information separators, space, NEL, no-break space and the Unicode space separators. */
  predicate IsSpace(c: char) {
    || ('\t' <= c <= '\r')
    || ('\U{1C}' <= c <= ' ')
    || c == '\U{85}' || c == '\U{A0}' || c == '\U{1680}'
    || ('\U{2000}' <= c <= '\U{200A}')
    || c == '\U{2028}' || c == '\U{2029}' || c == '\U{202F}' || c == '\U{205F}' || c == '\U{3000}'
  }

  ghost predicate AllSpace(s: string) {
    forall k :: 0 <= k < |s| ==> IsSpace(s[k])
  }

  /** Number of whitespace characters at the start of `s`. */
  function LeadingSpaces(s: string): (n: nat)
    ensures n <= |s|
    ensures AllSpace(s[..n])
    ensures n < |s| ==> !IsSpace(s[n])
  {
    if |s| > 0 && IsSpace(s[0]) then
      var m := LeadingSpaces(s[1..]);
      assert s[..1 + m] == [s[0]] + s[1..][..m];
      1 + m
    else 0
  }

  /** Number of whitespace characters at the end of `s`. */
  function TrailingSpaces(s: string): (n: nat)
    ensures n <= |s|
    ensures AllSpace(s[|s| - n..])
    ensures n < |s| ==> !IsSpace(s[|s| - 1 - n])
  {
    if |s| > 0 && IsSpace(s[|s| - 1]) then
      var m := TrailingSpaces(s[..|s| - 1]);
      TrailingStep(s, m);
      1 + m
    else 0
  }

  /** A whitespace run ending before the last character, followed by a whitespace last character. */
  lemma TrailingStep(s: string, m: nat)
    requires |s| > 0 && IsSpace(s[|s| - 1]) && m <= |s| - 1
    requires AllSpace(s[..|s| - 1][|s| - 1 - m..])
    requires m < |s| - 1 ==> !IsSpace(s[..|s| - 1][|s| - 2 - m])
    ensures AllSpace(s[|s| - (1 + m)..])
    ensures 1 + m < |s| ==> !IsSpace(s[|s| - 2 - m])
  {
    var t := s[..|s| - 1];
    var tail := s[|s| - (1 + m)..];
    forall k | 0 <= k < |tail| ensures IsSpace(tail[k]) {
      if k < m {
        assert tail[k] == t[|t| - m..][k];
      }
    }
  }

  /** `r` is `s` with the whitespace run at each end removed, the cut starting at `i`. */
  ghost predicate StrippedAt(s: string, r: string, i: int) {
    && 0 <= i && i + |r| <= |s|
    && s[i..i + |r|] == r
    && AllSpace(s[..i])
    && AllSpace(s[i + |r|..])
    && (r == [] || (!IsSpace(r[0]) && !IsSpace(r[|r| - 1])))
  }

  /** `r` is `s` with the whitespace run at each end removed. */
  ghost predicate IsStripOf(s: string, r: string) {
    exists i :: StrippedAt(s, r, i)
  }

  /** Python `s.strip()`. */
  function Strip(s: string): (r: string)
    ensures IsStripOf(s, r)
    ensures r == [] <==> AllSpace(s)
  {
    var i := LeadingSpaces(s);
    var t := s[i..];
    var r := t[..|t| - TrailingSpaces(t)];
    assert s[i..i + |r|] == r;
    assert s[i + |r|..] == t[|t| - TrailingSpaces(t)..];
    assert StrippedAt(s, r, i);
    assert r == [] ==> i == |s| && s[..i] == s;
    r
  }

  // ----- Python split() on one separator character ------------------------------

  /** Index of the first `c` in `s`. */
  function IndexOf(s: string, c: char): (i: nat)
    requires c in s
    ensures i < |s| && s[i] == c && c !in s[..i]
  {
    if s[0] == c then 0
    else
      var j := IndexOf(s[1..], c);
      assert s[..1 + j] == [s[0]] + s[1..][..j];
      1 + j
  }

  /** `sep.join(parts)`. */
  function Join(parts: seq<string>, sep: char): string
    requires |parts| >= 1
  {
    if |parts| == 1 then parts[0] else parts[0] + [sep] + Join(parts[1..], sep)
  }

  /** Python `s.split(sep)` for a one-character separator: the separator-free
      segments between the separators, in order, one more than there are separators. */
  function Split(s: string, sep: char): (parts: seq<string>)
    ensures |parts| == multiset(s)[sep] + 1
    ensures forall i :: 0 <= i < |parts| ==> sep !in parts[i]
    ensures Join(parts, sep) == s
    decreases |s|
  {
    if sep !in s then
      assert multiset(s)[sep] == 0;
      [s]
    else
      var i := IndexOf(s, sep);
      var rest := Split(s[i + 1..], sep);
      assert s == s[..i] + [sep] + s[i + 1..];
      assert multiset(s) == multiset(s[..i]) + multiset{sep} + multiset(s[i + 1..]);
      assert multiset(s[..i])[sep] == 0;
      assert ([s[..i]] + rest)[1..] == rest;
      [s[..i]] + rest
  }

  /** Splitting a join of separator-free parts gives the parts back. */
  lemma {:induction false} SplitJoin(parts: seq<string>, sep: char)
    requires |parts| >= 1
    requires forall i :: 0 <= i < |parts| ==> sep !in parts[i]
    ensures Split(Join(parts, sep), sep) == parts
  {
    if |parts| == 1 {
    } else {
      var s := Join(parts, sep);
      var tail := Join(parts[1..], sep);
      assert s == parts[0] + [sep] + tail;
      assert s[|parts[0]|] == sep;
      assert s[..|parts[0]|] == parts[0];
      assert IndexOf(s, sep) == |parts[0]|;
      assert s[|parts[0]| + 1..] == tail;
      SplitJoin(parts[1..], sep);
    }
  }

  /** A join of at least two parts ends with the separator and then the last part. */
  lemma {:induction false} JoinLast(parts: seq<string>, sep: char)
    requires |parts| >= 2
    ensures var s, l := Join(parts, sep), parts[|parts| - 1];
      |l| < |s| && s[|s| - |l| - 1] == sep && s[|s| - |l|..] == l
  {
    var s, l := Join(parts, sep), parts[|parts| - 1];
    var tail := Join(parts[1..], sep);
    assert s == parts[0] + [sep] + tail;
    if |parts| == 2 {
      assert tail == l;
    } else {
      JoinLast(parts[1..], sep);
      assert s[|s| - |tail|..] == tail;
    }
  }

  /** If `a + [c] + e`, with no `c` in `e`, ends with `c` and then a `c`-free `r`, then `r` is `e`. */
  lemma LastSegmentUnique(a: string, c: char, e: string, r: string)
    requires c !in e && c !in r
    requires var s := a + [c] + e; |r| < |s| && s[|s| - |r| - 1] == c && s[|s| - |r|..] == r
    ensures r == e
  {
    var s := a + [c] + e;
    var p := |s| - |r| - 1;
    assert s[|a|] == c;
    assert forall j :: |a| < j < |s| ==> s[j] == e[j - |a| - 1];
    assert forall j :: p < j < |s| ==> s[j] == r[j - p - 1];
    assert p == |a|;
    assert s[|s| - |e|..] == e;
  }

  /** Python `s.split(sep)[-1]`: the text after the last `sep`, or all of `s` when it has none. */
  function LastSegment(s: string, sep: char): (r: string)
    ensures sep !in r
    ensures sep !in s ==> r == s
    ensures sep in s ==> |r| < |s| && s[|s| - |r| - 1] == sep && s[|s| - |r|..] == r
  {
    var parts := Split(s, sep);
    if sep in s then
      assert sep in multiset(s);
      JoinLast(parts, sep);
      parts[|parts| - 1]
    else
      parts[|parts| - 1]
  }

  // ----- Decimal numerals -------------------------------------------------------

  predicate IsDigit(c: char) {
    '0' <= c <= '9'
  }

  function DigitChar(d: nat): (c: char)
    requires d < 10
    ensures IsDigit(c)
  {
    ('0' as int + d) as char
  }

  function DigitValue(c: char): nat
    requires IsDigit(c)
  {
    c as int - '0' as int
  }

  /** Python `str(n)` / an f-string field for a non-negative integer. */
  function Decimal(n: nat): (r: string)
    ensures |r| >= 1
    ensures forall i :: 0 <= i < |r| ==> IsDigit(r[i])
  {
    if n < 10 then [DigitChar(n)] else Decimal(n / 10) + [DigitChar(n % 10)]
  }

  /** Reads a numeral back, most significant digit first. */
  function ParseDecimal(s: string): nat
    requires forall i :: 0 <= i < |s| ==> IsDigit(s[i])
  {
    if s == [] then 0 else ParseDecimal(s[..|s| - 1]) * 10 + DigitValue(s[|s| - 1])
  }

  /** The numeral of `n` reads back as `n`. */
  lemma {:induction false} DecimalRoundTrip(n: nat)
    ensures ParseDecimal(Decimal(n)) == n
  {
    if n >= 10 {
      var r := Decimal(n);
      assert r[..|r| - 1] == Decimal(n / 10);
      DecimalRoundTrip(n / 10);
    }
  }
}
