/**
 The JavaScript string primitives the application relies on, over `seq<char>`:
 `startsWith`/`endsWith`, `indexOf`/`includes`, `replace` with a string
 pattern (first occurrence only), `trim`, ASCII case mapping, `join` and the
 decimal rendering of a non-negative integer.
 */
module Text {

  predicate StartsWith(s: string, prefix: string) {
    prefix <= s
  }

  predicate EndsWith(s: string, suffix: string) {
    |suffix| <= |s| && s[|s| - |suffix|..] == suffix
  }

  // ---------------------------------------------------------------------------
  // Searching

  /** `sub` occurs in `s` starting at index `i`. */
  predicate OccursAt(s: string, sub: string, i: int) {
    0 <= i && i + |sub| <= |s| && s[i..i + |sub|] == sub
  }

  /** `i` is the leftmost occurrence of `sub` in `s`. */
  predicate FirstOccurrence(s: string, sub: string, i: int) {
    OccursAt(s, sub, i) && forall j :: 0 <= j < i ==> !OccursAt(s, sub, j)
  }

  /** `s.indexOf(sub, from)`: the first occurrence at or after `from`, or -1. */
  function IndexOfFrom(s: string, sub: string, from: nat): (r: int)
    ensures r == -1 || (from <= r && OccursAt(s, sub, r))
    ensures forall j :: from <= j && (r == -1 || j < r) ==> !OccursAt(s, sub, j)
    decreases |s| - from
  {
    if from + |sub| > |s| then -1
    else if s[from..from + |sub|] == sub then from
    else IndexOfFrom(s, sub, from + 1)
  }

  /** `s.indexOf(sub)`. */
  function IndexOf(s: string, sub: string): (r: int)
    ensures r == -1 ==> forall j :: !OccursAt(s, sub, j)
    ensures r != -1 ==> FirstOccurrence(s, sub, r)
  {
    IndexOfFrom(s, sub, 0)
  }

  /** `s.includes(sub)`. */
  predicate Contains(s: string, sub: string) {
    IndexOf(s, sub) != -1
  }

  lemma ContainsIffOccurs(s: string, sub: string)
    ensures Contains(s, sub) <==> exists i :: OccursAt(s, sub, i)
  {
  }

  /** `s.indexOf(c)` for a single character. */
  function IndexOfChar(s: string, c: char): (r: int)
    ensures r == -1 <==> c !in s
    ensures r != -1 ==> 0 <= r < |s| && s[r] == c && c !in s[..r]
  {
    if s == [] then -1
    else if s[0] == c then 0
    else
      var k := IndexOfChar(s[1..], c);
      if k == -1 then -1
      else
        assert s[..k + 1] == [s[0]] + s[1..][..k];
        k + 1
  }

  /**
   `s.replace(pattern, replacement)` with a string pattern: only the first
   occurrence is replaced, and `s` is returned unchanged when there is none.
   The replacement is taken literally: JavaScript's `$&`, `$$`, `` $` `` and
   `$'` patterns are not expanded (no caller passes a `$`).
   */
  function ReplaceFirst(s: string, pattern: string, replacement: string): (r: string)
    ensures (forall i :: !OccursAt(s, pattern, i)) ==> r == s
    ensures forall i :: FirstOccurrence(s, pattern, i) ==>
              r == s[..i] + replacement + s[i + |pattern|..]
  {
    var i := IndexOf(s, pattern);
    if i == -1 then s
    else
      assert forall k :: FirstOccurrence(s, pattern, k) ==> k == i;
      s[..i] + replacement + s[i + |pattern|..]
  }

  /** Replacing a pattern that `s` starts with removes exactly that prefix. */
  lemma ReplaceLeadingPattern(pattern: string, rest: string, replacement: string)
    ensures ReplaceFirst(pattern + rest, pattern, replacement) == replacement + rest
  {
    var s := pattern + rest;
    assert s[0..|pattern|] == pattern;
    assert OccursAt(s, pattern, 0);
    assert IndexOf(s, pattern) == 0;
    assert FirstOccurrence(s, pattern, 0);
    assert s[..0] + replacement + s[|pattern|..] == replacement + rest;
  }

  lemma OccursAtSingle(s: string, a: char, i: int)
    ensures OccursAt(s, [a], i) <==> 0 <= i < |s| && s[i] == a
  {
    if 0 <= i < |s| {
      assert s[i..i + 1] == [s[i]];
    }
  }

  /** Searching for a one-character string finds the first occurrence of that character. */
  lemma IndexOfSingle(s: string, a: char)
    ensures IndexOf(s, [a]) == IndexOfChar(s, a)
  {
    var k := IndexOfChar(s, a);
    var r := IndexOf(s, [a]);
    if k == -1 {
      if r != -1 {
        OccursAtSingle(s, a, r);
      }
    } else {
      OccursAtSingle(s, a, k);
      assert r != -1;
      OccursAtSingle(s, a, r);
    }
  }

  /** Two positions that both hold the first `a` of `s` are the same position. */
  lemma FirstIndexUnique(s: string, a: char, i: nat, k: nat)
    requires i < |s| && s[i] == a && a !in s[..i]
    requires k < |s| && s[k] == a && a !in s[..k]
    ensures i == k
  {
    forall m | 0 <= m < i ensures s[m] != a {
      assert s[..i][m] == s[m];
    }
    forall m | 0 <= m < k ensures s[m] != a {
      assert s[..k][m] == s[m];
    }
  }

  /** The first `a` of `s`, when there is one, is where the replacement happens. */
  lemma ReplaceFirstCharAt(s: string, a: char, b: char, k: nat)
    requires k < |s| && s[k] == a && a !in s[..k]
    ensures ReplaceFirst(s, [a], [b]) == s[..k] + [b] + s[k + 1..]
  {
    IndexOfSingle(s, a);
    FirstIndexUnique(s, a, IndexOfChar(s, a), k);
  }

  /** Overwriting position `k` changes that position only. */
  lemma OverwriteAt(s: string, k: nat, b: char)
    requires k < |s|
    ensures |s[..k] + [b] + s[k + 1..]| == |s|
    ensures forall i :: 0 <= i < |s| ==> (s[..k] + [b] + s[k + 1..])[i] == if i == k then b else s[i]
  {
  }

  /** Replacing a one-character pattern changes at most the first occurrence of that character. */
  lemma ReplaceFirstChar(s: string, a: char, b: char)
    ensures |ReplaceFirst(s, [a], [b])| == |s|
    ensures forall i :: 0 <= i < |s| && ReplaceFirst(s, [a], [b])[i] != s[i] ==>
              s[i] == a && ReplaceFirst(s, [a], [b])[i] == b && a !in s[..i]
    ensures forall i :: 0 <= i < |s| && s[i] == a && a !in s[..i] ==> ReplaceFirst(s, [a], [b])[i] == b
  {
    var k := IndexOfChar(s, a);
    IndexOfSingle(s, a);
    if k == -1 {
      assert ReplaceFirst(s, [a], [b]) == s;
    } else {
      ReplaceFirstCharAt(s, a, b, k);
      OverwriteAt(s, k, b);
      forall i | 0 <= i < |s| && s[i] == a && a !in s[..i] ensures i == k {
        FirstIndexUnique(s, a, i, k);
      }
    }
  }

  // ---------------------------------------------------------------------------
  // Case mapping (ASCII letters; every other character is left alone)

  predicate IsAsciiLower(c: char) {
    'a' <= c <= 'z'
  }

  predicate IsAsciiUpper(c: char) {
    'A' <= c <= 'Z'
  }

  function UpperChar(c: char): char {
    if IsAsciiLower(c) then (c as int - 32) as char else c
  }

  function LowerChar(c: char): char {
    if IsAsciiUpper(c) then (c as int + 32) as char else c
  }

  /** `s.toUpperCase()`: the same letters, ignoring case, and no lower-case letter left. */
  function ToUpper(s: string): (r: string)
    ensures |r| == |s|
    ensures forall i :: 0 <= i < |r| ==> !IsAsciiLower(r[i])
    ensures forall i :: 0 <= i < |r| ==> LowerChar(r[i]) == LowerChar(s[i])
  {
    seq(|s|, i requires 0 <= i < |s| => UpperChar(s[i]))
  }

  /** `s.toLowerCase()`: the same letters, ignoring case, and no upper-case letter left. */
  function ToLower(s: string): (r: string)
    ensures |r| == |s|
    ensures forall i :: 0 <= i < |r| ==> !IsAsciiUpper(r[i])
    ensures forall i :: 0 <= i < |r| ==> UpperChar(r[i]) == UpperChar(s[i])
  {
    seq(|s|, i requires 0 <= i < |s| => LowerChar(s[i]))
  }

  /** Two strings that agree ignoring case are upper-cased to the same string. */
  lemma ToUpperIgnoresCase(a: string, b: string)
    requires ToLower(a) == ToLower(b)
    ensures ToUpper(a) == ToUpper(b)
  {
    forall i | 0 <= i < |a|
      ensures ToUpper(a)[i] == ToUpper(b)[i]
    {
      assert LowerChar(a[i]) == ToLower(a)[i] == ToLower(b)[i] == LowerChar(b[i]);
    }
  }

  /** Two strings that agree ignoring case are lower-cased to the same string. */
  lemma ToLowerIgnoresCase(a: string, b: string)
    requires ToUpper(a) == ToUpper(b)
    ensures ToLower(a) == ToLower(b)
  {
    forall i | 0 <= i < |a|
      ensures ToLower(a)[i] == ToLower(b)[i]
    {
      assert UpperChar(a[i]) == ToUpper(a)[i] == ToUpper(b)[i] == UpperChar(b[i]);
    }
  }

  lemma ToUpperIdempotent(s: string)
    ensures ToUpper(ToUpper(s)) == ToUpper(s)
  {
  }

  // ---------------------------------------------------------------------------
  // Trimming

  /** ECMAScript WhiteSpace and LineTerminator code points, which `trim` removes. */
  predicate IsWhitespace(c: char) {
    || c == '\t' || c == '\n' || c == '\U{B}' || c == '\U{C}' || c == '\r' || c == ' '
    || c == '\U{A0}' || c == '\U{1680}' || ('\U{2000}' <= c <= '\U{200A}')
    || c == '\U{2028}' || c == '\U{2029}' || c == '\U{202F}' || c == '\U{205F}'
    || c == '\U{3000}' || c == '\U{FEFF}'
  }

  /** Removes the leading whitespace: the longest suffix that does not start with whitespace. */
  function TrimStart(s: string): (r: string)
    ensures |r| <= |s| && r == s[|s| - |r|..]
    ensures forall i :: 0 <= i < |s| - |r| ==> IsWhitespace(s[i])
    ensures r != [] ==> !IsWhitespace(r[0])
  {
    if s != [] && IsWhitespace(s[0]) then TrimStart(s[1..]) else s
  }

  /** Removes the trailing whitespace: the longest prefix that does not end with whitespace. */
  function TrimEnd(s: string): (r: string)
    ensures |r| <= |s| && r == s[..|r|]
    ensures forall i :: |r| <= i < |s| ==> IsWhitespace(s[i])
    ensures r != [] ==> !IsWhitespace(r[|r| - 1])
  {
    if s != [] && IsWhitespace(s[|s| - 1]) then TrimEnd(s[..|s| - 1]) else s
  }

  /** `s.trim()`. */
  function Trim(s: string): (r: string)
    ensures |r| <= |s|
    ensures r == [] || (!IsWhitespace(r[0]) && !IsWhitespace(r[|r| - 1]))
  {
    TrimEnd(TrimStart(s))
  }

  /** `trim` removes only whitespace, and only from the two ends. */
  lemma TrimIsPadded(s: string)
    ensures exists k :: PaddedAt(s, Trim(s), k)
  {
    var t := TrimStart(s);
    assert Trim(s) == TrimEnd(t);
    TrimEndInside(s, t);
    assert PaddedAt(s, TrimEnd(t), |s| - |t|);
  }

  /** The part `TrimEnd` keeps of a suffix of `s` sits inside `s`, followed by whitespace only. */
  lemma TrimEndInside(s: string, t: string)
    requires |t| <= |s| && t == s[|s| - |t|..]
    ensures var k, r := |s| - |t|, TrimEnd(t);
            && r == s[k..k + |r|]
            && forall i :: k + |r| <= i < |s| ==> IsWhitespace(s[i])
  {
    var k, r := |s| - |t|, TrimEnd(t);
    assert r == t[..|r|];
    forall i | k + |r| <= i < |s| ensures IsWhitespace(s[i]) {
      assert s[i] == t[i - k];
    }
  }

  /** `s` is `r` at position `k` with only whitespace before and after it. */
  predicate PaddedAt(s: string, r: string, k: int) {
    && 0 <= k <= |s| - |r| && r == s[k..k + |r|]
    && (forall i :: 0 <= i < k ==> IsWhitespace(s[i]))
    && (forall i :: k + |r| <= i < |s| ==> IsWhitespace(s[i]))
  }

  /** `s.trim()` is empty exactly when `s` consists of whitespace only. */
  lemma TrimEmptyIffBlank(s: string)
    ensures Trim(s) == [] <==> forall i :: 0 <= i < |s| ==> IsWhitespace(s[i])
  {
    var t := TrimStart(s);
    if Trim(s) == [] {
      assert |t| == 0;
    }
    if forall i :: 0 <= i < |s| ==> IsWhitespace(s[i]) {
      TrimStartBlank(s);
    }
  }

  lemma {:induction false} TrimStartBlank(s: string)
    requires forall i :: 0 <= i < |s| ==> IsWhitespace(s[i])
    ensures TrimStart(s) == []
  {
    if s != [] {
      TrimStartBlank(s[1..]);
    }
  }

  /** A string with no whitespace at either end is left alone by `trim`. */
  lemma TrimOfTrimmed(s: string)
    requires s == [] || (!IsWhitespace(s[0]) && !IsWhitespace(s[|s| - 1]))
    ensures Trim(s) == s
  {
  }

  // ---------------------------------------------------------------------------
  // Joining

  /** `xs.join(sep)`. */
  function Join(xs: seq<string>, sep: string): string {
    if |xs| == 0 then ""
    else if |xs| == 1 then xs[0]
    else xs[0] + sep + Join(xs[1..], sep)
  }

  /** A join opens with the first element and closes with the last. */
  lemma {:induction false} JoinEnds(xs: seq<string>, sep: string)
    requires |xs| > 0
    ensures StartsWith(Join(xs, sep), xs[0])
    ensures EndsWith(Join(xs, sep), xs[|xs| - 1])
  {
    if |xs| > 1 {
      JoinEnds(xs[1..], sep);
      var tail := Join(xs[1..], sep);
      var r := xs[0] + sep + tail;
      assert r[..|xs[0]|] == xs[0];
      assert r[|r| - |tail|..] == tail;
    }
  }

  /** Joining a concatenation joins the two joins with one more separator. */
  lemma {:induction false} JoinAppend(xs: seq<string>, ys: seq<string>, sep: string)
    ensures Join(xs + ys, sep) ==
            if xs == [] then Join(ys, sep)
            else if ys == [] then Join(xs, sep)
            else Join(xs, sep) + sep + Join(ys, sep)
  {
    if xs == [] {
      assert xs + ys == ys;
    } else if ys == [] {
      assert xs + ys == xs;
    } else if |xs| == 1 {
      assert (xs + ys)[0] == xs[0];
      assert (xs + ys)[1..] == ys;
    } else {
      assert (xs + ys)[0] == xs[0];
      assert (xs + ys)[1..] == xs[1..] + ys;
      JoinAppend(xs[1..], ys, sep);
      assert Join(xs + ys, sep) == xs[0] + sep + Join(xs[1..] + ys, sep);
    }
  }

  /** When no element is empty, the join is empty exactly when there is no element. */
  lemma JoinEmptyIffNone(xs: seq<string>, sep: string)
    requires forall i :: 0 <= i < |xs| ==> xs[i] != ""
    ensures Join(xs, sep) == "" <==> xs == []
  {
    if xs != [] {
      assert |Join(xs, sep)| >= |xs[0]|;
    }
  }

  // ---------------------------------------------------------------------------
  // Decimal numerals

  predicate IsDigit(c: char) {
    '0' <= c <= '9'
  }

  function DigitChar(d: nat): (c: char)
    requires d < 10
    ensures IsDigit(c)
  {
    ('0' as int + d) as char
  }

  function DigitValue(c: char): (d: nat)
    requires IsDigit(c)
    ensures d < 10
  {
    c as int - '0' as int
  }

  /** `String(n)` for a non-negative integer: its decimal numeral without leading zeros. */
  function NatToString(n: nat): (r: string)
    ensures |r| >= 1
    ensures forall i :: 0 <= i < |r| ==> IsDigit(r[i])
    ensures |r| > 1 ==> r[0] != '0'
  {
    if n < 10 then [DigitChar(n)] else NatToString(n / 10) + [DigitChar(n % 10)]
  }

  /** The value of a decimal numeral. */
  function DecimalValue(s: string): nat
    requires forall i :: 0 <= i < |s| ==> IsDigit(s[i])
  {
    if s == [] then 0 else DecimalValue(s[..|s| - 1]) * 10 + DigitValue(s[|s| - 1])
  }

  /** Reading back the numeral of `n` gives `n`. */
  lemma {:induction false} NatToStringRoundTrip(n: nat)
    ensures DecimalValue(NatToString(n)) == n
  {
    var r := NatToString(n);
    if n < 10 {
      assert r[..0] == [];
    } else {
      assert r[..|r| - 1] == NatToString(n / 10);
      NatToStringRoundTrip(n / 10);
    }
  }

  /** Distinct numbers have distinct numerals. */
  lemma NatToStringInjective(a: nat, b: nat)
    requires NatToString(a) == NatToString(b)
    ensures a == b
  {
    NatToStringRoundTrip(a);
    NatToStringRoundTrip(b);
  }
}
