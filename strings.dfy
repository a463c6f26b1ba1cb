/**
 * The handful of Python `str` operations the bot relies on, written out over
 * `seq<char>` with the same edge cases: `strip()`/`lstrip()`, `in`,
 * `startswith`/`endswith`, `replace`, `join`, `split(sep)`, `split()`,
 * `readlines()`, `lower()`, `str(int)`, `int(str)` and the `:.1f` format.
 */
module Strings {
  import opened Wrappers

  // ---------------------------------------------------------------------------
  // Whitespace and stripping
  // ---------------------------------------------------------------------------

  /** The characters Python's `str.isspace()` (and so `strip()` and `split()`) treats as whitespace. */
  predicate IsSpace(c: char) {
    || c == ' ' || ('\t' <= c <= '\r') || ('\U{1C}' <= c <= '\U{1F}') || c == '\U{85}' || c == '\U{A0}'
    || c == '\U{1680}' || ('\U{2000}' <= c <= '\U{200A}') || c == '\U{2028}' || c == '\U{2029}'
    || c == '\U{202F}' || c == '\U{205F}' || c == '\U{3000}'
  }

  predicate AllSpace(s: string) {
    forall k :: 0 <= k < |s| ==> IsSpace(s[k])
  }

  /** `s.lstrip()`. */
  function LStrip(s: string): string {
    if |s| > 0 && IsSpace(s[0]) then LStrip(s[1..]) else s
  }

  /** `s.lstrip()` drops the leading whitespace and nothing else. */
  lemma {:induction false} LStripSpec(s: string)
    ensures var r := LStrip(s);
      && |r| <= |s| && r == s[|s| - |r|..]
      && (r == [] || !IsSpace(r[0]))
      && (forall k :: 0 <= k < |s| - |r| ==> IsSpace(s[k]))
  {
    if |s| > 0 && IsSpace(s[0]) {
      LStripSpec(s[1..]);
    }
  }

  /** `s.rstrip()`. */
  function RStrip(s: string): string {
    if |s| > 0 && IsSpace(s[|s| - 1]) then RStrip(s[..|s| - 1]) else s
  }

  /** `s.rstrip()` drops the trailing whitespace and nothing else. */
  lemma {:induction false} RStripSpec(s: string)
    ensures var r := RStrip(s);
      && |r| <= |s| && r == s[..|r|]
      && (r == [] || !IsSpace(r[|r| - 1]))
      && (forall k :: |r| <= k < |s| ==> IsSpace(s[k]))
  {
    if |s| > 0 && IsSpace(s[|s| - 1]) {
      RStripSpec(s[..|s| - 1]);
      assert s[..|s| - 1][..|RStrip(s)|] == s[..|RStrip(s)|];
    }
  }

  /** `s.strip()`. */
  function Strip(s: string): string {
    LStrip(RStrip(s))
  }

  /** `s.strip()` is empty exactly when `s` is all whitespace. */
  lemma StripEmptyIff(s: string)
    ensures Strip(s) == [] <==> AllSpace(s)
  {
    var r := RStrip(s);
    RStripSpec(s);
    LStripSpec(r);
    if Strip(s) == [] {
      assert r == [];
    } else {
      var l := LStrip(r);
      assert !IsSpace(l[0]) && l[0] == r[|r| - |l|];
      assert !IsSpace(s[|r| - |l|]);
    }
  }

  /** Adding trailing whitespace does not change what `strip()` keeps. */
  lemma StripTrailingSpace(s: string, c: char)
    requires IsSpace(c)
    ensures Strip(s + [c]) == Strip(s)
  {
    assert (s + [c])[..|s|] == s;
    assert RStrip(s + [c]) == RStrip(s);
  }

  /** `s.lstrip(c)` for a single character `c`: drops every leading `c`. */
  function LStripChar(s: string, c: char): (r: string)
    ensures |r| <= |s| && r == s[|s| - |r|..]
    ensures r == [] || r[0] != c
  {
    if |s| > 0 && s[0] == c then LStripChar(s[1..], c) else s
  }

  // ---------------------------------------------------------------------------
  // Searching
  // ---------------------------------------------------------------------------

  /** `p in s`: `p` occurs somewhere in `s` as a contiguous block. */
  predicate Contains(s: string, p: string)
    decreases |s|
  {
    p <= s || (|s| > 0 && Contains(s[1..], p))
  }

  /** `s.endswith(p)`. */
  predicate EndsWith(s: string, p: string) {
    |p| <= |s| && s[|s| - |p|..] == p
  }

  lemma {:induction false} ContainsExtendRight(s: string, t: string, p: string)
    requires Contains(s, p)
    ensures Contains(s + t, p)
    decreases |s|
  {
    if p <= s {
      assert p <= s + t;
    } else {
      assert (s + t)[1..] == s[1..] + t;
      ContainsExtendRight(s[1..], t, p);
    }
  }

  lemma {:induction false} ContainsExtendLeft(s: string, t: string, p: string)
    requires Contains(t, p)
    ensures Contains(s + t, p)
    decreases |s|
  {
    if s == [] {
      assert s + t == t;
    } else {
      assert (s + t)[1..] == s[1..] + t;
      ContainsExtendLeft(s[1..], t, p);
    }
  }

  /** Whatever `a`, `p` and `b` are, `p in a + p + b`. */
  lemma ContainsMiddle(a: string, p: string, b: string)
    ensures Contains(a + p + b, p)
  {
    assert p <= p + b;
    ContainsExtendLeft(a, p + b, p);
    assert a + p + b == a + (p + b);
  }

  /** A pattern starting with a character that `s` lacks does not occur in `s`. */
  lemma {:induction false} NoLeadNoContains(s: string, p: string)
    requires p != [] && p[0] !in s
    ensures !Contains(s, p)
    decreases |s|
  {
    if s != [] {
      assert s[0] in s;
      NoLeadNoContains(s[1..], p);
    }
  }

  /** A prefix that lacks the pattern's first character cannot hold the start of an occurrence. */
  lemma {:induction false} ContainsSkipPrefix(a: string, b: string, p: string)
    requires p != [] && p[0] !in a
    ensures Contains(a + b, p) == Contains(b, p)
    decreases |a|
  {
    if a == [] {
      assert a + b == b;
    } else {
      assert a[0] in a;
      assert !(p <= a + b);
      assert (a + b)[1..] == a[1..] + b;
      ContainsSkipPrefix(a[1..], b, p);
    }
  }

  // ---------------------------------------------------------------------------
  // Replacing, joining and splitting
  // ---------------------------------------------------------------------------

  /** `s.replace(target, replacement)`: every non-overlapping occurrence, scanning left to right. */
  function ReplaceAll(s: string, target: string, replacement: string): string
    requires target != []
    decreases |s|
  {
    if s == [] then []
    else if target <= s then replacement + ReplaceAll(s[|target|..], target, replacement)
    else [s[0]] + ReplaceAll(s[1..], target, replacement)
  }

  /** `sep.join(parts)`. */
  function Join(parts: seq<string>, sep: string): string {
    if parts == [] then []
    else if |parts| == 1 then parts[0]
    else parts[0] + sep + Join(parts[1..], sep)
  }

  /** `"".join(parts)`. */
  function Concat(parts: seq<string>): string {
    if parts == [] then [] else parts[0] + Concat(parts[1..])
  }

  lemma {:induction false} ConcatAppend(a: seq<string>, b: seq<string>)
    ensures Concat(a + b) == Concat(a) + Concat(b)
  {
    if a == [] {
      assert a + b == b;
    } else {
      assert (a + b)[1..] == a[1..] + b;
      ConcatAppend(a[1..], b);
    }
  }

  /** Index of the first `c` in `s`, or `|s|` when there is none. */
  function IndexOf(s: string, c: char): (k: nat)
    ensures k <= |s|
    ensures k < |s| ==> s[k] == c
    ensures forall j :: 0 <= j < k ==> s[j] != c
  {
    if s == [] then 0 else if s[0] == c then 0 else 1 + IndexOf(s[1..], c)
  }

  /** `s.split(c)` for a one-character separator: always at least one piece. */
  function SplitOn(s: string, c: char): (pieces: seq<string>)
    ensures |pieces| >= 1
    ensures forall k :: 0 <= k < |pieces| ==> c !in pieces[k]
    decreases |s|
  {
    var k := IndexOf(s, c);
    if k == |s| then [s] else [s[..k]] + SplitOn(s[k + 1..], c)
  }

  /** Splitting on `c` and joining with `c` gives back the original text. */
  lemma {:induction false} JoinSplit(s: string, c: char)
    ensures Join(SplitOn(s, c), [c]) == s
    decreases |s|
  {
    var k := IndexOf(s, c);
    if k < |s| {
      var head := s[..k];
      var tail := s[k + 1..];
      var rest := SplitOn(tail, c);
      JoinSplit(tail, c);
      var pieces := [head] + rest;
      assert SplitOn(s, c) == pieces;
      assert pieces[0] == head && pieces[1..] == rest && |pieces| >= 2;
      assert Join(pieces, [c]) == head + [c] + Join(rest, [c]);
      assert s == head + [c] + tail;
    } else {
      assert SplitOn(s, c) == [s];
    }
  }

  /** Joining pieces that do not contain `c` and splitting on `c` gives back the pieces. */
  lemma {:induction false} SplitJoin(parts: seq<string>, c: char)
    requires |parts| >= 1
    requires forall k :: 0 <= k < |parts| ==> c !in parts[k]
    ensures SplitOn(Join(parts, [c]), c) == parts
    decreases |parts|
  {
    var s := Join(parts, [c]);
    var p := parts[0];
    if |parts| == 1 {
      IndexOfPastPiece(p, [], c);
      assert s == p + [];
      assert SplitOn(s, c) == [s];
    } else {
      var rest := Join(parts[1..], [c]);
      assert s == p + ([c] + rest);
      IndexOfPastPiece(p, [c] + rest, c);
      assert SplitOn(s, c) == [s[..|p|]] + SplitOn(s[|p| + 1..], c);
      assert s[..|p|] == p;
      assert s[|p| + 1..] == rest;
      SplitJoin(parts[1..], c);
      assert parts == [p] + parts[1..];
    }
  }

  lemma IndexOfPastPiece(p: string, t: string, c: char)
    requires c !in p
    requires t == [] || t[0] == c
    ensures IndexOf(p + t, c) == |p|
  {
    if t != [] {
      assert (p + t)[|p|] == c;
    }
  }

  /** Length of the first line of `s`, counting its `\n` when it has one. */
  function LineEnd(s: string): (k: nat)
    ensures 0 < k <= |s| || (s == [] && k == 0)
  {
    var k := IndexOf(s, '\n');
    if k < |s| then k + 1 else |s|
  }

  /** `f.readlines()` on a file holding `s`: lines keep their `\n`; a last line without one is kept too. */
  function ReadLines(s: string): (lines: seq<string>)
    ensures forall k :: 0 <= k < |lines| ==> lines[k] != []
    decreases |s|
  {
    if s == [] then [] else [s[..LineEnd(s)]] + ReadLines(s[LineEnd(s)..])
  }

  /** The lines `readlines()` returns put back together are the whole file. */
  lemma {:induction false} ReadLinesConcat(s: string)
    ensures Concat(ReadLines(s)) == s
    decreases |s|
  {
    if s != [] {
      var k := LineEnd(s);
      ReadLinesConcat(s[k..]);
      assert ReadLines(s)[1..] == ReadLines(s[k..]);
      assert s == s[..k] + s[k..];
    }
  }

  /** A text that is empty or ends with a newline: appending to it starts a new line. */
  predicate EndsLine(s: string) {
    s == [] || s[|s| - 1] == '\n'
  }

  /** One complete line: a single `\n`, at the end. */
  predicate IsOneLine(l: string) {
    |l| > 0 && l[|l| - 1] == '\n' && '\n' !in l[..|l| - 1]
  }

  /** `readlines()` of one complete line is that line. */
  lemma ReadLinesOneLine(l: string)
    requires IsOneLine(l)
    ensures ReadLines(l) == [l]
  {
    assert l[|l| - 1] == '\n';
    assert LineEnd(l) == |l|;
    assert l[..|l|] == l;
    assert ReadLines(l[|l|..]) == [];
    assert ReadLines(l) == [l[..|l|]] + ReadLines(l[|l|..]);
  }

  /** Appending one complete line to a text that ends a line adds exactly that line to `readlines()`. */
  lemma {:induction false} ReadLinesAppendLine(s: string, l: string)
    requires EndsLine(s) && IsOneLine(l)
    ensures ReadLines(s + l) == ReadLines(s) + [l]
    decreases |s|
  {
    if s == [] {
      assert s + l == l;
      ReadLinesOneLine(l);
    } else {
      var k := LineEnd(s);
      var t := s[k..];
      FirstLineOfLonger(s, l);
      assert EndsLine(t) by {
        if t != [] { assert t[|t| - 1] == s[|s| - 1]; }
      }
      ReadLinesAppendLine(t, l);
      assert ReadLines(s + l) == [s[..k]] + ReadLines(t + l);
    }
  }

  /** Appending two complete lines adds both, in order. */
  lemma ReadLinesAppendTwo(s: string, l1: string, l2: string)
    requires EndsLine(s) && IsOneLine(l1) && IsOneLine(l2)
    ensures ReadLines(s + (l1 + l2)) == ReadLines(s) + [l1] + [l2]
  {
    AppendAssoc(s, l1, l2);
    ReadLinesAppendLine(s, l1);
    LineEndsLine(s, l1);
    ReadLinesAppendLine(s + l1, l2);
  }

  lemma AppendAssoc<T>(a: seq<T>, b: seq<T>, c: seq<T>)
    ensures a + (b + c) == (a + b) + c
  {
  }

  /** A text followed by a complete line ends a line. */
  lemma LineEndsLine(s: string, l: string)
    requires IsOneLine(l)
    ensures EndsLine(s + l)
  {
    assert (s + l)[|s + l| - 1] == l[|l| - 1];
  }

  /** The first line of `s + l` is the first line of `s` when `s` ends a line. */
  lemma FirstLineOfLonger(s: string, l: string)
    requires s != [] && EndsLine(s)
    ensures LineEnd(s + l) == LineEnd(s)
    ensures (s + l)[..LineEnd(s)] == s[..LineEnd(s)]
    ensures (s + l)[LineEnd(s)..] == s[LineEnd(s)..] + l
  {
    assert s[|s| - 1] == '\n';
    assert IndexOf(s, '\n') < |s|;
    IndexOfPrefix(s, l, '\n');
  }

  lemma IndexOfPrefix(s: string, t: string, c: char)
    requires IndexOf(s, c) < |s|
    ensures IndexOf(s + t, c) == IndexOf(s, c)
  {
    var k := IndexOf(s, c);
    var j := IndexOf(s + t, c);
    assert (s + t)[k] == c;
    if j < k { assert (s + t)[j] == s[j]; }
  }

  /** End of the token that starts `t` (the first whitespace, or `|t|`). */
  function TokenEnd(t: string): (k: nat)
    ensures k <= |t|
    ensures forall j :: 0 <= j < k ==> !IsSpace(t[j])
    ensures k < |t| ==> IsSpace(t[k])
  {
    if t == [] || IsSpace(t[0]) then 0 else 1 + TokenEnd(t[1..])
  }

  /** `s.split()`: the maximal runs of non-whitespace, in order. */
  function SplitWhitespace(s: string): (tokens: seq<string>)
    ensures forall k :: 0 <= k < |tokens| ==> tokens[k] != []
    decreases |s|
  {
    var t := LStrip(s);
    LStripSpec(s);
    if t == [] then [] else
      var k := TokenEnd(t);
      [t[..k]] + SplitWhitespace(t[k..])
  }

  /** A text that starts with a non-space character has a first token starting with that character. */
  lemma FirstToken(s: string)
    requires s != [] && !IsSpace(s[0])
    ensures SplitWhitespace(s) != [] && SplitWhitespace(s)[0][0] == s[0]
  {
    assert LStrip(s) == s;
  }

  /** `s.split()` of an all-whitespace text (the empty text included) has no tokens. */
  lemma SplitWhitespaceEmpty(s: string)
    ensures SplitWhitespace(s) == [] <==> AllSpace(s)
  {
    var t := LStrip(s);
    LStripSpec(s);
    if t != [] {
      assert !IsSpace(s[|s| - |t|]);
    }
  }

  // ---------------------------------------------------------------------------
  // Case
  // ---------------------------------------------------------------------------

  function LowerChar(c: char): char {
    if 'A' <= c <= 'Z' then (c as int + 32) as char else c
  }

  /** `s.lower()`, for the ASCII letters. */
  function ToLower(s: string): (r: string)
    ensures |r| == |s|
    ensures forall k :: 0 <= k < |s| ==> r[k] == LowerChar(s[k])
  {
    if s == [] then [] else [LowerChar(s[0])] + ToLower(s[1..])
  }

  /** Lower-casing twice is lower-casing once. */
  lemma ToLowerIdempotent(s: string)
    ensures ToLower(ToLower(s)) == ToLower(s)
  {
    var once := ToLower(s);
    var twice := ToLower(once);
    forall k | 0 <= k < |s| ensures twice[k] == once[k] {
      assert once[k] == LowerChar(s[k]);
    }
  }

  // ---------------------------------------------------------------------------
  // Numbers
  // ---------------------------------------------------------------------------

  predicate IsDigit(c: char) {
    '0' <= c <= '9'
  }

  function DigitChar(d: nat): char
    requires d < 10
  {
    ('0' as int + d) as char
  }

  function DigitValue(c: char): nat
    requires IsDigit(c)
  {
    c as int - '0' as int
  }

  // ---------------------------------------------------------------------------
  // Counting
  // ---------------------------------------------------------------------------

  /** How many of the first `k` items of `xs` satisfy `p`. */
  function CountWhere<T>(xs: seq<T>, p: T -> bool, k: nat): nat
    requires k <= |xs|
  {
    |set j | 0 <= j < k && p(xs[j])|
  }

  /** Where none of the first `k` items satisfies `p`, the count is zero. */
  lemma CountWhereNone<T>(xs: seq<T>, p: T -> bool, k: nat)
    requires k <= |xs|
    requires forall j :: 0 <= j < k ==> !p(xs[j])
    ensures CountWhere(xs, p, k) == 0
  {
    assert (set j | 0 <= j < k && p(xs[j])) == {};
  }

  /** Counting one more item adds one exactly when it satisfies `p`. */
  lemma CountWhereStep<T>(xs: seq<T>, p: T -> bool, k: nat)
    requires k < |xs|
    ensures CountWhere(xs, p, k + 1) == CountWhere(xs, p, k) + (if p(xs[k]) then 1 else 0)
  {
    var a := set j | 0 <= j < k && p(xs[j]);
    var b := set j | 0 <= j < k + 1 && p(xs[j]);
    if p(xs[k]) {
      assert b == a + {k};
    } else {
      assert b == a;
    }
  }

  /** Counting over a prefix of `ys` gives what counting over `ys` gives, as far as the prefix goes. */
  lemma CountWherePrefix<T>(xs: seq<T>, ys: seq<T>, p: T -> bool)
    requires |xs| <= |ys| && xs == ys[..|xs|]
    ensures forall k :: 0 <= k <= |xs| ==> CountWhere(xs, p, k) == CountWhere(ys, p, k)
  {
    forall k | 0 <= k <= |xs| ensures CountWhere(xs, p, k) == CountWhere(ys, p, k) {
      assert (set j | 0 <= j < k && p(xs[j])) == (set j | 0 <= j < k && p(ys[j]));
    }
  }

  /** Counting from the second item on counts the same, less the first item. */
  lemma {:induction false} CountWhereTail<T>(xs: seq<T>, p: T -> bool, k: nat)
    requires 0 < k <= |xs|
    ensures CountWhere(xs, p, k) == (if p(xs[0]) then 1 else 0) + CountWhere(xs[1..], p, k - 1)
  {
    CountWhereStep(xs, p, k - 1);
    if k == 1 {
      CountWhereNone(xs, p, 0);
      CountWhereNone(xs[1..], p, 0);
    } else {
      CountWhereTail(xs, p, k - 1);
      CountWhereStep(xs[1..], p, k - 2);
    }
  }

  /** Each item satisfying `p` raises the count: the count before it is below the whole count. */
  lemma {:induction false} CountWhereBelow<T>(xs: seq<T>, p: T -> bool, k: nat)
    requires k < |xs| && p(xs[k])
    ensures CountWhere(xs, p, k) < CountWhere(xs, p, |xs|)
    decreases |xs| - k
  {
    CountWhereStep(xs, p, k);
    if k + 1 < |xs| {
      CountWhereMono(xs, p, k + 1);
    }
  }

  /** The count only grows with `k`. */
  lemma {:induction false} CountWhereMono<T>(xs: seq<T>, p: T -> bool, k: nat)
    requires k <= |xs|
    ensures CountWhere(xs, p, k) <= CountWhere(xs, p, |xs|)
    decreases |xs| - k
  {
    if k < |xs| {
      CountWhereStep(xs, p, k);
      CountWhereMono(xs, p, k + 1);
    }
  }

  /** `str(n)` for a natural number: decimal, no leading zeros. */
  function NatToString(n: nat): (s: string)
    ensures |s| > 0
    ensures forall k :: 0 <= k < |s| ==> IsDigit(s[k])
  {
    if n < 10 then [DigitChar(n)] else NatToString(n / 10) + [DigitChar(n % 10)]
  }

  /** `str(i)` for an integer. */
  function IntToString(i: int): (s: string)
    ensures |s| > 0
    ensures IsDigit(s[0]) || s[0] == '-'
    ensures forall k :: 0 < k < |s| ==> IsDigit(s[k])
  {
    if i < 0 then "-" + NatToString(-i) else NatToString(i)
  }

  /** A body Python's `int()` accepts after the sign: digits, with single `_` between digits. */
  predicate ValidDigits(s: string) {
    && |s| > 0 && IsDigit(s[0]) && IsDigit(s[|s| - 1])
    && (forall k :: 0 <= k < |s| ==> IsDigit(s[k]) || s[k] == '_')
    && (forall k :: 0 <= k < |s| - 1 && s[k] == '_' ==> IsDigit(s[k + 1]))
  }

  /** The value of a run of digits and underscores; underscores are skipped. */
  function DigitsValue(s: string): nat
    requires forall k :: 0 <= k < |s| ==> IsDigit(s[k]) || s[k] == '_'
  {
    if s == [] then 0
    else if s[|s| - 1] == '_' then DigitsValue(s[..|s| - 1])
    else DigitsValue(s[..|s| - 1]) * 10 + DigitValue(s[|s| - 1])
  }

  /** `int(s)` for a token without whitespace: `None` where Python raises `ValueError`. */
  function ParseInt(s: string): Option<int> {
    if |s| > 0 && (s[0] == '-' || s[0] == '+') then
      (if ValidDigits(s[1..]) then
         var v: int := DigitsValue(s[1..]);
         Some(if s[0] == '-' then -v else v)
       else None)
    else if ValidDigits(s) then Some(DigitsValue(s))
    else None
  }

  lemma {:induction false} DigitsValueOfNat(n: nat)
    ensures DigitsValue(NatToString(n)) == n
  {
    var s := NatToString(n);
    if n >= 10 {
      assert s[..|s| - 1] == NatToString(n / 10);
      DigitsValueOfNat(n / 10);
    }
  }

  /** `int(str(i)) == i`: reading back a printed integer gives the integer. */
  lemma ParseIntToString(i: int)
    ensures ParseInt(IntToString(i)) == Some(i)
  {
    var n: nat := if i < 0 then -i else i;
    var d := NatToString(n);
    DigitsValueOfNat(n);
    assert ValidDigits(d);
    if i < 0 {
      assert IntToString(i)[1..] == d;
    }
  }

  /**
   * Python's `round()` to an integer for a non-negative value: a nearest integer, and
   * at a tie, where both neighbours are half a unit away, the even one.
   */
  function RoundHalfEven(x: real): (n: nat)
    requires x >= 0.0
    ensures x - 0.5 <= n as real <= x + 0.5
    ensures (n as real == x - 0.5 || n as real == x + 0.5) ==> n % 2 == 0
  {
    var f := x.Floor;
    var d := x - f as real;
    if d > 0.5 || (d == 0.5 && f % 2 == 1) then f + 1 else f
  }

  /** `f"{x:.1f}"` on an exact value: a sign, the integer part, a point and one decimal. */
  function FormatOneDecimal(x: real): string {
    var neg := x < 0.0;
    var t := RoundHalfEven(if neg then -x * 10.0 else x * 10.0);
    (if neg then "-" else "") + NatToString(t / 10) + "." + [DigitChar(t % 10)]
  }
}
