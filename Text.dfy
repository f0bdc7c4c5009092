/**
 * Character classes, case mapping, trimming, splitting and joining of strings,
 * with the meaning the JavaScript built-ins used by the engine give them
 * (`\s`, `\w`, `toLowerCase`, `trim`, `split(/[...]+/)`, `split(/\n\n+/)`,
 * `join(" ")`, `slice`).
 */
module Text {

  /** JavaScript's `\s` (and what `trim` removes): WhiteSpace and LineTerminator code points. */
  predicate IsSpace(c: char) {
    var n := c as int;
    (9 <= n <= 13) || n == 32 || n == 0xA0 || n == 0x1680 || (0x2000 <= n <= 0x200A)
    || n == 0x2028 || n == 0x2029 || n == 0x202F || n == 0x205F || n == 0x3000 || n == 0xFEFF
  }

  /** JavaScript's `\w`: `[A-Za-z0-9_]`. */
  predicate IsWordChar(c: char) {
    ('a' <= c <= 'z') || ('A' <= c <= 'Z') || ('0' <= c <= '9') || c == '_'
  }

  predicate IsUpper(c: char) {
    'A' <= c <= 'Z'
  }

  /** Sentence terminators of the class `[.!?]`. */
  predicate IsSentenceEnd(c: char) {
    c == '.' || c == '!' || c == '?'
  }

  predicate IsNewline(c: char) {
    c == '\n'
  }

  /** `toLowerCase` on one character (ASCII letters only). */
  function Lower(c: char): (r: char)
    ensures !IsUpper(r)
    ensures IsWordChar(r) <==> IsWordChar(c)
    ensures IsSpace(r) <==> IsSpace(c)
    ensures !IsUpper(c) ==> r == c
  {
    if IsUpper(c) then (c as int + 32) as char else c
  }

  /** `toLowerCase` on a string: same length, every letter lower-case, nothing else changed. */
  function LowerStr(s: string): (r: string)
    ensures |r| == |s|
    ensures forall i :: 0 <= i < |s| ==> r[i] == Lower(s[i])
  {
    seq(|s|, i requires 0 <= i < |s| => Lower(s[i]))
  }

  /** The characters of `s` before its first separator; every one of them is a non-separator. */
  function IndexOfSep(s: string, sep: char -> bool): (k: nat)
    ensures k <= |s|
    ensures forall i :: 0 <= i < k ==> !sep(s[i])
    ensures k < |s| ==> sep(s[k])
  {
    if |s| == 0 || sep(s[0]) then 0 else 1 + IndexOfSep(s[1..], sep)
  }

  /** `s` without its leading run of separators. */
  function DropLeading(s: string, sep: char -> bool): (r: string)
    ensures |r| <= |s|
    ensures r == s[|s| - |r|..]
    ensures |r| > 0 ==> !sep(r[0])
    ensures forall i :: 0 <= i < |s| - |r| ==> sep(s[i])
  {
    if |s| > 0 && sep(s[0]) then
      var r := DropLeading(s[1..], sep);
      assert forall i :: 1 <= i < |s| ==> s[i] == s[1..][i - 1];
      r
    else s
  }

  /** `s` without its trailing run of separators. */
  function DropTrailing(s: string, sep: char -> bool): (r: string)
    ensures |r| <= |s|
    ensures r == s[..|r|]
    ensures |r| > 0 ==> !sep(r[|r| - 1])
    ensures forall i :: |r| <= i < |s| ==> sep(s[i])
  {
    if |s| > 0 && sep(s[|s| - 1]) then DropTrailing(s[..|s| - 1], sep) else s
  }

  /** `String.prototype.trim`. */
  function Trim(s: string): string {
    DropTrailing(DropLeading(s, IsSpace), IsSpace)
  }

  /** Every character of `p` is a non-separator character of `s`. */
  predicate PieceOf(p: string, s: string, sep: char -> bool) {
    forall j :: 0 <= j < |p| ==> !sep(p[j]) && p[j] in s
  }

  /**
   * `s.split(/[C]+/)` for a character class C given as `sep`: the pieces between
   * maximal runs of separators, the first and last piece empty when `s` starts or
   * ends with a separator, and `[""]` for the empty string.
   */
  function SplitOn(s: string, sep: char -> bool): (r: seq<string>)
    ensures |r| >= 1
    ensures forall i :: 0 <= i < |r| ==> PieceOf(r[i], s, sep)
    ensures (forall i :: 0 <= i < |s| ==> !sep(s[i])) ==> r == [s]
    decreases |s|
  {
    var k := IndexOfSep(s, sep);
    if k == |s| then
      assert PieceOf(s, s, sep);
      [s]
    else
      var rest := DropLeading(s[k + 1..], sep);
      var tail := SplitOn(rest, sep);
      assert PieceOf(s[..k], s, sep);
      assert forall i :: 0 <= i < |tail| ==> PieceOf(tail[i], s, sep) by {
        forall i | 0 <= i < |tail| ensures PieceOf(tail[i], s, sep) {
          forall j | 0 <= j < |tail[i]| ensures tail[i][j] in s {
            assert tail[i][j] in rest;
          }
        }
      }
      [s[..k]] + tail
  }

  /** Index of the first blank line (two consecutive newlines) of `s`, or `|s|`. */
  function IndexOfBlankLine(s: string): (k: nat)
    ensures k <= |s|
    ensures k < |s| ==> k + 1 < |s| && s[k] == '\n' && s[k + 1] == '\n'
    ensures forall i :: 0 <= i < k && i + 1 < |s| ==> !(s[i] == '\n' && s[i + 1] == '\n')
  {
    if |s| < 2 then |s|
    else if s[0] == '\n' && s[1] == '\n' then 0
    else 1 + IndexOfBlankLine(s[1..])
  }

  /** `s.split(/\n\n+/)`: pieces between maximal runs of two or more newlines. */
  function SplitParagraphs(s: string): (r: seq<string>)
    ensures |r| >= 1
    decreases |s|
  {
    var k := IndexOfBlankLine(s);
    if k == |s| then [s]
    else [s[..k]] + SplitParagraphs(DropLeading(s[k + 2..], IsNewline))
  }

  /** `words.join(" ")`. */
  function JoinSpace(words: seq<string>): string {
    if |words| == 0 then ""
    else if |words| == 1 then words[0]
    else words[0] + " " + JoinSpace(words[1..])
  }

  /** `xs.slice(0, n)`. */
  function Take<T>(xs: seq<T>, n: nat): (r: seq<T>)
    ensures |r| == if |xs| <= n then |xs| else n
    ensures r == xs[..|r|]
  {
    if |xs| <= n then xs else xs[..n]
  }

  /** `xs.filter(p)`. */
  function Filter<T>(xs: seq<T>, p: T -> bool): (r: seq<T>)
    ensures |r| <= |xs|
    ensures forall i :: 0 <= i < |r| ==> r[i] in xs && p(r[i])
    ensures forall i :: 0 <= i < |xs| && p(xs[i]) ==> xs[i] in r
  {
    if |xs| == 0 then []
    else (if p(xs[0]) then [xs[0]] else []) + Filter(xs[1..], p)
  }

  /** Filtering an extended sequence filters the prefix, then keeps or drops the new element. */
  lemma {:induction false} FilterAppend<T>(xs: seq<T>, x: T, p: T -> bool)
    ensures Filter(xs + [x], p) == Filter(xs, p) + (if p(x) then [x] else [])
  {
    if |xs| > 0 {
      assert (xs + [x])[1..] == xs[1..] + [x];
      FilterAppend(xs[1..], x, p);
    }
  }

  function Min(a: int, b: int): int {
    if a <= b then a else b
  }

  function MinReal(a: real, b: real): real {
    if a <= b then a else b
  }

  function MaxReal(a: real, b: real): real {
    if a >= b then a else b
  }

  /** `Math.max(lo, Math.min(x, hi))` on reals. */
  function Clamp(x: real, lo: real, hi: real): (r: real)
    requires lo <= hi
    ensures lo <= r <= hi
    ensures lo <= x <= hi ==> r == x
  {
    MaxReal(lo, MinReal(x, hi))
  }

  /** `Math.round` on reals: the nearest integer, halves rounded up. */
  function Round(x: real): (r: int)
    ensures r as real - 0.5 <= x < r as real + 0.5
  {
    (x + 0.5).Floor
  }

  /** The number `parseFloat(x.toFixed(1))` stands for, for `x >= 0`. */
  function RoundTo1(x: real): (r: real)
    requires x >= 0.0
    ensures -0.05 < r - x <= 0.05
    ensures r >= 0.0
  {
    (x * 10.0 + 0.5).Floor as real / 10.0
  }

  /** Rounding to one decimal never carries a value past a whole bound it respects. */
  lemma RoundTo1AtMost(x: real, n: nat)
    requires 0.0 <= x <= n as real
    ensures RoundTo1(x) <= n as real
  {
    var f := (x * 10.0 + 0.5).Floor;
    assert f as real <= x * 10.0 + 0.5 < (10 * n + 1) as real;
    assert f <= 10 * n;
  }

  /** Nor does it carry a value below a whole bound it respects. */
  lemma RoundTo1AtLeast(x: real, n: nat)
    requires x >= n as real
    ensures RoundTo1(x) >= n as real
  {
    var f := (x * 10.0 + 0.5).Floor;
    assert (10 * n) as real <= x * 10.0 + 0.5;
    assert f >= 10 * n;
  }
}
