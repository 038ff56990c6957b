/**
 * The Python 3 `str` operations the two scripts rely on, over Dafny strings
 * (sequences of Unicode scalar values): `isspace`, `lstrip`/`rstrip`/`strip`
 * without arguments, `rstrip("\n")`, `startswith`, `count` of one character,
 * `split` on one character, `join`, `splitlines`, `lower` and the
 * line iteration of a text-mode file (`readlines`).
 */
module PyStr {

  /** The characters for which Python's `str.isspace()` is true. */
  predicate IsSpace(c: char) {
    || c == ' '
    || ('\t' <= c <= '\r')            // \t \n \v \f \r
    || ('\U{1C}' <= c <= '\U{1F}')    // file, group, record and unit separators
    || c == '\U{85}' || c == '\U{A0}' || c == '\U{1680}'
    || ('\U{2000}' <= c <= '\U{200A}')
    || c == '\U{2028}' || c == '\U{2029}' || c == '\U{202F}' || c == '\U{205F}' || c == '\U{3000}'
  }

  /** The line boundaries of Python's `str.splitlines()` ("\r\n" counts as one). */
  predicate IsLineBreak(c: char) {
    || c == '\n' || c == '\r' || c == '\U{0B}' || c == '\U{0C}'
    || ('\U{1C}' <= c <= '\U{1E}')
    || c == '\U{85}' || c == '\U{2028}' || c == '\U{2029}'
  }

  predicate NoLineBreak(s: string) {
    forall j :: 0 <= j < |s| ==> !IsLineBreak(s[j])
  }

  /** Number of leading whitespace characters: `len(s) - len(s.lstrip())`. */
  function LeadingSpace(s: string): (n: nat)
    ensures n <= |s|
    ensures forall i :: 0 <= i < n ==> IsSpace(s[i])
    ensures n < |s| ==> !IsSpace(s[n])
  {
    if s == [] || !IsSpace(s[0]) then 0 else 1 + LeadingSpace(s[1..])
  }

  /** Number of trailing whitespace characters: `len(s) - len(s.rstrip())`. */
  function TrailingSpace(s: string): (n: nat)
    ensures n <= |s|
    ensures forall i :: |s| - n <= i < |s| ==> IsSpace(s[i])
    ensures n < |s| ==> !IsSpace(s[|s| - 1 - n])
  {
    if s == [] || !IsSpace(s[|s| - 1]) then 0 else 1 + TrailingSpace(s[..|s| - 1])
  }

  function LStrip(s: string): string {
    s[LeadingSpace(s)..]
  }

  function RStrip(s: string): string {
    s[..|s| - TrailingSpace(s)]
  }

  function Strip(s: string): string {
    RStrip(LStrip(s))
  }

  /** `s.rstrip(c)` for a one-character argument: every trailing `c` is removed. */
  function RStripChar(s: string, c: char): (r: string)
    ensures r <= s
    ensures forall i :: |r| <= i < |s| ==> s[i] == c
    ensures r == [] || r[|r| - 1] != c
  {
    if s == [] || s[|s| - 1] != c then s else RStripChar(s[..|s| - 1], c)
  }

  predicate StartsWith(s: string, prefix: string) {
    |prefix| <= |s| && s[..|prefix|] == prefix
  }

  /** `s.count(c)` for a one-character argument. */
  function Count(s: string, c: char): nat {
    if s == [] then 0 else (if s[0] == c then 1 else 0) + Count(s[1..], c)
  }

  /** ASCII `lower()` of one character: 'A'..'Z' become 'a'..'z', everything else is kept. */
  function LowerChar(c: char): char {
    if 'A' <= c <= 'Z' then (c - 'A' + 'a') as char else c
  }

  function Lower(s: string): (r: string)
    ensures |r| == |s|
  {
    if s == [] then [] else [LowerChar(s[0])] + Lower(s[1..])
  }

  /** Index of the first `c` in `s`, or `|s|` when there is none. */
  function Find(s: string, c: char): (i: nat)
    ensures i <= |s|
    ensures forall j :: 0 <= j < i ==> s[j] != c
    ensures i < |s| ==> s[i] == c
  {
    if s == [] || s[0] == c then 0 else 1 + Find(s[1..], c)
  }

  /** `s.split(c)`: the pieces between the occurrences of `c`, never an empty list. */
  function Split(s: string, c: char): (r: seq<string>)
    ensures |r| >= 1
    ensures forall k :: 0 <= k < |r| ==> c !in r[k]
    decreases |s|
  {
    var i := Find(s, c);
    if i == |s| then [s] else [s[..i]] + Split(s[i + 1..], c)
  }

  /** `sep.join(xs)`. */
  function Join(xs: seq<string>, sep: string): string {
    if |xs| == 0 then "" else if |xs| == 1 then xs[0] else xs[0] + sep + Join(xs[1..], sep)
  }

  function Concat(xs: seq<string>): string {
    if xs == [] then "" else xs[0] + Concat(xs[1..])
  }

  /** Index of the first line boundary of `splitlines` in `s`, or `|s|`. */
  function BreakAt(s: string): (i: nat)
    ensures i <= |s|
    ensures forall j :: 0 <= j < i ==> !IsLineBreak(s[j])
    ensures i < |s| ==> IsLineBreak(s[i])
  {
    if s == [] || IsLineBreak(s[0]) then 0 else 1 + BreakAt(s[1..])
  }

  /** `s.splitlines()`: the lines without their boundaries; no empty last line. */
  function SplitLines(s: string): (r: seq<string>)
    ensures forall k :: 0 <= k < |r| ==> NoLineBreak(r[k])
    ensures s != [] <==> r != []
    decreases |s|
  {
    if s == [] then []
    else
      var i := BreakAt(s);
      if i == |s| then [s]
      else [s[..i]] + SplitLines(s[LineEnd(s, i)..])
  }

  /** Where the boundary found at `i` ends: "\r\n" is one boundary of two characters. */
  function LineEnd(s: string, i: nat): (next: nat)
    requires i < |s|
    ensures i < next <= |s|
    ensures next == i + 1 || s[i..next] == "\r\n"
  {
    if s[i] == '\r' && i + 1 < |s| && s[i + 1] == '\n' then i + 2 else i + 1
  }

  /** One line boundary: "\r\n", or a single boundary character. */
  predicate IsBoundary(e: string) {
    e == "\r\n" || (|e| == 1 && IsLineBreak(e[0]))
  }

  /** The boundary after each line of `splitlines()`, and "" after a last line that has none. */
  function LineEnds(s: string): (r: seq<string>)
    ensures |r| == |SplitLines(s)|
    ensures forall k :: 0 <= k < |r| ==> IsBoundary(r[k]) || (r[k] == "" && k == |r| - 1)
    decreases |s|
  {
    if s == [] then []
    else
      var i := BreakAt(s);
      if i == |s| then [""]
      else [s[i..LineEnd(s, i)]] + LineEnds(s[LineEnd(s, i)..])
  }

  /** Each line followed by the boundary that ended it. */
  function Weave(lines: seq<string>, ends: seq<string>): string
    requires |lines| == |ends|
  {
    if lines == [] then "" else lines[0] + ends[0] + Weave(lines[1..], ends[1..])
  }

  /** Length of the first line of `s` as a text-mode file yields it: up to and including the first "\n". */
  function LineLength(s: string): (n: nat)
    requires s != []
    ensures 1 <= n <= |s|
    ensures forall j :: 0 <= j < n - 1 ==> s[j] != '\n'
    ensures n < |s| ==> s[n - 1] == '\n'
  {
    if s[0] == '\n' || |s| == 1 then 1 else 1 + LineLength(s[1..])
  }

  /** A line as a file yields it: a "\n" can only be its last character. */
  predicate LineShaped(line: string) {
    forall j :: 0 <= j < |line| - 1 ==> line[j] != '\n'
  }

  /** `f.readlines()` (and `for line in f`) on the decoded text of a file. */
  function ReadLines(s: string): (r: seq<string>)
    ensures forall k :: 0 <= k < |r| ==> r[k] != [] && LineShaped(r[k])
    ensures forall k :: 0 <= k < |r| - 1 ==> r[k][|r[k]| - 1] == '\n'
    decreases |s|
  {
    if s == [] then [] else var n := LineLength(s); [s[..n]] + ReadLines(s[n..])
  }

  // ---------------------------------------------------------------- lemmas

  /** Reading a file line by line loses nothing and invents nothing. */
  lemma {:induction false} ReadLinesConcat(s: string)
    ensures Concat(ReadLines(s)) == s
    decreases |s|
  {
    if s != [] {
      var n := LineLength(s);
      ReadLinesConcat(s[n..]);
      assert s == s[..n] + s[n..];
    }
  }

  /** `splitlines()` loses only the boundaries: put back after their lines, they give the text again. */
  lemma {:induction false} SplitLinesRoundTrip(s: string)
    ensures Weave(SplitLines(s), LineEnds(s)) == s
    decreases |s|
  {
    if s != [] {
      var i := BreakAt(s);
      if i == |s| {
        assert SplitLines(s) == [s] && LineEnds(s) == [""];
      } else {
        var next := LineEnd(s, i);
        var rest := s[next..];
        SplitLinesRoundTrip(rest);
        assert SplitLines(s) == [s[..i]] + SplitLines(rest);
        assert LineEnds(s) == [s[i..next]] + LineEnds(rest);
        WeaveCons(s[..i], s[i..next], SplitLines(rest), LineEnds(rest));
        SliceThree(s, i, next);
      }
    }
  }

  lemma SliceThree(s: string, i: nat, j: nat)
    requires i <= j <= |s|
    ensures s[..i] + s[i..j] + s[j..] == s
  {
    assert s[..j] == s[..i] + s[i..j];
  }

  lemma WeaveCons(line: string, end: string, lines: seq<string>, ends: seq<string>)
    requires |lines| == |ends|
    ensures Weave([line] + lines, [end] + ends) == line + end + Weave(lines, ends)
  {
    assert ([line] + lines)[1..] == lines && ([end] + ends)[1..] == ends;
  }

  /** Text whose only boundaries are "\n" and that does not end with one. */
  predicate NewlineSeparated(s: string) {
    && (forall j :: 0 <= j < |s| && IsLineBreak(s[j]) ==> s[j] == '\n')
    && (s == [] || s[|s| - 1] != '\n')
  }

  /** For text separated by "\n" only, `"\n".join(s.splitlines()) == s`. */
  lemma {:induction false} SplitLinesJoin(s: string)
    requires NewlineSeparated(s)
    ensures Join(SplitLines(s), "\n") == s
    decreases |s|
  {
    if s != [] {
      var i := BreakAt(s);
      if i < |s| {
        assert s[i] == '\n';
        assert LineEnd(s, i) == i + 1;
        var rest := s[i + 1..];
        NewlineSeparatedAfter(s, i);
        SplitLinesJoin(rest);
        assert SplitLines(s) == [s[..i]] + SplitLines(rest);
        JoinCons(s[..i], SplitLines(rest), "\n");
        assert s[i..i + 1] == "\n";
        SliceThree(s, i, i + 1);
      }
    }
  }

  /** What follows a "\n" inside newline-separated text is newline-separated and not empty. */
  lemma NewlineSeparatedAfter(s: string, i: nat)
    requires NewlineSeparated(s) && i < |s| && s[i] == '\n'
    ensures s[i + 1..] != [] && NewlineSeparated(s[i + 1..])
  {
    var rest := s[i + 1..];
    assert forall j :: 0 <= j < |rest| ==> rest[j] == s[i + 1 + j];
  }

  lemma JoinCons(x: string, r: seq<string>, sep: string)
    requires r != []
    ensures Join([x] + r, sep) == x + sep + Join(r, sep)
  {
    assert ([x] + r)[1..] == r;
  }


  /** Appending text after a non-blank prefix does not change the leading whitespace. */
  lemma {:induction false} LeadingSpaceAppend(s: string, t: string)
    requires LeadingSpace(s) < |s|
    ensures LeadingSpace(s + t) == LeadingSpace(s)
    decreases |s|
  {
    if IsSpace(s[0]) {
      assert (s + t)[1..] == s[1..] + t;
      LeadingSpaceAppend(s[1..], t);
    }
  }

  /** Leading whitespace followed by more text is counted in full. */
  lemma {:induction false} LeadingSpacePrefix(w: string, t: string)
    requires forall i :: 0 <= i < |w| ==> IsSpace(w[i])
    ensures LeadingSpace(w + t) == |w| + LeadingSpace(t)
    decreases |w|
  {
    if w != [] {
      assert (w + t)[1..] == w[1..] + t;
      LeadingSpacePrefix(w[1..], t);
    } else {
      assert w + t == t;
    }
  }

  /** A string is blank (`strip() == ""`) exactly when it is all whitespace. */
  lemma StripEmptyIff(s: string)
    ensures Strip(s) == "" <==> LeadingSpace(s) == |s|
  {
    var l := LStrip(s);
    if l != [] {
      assert !IsSpace(l[0]);
      assert TrailingSpace(l) < |l|;
    }
  }

  /** `strip()` leaves a string that has nothing left to strip. */
  lemma StripIdempotent(s: string)
    ensures Strip(Strip(s)) == Strip(s)
  {
    var t := Strip(s);
    var l := LStrip(s);
    if t != [] {
      assert t[0] == l[0] && !IsSpace(t[0]);
      assert LStrip(t) == t;
      assert !IsSpace(t[|t| - 1]);
      assert RStrip(t) == t;
    } else {
      assert Strip(t) == "";
    }
  }

  /** `split` followed by `join` with the same separator gives back the original string. */
  lemma {:induction false} SplitJoin(s: string, c: char)
    ensures Join(Split(s, c), [c]) == s
    decreases |s|
  {
    var i := Find(s, c);
    if i < |s| {
      var rest := Split(s[i + 1..], c);
      SplitJoin(s[i + 1..], c);
      assert Split(s, c) == [s[..i]] + rest;
      assert ([s[..i]] + rest)[1..] == rest;
      assert s == s[..i] + [c] + s[i + 1..];
    }
  }

  /** Splitting `a + [c] + b` where neither side holds `c` gives exactly the two sides. */
  lemma SplitTwo(a: string, b: string, c: char)
    requires c !in a && c !in b
    ensures Split(a + [c] + b, c) == [a, b]
  {
    var s := a + [c] + b;
    assert s[|a|] == c;
    assert forall j :: 0 <= j < |a| ==> s[j] == a[j];
    assert Find(s, c) == |a|;
    assert s[..|a|] == a && s[|a| + 1..] == b;
    assert Find(b, c) == |b|;
  }

  /** Whitespace and line breaks removed by `strip()` take every "\n" of a file line with them. */
  lemma StripLineHasNoNewline(line: string)
    requires LineShaped(line)
    ensures '\n' !in Strip(line)
  {
    var a := LeadingSpace(line);
    var l := line[a..];
    var t := Strip(line);
    assert t == l[..|l| - TrailingSpace(l)];
    if l != [] && l[|l| - 1] == '\n' {
      assert TrailingSpace(l) >= 1;
    }
    forall j | 0 <= j < |t|
      ensures t[j] != '\n'
    {
      assert t[j] == line[a + j];
    }
  }
}
