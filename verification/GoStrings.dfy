/** The part of Go's `strings` package the daemon relies on.
 *
 * A Go string is a byte string. It is modelled as a Dafny `string` whose characters stand for
 * the bytes, so "é" is the two characters U+00C3, U+00A9. Every theorem holds for all strings,
 * hence in particular for the ones whose characters are all below 256.
 */
module GoStrings {

  datatype Option<+T> = None | Some(value: T)

  // ----- slices of slices -----

  lemma DropDrop<T>(s: seq<T>, a: nat, b: nat)
    requires a + b <= |s|
    ensures s[a..][b..] == s[a + b..]
  {
  }

  lemma DropTake<T>(s: seq<T>, a: nat, b: nat, c: nat)
    requires b <= c && a + c <= |s|
    ensures s[a..][b..c] == s[a + b..a + c]
  {
  }

  lemma AppendLast<T>(a: seq<T>, b: seq<T>)
    requires b != []
    ensures a + b == (a + b[..|b| - 1]) + [b[|b| - 1]]
  {
  }

  lemma TakeDrop<T>(s: seq<T>, a: nat, b: nat)
    requires a <= b <= |s|
    ensures s[..b][a..] == s[a..b]
  {
  }

  predicate HasPrefix(s: string, p: string) {
    p <= s
  }

  predicate HasSuffix(s: string, p: string) {
    |p| <= |s| && s[|s| - |p|..] == p
  }

  /** `strings.IndexByte`: the first index of `c`, or -1. */
  function IndexByte(s: string, c: char): (r: int)
    ensures -1 <= r < |s|
    ensures r >= 0 ==> s[r] == c && c !in s[..r]
    ensures r == -1 ==> c !in s
  {
    if s == "" then -1
    else if s[0] == c then 0
    else
      var r := IndexByte(s[1..], c);
      assert s == [s[0]] + s[1..];
      if r < 0 then -1 else assert s[..r + 1] == [s[0]] + s[1..][..r]; r + 1
  }

  /** The first index is the only one with its two properties. */
  lemma IndexByteIs(s: string, c: char, k: nat)
    requires k < |s| && s[k] == c && c !in s[..k]
    ensures IndexByte(s, c) == k
  {
  }

  /** `strings.Contains`. */
  predicate Contains(s: string, p: string) {
    HasPrefix(s, p) || (s != "" && Contains(s[1..], p))
  }

  predicate OccursAt(s: string, p: string, k: int) {
    0 <= k <= |s| - |p| && s[k..k + |p|] == p
  }

  lemma {:induction false} OccurrenceContains(s: string, p: string, k: int)
    requires OccursAt(s, p, k)
    ensures Contains(s, p)
  {
    if k == 0 {
      assert s[..|p|] == p;
    } else {
      assert s[1..][k - 1..k - 1 + |p|] == s[k..k + |p|];
      OccurrenceContains(s[1..], p, k - 1);
    }
  }

  lemma {:induction false} ContainedOccurs(s: string, p: string) returns (k: int)
    requires Contains(s, p)
    ensures OccursAt(s, p, k)
  {
    if HasPrefix(s, p) {
      k := 0;
    } else {
      k := ContainedOccurs(s[1..], p);
      assert s[1..][k..k + |p|] == s[k + 1..k + 1 + |p|];
      k := k + 1;
    }
  }

  /** `strings.ReplaceAll` for a non-empty pattern: leftmost, non-overlapping. */
  function ReplaceAll(s: string, pat: string, rep: string): string
    requires pat != ""
  {
    if s == "" then ""
    else if HasPrefix(s, pat) then rep + ReplaceAll(s[|pat|..], pat, rep)
    else [s[0]] + ReplaceAll(s[1..], pat, rep)
  }

  /** `strings.Join`. */
  function Join(parts: seq<string>, sep: string): string {
    if parts == [] then ""
    else if |parts| == 1 then parts[0]
    else parts[0] + sep + Join(parts[1..], sep)
  }

  /** `strings.Split(s, "\n")`: never empty, one more part than there are newlines. */
  function SplitLines(s: string): (lines: seq<string>)
    ensures |lines| > 0
    ensures forall k :: 0 <= k < |lines| ==> '\n' !in lines[k]
  {
    var i := IndexByte(s, '\n');
    if i < 0 then [s] else [s[..i]] + SplitLines(s[i + 1..])
  }

  /** Splitting undoes joining lines that hold no newline. */
  lemma {:induction false} SplitJoin(lines: seq<string>)
    requires |lines| > 0
    requires forall k :: 0 <= k < |lines| ==> '\n' !in lines[k]
    ensures SplitLines(Join(lines, "\n")) == lines
  {
    var s := Join(lines, "\n");
    if |lines| == 1 {
      assert lines == [lines[0]];
    } else {
      var rest := Join(lines[1..], "\n");
      assert s == lines[0] + "\n" + rest;
      assert s[..|lines[0]|] == lines[0];
      IndexByteIs(s, '\n', |lines[0]|);
      assert s[|lines[0]| + 1..] == rest;
      SplitJoin(lines[1..]);
    }
  }

  lemma SplitFirst(line: string, rest: string)
    requires '\n' !in line
    ensures SplitLines(line + "\n" + rest) == [line] + SplitLines(rest)
  {
    var s := line + "\n" + rest;
    assert s[..|line|] == line && s[|line| + 1..] == rest;
    IndexByteIs(s, '\n', |line|);
  }

  /** Joining undoes splitting. */
  lemma {:induction false} JoinSplit(s: string)
    ensures Join(SplitLines(s), "\n") == s
    decreases |s|
  {
    var i := IndexByte(s, '\n');
    if i >= 0 {
      JoinSplit(s[i + 1..]);
      assert s == s[..i] + "\n" + s[i + 1..];
      assert SplitLines(s)[1..] == SplitLines(s[i + 1..]);
    }
  }

  lemma Regroup(a: string, b: string, c: string)
    ensures a + (b + "\n" + c) == (a + b) + "\n" + c
  {
  }

  /** The first line and the rest. */
  lemma FirstLine(s: string) returns (line: string, rest: string)
    requires '\n' in s
    ensures s == line + "\n" + rest && '\n' !in line && SplitLines(s) == [line] + SplitLines(rest)
  {
    var i := IndexByte(s, '\n');
    line, rest := s[..i], s[i + 1..];
  }

  lemma OneLine(s: string)
    requires '\n' !in s
    ensures SplitLines(s) == [s]
  {
  }

  lemma {:induction false} SplitConcat(a: string, b: string)
    ensures SplitLines(a + "\n" + b) == SplitLines(a) + SplitLines(b)
    decreases |a|
  {
    hide SplitLines;
    if '\n' !in a {
      OneLine(a);
      SplitFirst(a, b);
    } else {
      var line, rest := FirstLine(a);
      SplitConcat(rest, b);
      SplitFirst(line, rest + "\n" + b);
      Regroup(line + "\n", rest, b);
      assert line + "\n" + (rest + "\n" + b) == a + "\n" + b;
      assert [line] + (SplitLines(rest) + SplitLines(b)) == SplitLines(a) + SplitLines(b);
    }
  }

  /** `a` is `b` with some elements left out. */
  predicate Subsequence<T(==)>(a: seq<T>, b: seq<T>) {
    if a == [] then true
    else b != [] && ((a[0] == b[0] && Subsequence(a[1..], b[1..])) || Subsequence(a, b[1..]))
  }

  // ----- white space -----

  predicate IsAsciiSpace(c: char) {
    c == ' ' || '\t' <= c <= '\r'
  }

  /** The two-byte code points that `unicode.IsSpace` accepts: U+0085 and U+00A0. */
  predicate IsSpace2(a: char, b: char) {
    a == '\U{C2}' && (b == '\U{85}' || b == '\U{A0}')
  }

  /** The three-byte ones: U+1680, U+2000-U+200A, U+2028, U+2029, U+202F, U+205F, U+3000. */
  predicate IsSpace3(a: char, b: char, c: char) {
    || (a == '\U{E1}' && b == '\U{9A}' && c == '\U{80}')
    || (a == '\U{E2}' && b == '\U{80}'
        && ('\U{80}' <= c <= '\U{8A}' || c == '\U{A8}' || c == '\U{A9}' || c == '\U{AF}'))
    || (a == '\U{E2}' && b == '\U{81}' && c == '\U{9F}')
    || (a == '\U{E3}' && b == '\U{80}' && c == '\U{80}')
  }

  /** Length in bytes of the white-space rune `s` starts with, 0 if there is none. */
  function LeadingSpace(s: string): (n: nat)
    ensures n <= |s|
  {
    if |s| >= 1 && IsAsciiSpace(s[0]) then 1
    else if |s| >= 2 && IsSpace2(s[0], s[1]) then 2
    else if |s| >= 3 && IsSpace3(s[0], s[1], s[2]) then 3
    else 0
  }

  /** Length in bytes of the white-space rune `s` ends with, 0 if there is none. */
  function TrailingSpace(s: string): (n: nat)
    ensures n <= |s|
  {
    var m := |s|;
    if m >= 1 && IsAsciiSpace(s[m - 1]) then 1
    else if m >= 2 && IsSpace2(s[m - 2], s[m - 1]) then 2
    else if m >= 3 && IsSpace3(s[m - 3], s[m - 2], s[m - 1]) then 3
    else 0
  }

  function TrimLeftSpace(s: string): (r: string)
    ensures |r| <= |s|
  {
    if LeadingSpace(s) == 0 then s else TrimLeftSpace(s[LeadingSpace(s)..])
  }

  function TrimRightSpace(s: string): (r: string)
    ensures |r| <= |s|
  {
    if TrailingSpace(s) == 0 then s else TrimRightSpace(s[..|s| - TrailingSpace(s)])
  }

  /** `strings.TrimSpace`. */
  function TrimSpace(s: string): string {
    TrimRightSpace(TrimLeftSpace(s))
  }

  predicate Trimmed(s: string) {
    LeadingSpace(s) == 0 && TrailingSpace(s) == 0
  }

  lemma {:induction false} TrimLeftTrims(s: string)
    ensures var r := TrimLeftSpace(s); LeadingSpace(r) == 0 && r == s[|s| - |r|..]
  {
    hide LeadingSpace;
    if LeadingSpace(s) > 0 {
      TrimLeftTrims(s[LeadingSpace(s)..]);
    } else {
      assert s[0..] == s;
    }
  }

  lemma {:induction false} TrimRightTrims(s: string)
    ensures var r := TrimRightSpace(s); TrailingSpace(r) == 0 && r <= s
  {
    hide TrailingSpace;
    if TrailingSpace(s) > 0 {
      TrimRightTrims(s[..|s| - TrailingSpace(s)]);
    }
  }

  /** A trimmed string is a fixed point, and trimming produces one. */
  lemma TrimSpaceTrims(s: string)
    ensures Trimmed(TrimSpace(s))
    ensures Trimmed(s) ==> TrimSpace(s) == s
    ensures |TrimSpace(s)| <= |s|
  {
    hide LeadingSpace, TrailingSpace;
    var left := TrimLeftSpace(s);
    TrimLeftTrims(s);
    TrimRightTrims(left);
    LeadingSpacePrefix(left, |TrimRightSpace(left)|);
    assert left[..|TrimRightSpace(left)|] == TrimSpace(s);
  }

  lemma TrimOne(c: char)
    requires !IsAsciiSpace(c) && c as int < 128
    ensures TrimSpace([c]) == [c]
  {
    hide TrimSpace;
    TrimSpaceTrims([c]);
  }

  lemma SliceIsPart(s: string, a: nat, b: nat)
    requires a <= b <= |s|
    ensures forall c :: c in s[a..b] ==> c in s
  {
    forall c | c in s[a..b] ensures c in s {
      var k :| 0 <= k < b - a && s[a..b][k] == c;
      assert s[a + k] == c;
    }
  }

  lemma TrimSpaceIsPart(s: string)
    ensures forall c :: c in TrimSpace(s) ==> c in s
    ensures LeadingSpace(s) == 0 ==> TrimSpace(s) <= s
  {
    hide TrimRightSpace, LeadingSpace, TrailingSpace;
    var left := TrimLeftSpace(s);
    TrimLeftTrims(s);
    TrimRightTrims(left);
    var k := |s| - |left|;
    var m := |TrimRightSpace(left)|;
    assert TrimSpace(s) == left[..m];
    DropTake(s, k, 0, m);
    SliceIsPart(s, k, k + m);
  }

  predicate IsAscii(c: char) {
    c < '\U{80}'
  }

  /** White space at an end is not created by ASCII text next to it. */
  lemma LeadingSpaceAppend(a: string, b: string)
    requires a != "" && LeadingSpace(a) == 0 && (b == "" || IsAscii(b[0]))
    ensures LeadingSpace(a + b) == 0
  {
  }

  lemma LeadingSpacePrefix(s: string, n: nat)
    requires n <= |s| && LeadingSpace(s) == 0
    ensures LeadingSpace(s[..n]) == 0
  {
  }

  lemma TrailingSpaceEnd(s: string)
    requires s != "" && IsAscii(s[|s| - 1]) && !IsAsciiSpace(s[|s| - 1])
    ensures TrailingSpace(s) == 0
  {
  }

  lemma TrailingSpacePrepend(a: string, b: string)
    requires b != "" && TrailingSpace(b) == 0 && (a == "" || IsAscii(a[|a| - 1]))
    ensures TrailingSpace(a + b) == 0
  {
  }

  /** `strings.TrimLeft(s, " \t")`. */
  function TrimLeftBlank(s: string): (r: string)
    ensures |r| <= |s| && r == s[|s| - |r|..]
    ensures forall k :: 0 <= k < |s| - |r| ==> s[k] == ' ' || s[k] == '\t'
    ensures r == "" || (r[0] != ' ' && r[0] != '\t')
  {
    if s != "" && (s[0] == ' ' || s[0] == '\t') then TrimLeftBlank(s[1..]) else s
  }
}
