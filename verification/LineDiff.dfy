/** The "what changed" part of a watch message: which lines went and which came. */
module LineDiff {
  import opened GoStrings
  import opened WhiteSpace

  const Marker := "\U{E2}\U{80}\U{A6}(diff truncated)\n"
  /** The opening parenthesis apart: it tells this text from all others, and the verifier does not look
      fifty characters deep into a literal. */
  const Reordered := "(" + "the output was reordered; nothing was added or removed)\n"

  function TrimNewlines(s: string): string {
    if s != "" && s[|s| - 1] == '\n' then TrimNewlines(s[..|s| - 1]) else s
  }

  function Lines(s: string): seq<string> {
    SplitLines(TrimNewlines(s))
  }

  predicate Blank(line: string) {
    TrimSpace(line) == ""
  }

  function NonBlank(lines: seq<string>): seq<string> {
    if lines == [] then []
    else if Blank(lines[0]) then NonBlank(lines[1..])
    else [lines[0]] + NonBlank(lines[1..])
  }

  // ----- the two sides -----

  /** The lines that find no partner in `partners`, a partner serving once. */
  function Gone(lines: seq<string>, partners: multiset<string>): seq<string> {
    if lines == [] then []
    else if partners[lines[0]] > 0 then Gone(lines[1..], partners - multiset{lines[0]})
    else [lines[0]] + Gone(lines[1..], partners)
  }

  /** The lines that are in `surplus`, as often as they are in it. */
  function Came(lines: seq<string>, surplus: multiset<string>): seq<string> {
    if lines == [] then []
    else if surplus[lines[0]] == 0 then Came(lines[1..], surplus)
    else [lines[0]] + Came(lines[1..], surplus - multiset{lines[0]})
  }

  function Minus(was: seq<string>, now: seq<string>): seq<string> {
    NonBlank(Gone(was, multiset(now)))
  }

  function Plus(was: seq<string>, now: seq<string>): seq<string> {
    NonBlank(Came(now, multiset(now) - multiset(was)))
  }

  function Prefixed(prefix: string, lines: seq<string>): seq<string> {
    seq(|lines|, i requires 0 <= i < |lines| => prefix + lines[i] + "\n")
  }

  function Entries(was: seq<string>, now: seq<string>): seq<string> {
    Prefixed("- ", Minus(was, now)) + Prefixed("+ ", Plus(was, now))
  }

  /** Entries written until one does not fit. */
  function Write(sofar: string, entries: seq<string>, limit: int): (string, bool)
    decreases |entries|
  {
    if entries == [] then (sofar, true)
    else if |sofar| + |entries[0]| > limit then (sofar + Marker, false)
    else Write(sofar + entries[0], entries[1..], limit)
  }

  function Diff(before: string, after: string, limit: int): string {
    var (text, _) := Write("", Entries(Lines(before), Lines(after)), limit);
    if text == "" then Reordered else text
  }

  // ----- the program -----

  method CountLines(lines: seq<string>) returns (count: multiset<string>)
    ensures count == multiset(lines)
  {
    count := multiset{};
    var i := 0;
    while i < |lines|
      invariant i <= |lines| && count == multiset(lines[..i])
    {
      assert lines[..i + 1] == lines[..i] + [lines[i]];
      count := count[lines[i] := count[lines[i]] + 1];
      i := i + 1;
    }
    assert lines[..i] == lines;
  }

  /** How often each new line is there beyond its old occurrences. */
  method CountSurplus(oldLines: seq<string>, newLines: seq<string>) returns (remaining: multiset<string>)
    ensures remaining == multiset(newLines) - multiset(oldLines)
  {
    remaining := CountLines(newLines);
    var i := 0;
    while i < |oldLines|
      invariant i <= |oldLines| && remaining == multiset(newLines) - multiset(oldLines[..i])
    {
      assert oldLines[..i + 1] == oldLines[..i] + [oldLines[i]];
      if remaining[oldLines[i]] > 0 {
        remaining := remaining[oldLines[i] := remaining[oldLines[i]] - 1];
      }
      i := i + 1;
    }
    assert oldLines[..i] == oldLines;
  }

  /** What the rest of the old lines, then the "+" entries, add to a text. */
  function FromOld(text: string, lines: seq<string>, partners: multiset<string>, plus: seq<string>, limit: int): string {
    Write(text, Prefixed("- ", NonBlank(Gone(lines, partners))) + plus, limit).0
  }

  function FromNew(text: string, lines: seq<string>, surplus: multiset<string>, limit: int): string {
    Write(text, Prefixed("+ ", NonBlank(Came(lines, surplus))), limit).0
  }

  /** `lineDiff`. */
  method ComputeLineDiff(before: string, after: string, limit: int) returns (r: string)
    ensures r == Diff(before, after, limit)
  {
    hide Lines, Blank, FromOld, Plus, Diff;
    var oldLines, newLines := Lines(before), Lines(after);
    ghost var plus := Prefixed("+ ", Plus(oldLines, newLines));
    StartOld(before, after, limit);
    ghost var whole := FromOld("", oldLines, multiset(newLines), plus, limit);
    var inNew := CountLines(newLines);
    var text, i := "", 0;
    assert oldLines[0..] == oldLines;
    while i < |oldLines|
      invariant i <= |oldLines| && whole == FromOld(text, oldLines[i..], inNew, plus, limit)
    {
      var l := oldLines[i];
      OldLine(text, oldLines[i..], inNew, plus, limit);
      assert oldLines[i..][1..] == oldLines[i + 1..];
      i := i + 1;
      if inNew[l] > 0 {
        inNew := inNew[l := inNew[l] - 1];
        continue;
      }
      if Blank(l) {
        continue;
      }
      if |text| + |l| + 3 > limit {
        return text + Marker;
      }
      text := text + ("- " + l + "\n");
    }
    assert oldLines[i..] == [];
    OldDone(text, oldLines, newLines, inNew, limit);
    var remaining := CountSurplus(oldLines, newLines);
    assert newLines[0..] == newLines;
    i := 0;
    while i < |newLines|
      invariant i <= |newLines| && whole == FromNew(text, newLines[i..], remaining, limit)
    {
      var l := newLines[i];
      NewLine(text, newLines[i..], remaining, limit);
      assert newLines[i..][1..] == newLines[i + 1..];
      i := i + 1;
      if remaining[l] == 0 {
        continue;
      }
      remaining := remaining[l := remaining[l] - 1];
      if Blank(l) {
        continue;
      }
      if |text| + |l| + 3 > limit {
        return text + Marker;
      }
      text := text + ("+ " + l + "\n");
    }
    assert newLines[i..] == [];
    r := if text == "" then Reordered else text;
  }

  lemma StartOld(before: string, after: string, limit: int)
    ensures var (was, now) := (Lines(before), Lines(after));
            var whole := FromOld("", was, multiset(now), Prefixed("+ ", Plus(was, now)), limit);
            Diff(before, after, limit) == if whole == "" then Reordered else whole
  {
    hide Lines, Plus;
  }

  lemma OldDone(text: string, was: seq<string>, now: seq<string>, partners: multiset<string>, limit: int)
    ensures FromOld(text, [], partners, Prefixed("+ ", Plus(was, now)), limit)
         == FromNew(text, now, multiset(now) - multiset(was), limit)
  {
    var plus := Prefixed("+ ", Plus(was, now));
    assert Prefixed("- ", []) + plus == plus;
  }

  /** One old line: matched, blank, too long or written. */
  lemma OldLine(text: string, lines: seq<string>, partners: multiset<string>, plus: seq<string>, limit: int)
    requires lines != []
    ensures var l := lines[0];
            FromOld(text, lines, partners, plus, limit) ==
            if partners[l] > 0 then FromOld(text, lines[1..], partners[l := partners[l] - 1], plus, limit)
            else if Blank(l) then FromOld(text, lines[1..], partners, plus, limit)
            else if |text| + |l| + 3 > limit then text + Marker
            else FromOld(text + ("- " + l + "\n"), lines[1..], partners, plus, limit)
  {
    hide Blank;
    var l := lines[0];
    assert partners[l] > 0 ==> partners - multiset{l} == partners[l := partners[l] - 1];
    if partners[l] == 0 && !Blank(l) {
      WriteNext(text, "- ", l, NonBlank(Gone(lines[1..], partners)), plus, limit);
    }
  }

  lemma NewLine(text: string, lines: seq<string>, surplus: multiset<string>, limit: int)
    requires lines != []
    ensures var l := lines[0];
            var less := if surplus[l] > 0 then surplus[l := surplus[l] - 1] else surplus;
            FromNew(text, lines, surplus, limit) ==
            if surplus[l] == 0 || Blank(l) then FromNew(text, lines[1..], less, limit)
            else if |text| + |l| + 3 > limit then text + Marker
            else FromNew(text + ("+ " + l + "\n"), lines[1..], less, limit)
  {
    hide Blank;
    var l := lines[0];
    assert surplus[l] > 0 ==> surplus - multiset{l} == surplus[l := surplus[l] - 1];
    if surplus[l] > 0 && !Blank(l) {
      var rest := NonBlank(Came(lines[1..], surplus - multiset{l}));
      WriteNext(text, "+ ", l, rest, [], limit);
      assert Prefixed("+ ", rest) + [] == Prefixed("+ ", rest);
      assert Prefixed("+ ", [l] + rest) + [] == Prefixed("+ ", [l] + rest);
    }
  }

  lemma WriteNext(text: string, prefix: string, l: string, rest: seq<string>, plus: seq<string>, limit: int)
    requires |prefix| == 2
    ensures Write(text, Prefixed(prefix, [l] + rest) + plus, limit)
         == if |text| + |l| + 3 > limit then (text + Marker, false)
            else Write(text + (prefix + l + "\n"), Prefixed(prefix, rest) + plus, limit)
  {
    var entries := Prefixed(prefix, [l] + rest) + plus;
    assert entries[0] == prefix + l + "\n";
    assert entries[1..] == Prefixed(prefix, rest) + plus;
  }

  // ----- the two sides are an exact patch -----

  lemma {:induction false} GoneCount(lines: seq<string>, partners: multiset<string>)
    ensures multiset(Gone(lines, partners)) == multiset(lines) - partners
  {
    if lines != [] {
      assert lines == [lines[0]] + lines[1..];
      GoneCount(lines[1..], if partners[lines[0]] > 0 then partners - multiset{lines[0]} else partners);
    }
  }

  lemma {:induction false} CameCount(lines: seq<string>, surplus: multiset<string>)
    ensures multiset(Came(lines, surplus)) == multiset(lines) * surplus
  {
    if lines != [] {
      assert lines == [lines[0]] + lines[1..];
      CameCount(lines[1..], if surplus[lines[0]] > 0 then surplus - multiset{lines[0]} else surplus);
    }
  }

  lemma {:induction false} NonBlankCount(lines: seq<string>, line: string)
    ensures multiset(NonBlank(lines))[line] == if Blank(line) then 0 else multiset(lines)[line]
  {
    hide Blank;
    if lines != [] {
      assert lines == [lines[0]] + lines[1..];
      NonBlankCount(lines[1..], line);
    }
  }

  /** The "-" lines are taken from the old non-blank lines and the "+" lines added: that gives the new
      non-blank lines, each as often as it is there; and no line is on both sides. */
  lemma SidesArePatch(was: seq<string>, now: seq<string>)
    ensures var (old_, new_) := (multiset(NonBlank(was)), multiset(NonBlank(now)));
            var (minus, plus) := (multiset(Minus(was, now)), multiset(Plus(was, now)));
            minus <= old_ && old_ - minus + plus == new_ && minus !! plus
  {
    hide Blank;
    var (gone, came) := (Gone(was, multiset(now)), Came(now, multiset(now) - multiset(was)));
    GoneCount(was, multiset(now));
    CameCount(now, multiset(now) - multiset(was));
    forall line ensures Counts(was, now, NonBlank(was), NonBlank(now), Minus(was, now), Plus(was, now), line) {
      NonBlankCount(was, line);
      NonBlankCount(now, line);
      NonBlankCount(gone, line);
      NonBlankCount(came, line);
    }
    CountsArePatch(was, now, NonBlank(was), NonBlank(now), Minus(was, now), Plus(was, now));
  }

  ghost predicate Counts(was: seq<string>, now: seq<string>, old_: seq<string>, new_: seq<string>,
                         minus: seq<string>, plus: seq<string>, line: string) {
    var (w, n) := (multiset(was)[line], multiset(now)[line]);
    && multiset(old_)[line] == (if Blank(line) then 0 else w)
    && multiset(new_)[line] == (if Blank(line) then 0 else n)
    && multiset(minus)[line] == (if Blank(line) || w <= n then 0 else w - n)
    && multiset(plus)[line] == (if Blank(line) || n <= w then 0 else n - w)
  }

  lemma CountsArePatch(was: seq<string>, now: seq<string>, old_: seq<string>, new_: seq<string>,
                       minus: seq<string>, plus: seq<string>)
    requires forall line :: Counts(was, now, old_, new_, minus, plus, line)
    ensures multiset(minus) <= multiset(old_) && multiset(minus) !! multiset(plus)
    ensures multiset(old_) - multiset(minus) + multiset(plus) == multiset(new_)
  {
    forall line
      ensures multiset(minus)[line] <= multiset(old_)[line]
      ensures multiset(minus)[line] == 0 || multiset(plus)[line] == 0
      ensures (multiset(old_) - multiset(minus) + multiset(plus))[line] == multiset(new_)[line]
    {
      assert Counts(was, now, old_, new_, minus, plus, line);
    }
  }

  lemma {:induction false} GoneInOrder(lines: seq<string>, partners: multiset<string>)
    ensures Subsequence(NonBlank(Gone(lines, partners)), NonBlank(lines))
  {
    hide Blank;
    if lines != [] {
      GoneInOrder(lines[1..], if partners[lines[0]] > 0 then partners - multiset{lines[0]} else partners);
    }
  }

  lemma {:induction false} CameInOrder(lines: seq<string>, surplus: multiset<string>)
    ensures Subsequence(NonBlank(Came(lines, surplus)), NonBlank(lines))
  {
    hide Blank;
    if lines != [] {
      CameInOrder(lines[1..], if surplus[lines[0]] > 0 then surplus - multiset{lines[0]} else surplus);
    }
  }

  /** Both sides keep the order of their source. */
  lemma SidesInOrder(was: seq<string>, now: seq<string>)
    ensures Subsequence(Minus(was, now), NonBlank(was)) && Subsequence(Plus(was, now), NonBlank(now))
  {
    GoneInOrder(was, multiset(now));
    CameInOrder(now, multiset(now) - multiset(was));
  }

  // ----- the lines of an output -----

  function Empties(n: nat): seq<string> {
    seq(n, _ => "")
  }

  function Newlines(n: nat): string {
    seq(n, _ => '\n')
  }

  lemma OneMoreEmpty(lines: seq<string>, s: string, n: nat)
    ensures lines + Empties(n) + [""] == lines + Empties(n + 1) && s + Newlines(n) + "\n" == s + Newlines(n + 1)
  {
  }

  lemma TrimStep(s: string)
    ensures TrimNewlines(s) == if s != "" && s[|s| - 1] == '\n' then TrimNewlines(s[..|s| - 1]) else s
  {
  }

  /** What is compared are all the lines of an output but the empty ones at its end. */
  lemma {:induction false} LinesAre(s: string) returns (n: nat)
    ensures SplitLines(s) == Lines(s) + Empties(n)
    ensures s == Join(Lines(s), "\n") + Newlines(n) && !HasSuffix(Join(Lines(s), "\n"), "\n")
    decreases |s|
  {
    hide SplitLines, Join, TrimNewlines, Empties, Newlines, HasSuffix;
    TrimStep(s);
    if s != "" && s[|s| - 1] == '\n' {
      var t := s[..|s| - 1];
      n := LinesAre(t);
      SplitConcat(t, "");
      OneLine("");
      assert s == t + "\n" + "" == t + "\n";
      OneMoreEmpty(Lines(s), Join(Lines(s), "\n"), n);
      n := n + 1;
    } else {
      n := 0;
      JoinSplit(s);
      NoEmpties(s);
    }
  }

  lemma NoEmpties(s: string)
    requires s == "" || s[|s| - 1] != '\n'
    ensures Empties(0) == [] && Newlines(0) == "" && !HasSuffix(s, "\n")
  {
  }

  lemma {:induction false} NonBlankConcat(a: seq<string>, b: seq<string>)
    ensures NonBlank(a + b) == NonBlank(a) + NonBlank(b)
  {
    hide Blank;
    if a == [] {
      assert a + b == b;
    } else {
      assert (a + b)[1..] == a[1..] + b;
      NonBlankConcat(a[1..], b);
    }
  }

  lemma {:induction false} NoneNonBlank(n: nat)
    ensures NonBlank(Empties(n)) == []
  {
    if n > 0 {
      assert Empties(n)[1..] == Empties(n - 1);
      NoneNonBlank(n - 1);
    }
  }

  /** The non-blank lines compared are those of the output. */
  lemma NonBlankLines(s: string)
    ensures NonBlank(Lines(s)) == NonBlank(SplitLines(s))
  {
    hide SplitLines, Lines, NonBlank;
    var n := LinesAre(s);
    NonBlankConcat(Lines(s), Empties(n));
    NoneNonBlank(n);
  }

  /** A line counts unless every rune in it is white space. */
  lemma NonBlankIs(lines: seq<string>, line: string)
    ensures multiset(NonBlank(lines))[line] ==
              if exists cs :: SpaceRunes(cs) && line == Spaces(cs) then 0 else multiset(lines)[line]
  {
    NonBlankCount(lines, line);
    BlankIff(line);
    hide NonBlank;
  }

  // ----- what is written -----

  function Concat(entries: seq<string>): string {
    if entries == [] then "" else entries[0] + Concat(entries[1..])
  }

  lemma ConcatFirst(entries: seq<string>, n: nat)
    requires n < |entries|
    ensures Concat(entries) == entries[0] + Concat(entries[1..])
    ensures Concat(entries[..n + 1]) == entries[0] + Concat(entries[1..][..n])
    ensures entries[n + 1..] == entries[1..][n..]
  {
    assert entries[..n + 1][1..] == entries[1..][..n] && entries[..n + 1][0] == entries[0];
  }

  /** Everything is written when it fits, else the longest list of entries that fits and the marker. */
  lemma {:induction false} WriteIs(sofar: string, entries: seq<string>, limit: int) returns (k: nat)
    ensures k <= |entries| && Concat(entries) == Concat(entries[..k]) + Concat(entries[k..])
    ensures var (text, whole) := Write(sofar, entries, limit);
            && text == sofar + Concat(entries[..k]) + (if whole then "" else Marker)
            && (whole <==> k == |entries|)
            && (k > 0 ==> |sofar + Concat(entries[..k])| <= limit)
            && (!whole ==> |sofar + Concat(entries[..k]) + entries[k]| > limit)
    decreases |entries|
  {
    if entries == [] || |sofar| + |entries[0]| > limit {
      k := 0;
      assert entries[..0] == [] && entries[0..] == entries;
    } else {
      var rest := WriteIs(sofar + entries[0], entries[1..], limit);
      k := rest + 1;
      ConcatFirst(entries, rest);
      hide Concat;
      assert sofar + Concat(entries[..k]) == (sofar + entries[0]) + Concat(entries[1..][..rest]);
    }
  }

  lemma NothingListed(before: string, after: string, limit: int)
    ensures Diff(before, after, limit) == Reordered <==> Entries(Lines(before), Lines(after)) == []
  {
    hide Lines, Minus, Plus;
    var (minus, plus) := (Minus(Lines(before), Lines(after)), Plus(Lines(before), Lines(after)));
    var entries := Prefixed("- ", minus) + Prefixed("+ ", plus);
    if entries != [] {
      assert minus == [] ==> entries == Prefixed("+ ", plus);
      assert entries[0][0] == if minus == [] then '+' else '-';
      FirstShows(entries, limit);
      assert Reordered[0] == '(' && Marker[0] == '\U{E2}';
    }
  }

  /** The text says "reordered" exactly when the two outputs have the same non-blank lines, each as often. */
  lemma ReorderedIff(before: string, after: string, limit: int)
    ensures Diff(before, after, limit) == Reordered <==>
        multiset(NonBlank(SplitLines(before))) == multiset(NonBlank(SplitLines(after)))
  {
    hide Lines, SplitLines, NonBlank, Minus, Plus, Diff;
    var (was, now) := (Lines(before), Lines(after));
    NonBlankLines(before);
    NonBlankLines(after);
    SidesArePatch(was, now);
    NothingListed(before, after, limit);
    EntriesAre(was, now);
    hide Entries;
    assert Entries(was, now) == [] <==> Minus(was, now) == [] && Plus(was, now) == [];
  }

  /** The first byte written is the first entry's or the marker's. */
  lemma FirstShows(entries: seq<string>, limit: int)
    requires entries != [] && entries[0] != ""
    ensures var text := Write("", entries, limit).0;
            text != "" && (text[0] == entries[0][0] || text[0] == Marker[0])
  {
    var k := WriteIs("", entries, limit);
    if k > 0 {
      assert Concat(entries[..k]) == entries[0] + Concat(entries[..k][1..]);
    }
  }

  /** Otherwise it lists all entries when they fit the limit, and else is cut at the first that does not;
      it is never longer than the limit and the marker. */
  lemma DiffIs(before: string, after: string, limit: int) returns (k: nat)
    requires Diff(before, after, limit) != Reordered
    ensures var (entries, r) := (Entries(Lines(before), Lines(after)), Diff(before, after, limit));
            && k <= |entries| && |r| <= (if limit < 0 then 0 else limit) + |Marker|
            && (k == |entries| <==> |Concat(entries)| <= limit)
            && r == Concat(entries[..k]) + (if k < |entries| then Marker else "")
            && (k < |entries| ==> |Concat(entries[..k])| + |entries[k]| > limit)
  {
    hide Lines, Entries;
    var entries := Entries(Lines(before), Lines(after));
    k := WriteIs("", entries, limit);
    assert "" + Concat(entries[..k]) == Concat(entries[..k]);
    assert k == |entries| ==> entries[..k] == entries;
    assert k < |entries| ==> |Concat(entries[k..])| >= |entries[k]|;
  }

  lemma EntriesAre(was: seq<string>, now: seq<string>)
    ensures var (minus, plus, entries) := (Minus(was, now), Plus(was, now), Entries(was, now));
            && |entries| == |minus| + |plus|
            && (forall i :: 0 <= i < |minus| ==> entries[i] == "- " + minus[i] + "\n")
            && (forall i :: 0 <= i < |plus| ==> entries[|minus| + i] == "+ " + plus[i] + "\n")
  {
    hide Minus, Plus;
  }

  /** What the text tells of two outputs: "-" lines to take from the non-blank lines of the first and "+"
      lines to add that give those of the second, none on both sides, each side in the order of its output;
      all of them when they fit the limit, else up to the first that does not; or that there are none. */
  lemma DiffTells(before: string, after: string, limit: int)
    returns (minus: seq<string>, plus: seq<string>, entries: seq<string>, k: nat)
    ensures var (was, now) := (NonBlank(SplitLines(before)), NonBlank(SplitLines(after)));
            && multiset(minus) <= multiset(was) && multiset(was) - multiset(minus) + multiset(plus) == multiset(now)
            && multiset(minus) !! multiset(plus) && Subsequence(minus, was) && Subsequence(plus, now)
    ensures |entries| == |minus| + |plus| && k <= |entries|
    ensures forall i :: 0 <= i < |minus| ==> entries[i] == "- " + minus[i] + "\n"
    ensures forall i :: 0 <= i < |plus| ==> entries[|minus| + i] == "+ " + plus[i] + "\n"
    ensures if entries == [] then Diff(before, after, limit) == Reordered
            else
              && Diff(before, after, limit) == Concat(entries[..k]) + (if k < |entries| then Marker else "")
              && (k == |entries| <==> |Concat(entries)| <= limit)
              && (k < |entries| ==> |Concat(entries[..k])| + |entries[k]| > limit)
  {
    hide Lines, SplitLines, NonBlank, Minus, Plus, Entries, Diff, Concat, Subsequence;
    var (was, now) := (Lines(before), Lines(after));
    minus, plus, entries := Minus(was, now), Plus(was, now), Entries(was, now);
    NonBlankLines(before);
    NonBlankLines(after);
    SidesArePatch(was, now);
    SidesInOrder(was, now);
    EntriesAre(was, now);
    NothingListed(before, after, limit);
    k := 0;
    if Diff(before, after, limit) != Reordered {
      k := DiffIs(before, after, limit);
    }
  }
}
