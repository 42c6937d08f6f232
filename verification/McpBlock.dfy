/** The `[mcp_servers.ccc]` block the daemon keeps in an engine's `config.toml`: the old one is cut out and
 * a new one put at the end. How a command is quoted is a parameter; the theorems ask that the result has no
 * newline. */
module McpBlock {
  import opened GoStrings

  const TABLE := "mcp_servers.ccc"

  // ----- the program -----

  /** A trimmed line that opens a table. */
  predicate IsHeader(trim: string) {
    trim != "" && trim[0] == '[' && trim[|trim| - 1] == ']'
  }

  /** It opens the table `table` or one of its children. */
  predicate Opens(trim: string, table: string) {
    IsHeader(trim) && |trim| >= 2
    && (var inner := trim[1..|trim| - 1]; inner == table || HasPrefix(inner, table + "."))
  }

  /** What is left of the lines, and whether the last of them was dropped. */
  function Strip(lines: seq<string>, table: string): (seq<string>, bool) {
    if lines == [] then ([], false)
    else
      var n := |lines| - 1;
      var (kept, skipping) := Strip(lines[..n], table);
      var trim := TrimSpace(lines[n]);
      if Opens(trim, table) || (skipping && !IsHeader(trim)) then (kept, true) else (kept + [lines[n]], false)
  }

  /** `stripTOMLTable`. */
  method StripTOMLTable(raw: string, table: string) returns (r: string)
    ensures r == Join(Strip(SplitLines(raw), table).0, "\n")
  {
    hide TrimSpace, SplitLines;
    var lines := SplitLines(raw);
    var kept, skipping, i := [], false, 0;
    while i < |lines|
      invariant i <= |lines| && Strip(lines[..i], table) == (kept, skipping)
    {
      var line := lines[i];
      assert lines[..i + 1][..i] == lines[..i];
      i := i + 1;
      var trim := TrimSpace(line);
      if |trim| > 0 && trim[0] == '[' && trim[|trim| - 1] == ']' {
        var inner := trim[1..|trim| - 1];
        if inner == table || HasPrefix(inner, table + ".") {
          skipping := true;
          continue;
        }
        skipping := false;
      }
      if skipping {
        continue;
      }
      kept := kept + [line];
    }
    assert lines[..i] == lines;
    r := Join(kept, "\n");
  }

  function Block(quoted: string): string {
    "[" + TABLE + "]" + "\n" + ("command = " + quoted + "\n" + ("args = [\"mcp\"]" + "\n" + ("enabled = true" + "\n" + "")))
  }

  /** What the file keeps. */
  function Rest(raw: string): string {
    TrimSpace(Join(Strip(SplitLines(raw), TABLE).0, "\n"))
  }

  function Upserted(raw: string, quoted: string): string {
    (if Rest(raw) == "" then "" else Rest(raw) + "\n\n") + Block(quoted)
  }

  /** `upsertCCCMCPBlock` on the file's contents; a file that is not there reads as empty, and an empty
      command is the program's own name. */
  method UpsertCCCMCPBlock(file: Option<string>, command: string, quote: string -> string) returns (r: string)
    ensures r == Upserted(if file.Some? then file.value else "", quote(if command == "" then "ccc" else command))
  {
    hide Block, TrimSpace;
    var named := command;
    if named == "" {
      named := "ccc";
    }
    var raw := if file.Some? then file.value else "";
    raw := StripTOMLTable(raw, TABLE);
    raw := TrimSpace(raw);
    r := "";
    if |raw| > 0 {
      r := raw + "\n\n";
    }
    r := r + Block(quote(named));
  }

  // ----- which lines are kept -----

  predicate HeaderLine(line: string) {
    IsHeader(TrimSpace(line))
  }

  /** The nearest table header at or before the line opens the table or one of its children. */
  ghost predicate Inside(lines: seq<string>, table: string, i: nat)
    requires i < |lines|
  {
    exists h :: 0 <= h <= i && IsNearest(lines, h, i) && Opens(TrimSpace(lines[h]), table)
  }

  ghost predicate IsNearest(lines: seq<string>, h: nat, i: nat)
    requires h <= i < |lines|
  {
    HeaderLine(lines[h]) && forall j :: h < j <= i ==> !HeaderLine(lines[j])
  }

  ghost function Outside(lines: seq<string>, table: string, n: nat): seq<string>
    requires n <= |lines|
  {
    if n == 0 then []
    else Outside(lines, table, n - 1) + if Inside(lines, table, n - 1) then [] else [lines[n - 1]]
  }

  /** Stripping keeps, in order, exactly the lines whose nearest header is not one of the table's. */
  lemma {:induction false} StripKeepsOutside(lines: seq<string>, table: string, n: nat)
    requires n <= |lines|
    ensures var (kept, skipping) := Strip(lines[..n], table);
            kept == Outside(lines, table, n) && (skipping <==> n > 0 && Inside(lines, table, n - 1))
  {
    hide TrimSpace, Opens, IsHeader;
    if n > 0 {
      assert lines[..n][..n - 1] == lines[..n - 1];
      StripKeepsOutside(lines, table, n - 1);
      OpensIsHeader(TrimSpace(lines[n - 1]), table);
      NextInside(lines, table, n - 1);
    }
  }

  /** A header decides for itself, and any other line goes with the line before. */
  lemma NextInside(lines: seq<string>, table: string, i: nat)
    requires i < |lines|
    ensures Inside(lines, table, i) <==>
              if HeaderLine(lines[i]) then Opens(TrimSpace(lines[i]), table) else i > 0 && Inside(lines, table, i - 1)
  {
    hide TrimSpace, Opens, HeaderLine;
    if HeaderLine(lines[i]) {
      assert IsNearest(lines, i, i);
    } else {
      if i > 0 && Inside(lines, table, i - 1) {
        var h :| 0 <= h <= i - 1 && IsNearest(lines, h, i - 1) && Opens(TrimSpace(lines[h]), table);
        assert IsNearest(lines, h, i);
      }
      if Inside(lines, table, i) {
        var h :| 0 <= h <= i && IsNearest(lines, h, i) && Opens(TrimSpace(lines[h]), table);
        assert h < i && IsNearest(lines, h, i - 1);
      }
    }
  }

  lemma OpensIsHeader(trim: string, table: string)
    ensures Opens(trim, table) ==> IsHeader(trim)
  {
  }

  // ----- trimming and lines -----

  /** `t` is what is left of `s` at the left, and `front` is `s` without its last white-space rune. */
  ghost predicate Commutes(t: string, front: string, n: nat) {
    && (t != "" ==> TrailingSpace(t) == n <= |t|)
    && TrimLeftSpace(front) == (if t == "" || n > |t| then "" else t[..|t| - n])
  }

  /** Dropping white space at the right end does not change what trimming gives. */
  lemma {:induction false} DropRight(s: string)
    ensures Commutes(TrimLeftSpace(s), s[..|s| - TrailingSpace(s)], TrailingSpace(s))
    decreases |s|
  {
    hide *;
    var (k, n) := (LeadingSpace(s), TrailingSpace(s));
    TrimLeftStep(s);
    if k == 0 {
      DropRightHere(s);
    } else if k + n <= |s| {
      var rest := s[k..];
      BothEnds(s);
      DropRight(rest);
      SameTrim(s[..|s| - n], rest[..|rest| - n], TrimLeftSpace(rest), n);
    } else {
      OneRune(s);
      assert s[|s|..] == "" && s[..|s| - n] == "";
      NothingLeft(n);
    }
  }

  lemma DropRightHere(s: string)
    requires LeadingSpace(s) == 0
    ensures Commutes(s, s[..|s| - TrailingSpace(s)], TrailingSpace(s))
  {
    hide LeadingSpace, TrailingSpace;
    LeadingSpacePrefix(s, |s| - TrailingSpace(s));
  }

  lemma SameTrim(front: string, rest: string, t: string, n: nat)
    requires LeadingSpace(front) > 0 && front[LeadingSpace(front)..] == rest && Commutes(t, rest, n)
    ensures Commutes(t, front, n)
  {
    hide LeadingSpace, TrailingSpace, TrimLeftSpace;
    TrimLeftStep(front);
  }

  lemma NothingLeft(n: nat)
    ensures Commutes(TrimLeftSpace(""), "", n)
  {
  }

  lemma TrimLeftStep(s: string)
    ensures TrimLeftSpace(s) == if LeadingSpace(s) == 0 then s else TrimLeftSpace(s[LeadingSpace(s)..])
  {
    hide LeadingSpace;
  }

  lemma BothEnds(s: string)
    requires LeadingSpace(s) + TrailingSpace(s) <= |s| && LeadingSpace(s) > 0
    ensures TrailingSpace(s[LeadingSpace(s)..]) == TrailingSpace(s)
    ensures LeadingSpace(s[..|s| - TrailingSpace(s)]) == LeadingSpace(s)
  {
  }

  /** White space runes do not overlap. */
  lemma OneRune(s: string)
    requires LeadingSpace(s) + TrailingSpace(s) > |s|
    ensures LeadingSpace(s) == TrailingSpace(s) == |s|
  {
  }

  lemma DropRightTrim(s: string)
    ensures TrimSpace(s[..|s| - TrailingSpace(s)]) == TrimSpace(s)
  {
    hide TrailingSpace, LeadingSpace, TrimLeftSpace;
    DropRight(s);
    var t := TrimLeftSpace(s);
    assert t[..|t|] == t;
    assert s[..|s|] == s;
  }

  function Trims(line: string): seq<string> {
    if TrimSpace(line) == "" then [] else [TrimSpace(line)]
  }

  /** The non-blank lines without the white space around them. */
  function Shape(lines: seq<string>): seq<string> {
    if lines == [] then [] else Trims(lines[0]) + Shape(lines[1..])
  }

  lemma {:induction false} ShapeConcat(a: seq<string>, b: seq<string>)
    ensures Shape(a + b) == Shape(a) + Shape(b)
  {
    hide Trims;
    if a == [] {
      assert a + b == b;
    } else {
      ShapeConcat(a[1..], b);
      assert (a + b)[1..] == a[1..] + b;
      assert Trims(a[0]) + (Shape(a[1..]) + Shape(b)) == Trims(a[0]) + Shape(a[1..]) + Shape(b);
    }
  }

  lemma DropLeftTrim(s: string)
    ensures TrimSpace(s[LeadingSpace(s)..]) == TrimSpace(s)
  {
    hide LeadingSpace, TrimRightSpace;
    assert s[0..] == s;
  }

  /** A white-space rune that is not the newline has no newline in it. */
  lemma RuneOnLine(s: string)
    ensures s != "" && s[0] != '\n' ==> '\n' !in s[..LeadingSpace(s)]
    ensures s != "" && s[|s| - 1] != '\n' ==> '\n' !in s[|s| - TrailingSpace(s)..]
    ensures s != "" && s[0] == '\n' ==> LeadingSpace(s) == 1
    ensures s != "" && s[|s| - 1] == '\n' ==> TrailingSpace(s) == 1
  {
  }

  lemma TrailingOfSuffix(s: string, i: nat)
    requires i <= |s| - TrailingSpace(s)
    ensures TrailingSpace(s[i..]) == TrailingSpace(s)
  {
  }

  lemma ShapeSplit(s: string)
    ensures var i := IndexByte(s, '\n');
            Shape(SplitLines(s)) == if i < 0 then Trims(s) else Trims(s[..i]) + Shape(SplitLines(s[i + 1..]))
  {
    hide Trims, IndexByte;
    var i := IndexByte(s, '\n');
    if i >= 0 {
      ShapeConcat([s[..i]], SplitLines(s[i + 1..]));
    }
  }

  lemma NoShape()
    ensures Trims("") == [] && Shape([""]) == [] && SplitLines("") == [""] && Shape(SplitLines("")) == []
  {
    hide TrimSpace;
    TrimSpaceTrims("");
  }

  lemma TrimsSame(a: string, b: string)
    requires TrimSpace(a) == TrimSpace(b)
    ensures Trims(a) == Trims(b)
  {
    hide TrimSpace;
  }

  lemma LeftOneLine(s: string)
    requires LeadingSpace(s) > 0 && IndexByte(s, '\n') < 0
    ensures Shape(SplitLines(s[LeadingSpace(s)..])) == Shape(SplitLines(s))
  {
    hide *;
    var n := LeadingSpace(s);
    ShapeSplit(s);
    ShapeSplit(s[n..]);
    DropLeftTrim(s);
    TrimsSame(s, s[n..]);
  }

  lemma LeadingOfPrefix(s: string, i: nat)
    requires LeadingSpace(s) <= i <= |s|
    ensures LeadingSpace(s[..i]) == LeadingSpace(s)
  {
  }

  lemma LeftFirstLine(s: string, i: nat)
    requires LeadingSpace(s) > 0 && IndexByte(s, '\n') == i > 0
    ensures Shape(SplitLines(s[LeadingSpace(s)..])) == Shape(SplitLines(s))
  {
    hide *;
    var n := LeadingSpace(s);
    assert s[0] == s[..i][0];
    RuneOnLine(s);
    LeadingOfPrefix(s, i);
    FirstNewline(s, n);
    DropLeftTrim(s[..i]);
    TrimsSame(s[..i], s[..i][n..]);
    ShapeSplit(s);
    ShapeSplit(s[n..]);
  }

  lemma FirstNewline(s: string, n: nat)
    requires n <= |s| && '\n' !in s[..n] && IndexByte(s, '\n') >= 0
    ensures var i := IndexByte(s, '\n');
            && n <= i && IndexByte(s[n..], '\n') == i - n
            && s[n..][..i - n] == s[..i][n..] && s[n..][i - n + 1..] == s[i + 1..]
  {
    hide IndexByte;
    var i := IndexByte(s, '\n');
    InPrefix(s, n, i);
    Slices(s, n, i);
    assert IndexByte(s[n..], '\n') == i - n;
  }

  lemma InPrefix(s: string, n: nat, i: nat)
    requires n <= |s| && i < |s|
    ensures i < n ==> s[i] in s[..n]
  {
    if i < n {
      assert s[..n][i] == s[i];
    }
  }

  lemma Slices(s: string, n: nat, i: nat)
    requires n <= i < |s|
    ensures s[n..][..i - n] == s[n..i] && s[..i][n..] == s[n..i] && s[n..][i - n] == s[i]
    ensures s[n..][i - n + 1..] == s[i + 1..]
  {
  }

  /** The same at the right end. */
  lemma {:induction false} RightStep(s: string)
    requires TrailingSpace(s) > 0
    ensures Shape(SplitLines(s[..|s| - TrailingSpace(s)])) == Shape(SplitLines(s))
    decreases |s|
  {
    hide *;
    var (m, i) := (|s| - TrailingSpace(s), IndexByte(s, '\n'));
    if i < 0 {
      assert Shape(SplitLines(s[..m])) == Shape(SplitLines(s)) by {
        ShapeSplit(s);
        ShapeSplit(s[..m]);
        DropRightTrim(s);
        TrimsSame(s, s[..m]);
      }
    } else if i == |s| - 1 {
      assert Shape(SplitLines(s[..m])) == Shape(SplitLines(s)) by {
        RuneOnLine(s);
        ShapeSplit(s);
        ShapeSplit(s[..i]);
        NoShape();
        assert s[i + 1..] == "" && s[..i][0..i] == s[..i];
        assert Trims(s[..i]) + [] == Trims(s[..i]);
      }
    } else {
      RuneOnLine(s);
      TrailingOfSuffix(s, i + 1);
      RightStep(s[i + 1..]);
      assert Shape(SplitLines(s[..m])) == Shape(SplitLines(s)) by {
        ShapeSplit(s);
        ShapeSplit(s[..m]);
        assert s[..m][..i] == s[..i] && s[..m][i] == s[i] && s[..m][i + 1..] == s[i + 1..][..m - i - 1];
        IndexByteIs(s[..m], '\n', i);
      }
    }
  }

  lemma {:induction false} TrimLeftShape(s: string)
    ensures Shape(SplitLines(TrimLeftSpace(s))) == Shape(SplitLines(s))
    decreases |s|
  {
    hide LeadingSpace, Shape, SplitLines;
    if LeadingSpace(s) > 0 {
      assert Shape(SplitLines(s[LeadingSpace(s)..])) == Shape(SplitLines(s)) by {
        hide *;
        var i := IndexByte(s, '\n');
        if i < 0 {
          LeftOneLine(s);
        } else if i == 0 {
          RuneOnLine(s);
          ShapeSplit(s);
          NoShape();
          assert s[..0] == "" && [] + Shape(SplitLines(s[1..])) == Shape(SplitLines(s[1..]));
        } else {
          LeftFirstLine(s, i);
        }
      }
      TrimLeftShape(s[LeadingSpace(s)..]);
    }
  }

  lemma {:induction false} TrimRightShape(s: string)
    ensures Shape(SplitLines(TrimRightSpace(s))) == Shape(SplitLines(s))
    decreases |s|
  {
    hide TrailingSpace, Shape, SplitLines;
    if TrailingSpace(s) > 0 {
      RightStep(s);
      TrimRightShape(s[..|s| - TrailingSpace(s)]);
    }
  }

  /** Trimming a text keeps its non-blank lines up to the white space around them. */
  lemma TrimShape(s: string)
    ensures Shape(SplitLines(TrimSpace(s))) == Shape(SplitLines(s))
  {
    hide Shape, SplitLines, TrimLeftSpace, TrimRightSpace;
    TrimLeftShape(s);
    TrimRightShape(TrimLeftSpace(s));
  }

  /** A trimmed line opens the table or a child of it if and only if it is the table's name in brackets, or
      begins with a bracket, the name and a dot, and ends with a bracket. */
  lemma OpensIff(trim: string, table: string)
    ensures Opens(trim, table) <==>
              trim == "[" + table + "]" || (HasPrefix(trim, "[" + table + ".") && trim[|trim| - 1] == ']')
  {
    var name, child := "[" + table + "]", "[" + table + ".";
    if Opens(trim, table) {
      var inner := trim[1..|trim| - 1];
      assert trim == "[" + inner + "]";
      if HasPrefix(inner, table + ".") {
        assert trim[..|child|] == "[" + inner[..|table| + 1];
      }
    }
    if HasPrefix(trim, child) && trim[|trim| - 1] == ']' {
      var inner := trim[1..|trim| - 1];
      assert trim[0] == trim[..|child|][0] && |trim| > |child|;
      assert inner[..|table| + 1] == trim[..|child|][1..] == table + ".";
    }
    if trim == name {
      assert trim[1..|trim| - 1] == table;
    }
  }

  // ----- the upsert -----

  function BlockLines(quoted: string): seq<string> {
    ["[" + TABLE + "]", "command = " + quoted, "args = [\"mcp\"]", "enabled = true", ""]
  }

  lemma SplitBlock(quoted: string)
    requires '\n' !in quoted
    ensures SplitLines(Block(quoted)) == BlockLines(quoted)
  {
    hide SplitLines;
    SplitFirst("[" + TABLE + "]", "command = " + quoted + "\n" + ("args = [\"mcp\"]" + "\n" + ("enabled = true" + "\n" + "")));
    SplitFirst("command = " + quoted, "args = [\"mcp\"]" + "\n" + ("enabled = true" + "\n" + ""));
    SplitFirst("args = [\"mcp\"]", "enabled = true" + "\n" + "");
    SplitFirst("enabled = true", "");
    NoShape();
  }

  /** The block that is written, line by line. */
  lemma BlockIs(quoted: string)
    requires '\n' !in quoted
    ensures SplitLines(Block(quoted)) == ["[mcp_servers.ccc]", "command = " + quoted, "args = [\"mcp\"]", "enabled = true", ""]
  {
    hide SplitLines, Block;
    SplitBlock(quoted);
    assert "[" + TABLE + "]" == "[mcp_servers.ccc]";
  }

  ghost predicate NoneOpens(lines: seq<string>, table: string) {
    forall i :: 0 <= i < |lines| ==> !Opens(TrimSpace(lines[i]), table)
  }

  function CountOpeners(lines: seq<string>, table: string): nat {
    if lines == [] then 0
    else
      var n := |lines| - 1;
      CountOpeners(lines[..n], table) + if Opens(TrimSpace(lines[n]), table) then 1 else 0
  }

  /** A table that is not opened has nothing to strip. */
  lemma {:induction false} StripNothing(lines: seq<string>, table: string)
    requires NoneOpens(lines, table)
    ensures Strip(lines, table) == (lines, false)
  {
    hide TrimSpace, Opens, IsHeader;
    if lines != [] {
      StripNothing(lines[..|lines| - 1], table);
      assert lines == lines[..|lines| - 1] + [lines[|lines| - 1]];
    }
  }

  lemma {:induction false} CountNone(lines: seq<string>, table: string)
    requires NoneOpens(lines, table)
    ensures CountOpeners(lines, table) == 0
  {
    hide TrimSpace, Opens;
    if lines != [] {
      CountNone(lines[..|lines| - 1], table);
    }
  }

  /** An opener and lines without a header behind it are stripped. */
  lemma {:induction false} StripConcat(a: seq<string>, b: seq<string>, table: string)
    requires b != [] && Opens(TrimSpace(b[0]), table) && forall i :: 1 <= i < |b| ==> !HeaderLine(b[i])
    ensures Strip(a + b, table) == (Strip(a, table).0, true)
    ensures NoneOpens(a, table) ==> CountOpeners(a + b, table) == 1
    decreases |b|
  {
    hide TrimSpace, Opens, IsHeader, NoneOpens;
    var n := |b| - 1;
    assert (a + b)[..|a| + n] == a + b[..n];
    if n == 0 {
      assert a + b[..0] == a;
      if NoneOpens(a, table) {
        CountNone(a, table);
      }
    } else {
      StripConcat(a, b[..n], table);
      assert !HeaderLine(b[n]);
      OpensIsHeader(TrimSpace(b[n]), table);
    }
  }

  ghost predicate SingleLines(lines: seq<string>) {
    forall i :: 0 <= i < |lines| ==> '\n' !in lines[i]
  }

  lemma {:induction false} Stripped(lines: seq<string>, table: string)
    ensures NoneOpens(Strip(lines, table).0, table)
    ensures SingleLines(lines) ==> SingleLines(Strip(lines, table).0)
  {
    hide TrimSpace, Opens, IsHeader;
    if lines != [] {
      Stripped(lines[..|lines| - 1], table);
    }
  }

  ghost predicate NoOpener(trims: seq<string>, table: string) {
    forall i :: 0 <= i < |trims| ==> !Opens(trims[i], table)
  }

  /** Whether a table is opened shows in the shape. */
  lemma {:induction false} ShapeShowsOpens(lines: seq<string>, table: string)
    ensures NoneOpens(lines, table) <==> NoOpener(Shape(lines), table)
  {
    assert NoneOpens([], table) && NoOpener([], table);
    hide TrimSpace, Opens, NoOpener, NoneOpens;
    if lines == [] {
    } else {
      ShapeShowsOpens(lines[1..], table);
      OpensIsHeader(TrimSpace(lines[0]), table);
      HeadAll(Trims(lines[0]), Shape(lines[1..]), table);
    }
  }

  lemma HeadAll(a: seq<string>, b: seq<string>, table: string)
    requires |a| <= 1
    ensures NoOpener(a + b, table) <==> (a == [] || !Opens(a[0], table)) && NoOpener(b, table)
  {
    hide Opens;
    if NoOpener(a + b, table) {
      forall i | 0 <= i < |b| ensures !Opens(b[i], table) {
        assert (a + b)[|a| + i] == b[i];
      }
      assert a != [] ==> (a + b)[0] == a[0];
    }
  }

  lemma BlockOpens(quoted: string)
    ensures Opens(TrimSpace(BlockLines(quoted)[0]), TABLE)
    ensures forall i :: 1 <= i < |BlockLines(quoted)| ==> !HeaderLine(BlockLines(quoted)[i])
  {
    hide TrimSpace, Opens;
    HeaderOpens();
    PlainLine('c', "ommand = " + quoted);
    PlainLine('a', "rgs = [\"mcp\"]");
    PlainLine('e', "nabled = true");
    assert !HeaderLine("") by {
      TrimSpaceTrims("");
    }
    assert "command = " + quoted == ['c'] + ("ommand = " + quoted);
    assert "args = [\"mcp\"]" == ['a'] + "rgs = [\"mcp\"]";
    assert "enabled = true" == ['e'] + "nabled = true";
  }

  lemma HeaderOpens()
    ensures Opens(TrimSpace("[" + TABLE + "]"), TABLE)
  {
    var line := "[" + TABLE + "]";
    assert LeadingSpace(line) == 0;
    TrailingSpaceEnd(line);
    TrimSpaceTrims(line);
    assert line[1..|line| - 1] == TABLE;
  }

  lemma PlainLine(c: char, rest: string)
    requires IsAscii(c) && !IsAsciiSpace(c) && c != '['
    ensures !HeaderLine([c] + rest)
  {
    assert LeadingSpace([c] + rest) == 0;
    hide TrimSpace, LeadingSpace, IsHeader;
    var s := [c] + rest;
    TrimSpaceIsPart(s);
  }

  /** The rest of a file has the shape of its lines outside the table, and opens it nowhere. */
  lemma RestShape(raw: string)
    ensures Shape(SplitLines(Rest(raw))) == Shape(Strip(SplitLines(raw), TABLE).0)
    ensures NoneOpens(SplitLines(Rest(raw)), TABLE)
  {
    assert Shape([]) == [];
    hide Shape, SplitLines, TrimSpace, Opens, IsHeader, Strip, NoneOpens;
    var kept := Strip(SplitLines(raw), TABLE).0;
    Stripped(SplitLines(raw), TABLE);
    TrimShape(Join(kept, "\n"));
    if kept == [] {
      NoShape();
    } else {
      SplitJoin(kept);
    }
    ShapeShowsOpens(kept, TABLE);
    ShapeShowsOpens(SplitLines(Rest(raw)), TABLE);
  }

  /** The lines before the block. */
  function Before(rest: string): seq<string> {
    if rest == "" then [] else SplitLines(rest) + [""]
  }

  lemma SplitUpserted(raw: string, quoted: string)
    requires '\n' !in quoted
    ensures SplitLines(Upserted(raw, quoted)) == Before(Rest(raw)) + BlockLines(quoted)
  {
    hide SplitLines, Rest, Block, BlockLines;
    var rest := Rest(raw);
    SplitBlock(quoted);
    if rest != "" {
      SplitConcat(rest, "" + "\n" + Block(quoted));
      SplitFirst("", Block(quoted));
      assert Upserted(raw, quoted) == rest + "\n" + ("" + "\n" + Block(quoted));
      assert SplitLines(rest) + ([""] + BlockLines(quoted)) == SplitLines(rest) + [""] + BlockLines(quoted);
    } else {
      assert "" + Block(quoted) == Block(quoted);
      assert [] + BlockLines(quoted) == BlockLines(quoted);
    }
  }

  lemma BeforeOpensNone(raw: string)
    ensures NoneOpens(Before(Rest(raw)), TABLE)
  {
    hide SplitLines, Rest, Opens, TrimSpace;
    RestShape(raw);
    TrimSpaceTrims("");
    OpensIsHeader(TrimSpace(""), TABLE);
  }

  /** Stripping the written file gives back exactly what was before the block. */
  lemma RestOfUpserted(raw: string, quoted: string)
    requires '\n' !in quoted
    ensures Strip(SplitLines(Upserted(raw, quoted)), TABLE).0 == Before(Rest(raw))
    ensures Rest(Upserted(raw, quoted)) == Rest(raw)
  {
    hide Opens, IsHeader, Strip, NoneOpens, Upserted, HeaderLine;
    SplitUpserted(raw, quoted);
    BlockOpens(quoted);
    BeforeOpensNone(raw);
    StripNothing(Before(Rest(raw)), TABLE);
    StripConcat(Before(Rest(raw)), BlockLines(quoted), TABLE);
    TrimSpaceTrims(Join(Strip(SplitLines(raw), TABLE).0, "\n"));
    assert TrimSpace(Join(Before(Rest(raw)), "\n")) == Rest(raw) by {
      hide SplitLines, TrimSpace, LeadingSpace, TrailingSpace;
      TrimSpaceTrims(Rest(raw));
      if Rest(raw) == "" {
        assert Join(Before(Rest(raw)), "\n") == "";
      } else {
        SplitConcat(Rest(raw), "");
        NoShape();
        var s := Rest(raw) + "\n" + "";
        JoinSplit(s);
        RuneOnLine(s);
        DropRightTrim(s);
        assert s[..|s| - 1] == Rest(raw);
      }
    }
  }

  /** Writing the block twice is writing it once, byte for byte. */
  lemma UpsertTwice(raw: string, quoted: string)
    requires '\n' !in quoted
    ensures Upserted(Upserted(raw, quoted), quoted) == Upserted(raw, quoted)
  {
    hide Rest, Block;
    RestOfUpserted(raw, quoted);
  }

  /** The lines of a file outside the table, joined and trimmed. */
  ghost function OutsideText(file: string): string {
    TrimSpace(Join(Outside(SplitLines(file), TABLE, |SplitLines(file)|), "\n"))
  }

  lemma RestIsOutside(file: string)
    ensures Rest(file) == OutsideText(file)
  {
    hide SplitLines, TrimSpace, Strip, Outside;
    var lines := SplitLines(file);
    StripKeepsOutside(lines, TABLE, |lines|);
    assert lines[..|lines|] == lines;
  }

  /** Whatever the file was: afterwards the table is opened once; the file is, byte for byte, the lines
      that were outside the table, joined and trimmed, then a blank line if there are any, and the
      block; and those are again the lines outside the table. */
  lemma OneBlock(raw: string, quoted: string)
    requires '\n' !in quoted
    ensures var file := Upserted(raw, quoted);
            && OpenedOnce(SplitLines(file))
            && file == (if OutsideText(raw) == "" then "" else OutsideText(raw) + "\n\n") + Block(quoted)
            && OutsideText(file) == OutsideText(raw)
  {
    assert BlockLines(quoted) != [];
    hide SplitLines, Opens, IsHeader, Strip, NoneOpens, TrimSpace, HeaderLine, Rest, OutsideText, CountOpeners,
         Block, BlockLines;
    SplitUpserted(raw, quoted);
    BlockOpens(quoted);
    BeforeOpensNone(raw);
    StripConcat(Before(Rest(raw)), BlockLines(quoted), TABLE);
    RestOfUpserted(raw, quoted);
    RestIsOutside(raw);
    RestIsOutside(Upserted(raw, quoted));
    CountedOnce(SplitLines(Upserted(raw, quoted)));
  }

  /** Just one line opens the table or a child of it. */
  ghost predicate OpenedOnce(lines: seq<string>) {
    exists k :: 0 <= k < |lines| && Opens(TrimSpace(lines[k]), TABLE)
                && forall j :: 0 <= j < |lines| && Opens(TrimSpace(lines[j]), TABLE) ==> j == k
  }

  lemma {:induction false} CountedOnce(lines: seq<string>)
    ensures CountOpeners(lines, TABLE) == 0 ==> NoneOpens(lines, TABLE)
    ensures CountOpeners(lines, TABLE) == 1 ==> OpenedOnce(lines)
  {
    hide Opens, TrimSpace;
    if lines != [] {
      var n := |lines| - 1;
      var front := lines[..n];
      CountedOnce(front);
      if CountOpeners(lines, TABLE) == 1 {
        if Opens(TrimSpace(lines[n]), TABLE) {
          assert forall j :: 0 <= j < n ==> lines[j] == front[j];
        } else {
          var k :| 0 <= k < |front| && Opens(TrimSpace(front[k]), TABLE)
                   && forall j :: 0 <= j < |front| && Opens(TrimSpace(front[j]), TABLE) ==> j == k;
          assert lines[k] == front[k];
        }
      }
    }
  }
}
