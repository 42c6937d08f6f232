/** The environment file: written from the variables of the shell that runs the sync, read back by the
 * service when it starts. What is written, what is read, which names pass, and exactly when what is read is
 * what was written. */
module EnvFile {
  import opened GoStrings

  /** The three lines at the top of the file, cut where the verifier stops looking into a literal. */
  const Comment1 := "# Written by `ccc env sync`. " + "Values come from the shell that ran it."
  const Comment2 := "# Read by the ccc service " + "(EnvironmentFile) and by `ccc listen`. " + "Do not edit by hand:"
  const Comment3 := "# the next sync overwrites it. " + "Names come from config.json's " + "env_passthrough."

  /** The longest line, with its newline, that the line scanner can hold. */
  const SCAN_MAX: nat := 64 * 1024

  datatype Pair = Pair(name: string, value: string)

  // ----- names -----

  predicate MayPass(name: string) {
    name != "" && !HasPrefix(name, "CLAUDE") && !HasPrefix(name, "ANTHROPIC")
  }

  /** `passthroughNames`. */
  function PassthroughNames(config: seq<string>): seq<string> {
    if config == [] then []
    else
      var name := TrimSpace(config[0]);
      (if MayPass(name) then [name] else []) + PassthroughNames(config[1..])
  }

  function Trims(config: seq<string>): seq<string> {
    seq(|config|, k requires 0 <= k < |config| => TrimSpace(config[k]))
  }

  lemma NamesStep(config: seq<string>)
    requires config != []
    ensures var name := TrimSpace(config[0]);
            && PassthroughNames(config) == (if MayPass(name) then [name] else []) + PassthroughNames(config[1..])
            && Trims(config) == [name] + Trims(config[1..])
  {
    hide MayPass, TrimSpace;
  }

  lemma {:induction false} PassedInOrder(config: seq<string>, name: string)
    ensures multiset(PassthroughNames(config))[name] == if MayPass(name) then multiset(Trims(config))[name] else 0
    ensures Subsequence(PassthroughNames(config), Trims(config))
  {
    if config != [] {
      var all, rest := Trims(config), Trims(config[1..]);
      PassedInOrder(config[1..], name);
      NamesStep(config);
      hide MayPass, TrimSpace, PassthroughNames, Trims;
      assert all[1..] == rest;
      SubsequenceMore(PassthroughNames(config[1..]), rest, TrimSpace(config[0]));
      assert [] + PassthroughNames(config[1..]) == PassthroughNames(config[1..]);
    }
  }

  lemma SubsequenceMore(a: seq<string>, b: seq<string>, x: string)
    requires Subsequence(a, b)
    ensures Subsequence(a, [x] + b) && Subsequence([x] + a, [x] + b)
  {
    assert ([x] + b)[1..] == b && ([x] + a)[1..] == a;
  }

  /** The names are those of the configuration, trimmed, in order and as often as they are there, but for
      empty ones and those that begin with CLAUDE or ANTHROPIC. */
  lemma NamesAre(config: seq<string>)
    ensures forall name :: multiset(PassthroughNames(config))[name] ==
              if name == "" || "CLAUDE" <= name || "ANTHROPIC" <= name then 0 else multiset(Trims(config))[name]
    ensures Subsequence(PassthroughNames(config), Trims(config))
  {
    hide PassthroughNames, Trims, Subsequence;
    PassedInOrder(config, "");
    forall name ensures multiset(PassthroughNames(config))[name] == if MayPass(name) then multiset(Trims(config))[name] else 0 {
      PassedInOrder(config, name);
    }
  }

  lemma {:induction false} NamesMayPass(config: seq<string>)
    ensures forall name :: name in PassthroughNames(config) ==> MayPass(name) && Trimmed(name)
  {
    hide MayPass, TrimSpace, Trimmed;
    if config != [] {
      TrimSpaceTrims(config[0]);
      NamesMayPass(config[1..]);
    }
  }

  // ----- writing -----

  datatype Fate = Missing | Skipped | Found

  predicate MultiLine(value: string) {
    '\n' in value || '\r' in value
  }

  function FateOf(name: string, shell: map<string, string>): Fate {
    if name !in shell then Missing else if MultiLine(shell[name]) then Skipped else Found
  }

  /** The names with a given fate, in order. */
  function Pick(names: seq<string>, shell: map<string, string>, fate: Fate): seq<string> {
    if names == [] then []
    else
      var n := |names| - 1;
      Pick(names[..n], shell, fate) + if FateOf(names[n], shell) == fate then [names[n]] else []
  }

  function Escape(value: string): string {
    ReplaceAll(ReplaceAll(value, "\\", "\\\\"), "\"", "\\\"")
  }

  function Line(p: Pair): string {
    p.name + "=\"" + Escape(p.value) + "\""
  }

  function Lines(ps: seq<Pair>): string {
    if ps == [] then "" else Lines(ps[..|ps| - 1]) + (Line(ps[|ps| - 1]) + "\n")
  }

  function Header(): string {
    Comment1 + "\n" + Comment2 + "\n" + Comment3 + "\n"
  }

  function Body(ps: seq<Pair>): string {
    Header() + Lines(ps)
  }

  /** The found names with their values. */
  function FoundPairs(names: seq<string>, shell: map<string, string>): (ps: seq<Pair>)
    ensures |ps| == |Pick(names, shell, Found)|
    ensures forall i :: 0 <= i < |ps| ==>
              && ps[i].name == Pick(names, shell, Found)[i] && ps[i].name in names
              && ps[i].name in shell && ps[i].value == shell[ps[i].name] && !MultiLine(ps[i].value)
  {
    if names == [] then []
    else
      var n := |names| - 1;
      FoundPairs(names[..n], shell)
        + if FateOf(names[n], shell) == Found then [Pair(names[n], shell[names[n]])] else []
  }

  /** `renderEnvFile`. */
  method RenderEnvFile(config: seq<string>, shell: map<string, string>)
    returns (body: string, found: seq<string>, skipped: seq<string>, missing: seq<string>)
    ensures var names := PassthroughNames(config);
            (body, found, skipped, missing) ==
            (Body(FoundPairs(names, shell)), Pick(names, shell, Found), Pick(names, shell, Skipped), Pick(names, shell, Missing))
  {
    hide Escape, MultiLine, Header, PassthroughNames, Line, Lines, Pick, FoundPairs;
    var names := PassthroughNames(config);
    body := Header();
    NothingPicked(shell);
    found, skipped, missing := [], [], [];
    var i := 0;
    while i < |names|
      invariant i <= |names| && body == Header() + Lines(FoundPairs(names[..i], shell))
      invariant found == Pick(names[..i], shell, Found) && skipped == Pick(names[..i], shell, Skipped)
      invariant missing == Pick(names[..i], shell, Missing)
    {
      var name := names[i];
      PickOne(names, i, shell);
      PairsOne(names, i, shell);
      i := i + 1;
      if name !in shell {
        missing := missing + [name];
        continue;
      }
      var value := shell[name];
      if MultiLine(value) {
        skipped := skipped + [name];
        continue;
      }
      found := found + [name];
      body := body + (Line(Pair(name, value)) + "\n");
    }
    assert names[..i] == names;
  }

  lemma NothingPicked(shell: map<string, string>)
    ensures forall fate :: Pick([], shell, fate) == []
    ensures Header() == Header() + Lines(FoundPairs([], shell))
  {
    hide Header;
  }

  /** One more name adds to one list. */
  lemma PickOne(names: seq<string>, i: nat, shell: map<string, string>)
    requires i < |names|
    ensures forall f ::
      Pick(names[..i + 1], shell, f) == Pick(names[..i], shell, f) + if f == FateOf(names[i], shell) then [names[i]] else []
  {
    hide FateOf;
    assert names[..i + 1][..i] == names[..i];
  }

  /** A found one adds a line. */
  lemma PairsOne(names: seq<string>, i: nat, shell: map<string, string>)
    requires i < |names|
    ensures Lines(FoundPairs(names[..i + 1], shell)) == Lines(FoundPairs(names[..i], shell))
         + if FateOf(names[i], shell) == Found then Line(Pair(names[i], shell[names[i]])) + "\n" else ""
  {
    hide Line, MultiLine, Pick;
    var before := FoundPairs(names[..i], shell);
    assert names[..i + 1][..i] == names[..i];
    if FateOf(names[i], shell) == Found {
      var after := before + [Pair(names[i], shell[names[i]])];
      assert after[..|before|] == before && FoundPairs(names[..i + 1], shell) == after;
    } else {
      assert FoundPairs(names[..i + 1], shell) == before + [];
      assert before + [] == before;
    }
  }

  // ----- reading -----

  /** `unescapeEnvValue`. */
  function Unescape(s: string): string
    decreases |s|
  {
    if s == "" then ""
    else if |s| > 1 && s[0] == '\\' && (s[1] == '\\' || s[1] == '"') then [s[1]] + Unescape(s[2..])
    else [s[0]] + Unescape(s[1..])
  }

  method UnescapeEnvValue(s: string) returns (r: string)
    ensures r == Unescape(s)
  {
    r := "";
    var i := 0;
    assert s[0..] == s && "" + Unescape(s) == Unescape(s);
    while i < |s|
      invariant i <= |s| && Unescape(s) == r + Unescape(s[i..])
    {
      UnescapeAt(s, i, r);
      hide Unescape;
      if s[i] == '\\' && i + 1 < |s| && (s[i + 1] == '\\' || s[i + 1] == '"') {
        i := i + 1;
      }
      r := r + [s[i]];
      i := i + 1;
    }
    assert s[i..] == "";
  }

  lemma UnescapeAt(s: string, i: nat, r: string)
    requires i < |s|
    ensures r + Unescape(s[i..]) ==
              if s[i] == '\\' && i + 1 < |s| && (s[i + 1] == '\\' || s[i + 1] == '"') then r + [s[i + 1]] + Unescape(s[i + 2..])
              else r + [s[i]] + Unescape(s[i + 1..])
  {
    var rest := s[i..];
    assert rest[1..] == s[i + 1..] && (i + 1 < |s| ==> rest[1] == s[i + 1] && rest[2..] == s[i + 2..]);
  }

  predicate Quoted(value: string) {
    |value| >= 2 && value[0] == '"' && value[|value| - 1] == '"'
  }

  /** `parseEnvLine`. */
  function ParseLine(raw: string): Option<Pair> {
    var line := TrimSpace(raw);
    if line == "" || line[0] == '#' then None
    else
      var eq := IndexByte(line, '=');
      if eq <= 0 then None
      else
        var (name, value) := (TrimSpace(line[..eq]), TrimSpace(line[eq + 1..]));
        if name == "" then None
        else Some(Pair(name, if Quoted(value) then Unescape(value[1..|value| - 1]) else value))
  }

  function DropCR(line: string): string {
    if line != "" && line[|line| - 1] == '\r' then line[..|line| - 1] else line
  }

  /** The lines `bufio.Scanner` delivers: it gives up at the first line that overruns its buffer. */
  function Scan(s: string): seq<string>
    decreases |s|
  {
    if s == "" then []
    else
      var i := IndexByte(s, '\n');
      if i < 0 then (if |s| < SCAN_MAX then [DropCR(s)] else [])
      else if i >= SCAN_MAX then []
      else [DropCR(s[..i])] + Scan(s[i + 1..])
  }

  function ParseLines(lines: seq<string>): seq<Pair> {
    if lines == [] then []
    else
      var p := ParseLine(lines[0]);
      (if p.Some? then [p.value] else []) + ParseLines(lines[1..])
  }

  /** All assignments of a file. */
  function ReadPairs(file: string): seq<Pair> {
    ParseLines(Scan(file))
  }

  /** `os.Setenv` refuses a NUL byte. */
  predicate Settable(p: Pair) {
    '\0' !in p.name && '\0' !in p.value
  }

  function Load(env: map<string, string>, ps: seq<Pair>, wanted: set<string>): (map<string, string>, seq<string>) {
    if ps == [] then (env, [])
    else
      var n := |ps| - 1;
      var (before, loaded) := Load(env, ps[..n], wanted);
      if ps[n].name !in wanted || ps[n].name in before || !Settable(ps[n]) then (before, loaded)
      else (before[ps[n].name := ps[n].value], loaded + [ps[n].name])
  }

  lemma LoadNone(env: map<string, string>, wanted: set<string>)
    ensures Load(env, [], wanted) == (env, [])
  {
  }

  lemma LoadOne(env: map<string, string>, ps: seq<Pair>, p: Pair, wanted: set<string>)
    ensures var (before, loaded) := Load(env, ps, wanted);
            Load(env, ps + [p], wanted) ==
            if p.name !in wanted || p.name in before || !Settable(p) then (before, loaded)
            else (before[p.name := p.value], loaded + [p.name])
  {
    assert (ps + [p])[..|ps|] == ps;
  }

  lemma ParseOne(lines: seq<string>, i: nat)
    requires i < |lines|
    ensures var p := ParseLine(lines[i]);
            ParseLines(lines[i..]) == (if p.Some? then [p.value] else []) + ParseLines(lines[i + 1..])
  {
    assert lines[i..][1..] == lines[i + 1..];
  }

  class Process {
    var env: map<string, string>

    /** `loadEnvFile`. */
    method LoadEnvFile(config: seq<string>, file: Option<string>) returns (loaded: seq<string>)
      modifies this
      ensures var wanted := set n | n in PassthroughNames(config) :: n;
              var given := if wanted == {} || file.None? then [] else ReadPairs(file.value);
              (env, loaded) == Load(old(env), given, wanted)
    {
      hide ParseLine, Scan, Settable, PassthroughNames, Load;
      var wanted := set n | n in PassthroughNames(config) :: n;
      loaded := [];
      LoadNone(env, wanted);
      if wanted == {} || file.None? {
        return;
      }
      var lines, i := Scan(file.value), 0;
      ghost var before, given := env, [];
      assert lines[0..] == lines && [] + ParseLines(lines) == ParseLines(lines);
      LoadNone(before, wanted);
      while i < |lines|
        invariant i <= |lines| && ParseLines(lines) == given + ParseLines(lines[i..])
        invariant (env, loaded) == Load(before, given, wanted)
      {
        var p := ParseLine(lines[i]);
        ParseOne(lines, i);
        i := i + 1;
        if p.None? {
          continue;
        }
        LoadOne(before, given, p.value, wanted);
        given := given + [p.value];
        if p.value.name !in wanted {
          continue;
        }
        if p.value.name in env {
          continue;
        }
        if !Settable(p.value) {
          continue;
        }
        env := env[p.value.name := p.value.value];
        loaded := loaded + [p.value.name];
      }
      assert given + [] == given;
    }
  }

  // ----- one line -----

  /** The two replacements, in one pass over the bytes. */
  function EscapeOnce(s: string): string {
    if s == "" then ""
    else (if s[0] == '\\' || s[0] == '"' then ['\\', s[0]] else [s[0]]) + EscapeOnce(s[1..])
  }

  lemma {:induction false} EscapeIsOnce(s: string)
    ensures Escape(s) == EscapeOnce(s)
  {
    if s != "" {
      var t := ReplaceAll(s, "\\", "\\\\");
      var rest := ReplaceAll(s[1..], "\\", "\\\\");
      EscapeIsOnce(s[1..]);
      assert s[..1] == [s[0]];
      if s[0] == '\\' {
        assert t == "\\" + ("\\" + rest);
        assert ReplaceAll("\\" + rest, "\"", "\\\"") == "\\" + ReplaceAll(rest, "\"", "\\\"");
      } else {
        assert t == [s[0]] + rest;
      }
    }
  }

  /** Unescaping undoes the two-pass escape, whatever the value. */
  lemma {:induction false} UnescapeEscape(s: string)
    ensures Unescape(Escape(s)) == s
  {
    EscapeIsOnce(s);
    UnescapeOnce(s);
  }

  lemma {:induction false} UnescapeOnce(s: string)
    ensures Unescape(EscapeOnce(s)) == s
  {
    if s != "" {
      var e, rest := EscapeOnce(s), EscapeOnce(s[1..]);
      UnescapeOnce(s[1..]);
      if s[0] == '\\' || s[0] == '"' {
        assert e[2..] == rest;
      } else {
        assert e[1..] == rest;
      }
    }
  }

  /** The names a line can carry, given that they are trimmed and not empty. */
  predicate WellFormed(name: string) {
    name != "" && name[0] != '#' && '=' !in name && '\n' !in name
  }

  lemma {:induction false} NoNewlineEscaped(s: string)
    requires '\n' !in s
    ensures '\n' !in EscapeOnce(s)
  {
    if s != "" {
      NoNewlineEscaped(s[1..]);
    }
  }

  lemma QuotedTrimmed(s: string)
    ensures Trimmed("\"" + s + "\"")
  {
    TrailingSpaceEnd("\"" + s + "\"");
  }

  /** A line reads back as the name and value it was written from. */
  lemma LineReadsBack(p: Pair)
    requires WellFormed(p.name) && Trimmed(p.name)
    ensures ParseLine(Line(p)) == Some(p)
  {
    hide TrimSpace, IndexByte, Escape, Unescape, WellFormed, Trimmed;
    var quoted := "\"" + Escape(p.value) + "\"";
    var line := Line(p);
    LineShape(p.name, quoted);
    assert line == p.name + "=" + quoted;
    QuotedTrimmed(Escape(p.value));
    TrimSpaceTrims(p.name);
    TrimSpaceTrims(quoted);
    assert quoted[1..|quoted| - 1] == Escape(p.value);
    UnescapeEscape(p.value);
  }

  lemma LineShape(name: string, quoted: string)
    requires WellFormed(name) && Trimmed(name) && Quoted(quoted)
    ensures var line := name + "=" + quoted;
            && TrimSpace(line) == line && line[0] != '#' && IndexByte(line, '=') == |name| && name != ""
            && line[..|name|] == name && line[|name| + 1..] == quoted
  {
    assert Trimmed(name + "=" + quoted) by {
      hide TrailingSpace, LeadingSpace;
      var line := name + "=" + quoted;
      assert line == name + ("=" + quoted);
      LeadingSpaceAppend(name, "=" + quoted);
      TrailingSpaceEnd(line);
    }
    hide IndexByte, TrimSpace, Trimmed, Quoted, LeadingSpace, TrailingSpace;
    var line := name + "=" + quoted;
    assert line[..|name|] == name && line[|name| + 1..] == quoted;
    IndexByteIs(line, '=', |name|);
    assert TrimSpace(name + "=" + quoted) == name + "=" + quoted by {
      TrimSpaceTrims(name + "=" + quoted);
    }
  }

  predicate Sound(p: Pair) {
    WellFormed(p.name) && Trimmed(p.name)
  }

  /** Whatever a line says, the name read from it is well-formed and trimmed. */
  lemma ParsedIsWellFormed(raw: string)
    requires '\n' !in raw
    ensures ParseLine(raw).None? || Sound(ParseLine(raw).value)
  {
    hide TrimSpace, LeadingSpace, TrailingSpace, IndexByte, Unescape;
    var line := TrimSpace(raw);
    TrimSpaceTrims(raw);
    TrimSpaceIsPart(raw);
    var eq := IndexByte(line, '=');
    if eq > 0 {
      LeadingSpacePrefix(line, eq);
      TrimSpaceTrims(line[..eq]);
      TrimSpaceIsPart(line[..eq]);
      assert TrimSpace(line[..eq]) <= line[..eq];
    }
  }

  /** The first equals sign of the line. */
  predicate NameUpTo(line: string, k: int) {
    0 <= k < |line| && line[k] == '=' && '=' !in line[..k]
  }

  /** A line assigns if and only if, trimmed, it is no comment and is a name, an equals sign and a value, the
      name up to the first such sign and not blank; quotes around the value are taken off and what is
      between them unescaped, and any other value is taken as it stands, trimmed. */
  lemma ParseIff(raw: string, p: Pair)
    ensures ParseLine(raw) == Some(p) <==>
              var line := TrimSpace(raw);
              && line != "" && line[0] != '#' && p.name != ""
              && exists k :: NameUpTo(line, k) && TrimSpace(line[..k]) == p.name && p.value == ValueOf(TrimSpace(line[k + 1..]))
  {
    hide ParseLine, TrimSpace, ValueOf;
    var line := TrimSpace(raw);
    if ParseLine(raw) == Some(p) {
      var k := AssignsAt(raw);
    }
    forall k | NameUpTo(line, k)
      ensures line[0] != '#' && TrimSpace(line[..k]) != "" ==>
                ParseLine(raw) == Some(Pair(TrimSpace(line[..k]), ValueOf(TrimSpace(line[k + 1..]))))
    {
      AssignsFrom(raw, k);
    }
  }

  function ValueOf(value: string): string {
    if |value| >= 2 && value[0] == '"' && value[|value| - 1] == '"' then Unescape(value[1..|value| - 1]) else value
  }

  lemma AssignsAt(raw: string) returns (k: int)
    requires ParseLine(raw).Some?
    ensures var line, p := TrimSpace(raw), ParseLine(raw).value;
            && line != "" && line[0] != '#' && p.name != "" && NameUpTo(line, k)
            && TrimSpace(line[..k]) == p.name && ValueOf(TrimSpace(line[k + 1..])) == p.value
  {
    hide TrimSpace, Unescape, IndexByte;
    k := IndexByte(TrimSpace(raw), '=');
  }

  lemma AssignsFrom(raw: string, k: int)
    requires NameUpTo(TrimSpace(raw), k)
    ensures var line := TrimSpace(raw);
            line[0] != '#' && TrimSpace(line[..k]) != "" ==>
              ParseLine(raw) == Some(Pair(TrimSpace(line[..k]), ValueOf(TrimSpace(line[k + 1..]))))
  {
    hide TrimSpace, Unescape, IndexByte;
    var line := TrimSpace(raw);
    IndexByteIs(line, '=', k);
    assert TrimSpace("") == "" by {
      EmptyTrimmed();
    }
    assert k == 0 ==> line[..k] == "";
  }

  lemma EmptyTrimmed()
    ensures TrimSpace("") == ""
  {
  }

  // ----- the whole file -----

  lemma ScanFirst(line: string, rest: string)
    requires '\n' !in line
    ensures Scan(line + "\n" + rest) == if |line| >= SCAN_MAX then [] else [DropCR(line)] + Scan(rest)
  {
    hide DropCR;
    var s := line + "\n" + rest;
    assert s[..|line|] == line && s[|line| + 1..] == rest;
    IndexByteIs(s, '\n', |line|);
  }

  /** A line at the end of the file needs no newline. */
  lemma ScanLast(line: string)
    requires '\n' !in line
    ensures Scan(line) == if line == "" || |line| >= SCAN_MAX then [] else [DropCR(line)]
  {
    hide DropCR;
  }

  lemma {:induction false} ScanHasNoNewline(s: string)
    ensures SingleLines(Scan(s))
    decreases |s|
  {
    hide IndexByte;
    if s == "" {
    } else {
      var i := IndexByte(s, '\n');
      if i < 0 {
      } else {
        ScanHasNoNewline(s[i + 1..]);
      }
    }
  }

  ghost predicate SingleLines(lines: seq<string>) {
    forall i :: 0 <= i < |lines| ==> '\n' !in lines[i]
  }

  lemma {:induction false} ParseLinesSound(lines: seq<string>)
    requires SingleLines(lines)
    ensures |ParseLines(lines)| <= |lines|
    ensures forall i :: 0 <= i < |ParseLines(lines)| ==> Sound(ParseLines(lines)[i])
  {
    hide ParseLine, Sound;
    if lines != [] {
      ParseLinesSound(lines[1..]);
      ParsedIsWellFormed(lines[0]);
    }
  }

  /** The line of a pair does not overrun the scanner. */
  predicate Fits(p: Pair) {
    |Line(p)| < 65536
  }

  /** The lines of the first pairs up to one that does not fit. */
  function Reaches(ps: seq<Pair>): (n: nat)
    ensures n == |ps| || (n < |ps| && !Fits(ps[n]))
    ensures forall i :: 0 <= i < n ==> Fits(ps[i])
  {
    if ps == [] || !Fits(ps[0]) then 0 else 1 + Reaches(ps[1..])
  }

  lemma {:induction false} LinesHead(ps: seq<Pair>)
    requires ps != []
    ensures Lines(ps) == Line(ps[0]) + "\n" + Lines(ps[1..])
  {
    var n := |ps| - 1;
    if n > 0 {
      LinesHead(ps[..n]);
      assert ps[..n][1..] == ps[1..][..n - 1];
    }
  }

  lemma NothingToRead()
    ensures ReadPairs("") == []
  {
  }

  lemma LineThenRest(p: Pair, rest: string)
    requires Sound(p) && !MultiLine(p.value)
    ensures ReadPairs(Line(p) + "\n" + rest) == if Fits(p) then [p] + ReadPairs(rest) else []
  {
    assert '\n' !in Line(p) && DropCR(Line(p)) == Line(p) && ParseLine(Line(p)) == Some(p) by {
      hide ParseLine, EscapeOnce, Escape, TrailingSpace, LeadingSpace;
      LineReadsBack(p);
      EscapeIsOnce(p.value);
      NoNewlineEscaped(p.value);
      assert Line(p)[|Line(p)| - 1] == '"';
    }
    hide Sound, MultiLine, Line, ParseLine, DropCR;
    ScanFirst(Line(p), rest);
    assert ([Line(p)] + Scan(rest))[1..] == Scan(rest);
  }

  /** Reading stops before the first line that does not fit; the lines before it give their pairs. */
  lemma {:induction false} LinesReadBack(ps: seq<Pair>)
    requires forall i :: 0 <= i < |ps| ==> Sound(ps[i]) && !MultiLine(ps[i].value)
    ensures ReadPairs(Lines(ps)) == ps[..Reaches(ps)]
  {
    hide Sound, MultiLine, Line, Fits, ReadPairs;
    NothingToRead();
    if ps != [] {
      LinesHead(ps);
      LineThenRest(ps[0], Lines(ps[1..]));
      if Fits(ps[0]) {
        LinesReadBack(ps[1..]);
        assert ps[..Reaches(ps)] == [ps[0]] + ps[1..][..Reaches(ps[1..])];
      }
    }
  }

  lemma CommentLine(line: string, rest: string)
    requires IsComment(line)
    ensures ReadPairs(line + "\n" + rest) == ReadPairs(rest)
  {
    ScanFirst(line, rest);
    TrailingSpaceEnd(line);
    TrimSpaceTrims(line);
    assert DropCR(line) == line;
    assert ([line] + Scan(rest))[1..] == Scan(rest);
  }

  predicate IsComment(line: string) {
    line != "" && line[0] == '#' && line[|line| - 1] in {'.', ':'} && '\n' !in line && |line| < SCAN_MAX
  }

  lemma Comment2Is()
    ensures IsComment(Comment2)
  {
  }

  lemma Comment3Is()
    ensures IsComment(Comment3)
  {
  }

  lemma Comments(rest: string)
    ensures ReadPairs(Header() + rest) == ReadPairs(rest)
  {
    hide ReadPairs;
    assert IsComment(Comment1);
    hide IsComment;
    Comment2Is();
    Comment3Is();
    var (a, b, c) := (Comment1, Comment2, Comment3);
    assert Header() + rest == a + "\n" + (b + "\n" + (c + "\n" + rest));
    CommentLine(a, b + "\n" + (c + "\n" + rest));
    CommentLine(b, c + "\n" + rest);
    CommentLine(c, rest);
  }

  /** The file gives back exactly what was written, names and values, if and only if every name is
      well-formed and every line fits the scanner. */
  lemma FileReadsBack(config: seq<string>, shell: map<string, string>)
    ensures var ps := FoundPairs(PassthroughNames(config), shell);
            ReadPairs(Body(ps)) == ps <==> forall i :: 0 <= i < |ps| ==> WellFormed(ps[i].name) && Fits(ps[i])
  {
    hide Fits, Lines, Header, WellFormed, Trimmed, MultiLine;
    var names := PassthroughNames(config);
    var ps := FoundPairs(names, shell);
    Comments(Lines(ps));
    NamesMayPass(config);
    if forall i :: 0 <= i < |ps| ==> WellFormed(ps[i].name) {
      LinesReadBack(ps);
      hide Reaches;
      if Reaches(ps) == |ps| {
        assert ps[..Reaches(ps)] == ps;
      } else {
        assert ps[..Reaches(ps)] != ps && !Fits(ps[Reaches(ps)]);
      }
    } else {
      assert forall i :: 0 <= i < |ReadPairs(Body(ps))| ==> Sound(ReadPairs(Body(ps))[i]) by {
        ScanHasNoNewline(Body(ps));
        ParseLinesSound(Scan(Body(ps)));
      }
    }
  }

  // ----- from one environment to another -----

  /** Loading sets exactly the wanted names that were not set, to the value of their first assignment
      that can be set, and changes nothing else. */
  lemma {:induction false} LoadSets(env: map<string, string>, ps: seq<Pair>, wanted: set<string>, n: string)
    ensures var (now, loaded) := Load(env, ps, wanted);
            && (n !in env || (n in now && now[n] == env[n]))
            && (n in loaded <==> n in now && n !in env)
            && (n !in loaded || (n in wanted && Pair(n, now[n]) in ps))
            && (n !in now && n in wanted ==> forall i :: 0 <= i < |ps| && ps[i].name == n ==> !Settable(ps[i]))
  {
    hide Settable;
    if ps != [] {
      var k := |ps| - 1;
      LoadSets(env, ps[..k], wanted, n);
      assert ps == ps[..k] + [ps[k]];
    }
  }

  /** Writing in one environment and loading in another: a found name that was not set gets the value it
      has in the shell, when the file reads back; names that were set keep their value. */
  lemma SyncThenLoad(config: seq<string>, shell: map<string, string>, env: map<string, string>, n: string)
    requires var ps := FoundPairs(PassthroughNames(config), shell);
             forall i :: 0 <= i < |ps| ==> WellFormed(ps[i].name) && Fits(ps[i]) && Settable(ps[i])
    ensures var names := PassthroughNames(config);
            var wanted := set m | m in names :: m;
            var (now, loaded) := Load(env, ReadPairs(Body(FoundPairs(names, shell))), wanted);
            && (n in now <==> n in env || n in Pick(names, shell, Found))
            && (n in now ==> now[n] == if n in env then env[n] else shell[n])
            && (n in loaded <==> n in Pick(names, shell, Found) && n !in env)
  {
    hide WellFormed, Fits, Settable, ReadPairs, Body;
    var names := PassthroughNames(config);
    var wanted := set m | m in names :: m;
    var ps := FoundPairs(names, shell);
    FileReadsBack(config, shell);
    LoadSets(env, ps, wanted, n);
    if n in Pick(names, shell, Found) {
      var i :| 0 <= i < |ps| && Pick(names, shell, Found)[i] == n;
      assert ps[i].name == n && Settable(ps[i]);
    }
    forall i | 0 <= i < |ps| ensures ps[i].name in Pick(names, shell, Found) && ps[i].value == shell[ps[i].name] {
    }
  }

  /** Every name has one fate: the skipped ones are those whose value has a line break. */
  lemma {:induction false} Fates(names: seq<string>, shell: map<string, string>, n: string, fate: Fate)
    ensures n in Pick(names, shell, fate) <==> n in names && FateOf(n, shell) == fate
  {
    if names != [] {
      var k := |names| - 1;
      Fates(names[..k], shell, n, fate);
      assert names == names[..k] + [names[k]];
    }
  }
}
