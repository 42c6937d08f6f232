/** The `key: text` list a compaction turn is given and has to answer with: what is accepted, what the loop
 * makes of repeated keys, and exactly which lists survive being printed and read again. Keys and texts are
 * byte strings. */
module MemoryList {
  import opened GoStrings
  import Compaction

  type Parsed = Compaction.Parsed

  const MAX_KEY: nat := 80

  datatype Error = Markdown(line: string) | NotAnEntry(line: string) | NoEntries

  datatype Reply = Entries(list: seq<Parsed>) | Failed(error: Error)

  datatype Line = Blank | Entry(entry: Parsed) | Bad(error: Error)

  // ----- one line -----

  predicate DotSpaceAt(s: string, k: int) {
    0 <= k < |s| - 1 && s[k] == '.' && s[k + 1] == ' '
  }

  /** `strings.Index(s, ". ")`. */
  function DotSpace(s: string): (r: int)
    ensures r == -1 || DotSpaceAt(s, r)
    ensures forall k :: DotSpaceAt(s, k) ==> 0 <= r <= k
  {
    if |s| < 2 then -1
    else if DotSpaceAt(s, 0) then 0
    else
      var r := DotSpace(s[1..]);
      assert forall k :: DotSpaceAt(s, k) ==> DotSpaceAt(s[1..], k - 1);
      if r < 0 then -1 else r + 1
  }

  /** `strconv.Atoi` accepts `s`, for an `s` too short to overflow. */
  predicate IsNumber(s: string) {
    var digits := if s != "" && (s[0] == '-' || s[0] == '+') then s[1..] else s;
    digits != "" && forall k :: 0 <= k < |digits| ==> '0' <= digits[k] <= '9'
  }

  predicate IsMarkdownLine(line: string)
    requires line != ""
  {
    || line[0] in {'-', '*', '+', '>', '#', '`', '|'}
    || (var i := DotSpace(line); 0 < i <= 3 && IsNumber(line[..i]))
  }

  predicate HasMark(key: string) {
    exists k :: 0 <= k < |key| && key[k] in {'`', '*', '#', '|'}
  }

  function ReadLine(raw: string): Line {
    var line := TrimSpace(raw);
    if line == "" then Blank
    else if IsMarkdownLine(line) then Bad(Markdown(line))
    else
      var idx := IndexByte(line, ':');
      if idx <= 0 then Bad(NotAnEntry(line))
      else
        var (key, text) := (TrimSpace(line[..idx]), TrimSpace(line[idx + 1..]));
        if key == "" || text == "" || |key| > MAX_KEY || HasMark(key) then Bad(NotAnEntry(line))
        else Entry(Compaction.Parsed(key, text))
  }

  // ----- the list -----

  /** The first entry with a key, or -1. */
  function KeyAt(list: seq<Parsed>, key: string): (r: int)
    ensures || (r == -1 && forall k :: 0 <= k < |list| ==> list[k].key != key)
            || (0 <= r < |list| && list[r].key == key && forall k :: 0 <= k < r ==> list[k].key != key)
  {
    if list == [] then -1
    else
      var r := KeyAt(list[..|list| - 1], key);
      if r >= 0 then r else if list[|list| - 1].key == key then |list| - 1 else -1
  }

  /** The last entry with a key, or -1. */
  function LastKeyAt(list: seq<Parsed>, key: string): (r: int)
    ensures || (r == -1 && forall k :: 0 <= k < |list| ==> list[k].key != key)
            || (0 <= r < |list| && list[r].key == key && forall k :: r < k < |list| ==> list[k].key != key)
  {
    if list == [] then -1
    else if list[|list| - 1].key == key then |list| - 1
    else LastKeyAt(list[..|list| - 1], key)
  }

  /** A repeated key is one entry, the last text wins. */
  function Put(list: seq<Parsed>, p: Parsed): seq<Parsed> {
    var at := KeyAt(list, p.key);
    if at < 0 then list + [p] else list[at := p]
  }

  function PutAll(es: seq<Parsed>): seq<Parsed> {
    if es == [] then [] else Put(PutAll(es[..|es| - 1]), es[|es| - 1])
  }

  /** The entries of the lines in order, or the first line's fault. */
  function ReadLines(lines: seq<string>): Reply {
    if lines == [] then Entries([])
    else
      var before := ReadLines(lines[..|lines| - 1]);
      if before.Failed? then before
      else
        match ReadLine(lines[|lines| - 1])
        case Blank => before
        case Entry(p) => Entries(before.list + [p])
        case Bad(error) => Failed(error)
  }

  function ParseList(out: string): Reply {
    var read := ReadLines(SplitLines(out));
    if read.Failed? then read
    else if read.list == [] then Failed(NoEntries)
    else Entries(PutAll(read.list))
  }

  lemma {:induction false} FaultStays(lines: seq<string>, n: nat)
    requires n <= |lines| && ReadLines(lines[..n]).Failed?
    ensures ReadLines(lines) == ReadLines(lines[..n])
  {
    if n < |lines| {
      var front := lines[..|lines| - 1];
      assert front[..n] == lines[..n];
      FaultStays(front, n);
    } else {
      assert lines[..n] == lines;
    }
  }

  /** `seen` knows the position of every key. */
  ghost predicate Indexes(seen: map<string, nat>, list: seq<Parsed>) {
    && (forall key :: key in seen ==> KeyAt(list, key) == seen[key])
    && (forall key :: key !in seen ==> KeyAt(list, key) == -1)
  }

  /** `parseMemoryList`. */
  method ParseMemoryList(out: string) returns (r: Reply)
    ensures r == ParseList(out)
  {
    hide ReadLine, SplitLines, Put;
    var lines := SplitLines(out);
    var parsed: seq<Parsed>, seen: map<string, nat> := [], map[];
    ghost var entries: seq<Parsed> := [];
    var i := 0;
    while i < |lines|
      invariant i <= |lines| && ReadLines(lines[..i]) == Entries(entries)
      invariant parsed == PutAll(entries) && (parsed == [] <==> entries == []) && Indexes(seen, parsed)
    {
      ReadNext(lines, i, entries);
      var line := ReadLine(lines[i]);
      if line.Bad? {
        FaultStays(lines, i + 1);
        return Failed(line.error);
      }
      if line.Entry? {
        var p := line.entry;
        IndexesPut(seen, parsed, p);
        entries := entries + [p];
        if p.key in seen {
          parsed := parsed[seen[p.key] := Compaction.Parsed(p.key, p.text)];
        } else {
          seen := seen[p.key := |parsed|];
          parsed := parsed + [p];
        }
      }
      i := i + 1;
    }
    assert lines[..i] == lines;
    r := if parsed == [] then Failed(NoEntries) else Entries(parsed);
  }

  lemma ReadNext(lines: seq<string>, i: nat, entries: seq<Parsed>)
    requires i < |lines| && ReadLines(lines[..i]) == Entries(entries)
    ensures var line := ReadLine(lines[i]);
            ReadLines(lines[..i + 1]) ==
            match line
            case Blank => Entries(entries)
            case Entry(p) => Entries(entries + [p])
            case Bad(error) => Failed(error)
  {
    hide ReadLine;
    assert lines[..i + 1][..i] == lines[..i];
  }

  lemma IndexesPut(seen: map<string, nat>, list: seq<Parsed>, p: Parsed)
    requires Indexes(seen, list)
    ensures p.key in seen ==>
              seen[p.key] < |list| && Put(list, p) == list[seen[p.key] := p] && Indexes(seen, Put(list, p))
    ensures p.key !in seen ==> Put(list, p) == list + [p] && Indexes(seen[p.key := |list|], Put(list, p))
  {
    hide KeyAt, Put;
    PutIs(list, p);
    assert forall key :: KeyAt(Put(list, p), key) == if key == p.key &&
        KeyAt(list, key) < 0 then |list| else KeyAt(list, key) by {
      forall key
        ensures KeyAt(Put(list, p), key) == if key == p.key && KeyAt(list, key) < 0 then |list| else KeyAt(list, key)
      {
        KeyAfterPutOne(list, p, key);
      }
    }
  }

  lemma PutIs(list: seq<Parsed>, p: Parsed)
    ensures Put(list, p) == if KeyAt(list, p.key) < 0 then list + [p] else list[KeyAt(list, p.key) := p]
    ensures Put(list, p) != []
  {
    hide KeyAt;
  }

  lemma KeyAfterPutOne(list: seq<Parsed>, p: Parsed, key: string)
    ensures KeyAt(Put(list, p), key) == if key == p.key && KeyAt(list, key) < 0 then |list| else KeyAt(list, key)
  {
    var (next, was) := (Put(list, p), KeyAt(list, key));
    var now := KeyAt(next, key);
    assert forall k :: 0 <= k < |list| ==> next[k].key == list[k].key;
  }

  // ----- what an accepted answer is -----

  /** One entry per key: the keys in order of first appearance, each with the text it was given last. */
  ghost predicate Merges(list: seq<Parsed>, es: seq<Parsed>) {
    Compaction.DistinctParsed(list) && LastTexts(list, es) && Covers(list, es) && FirstOrder(list, es)
  }

  ghost predicate LastTexts(list: seq<Parsed>, es: seq<Parsed>) {
    forall i :: 0 <= i < |list| ==> KeyAt(es, list[i].key) >= 0 && list[i] == es[LastKeyAt(es, list[i].key)]
  }

  ghost predicate Covers(list: seq<Parsed>, es: seq<Parsed>) {
    forall e :: 0 <= e < |es| ==> KeyAt(list, es[e].key) >= 0
  }

  ghost predicate FirstOrder(list: seq<Parsed>, es: seq<Parsed>) {
    forall i, j :: 0 <= i < j < |list| ==> KeyAt(es, list[i].key) < KeyAt(es, list[j].key)
  }

  lemma {:induction false} PutAllMerges(es: seq<Parsed>)
    ensures Merges(PutAll(es), es)
  {
    hide KeyAt, LastKeyAt, Put;
    if es == [] {
    } else {
      var (front, p) := (es[..|es| - 1], es[|es| - 1]);
      PutAllMerges(front);
      MergeOne(PutAll(front), front, es, p);
    }
  }

  lemma AtSnoc(front: seq<Parsed>, p: Parsed, key: string)
    ensures KeyAt(front + [p], key)
         == if KeyAt(front, key) >= 0 then KeyAt(front, key) else if p.key == key then |front| else -1
    ensures LastKeyAt(front + [p], key) == if p.key == key then |front| else LastKeyAt(front, key)
  {
    assert (front + [p])[..|front|] == front;
  }

  lemma MergeOne(list: seq<Parsed>, front: seq<Parsed>, es: seq<Parsed>, p: Parsed)
    requires Merges(list, front) && es == front + [p]
    ensures Merges(Put(list, p), es)
  {
    assert Compaction.DistinctParsed(Put(list, p)) by {
      hide KeyAt;
    }
    hide KeyAt, LastKeyAt, LastTexts, Covers, FirstOrder, Put, Compaction.DistinctParsed;
    assert LastTexts(Put(list, p), front + [p]) by {
      hide KeyAt, LastKeyAt;
      var (next, es) := (Put(list, p), front + [p]);
      forall i | 0 <= i < |next| ensures KeyAt(es, next[i].key) >= 0 && next[i] == es[LastKeyAt(es, next[i].key)] {
        AtSnoc(front, p, next[i].key);
      }
    }
    assert Covers(Put(list, p), front + [p]) by {
      hide KeyAt, Put;
      var (next, es) := (Put(list, p), front + [p]);
      forall e | 0 <= e < |es| ensures KeyAt(next, es[e].key) >= 0 {
        KeyAfterPutOne(list, p, es[e].key);
        assert e < |front| ==> es[e] == front[e] && KeyAt(list, front[e].key) >= 0;
      }
    }
    PutOrder(list, front, p);
  }

  /** A key that is new to the list is new to the entries. */
  lemma NewKey(list: seq<Parsed>, front: seq<Parsed>, key: string)
    requires Covers(list, front) && KeyAt(list, key) < 0
    ensures KeyAt(front, key) < 0
  {
    var k := KeyAt(front, key);
    if k >= 0 {
    }
  }

  lemma PutOrder(list: seq<Parsed>, front: seq<Parsed>, p: Parsed)
    requires FirstOrder(list, front) && LastTexts(list, front) && Covers(list, front)
    ensures FirstOrder(Put(list, p), front + [p])
  {
    hide KeyAt, LastKeyAt, Covers;
    var (next, es) := (Put(list, p), front + [p]);
    forall i, j | 0 <= i < j < |next| ensures KeyAt(es, next[i].key) < KeyAt(es, next[j].key) {
      AtSnoc(front, p, next[i].key);
      AtSnoc(front, p, next[j].key);
      assert next[i].key == list[i].key && KeyAt(front, list[i].key) >= 0;
      if j < |list| {
        assert next[j].key == list[j].key && KeyAt(front, list[j].key) >= 0;
      } else {
        NewKey(list, front, p.key);
      }
    }
  }

  /** The keys that can be read back. */
  predicate Admissible(key: string) {
    && key != "" && |key| <= MAX_KEY && Trimmed(key) && ':' !in key && '\n' !in key
    && !HasMark(key) && !IsMarkdownLine(key)
  }

  ghost predicate Proper(es: seq<Parsed>) {
    forall i :: 0 <= i < |es| ==> Admissible(es[i].key) && es[i].text != "" && Trimmed(es[i].text)
  }

  lemma MarkdownPrefix(key: string, line: string)
    requires key != "" && key <= line && IsMarkdownLine(key)
    ensures IsMarkdownLine(line)
  {
    var i := DotSpace(key);
    if i >= 0 {
      assert DotSpaceAt(line, i);
      var j := DotSpace(line);
      assert DotSpaceAt(key, j);
      assert key[..i] == line[..i];
    }
  }

  /** An accepted line is a proper entry. */
  lemma EntryIsProper(raw: string)
    requires '\n' !in raw && ReadLine(raw).Entry?
    ensures Proper([ReadLine(raw).entry])
  {
    hide TrimSpace, LeadingSpace, TrailingSpace, IsMarkdownLine, HasMark, IndexByte;
    var line := TrimSpace(raw);
    TrimSpaceTrims(raw);
    TrimSpaceIsPart(raw);
    var idx := IndexByte(line, ':');
    var (key, text) := (TrimSpace(line[..idx]), TrimSpace(line[idx + 1..]));
    LeadingSpacePrefix(line, idx);
    TrimSpaceIsPart(line[..idx]);
    TrimSpaceTrims(line[..idx]);
    TrimSpaceTrims(line[idx + 1..]);
    assert key <= line;
    if IsMarkdownLine(key) {
      MarkdownPrefix(key, line);
    }
  }

  lemma {:induction false} ReadLinesProper(lines: seq<string>)
    requires ReadLines(lines).Entries? && forall k :: 0 <= k < |lines| ==> '\n' !in lines[k]
    ensures Proper(ReadLines(lines).list)
  {
    hide ReadLine, Admissible;
    if lines != [] {
      ReadLinesProper(lines[..|lines| - 1]);
      var line := ReadLine(lines[|lines| - 1]);
      if line.Entry? {
        EntryIsProper(lines[|lines| - 1]);
        assert [line.entry][0] == line.entry;
      }
    }
  }

  lemma MergedProper(list: seq<Parsed>, es: seq<Parsed>)
    requires Merges(list, es) && Proper(es) && es != []
    ensures list != [] && Proper(list) && Compaction.DistinctParsed(list)
  {
    hide Admissible, KeyAt, LastKeyAt, FirstOrder;
    assert KeyAt(list, es[0].key) >= 0;
    forall i | 0 <= i < |list| ensures Admissible(list[i].key) && list[i].text != "" && Trimmed(list[i].text) {
      assert list[i] == es[LastKeyAt(es, list[i].key)];
    }
  }

  /** An accepted answer has at least one entry, admissible keys, no key twice, and no blank text, so
      it can always be applied. */
  lemma ParseIsSound(out: string, s: Compaction.Store, scope: Compaction.Scope, replaced: seq<Compaction.Row>, now: nat)
    requires ParseList(out).Entries?
    ensures ParseList(out).list != [] && Proper(ParseList(out).list)
    ensures Merges(ParseList(out).list, ReadLines(SplitLines(out)).list)
    ensures Compaction.Apply(s, scope, replaced, ParseList(out).list, now).Some?
  {
    hide ReadLine, Admissible, ReadLines, Merges, PutAll, Compaction.Apply;
    var es := ReadLines(SplitLines(out)).list;
    ReadLinesProper(SplitLines(out));
    PutAllMerges(es);
    MergedProper(PutAll(es), es);
    Compaction.ApplyIff(s, scope, replaced, PutAll(es), now);
  }

  // ----- white space collapsed -----

  /** Length of the word `s` starts with: up to the next white space. */
  function WordEnd(s: string): (n: nat)
    ensures n == |s| || (n < |s| && LeadingSpace(s[n..]) > 0)
    ensures forall k :: 0 <= k < n ==> LeadingSpace(s[k..]) == 0
  {
    if s == "" || LeadingSpace(s) > 0 then 0
    else
      var n := WordEnd(s[1..]);
      assert forall k :: 0 < k <= n ==> s[k..] == s[1..][k - 1..];
      assert n + 1 < |s| ==> s[n + 1..] == s[1..][n..];
      n + 1
  }

  /** `strings.Fields`. */
  function Fields(s: string): seq<string>
    decreases |s|
  {
    var t := TrimLeftSpace(s);
    if t == "" then [] else [t[..WordEnd(t)]] + Fields(t[WordEnd(t)..])
  }

  /** `collapseWhitespace`. */
  function Collapse(s: string): string {
    Join(Fields(s), " ")
  }

  /** No white space starts inside. */
  predicate IsWord(w: string) {
    w != "" && forall k :: 0 <= k < |w| ==> LeadingSpace(w[k..]) == 0
  }

  ghost predicate AreWords(ws: seq<string>) {
    forall k :: 0 <= k < |ws| ==> IsWord(ws[k])
  }

  lemma WordIsWord(t: string)
    requires t != "" && LeadingSpace(t) == 0
    ensures IsWord(t[..WordEnd(t)])
  {
    var n := WordEnd(t);
    forall k | 0 <= k < n ensures LeadingSpace(t[..n][k..]) == 0 {
      assert t[..n][k..] == t[k..][..n - k];
      LeadingSpacePrefix(t[k..], n - k);
    }
  }

  lemma WordsMore(w: string, ws: seq<string>)
    requires IsWord(w) && AreWords(ws)
    ensures AreWords([w] + ws)
  {
    hide IsWord;
  }

  lemma {:induction false} FieldsAreWords(s: string)
    ensures AreWords(Fields(s))
    decreases |s|
  {
    hide IsWord, LeadingSpace, WordEnd;
    var t := TrimLeftSpace(s);
    if t != "" {
      TrimLeftTrims(s);
      WordIsWord(t);
      FieldsAreWords(t[WordEnd(t)..]);
      WordsMore(t[..WordEnd(t)], Fields(t[WordEnd(t)..]));
    }
  }

  lemma WordTrimmed(w: string)
    requires IsWord(w)
    ensures Trimmed(w) && '\n' !in w
  {
    assert w[0..] == w;
    assert TrailingSpace(w) == 0 || LeadingSpace(w[|w| - TrailingSpace(w)..]) > 0;
    forall k | 0 <= k < |w| ensures w[k] != '\n' {
      assert LeadingSpace(w[k..]) == 0;
    }
  }

  lemma {:induction false} JoinedWords(ws: seq<string>)
    requires AreWords(ws)
    ensures Trimmed(Join(ws, " ")) && '\n' !in Join(ws, " ")
    ensures Join(ws, " ") == "" <==> ws == []
  {
    if ws != [] {
      WordTrimmed(ws[0]);
      if |ws| > 1 {
        var rest := Join(ws[1..], " ");
        JoinedWords(ws[1..]);
        LeadingSpaceAppend(ws[0], " " + rest);
        assert ws[0] + " " + rest == ws[0] + (" " + rest);
        TrailingSpacePrepend(ws[0] + " ", rest);
      }
    }
  }

  /** Collapsing changes only the white space between the words. */
  lemma {:induction false} CollapseKeepsWords(s: string)
    ensures Fields(Collapse(s)) == Fields(s) && Collapse(Collapse(s)) == Collapse(s)
  {
    FieldsAreWords(s);
    FieldsOfJoin(Fields(s));
  }

  lemma {:induction false} FieldsOfJoin(ws: seq<string>)
    requires AreWords(ws)
    ensures Fields(Join(ws, " ")) == ws
  {
    hide LeadingSpace, TrailingSpace, Fields, IsWord;
    NoFields();
    if ws != [] {
      var w := ws[0];
      JoinedWords(ws);
      FieldsOfJoin(ws[1..]);
      WordTrimmed(w);
      assert w != "" by { assert IsWord(ws[0]); WordNotEmpty(w); }
      if |ws| == 1 {
        assert w + "" == w;
        FieldsHead(w, "");
        assert ws == [w] + [];
      } else {
        var rest := Join(ws[1..], " ");
        assert Join(ws, " ") == w + (" " + rest);
        FieldsHead(w, " " + rest);
        JoinedWords(ws[1..]);
        TrimBlank(rest);
        FieldsBlank(rest);
      }
    }
  }

  lemma WordNotEmpty(w: string)
    requires IsWord(w)
    ensures w != ""
  {
  }

  lemma NoFields()
    ensures Fields("") == []
  {
  }

  lemma FieldsHead(w: string, rest: string)
    requires w != "" && IsWord(w) && (rest == "" || rest[0] == ' ') && LeadingSpace(w + rest) == 0
    ensures Fields(w + rest) == [w] + Fields(rest)
  {
    assert WordEnd(w + rest) == |w| by {
      assert rest != "" && rest[0] == ' ' ==> LeadingSpace(rest) > 0;
      hide LeadingSpace, WordEnd;
      var s := w + rest;
      forall k | 0 <= k < |w| ensures LeadingSpace(s[k..]) == 0 {
        assert LeadingSpace((w + rest)[k..]) == 0 by {
          hide LeadingSpace;
          assert (w + rest)[k..] == w[k..] + rest;
          assert LeadingSpace(w[k..]) == 0;
          LeadingSpaceAppend(w[k..], rest);
        }
      }
      assert s[|w|..] == rest;
    }
    hide LeadingSpace, WordEnd, IsWord;
    var s := w + rest;
    assert TrimLeftSpace(s) == s;
    assert s[..|w|] == w && s[|w|..] == rest;
  }

  lemma FieldsBlank(rest: string)
    requires TrimLeftSpace(" " + rest) == TrimLeftSpace(rest)
    ensures Fields(" " + rest) == Fields(rest)
  {
    hide TrimLeftSpace, WordEnd;
  }

  // ----- print, then parse -----

  function Printed(m: Parsed): string {
    m.key + ": " + Collapse(m.text)
  }

  /** The entries of `renderCompactionPrompt`. */
  function Print(ms: seq<Parsed>): string {
    if ms == [] then "" else Printed(ms[0]) + "\n" + Print(ms[1..])
  }

  /** The same memories with their texts collapsed. */
  function Collapsed(ms: seq<Parsed>): seq<Parsed> {
    seq(|ms|, i requires 0 <= i < |ms| => Compaction.Parsed(ms[i].key, Collapse(ms[i].text)))
  }

  predicate Readable(m: Parsed) {
    Admissible(m.key) && Collapse(m.text) != ""
  }

  lemma AdmissibleLine(key: string, text: string)
    requires Admissible(key)
    ensures var line := key + ": " + text; IndexByte(line, ':') == |key| && !IsMarkdownLine(line)
  {
    var line := key + ": " + text;
    assert line[..|key|] == key;
    IndexByteIs(line, ':', |key|);
    var i := DotSpace(line);
    if i < |key| - 1 {
      assert DotSpace(line) == DotSpace(key) &&
             (DotSpace(key) >= 0 ==> line[..DotSpace(key)] == key[..DotSpace(key)]) by {
        var (i, j) := (DotSpace(line), DotSpace(key));
        if i >= 0 {
          assert DotSpaceAt(key, i);
        }
        if j >= 0 {
          assert DotSpaceAt(line, j);
        }
      }
    } else if 0 < i <= 3 && IsNumber(line[..i]) {
      DigitInside(line[..i], |key|);
    }
  }

  lemma DigitInside(s: string, k: nat)
    requires IsNumber(s) && 0 < k < |s|
    ensures '0' <= s[k] <= '9'
  {
    if s[0] == '-' || s[0] == '+' {
      assert s[1..][k - 1] == s[k];
    }
  }

  lemma LineReadsBack(m: Parsed)
    requires Readable(m)
    ensures ReadLine(Printed(m)) == Entry(Compaction.Parsed(m.key, Collapse(m.text))) && '\n' !in Printed(m)
  {
    hide LeadingSpace, TrailingSpace, TrimRightSpace, IsMarkdownLine, HasMark, IndexByte, Fields, Join;
    var (key, text) := (m.key, Collapse(m.text));
    var line := Printed(m);
    FieldsAreWords(m.text);
    JoinedWords(Fields(m.text));
    assert line == key + (": " + text) == (key + ": ") + text;
    LeadingSpaceAppend(key, ": " + text);
    TrailingSpacePrepend(key + ": ", text);
    TrimSpaceTrims(line);
    AdmissibleLine(key, text);
    assert line[..|key|] == key && line[|key| + 1..] == " " + text;
    TrimSpaceTrims(key);
    TrimBlank(text);
  }

  lemma TrimBlank(text: string)
    requires Trimmed(text)
    ensures TrimLeftSpace(" " + text) == text && TrimSpace(" " + text) == text
  {
    assert (" " + text)[1..] == text;
    assert LeadingSpace(" " + text) == 1;
  }

  lemma {:induction false} PrintedLines(ms: seq<Parsed>)
    requires forall i :: 0 <= i < |ms| ==> Readable(ms[i])
    ensures SplitLines(Print(ms)) == seq(|ms|, i requires 0 <= i < |ms| => Printed(ms[i])) + [""]
  {
    hide Readable, Printed, ReadLine, Collapse;
    if ms != [] {
      var line, rest := Printed(ms[0]), Print(ms[1..]);
      LineReadsBack(ms[0]);
      PrintedLines(ms[1..]);
      SplitFirst(line, rest);
    }
  }

  lemma {:induction false} LinesReadBack(ms: seq<Parsed>)
    requires forall i :: 0 <= i < |ms| ==> Readable(ms[i])
    ensures ReadLines(seq(|ms|, i requires 0 <= i < |ms| => Printed(ms[i]))) == Entries(Collapsed(ms))
  {
    hide Readable, Printed, ReadLine, Collapse;
    var lines := seq(|ms|, i requires 0 <= i < |ms| => Printed(ms[i]));
    if ms != [] {
      var front := ms[..|ms| - 1];
      LinesReadBack(front);
      assert lines[..|ms| - 1] == seq(|front|, i requires 0 <= i < |front| => Printed(front[i]));
      LineReadsBack(ms[|ms| - 1]);
      assert Collapsed(ms) == Collapsed(front) + [Collapsed(ms)[|ms| - 1]];
    }
  }

  lemma {:induction false} PutDistinct(es: seq<Parsed>)
    requires Compaction.DistinctParsed(es)
    ensures PutAll(es) == es
  {
    if es != [] {
      var (front, last) := (es[..|es| - 1], es[|es| - 1]);
      PutDistinct(front);
      assert KeyAt(front, last.key) == -1 && front + [last] == es;
    }
  }

  /** Reading the printed list gives the same entries with collapsed texts, exactly when there are
      entries, no key occurs twice, every key is admissible and no text is blank. */
  lemma PrintThenParse(ms: seq<Parsed>)
    ensures ParseList(Print(ms)) == Entries(Collapsed(ms))
       <==> ms != [] && Compaction.DistinctParsed(ms) && forall i :: 0 <= i < |ms| ==> Readable(ms[i])
  {
    hide ReadLine, Printed;
    var list := Collapsed(ms);
    if ms != [] && Compaction.DistinctParsed(ms) && forall i :: 0 <= i < |ms| ==> Readable(ms[i]) {
      ReadsBack(ms);
    } else if ParseList(Print(ms)) == Entries(list) {
      ParseIsSound(Print(ms), Compaction.Store(map[], []), Compaction.Scope("", ""), [], 0);
      forall i | 0 <= i < |ms| ensures Readable(ms[i]) {
        assert Admissible(list[i].key) && list[i].text != "";
      }
      forall i, j | 0 <= i < j < |ms| ensures ms[i].key != ms[j].key {
        assert list[i].key != list[j].key;
      }
      assert false;
    }
  }

  lemma ReadsBack(ms: seq<Parsed>)
    requires ms != [] && Compaction.DistinctParsed(ms) && forall i :: 0 <= i < |ms| ==> Readable(ms[i])
    ensures ParseList(Print(ms)) == Entries(Collapsed(ms))
  {
    hide Readable, Printed, Collapse, SplitLines, Print, PutAll;
    var lines := seq(|ms|, i requires 0 <= i < |ms| => Printed(ms[i]));
    PrintedLines(ms);
    LinesReadBack(ms);
    assert (lines + [""])[..|ms|] == lines;
    assert ReadLines(lines + [""]) == Entries(Collapsed(ms));
    PutDistinct(Collapsed(ms));
  }

  /** An accepted answer, printed and read again, is itself with collapsed texts. */
  lemma AcceptedReadsBack(out: string)
    requires ParseList(out).Entries?
    ensures ParseList(Print(ParseList(out).list)) == Entries(Collapsed(ParseList(out).list))
  {
    hide ReadLine, Admissible;
    var list := ParseList(out).list;
    ParseIsSound(out, Compaction.Store(map[], []), Compaction.Scope("", ""), [], 0);
    forall i | 0 <= i < |list| ensures Readable(list[i]) {
    }
    ReadsBack(list);
  }
}
