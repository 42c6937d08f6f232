/** An accepted answer as it is read and as it is stored. */
module MemoryAnswers {
  import opened GoStrings
  import opened MemoryList
  import Compaction

  // ----- one line -----

  predicate Digits(s: string) {
    s != "" && forall k :: 0 <= k < |s| ==> '0' <= s[k] <= '9'
  }

  /** A sign, if any, and digits. */
  predicate Numeral(s: string) {
    Digits(s) || (s != "" && (s[0] == '-' || s[0] == '+') && Digits(s[1..]))
  }

  /** A line that would read as markdown: it starts with one of seven marks, or with a number of up to
      three bytes, a dot and a space. */
  lemma MarkdownIff(line: string)
    requires line != ""
    ensures IsMarkdownLine(line) <==>
              || line[0] in "-*+>#`|"
              || exists k :: 1 <= k <= 3 && k + 1 < |line| && line[k] == '.' && line[k + 1] == ' ' && Numeral(line[..k])
  {
    var i := DotSpace(line);
    forall k | 1 <= k <= 3 && DotSpaceAt(line, k) && Numeral(line[..k]) ensures i == k && IsNumber(line[..i]) {
      NoDot(line[..k]);
      assert forall j :: 0 <= j < k ==> line[j] == line[..k][j];
      NumeralIs(line[..k]);
    }
    if 0 < i <= 3 {
      NumeralIs(line[..i]);
    }
  }

  lemma NoDot(s: string)
    requires Numeral(s)
    ensures forall j :: 0 <= j < |s| ==> s[j] != '.'
  {
    assert forall j :: 1 <= j < |s| ==> s[j] == s[1..][j - 1];
  }

  lemma NumeralIs(s: string)
    ensures Numeral(s) <==> IsNumber(s)
  {
    if IsNumber(s) {
      NumberIsNumeral(s);
    }
    if Numeral(s) {
      NumeralIsNumber(s);
    }
  }

  lemma NumberIsNumeral(s: string)
    requires IsNumber(s)
    ensures Numeral(s)
  {
  }

  lemma NumeralIsNumber(s: string)
    requires Numeral(s)
    ensures IsNumber(s)
  {
    assert s[0] == '-' || s[0] == '+' ==> !Digits(s);
  }

  /** A line is an entry if and only if, trimmed, it does not read as markdown and is a key, a colon and a
      text: the key up to the first colon, of at most 80 bytes and without the marks, neither blank, and
      both trimmed. */
  lemma EntryIff(raw: string, key: string, text: string)
    ensures ReadLine(raw) == Entry(Compaction.Parsed(key, text)) <==>
              var line := TrimSpace(raw);
              && line != "" && !IsMarkdownLine(line) && key != "" && text != "" && |key| <= 80 && Unmarked(key)
              && exists k :: KeyUpTo(line, k) && TrimSpace(line[..k]) == key && TrimSpace(line[k + 1..]) == text
  {
    hide ReadLine, TrimSpace, IsMarkdownLine, Unmarked;
    var line := TrimSpace(raw);
    if ReadLine(raw) == Entry(Compaction.Parsed(key, text)) {
      var k := EntryParts(raw);
    }
    forall k | KeyUpTo(line, k) && TrimSpace(line[..k]) == key && TrimSpace(line[k + 1..]) == text
      ensures line != "" && !IsMarkdownLine(line) && key != "" && text != "" && |key| <= 80 && Unmarked(key) ==>
                ReadLine(raw) == Entry(Compaction.Parsed(key, text))
    {
      EntryFrom(raw, k);
    }
  }

  lemma EntryParts(raw: string) returns (k: int)
    requires ReadLine(raw).Entry?
    ensures var line, p := TrimSpace(raw), ReadLine(raw).entry;
            && line != "" && !IsMarkdownLine(line) && p.key != "" && p.text != "" && |p.key| <= 80 && Unmarked(p.key)
            && KeyUpTo(line, k) && TrimSpace(line[..k]) == p.key && TrimSpace(line[k + 1..]) == p.text
  {
    hide IsMarkdownLine, TrimSpace, HasMark, Unmarked, IndexByte;
    k := IndexByte(TrimSpace(raw), ':');
    UnmarkedIff(ReadLine(raw).entry.key);
  }

  lemma EntryFrom(raw: string, k: int)
    requires KeyUpTo(TrimSpace(raw), k)
    ensures var line := TrimSpace(raw);
            var key, text := TrimSpace(line[..k]), TrimSpace(line[k + 1..]);
            line != "" && !IsMarkdownLine(line) && key != "" && text != "" && |key| <= 80 && Unmarked(key) ==>
              ReadLine(raw) == Entry(Compaction.Parsed(key, text))
  {
    hide IsMarkdownLine, TrimSpace, HasMark, Unmarked, IndexByte;
    var line := TrimSpace(raw);
    IndexByteIs(line, ':', k);
    UnmarkedIff(TrimSpace(line[..k]));
    TrimmedNothing(line);
  }

  /** The first colon of the line. */
  predicate KeyUpTo(line: string, k: int) {
    0 <= k < |line| && line[k] == ':' && ':' !in line[..k]
  }

  predicate Unmarked(key: string) {
    '`' !in key && '*' !in key && '#' !in key && '|' !in key
  }

  lemma UnmarkedIff(key: string)
    ensures Unmarked(key) <==> !HasMark(key)
  {
    if !Unmarked(key) {
      var k :| 0 <= k < |key| && (key[k] == '`' || key[k] == '*' || key[k] == '#' || key[k] == '|');
    }
  }

  lemma TrimmedNothing(s: string)
    ensures TrimSpace(s[..0]) == ""
  {
    assert s[..0] == "";
  }

  /** Any other line that is not blank is refused, for one of two reasons. */
  lemma RefusedIff(raw: string)
    ensures var line := TrimSpace(raw);
            && (ReadLine(raw) == Blank <==> line == "")
            && (ReadLine(raw) == Bad(Markdown(line)) <==> line != "" && IsMarkdownLine(line))
            && (ReadLine(raw).Bad? ==> ReadLine(raw).error == Markdown(line) || ReadLine(raw).error == NotAnEntry(line))
  {
    hide IsMarkdownLine, TrimSpace, IndexByte, HasMark;
  }

  // ----- the answer -----

  /** An answer is refused for its first faulty line, or because it has no entry. */
  lemma {:induction false} FirstFault(lines: seq<string>)
    ensures ReadLines(lines).Failed? ==>
              exists k :: 0 <= k < |lines| && ReadLine(lines[k]) == Bad(ReadLines(lines).error)
                          && forall j :: 0 <= j < k ==> !ReadLine(lines[j]).Bad?
    ensures ReadLines(lines).Entries? ==>
              && (forall k :: 0 <= k < |lines| ==> !ReadLine(lines[k]).Bad?)
              && (ReadLines(lines).list == [] <==> forall k :: 0 <= k < |lines| ==> ReadLine(lines[k]).Blank?)
  {
    hide ReadLine;
    if lines != [] {
      FirstFault(lines[..|lines| - 1]);
    }
  }

  /** What was read last for a key. */
  ghost predicate LastSaid(lines: seq<string>, p: Parsed) {
    exists k :: 0 <= k < |lines| && ReadLine(lines[k]) == Entry(p)
                && forall j :: k < j < |lines| && ReadLine(lines[j]).Entry? ==> ReadLine(lines[j]).entry.key != p.key
  }

  lemma {:induction false} LastRead(lines: seq<string>, p: Parsed)
    requires ReadLines(lines).Entries?
    ensures var es := ReadLines(lines).list; LastSaid(lines, p) <==> LastKeyAt(es, p.key) >= 0 && es[LastKeyAt(es, p.key)] == p
  {
    hide ReadLine, LastKeyAt;
    if lines == [] {
    } else {
      var n := |lines| - 1;
      var front := lines[..n];
      LastRead(front, p);
      LastSnoc(front, lines[n], p);
      assert lines == front + [lines[n]];
      if ReadLine(lines[n]).Entry? {
        AtSnoc(ReadLines(front).list, ReadLine(lines[n]).entry, p.key);
      }
    }
  }

  lemma LastSnoc(front: seq<string>, line: string, p: Parsed)
    ensures LastSaid(front + [line], p) <==>
              if ReadLine(line).Entry? && ReadLine(line).entry.key == p.key then ReadLine(line).entry == p else LastSaid(front, p)
  {
    hide ReadLine;
    var lines := front + [line];
    if LastSaid(front, p) && !(ReadLine(line).Entry? && ReadLine(line).entry.key == p.key) {
      var k :| 0 <= k < |front| && ReadLine(front[k]) == Entry(p)
               && forall j :: k < j < |front| && ReadLine(front[j]).Entry? ==> ReadLine(front[j]).entry.key != p.key;
      assert lines[k] == front[k];
    }
    if LastSaid(lines, p) {
      var k :| 0 <= k < |lines| && ReadLine(lines[k]) == Entry(p)
               && forall j :: k < j < |lines| && ReadLine(lines[j]).Entry? ==> ReadLine(lines[j]).entry.key != p.key;
      assert k < |front| ==> front[k] == lines[k] && lines[|front|] == line;
      assert forall j :: 0 <= j < |front| ==> front[j] == lines[j];
    }
    assert lines[|front|] == line;
  }

  /** Applying an accepted answer stores it as it was read: the scope then holds, under each key, the text of
      the last line with that key, and nothing else. */
  lemma AnswerIsStored(out: string, s: Compaction.Store, scope: Compaction.Scope, replaced: seq<Compaction.Row>, now: nat)
    requires ParseList(out).Entries?
    ensures var done := Compaction.Apply(s, scope, replaced, ParseList(out).list, now);
            && done.Some?
            && forall key, text :: LastSaid(SplitLines(out), Compaction.Parsed(key, text)) <==>
                 var k := Compaction.Key(scope, key);
                 k in done.value.0.memories && done.value.0.memories[k].text == text
  {
    var lines, list := SplitLines(out), ParseList(out).list;
    ParseIsSound(out, s, scope, replaced, now);
    Compaction.ApplyStores(s, scope, replaced, list, now);
    var m := Compaction.Apply(s, scope, replaced, list, now).value.0.memories;
    assert ReadLines(lines).Entries?;
    hide *;
    forall key, text ensures LastSaid(lines, Compaction.Parsed(key, text)) <==>
                               (Compaction.Key(scope, key) in m && m[Compaction.Key(scope, key)].text == text) {
      LastRead(lines, Compaction.Parsed(key, text));
      MergedHas(list, ReadLines(lines).list, key);
      Stored(m, scope, list, key);
    }
  }

  lemma Stored(m: map<Compaction.Key, Compaction.Memory>, scope: Compaction.Scope, list: seq<Parsed>, key: string)
    requires forall i :: 0 <= i < |list| ==>
               Compaction.Key(scope, list[i].key) in m && m[Compaction.Key(scope, list[i].key)].text == list[i].text
    requires forall k :: k in m && k.scope == scope ==> exists i :: 0 <= i < |list| && list[i].key == k.key
    ensures Compaction.Key(scope, key) in m <==> exists i :: 0 <= i < |list| && list[i].key == key
    ensures forall p :: p in list && p.key == key ==>
        Compaction.Key(scope, key) in m && m[Compaction.Key(scope, key)].text == p.text
  {
  }

  lemma MergedHas(list: seq<Parsed>, es: seq<Parsed>, key: string)
    requires Merges(list, es)
    ensures if LastKeyAt(es, key) < 0 then forall i :: 0 <= i < |list| ==> list[i].key != key
            else es[LastKeyAt(es, key)] in list
  {
    hide KeyAt, LastKeyAt;
  }

  // ----- the list as it is printed -----

  /** Collapsed text has no white space but single blanks between its words. */
  lemma CollapsedBlanks(s: string)
    ensures var c := Collapse(s);
            Trimmed(c) && forall k :: 0 <= k < |c| && LeadingSpace(c[k..]) > 0 ==>
              c[k] == ' ' && 0 < k < |c| - 1 && LeadingSpace(c[k + 1..]) == 0
  {
    FieldsAreWords(s);
    JoinedWords(Fields(s));
    SingleBlanks(Fields(s));
  }

  lemma {:induction false} SingleBlanks(ws: seq<string>)
    requires AreWords(ws)
    ensures var c := Join(ws, " ");
            forall k :: 0 <= k < |c| && LeadingSpace(c[k..]) > 0 ==>
                c[k] == ' ' && 0 < k < |c| - 1 && LeadingSpace(c[k + 1..]) == 0
  {
    hide LeadingSpace, TrailingSpace;
    if ws != [] {
      var w, c := ws[0], Join(ws, " ");
      assert IsWord(w);
      if |ws| > 1 {
        var rest := Join(ws[1..], " ");
        JoinedWords(ws[1..]);
        SingleBlanks(ws[1..]);
        assert c == w + (" " + rest);
        forall k | 0 <= k < |c| && LeadingSpace(c[k..]) > 0
          ensures c[k] == ' ' && 0 < k < |c| - 1 && LeadingSpace(c[k + 1..]) == 0
        {
          BlankAt(w, rest, k);
        }
      }
    }
  }

  lemma BlankAt(w: string, rest: string, k: nat)
    requires IsWord(w) && Trimmed(rest) && rest != "" && k < |w| + 1 + |rest| && LeadingSpace((w + (" " + rest))[k..]) > 0
    requires forall j :: 0 <= j < |rest| && LeadingSpace(rest[j..]) > 0 ==>
               rest[j] == ' ' && 0 < j < |rest| - 1 && LeadingSpace(rest[j + 1..]) == 0
    ensures var c := w + (" " + rest); c[k] == ' ' && 0 < k < |c| - 1 && LeadingSpace(c[k + 1..]) == 0
  {
    hide LeadingSpace, TrailingSpace;
    var c := w + (" " + rest);
    if k < |w| {
      assert c[k..] == w[k..] + (" " + rest);
      LeadingSpaceAppend(w[k..], " " + rest);
    } else if k == |w| {
      assert c[k + 1..] == rest;
    } else {
      var j := k - |w| - 1;
      assert c[k..] == rest[j..];
      assert j + 1 < |rest| ==> c[k + 1..] == rest[j + 1..];
    }
  }

  /** Each memory is printed on a line of its own: the key, a colon, a blank and the collapsed text. */
  lemma {:induction false} PrintIs(ms: seq<Parsed>)
    requires forall i :: 0 <= i < |ms| ==> '\n' !in ms[i].key
    ensures |SplitLines(Print(ms))| == |ms| + 1 && SplitLines(Print(ms))[|ms|] == ""
    ensures forall i :: 0 <= i < |ms| ==> SplitLines(Print(ms))[i] == ms[i].key + ": " + Collapse(ms[i].text)
  {
    if ms == [] {
      OneLine("");
    } else {
      var line, rest := ms[0].key + ": " + Collapse(ms[0].text), Print(ms[1..]);
      FieldsAreWords(ms[0].text);
      JoinedWords(Fields(ms[0].text));
      hide SplitLines, Collapse;
      PrintIs(ms[1..]);
      assert Print(ms) == line + "\n" + rest;
      SplitFirst(line, rest);
    }
  }
}
