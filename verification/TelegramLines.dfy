/** What becomes of each line of a reply. */
module TelegramLines {
  import opened GoStrings
  import opened TelegramGrammar
  import opened TelegramRender
  import opened TelegramPlain
  import opened TelegramMarkup

  // ----- which lines are fences -----

  predicate Blanks(s: string) {
    forall k :: 0 <= k < |s| ==> IsBlank(s[k])
  }

  /** A fence: blanks, three backticks or more, and an info string. */
  predicate FenceParts(line: string, indent: string, n: nat, info: string) {
    line == indent + Ticks(n) + info && Blanks(indent) && n >= 3 && (info == "" || info[0] != '`')
  }

  ghost predicate IsFence(line: string) {
    exists indent, n: nat, info :: FenceParts(line, indent, n, info)
  }

  /** One that closes a block of `ticks` backticks: at least as many, and no info string. */
  ghost predicate IsClosing(line: string, ticks: nat) {
    exists indent, n: nat, info :: FenceParts(line, indent, n, info) && n >= ticks && TrimSpace(info) == ""
  }

  /** Such a line is read as a fence with that many backticks and the trimmed info string. */
  lemma FenceIs(line: string, indent: string, n: nat, info: string)
    requires FenceParts(line, indent, n, info)
    ensures CodeFence(line) == Fence(n, TrimSpace(info))
  {
    hide TrimSpace, BacktickRun, TrimLeftBlank;
    var rest := Ticks(n) + info;
    assert line == indent + rest;
    assert rest[0] == '`';
    TrimIndent(indent, rest);
    TicksRun(rest, 0, n);
    assert rest[n..] == info;
  }

  /** No other line is. */
  lemma PartsOf(line: string) returns (indent: string, n: nat, info: string)
    requires CodeFence(line).Fence?
    ensures FenceParts(line, indent, n, info)
  {
    hide TrimSpace, BacktickRun, TrimLeftBlank;
    var t := TrimLeftBlank(line);
    indent, n := line[..|line| - |t|], BacktickRun(t, 0);
    info := t[n..];
    RunOfBackticks(t, 0);
    assert t == Ticks(n) + info;
    assert line == indent + t;
  }

  lemma FenceIff(line: string)
    ensures CodeFence(line).Fence? <==> IsFence(line)
  {
    hide CodeFence, FenceParts, TrimSpace;
    if IsFence(line) {
      var indent, n: nat, info :| FenceParts(line, indent, n, info);
      FenceIs(line, indent, n, info);
    }
    if CodeFence(line).Fence? {
      var indent, n, info := PartsOf(line);
    }
  }

  lemma ClosingIff(line: string, ticks: nat)
    ensures ClosesFence(line, ticks) <==> IsClosing(line, ticks)
  {
    hide CodeFence, FenceParts, TrimSpace;
    if IsClosing(line, ticks) {
      var indent, n: nat, info :| FenceParts(line, indent, n, info) && n >= ticks && TrimSpace(info) == "";
      FenceIs(line, indent, n, info);
    }
    if ClosesFence(line, ticks) {
      var indent, n, info := PartsOf(line);
      FenceIs(line, indent, n, info);
    }
  }

  // ----- line ends -----

  /** The text without the carriage return that belongs to the newline after it. */
  function Chop(s: string): string {
    if s != "" && s[|s| - 1] == '\r' then s[..|s| - 1] else s
  }

  /** `strings.ReplaceAll(s, "\r\n", "\n")`. */
  function Unix(s: string): string {
    ReplaceAll(s, "\r\n", "\n")
  }

  lemma UnixStep(s: string)
    requires s != ""
    ensures Unix(s) == if HasPrefix(s, "\r\n") then "\n" + Unix(s[2..]) else [s[0]] + Unix(s[1..])
  {
  }

  lemma ChopStep(a: string, n: nat, b: string)
    requires a != "" && a != "\r" && n == if HasPrefix(a, "\r\n") then 2 else 1
    ensures var c, all := Chop(a), a + "\n" + b;
            && all != "" && all[0] == a[0] && all[n..] == a[n..] + "\n" + b && (HasPrefix(all, "\r\n") <==> n == 2)
            && c != "" && c[0] == a[0] && n <= |c| && c[n..] == Chop(a[n..]) && (HasPrefix(c, "\r\n") <==> n == 2)
  {
    var c, all := Chop(a), a + "\n" + b;
    assert all[0] == a[0] && all[1] == if |a| > 1 then a[1] else '\n';
    assert n == 2 ==> a[0] == '\r' && a[1] == '\n';
    assert |c| > 1 ==> c[1] == a[1];
  }

  /** A newline is kept, and takes the carriage return before it along. */
  lemma {:induction false} NewlineStays(a: string, b: string)
    ensures Unix(a + "\n" + b) == Unix(Chop(a)) + "\n" + Unix(b)
  {
    var all := a + "\n" + b;
    UnixStep(all);
    if a == "" {
      assert all[0] == '\n' && all[1..] == b;
      assert Unix(all) == ['\n'] + Unix(b);
      assert Unix(Chop(a)) + "\n" == "\n";
    } else if a == "\r" {
      assert all == "\r\n" + b && all[2..] == b;
      assert Unix(Chop(a)) + "\n" == "\n";
    } else {
      hide Unix, Chop, HasPrefix;
      var n := if HasPrefix(a, "\r\n") then 2 else 1;
      ChopStep(a, n, b);
      UnixStep(Chop(a));
      NewlineStays(a[n..], b);
      var c, head := Chop(a), if n == 2 then "\n" else [a[0]];
      assert Unix(all) == head + Unix(all[n..]) && Unix(c) == head + Unix(c[n..]);
      Regroup(head, Unix(Chop(a[n..])), Unix(b));
    }
  }

  /** The lines of a text, line ends of either kind. */
  function TextLines(text: string): seq<string> {
    SplitLines(Unix(text))
  }

  lemma TextLinesConcat(a: string, b: string)
    ensures TextLines(a + "\n" + b) == TextLines(Chop(a)) + TextLines(b)
  {
    NewlineStays(a, b);
    SplitConcat(Unix(Chop(a)), Unix(b));
  }

  // ----- the lines, one after the other -----

  function EachLine(lines: seq<string>): seq<string> {
    seq(|lines|, k requires 0 <= k < |lines| => RenderBlockLine(lines[k]))
  }

  lemma {:induction false} EndShift(a: seq<string>, b: seq<string>, i: nat, ticks: nat)
    requires i <= |b|
    ensures FenceEnd(a + b, |a| + i, ticks) == |a| + FenceEnd(b, i, ticks)
    decreases |b| - i
  {
    hide ClosesFence;
    if i < |b| && !ClosesFence(b[i], ticks) {
      EndShift(a, b, i + 1, ticks);
    }
  }

  /** What comes before does not matter. */
  lemma {:induction false} LinesShift(a: seq<string>, b: seq<string>, i: nat)
    requires i <= |b|
    ensures RenderLines(a + b, |a| + i) == RenderLines(b, i)
    decreases |b| - i
  {
    hide CodeFence, FenceEnd, RenderLines, RenderBlockLine, RenderCodeBlock, Join;
    RenderLinesStep(a + b, |a| + i);
    RenderLinesStep(b, i);
    if i < |b| {
      assert (a + b)[|a| + i] == b[i];
      match CodeFence(b[i])
      case NoFence =>
        LinesShift(a, b, i + 1);
      case Fence(ticks, info) =>
        EndShift(a, b, i + 1, ticks);
        var end := FenceEnd(b, i + 1, ticks);
        assert (a + b)[|a| + (i + 1)..|a| + end] == b[i + 1..end];
        LinesShift(a, b, if end < |b| then end + 1 else end);
    }
  }

  lemma {:induction false} PlainFirst(pre: seq<string>, rest: seq<string>)
    requires forall k :: 0 <= k < |pre| ==> !IsFence(pre[k])
    ensures RenderLines(pre + rest, 0) == EachLine(pre) + RenderLines(rest, 0)
  {
    hide IsFence, CodeFence, RenderLines, RenderBlockLine;
    if pre == [] {
      assert pre + rest == rest;
    } else {
      var more := pre[1..] + rest;
      assert pre + rest == [pre[0]] + more;
      FenceIff(pre[0]);
      RenderLinesStep(pre + rest, 0);
      LinesShift([pre[0]], more, 0);
      PlainFirst(pre[1..], rest);
      assert EachLine(pre) == [RenderBlockLine(pre[0])] + EachLine(pre[1..]);
    }
  }

  // ----- code blocks -----

  /** The block that starts at `open` goes to the first closing fence, or to the end of the text. */
  lemma BlockEnd(open: string, body: seq<string>, close: seq<string>, post: seq<string>, ticks: nat)
    requires forall k :: 0 <= k < |body| ==> !ClosesFence(body[k], ticks)
    requires if close == [] then post == [] else |close| == 1 && ClosesFence(close[0], ticks)
    ensures var lines := [open] + body + close + post;
            FenceEnd(lines, 1, ticks) == 1 + |body| && lines[1..1 + |body|] == body
  {
    hide ClosesFence;
    var lines := [open] + body + close + post;
    FenceEndIsFirst(lines, 1, ticks);
    var end := FenceEnd(lines, 1, ticks);
    assert forall k :: 1 <= k < 1 + |body| ==> lines[k] == body[k - 1];
    assert close != [] ==> lines[1 + |body|] == close[0];
  }

  /** Lines without fences, then a block, then anything: the lines one by one, the block as one, and the
      rest as if it stood alone. */
  lemma BlockRenders(pre: seq<string>, open: string, body: seq<string>, close: seq<string>, post: seq<string>)
    requires forall k :: 0 <= k < |pre| ==> !IsFence(pre[k])
    requires CodeFence(open).Fence? && forall k :: 0 <= k < |body| ==> !ClosesFence(body[k], CodeFence(open).ticks)
    requires if close == [] then post == [] else |close| == 1 && ClosesFence(close[0], CodeFence(open).ticks)
    ensures RenderLines(pre + ([open] + body + close + post), 0)
         == EachLine(pre) + ([RenderCodeBlock(CodeFence(open).info, Join(body, "\n"))] + RenderLines(post, 0))
  {
    hide *;
    var head := [open] + body + close;
    PlainFirst(pre, head + post);
    BlockEnd(open, body, close, post, CodeFence(open).ticks);
    RenderLinesStep(head + post, 0);
    LinesShift(head, post, 0);
    assert (head + post)[0] == open;
  }

  lemma {:induction false} JoinConcat(a: seq<string>, b: seq<string>)
    requires a != [] && b != []
    ensures Join(a + b, "\n") == Join(a, "\n") + "\n" + Join(b, "\n")
  {
    if |a| > 1 {
      JoinConcat(a[1..], b);
      assert (a + b)[1..] == a[1..] + b;
      assert Join(a, "\n") == a[0] + "\n" + Join(a[1..], "\n");
      Regroup(a[0] + "\n", Join(a[1..], "\n"), Join(b, "\n"));
    } else {
      assert (a + b)[1..] == b;
    }
  }

  lemma LinesRender(lines: seq<string>)
    ensures lines != [] ==> RenderLines(lines, 0) != []
    ensures (forall k :: 0 <= k < |lines| ==> !IsFence(lines[k])) ==> RenderLines(lines, 0) == EachLine(lines)
  {
    hide IsFence, CodeFence, RenderLines, RenderBlockLine, RenderCodeBlock, Join;
    RenderLinesStep(lines, 0);
    if forall k :: 0 <= k < |lines| ==> !IsFence(lines[k]) {
      PlainFirst(lines, []);
      RenderLinesStep([], 0);
      assert lines + [] == lines && EachLine(lines) + [] == EachLine(lines);
    }
  }

  // ----- whole texts -----

  ghost predicate FenceFree(text: string) {
    forall k :: 0 <= k < |TextLines(text)| ==> !IsFence(TextLines(text)[k])
  }

  ghost predicate NoClosing(text: string, ticks: nat) {
    forall k :: 0 <= k < |TextLines(text)| ==> !IsClosing(TextLines(text)[k], ticks)
  }

  lemma RenderIs(text: string)
    ensures Render(text) == Join(RenderLines(TextLines(text), 0), "\n")
  {
  }

  /** A text without fences renders line by line. */
  lemma RendersLineByLine(text: string)
    requires FenceFree(text)
    ensures Render(text) == Join(EachLine(TextLines(text)), "\n")
  {
    RenderIs(text);
    hide IsFence, RenderLines, Render, Join, TextLines, EachLine;
    LinesRender(TextLines(text));
  }

  lemma {:induction false} NoNewline(s: string)
    requires '\n' !in s
    ensures Unix(s) == s
  {
    if s != "" {
      NoNewline(s[1..]);
      assert !HasPrefix(s, "\r\n") by {
        assert |s| > 1 ==> s[1] in s;
      }
    }
  }

  /** A line is one line. */
  lemma OneTextLine(line: string)
    requires '\n' !in line
    ensures TextLines(line) == [line]
  {
    NoNewline(line);
    OneLine(line);
  }

  lemma UnixLines(text: string)
    ensures Join(TextLines(text), "\n") == Unix(text) && TextLines(text) != []
  {
    JoinSplit(Unix(text));
  }

  lemma ChopLine(line: string)
    requires '\n' !in line
    ensures TextLines(Chop(line)) == [Chop(line)]
  {
    OneTextLine(Chop(line));
  }

  /** A block that goes on to the end of the text, closed or not. */
  lemma LastBlockRenders(text: string, pre: seq<string>, open: string, body: seq<string>, close: seq<string>,
                         indent: string, n: nat, info: string)
    requires TextLines(text) == pre + ([open] + body + close) && FenceParts(open, indent, n, info)
    requires (forall k :: 0 <= k < |pre| ==> !IsFence(pre[k])) && (forall k :: 0 <= k < |body| ==> !IsClosing(body[k], n))
    requires close == [] || (|close| == 1 && IsClosing(close[0], n))
    ensures Render(text) == Join(EachLine(pre) + [RenderCodeBlock(TrimSpace(info), Join(body, "\n"))], "\n")
  {
    hide *;
    Closings(body, close, n);
    FenceIs(open, indent, n, info);
    BlockRenders(pre, open, body, close, []);
    assert [open] + body + close + [] == [open] + body + close;
    NoLines();
    var block := [RenderCodeBlock(TrimSpace(info), Join(body, "\n"))];
    assert block + [] == block;
    RenderIs(text);
  }

  lemma NoLines()
    ensures RenderLines([], 0) == []
  {
  }

  lemma Closings(body: seq<string>, close: seq<string>, n: nat)
    requires forall k :: 0 <= k < |body| ==> !IsClosing(body[k], n)
    requires close == [] || (|close| == 1 && IsClosing(close[0], n))
    ensures forall k :: 0 <= k < |body| ==> !ClosesFence(body[k], n)
    ensures close != [] ==> ClosesFence(close[0], n)
  {
    hide *;
    forall k | 0 <= k < |body| ensures !ClosesFence(body[k], n) {
      ClosingIff(body[k], n);
    }
    if close != [] {
      ClosingIff(close[0], n);
    }
  }

  lemma Between(a: seq<string>, x: string, b: seq<string>)
    ensures a + ([x] + b) == (a + [x]) + b
  {
  }

  /** A closed block with text behind it: that text renders as if it stood alone. */
  lemma BlockThenRest(text: string, pre: seq<string>, open: string, body: seq<string>, close: string, rest: string,
                      indent: string, n: nat, info: string)
    requires TextLines(text) == pre + ([open] + body + [close] + TextLines(rest)) && FenceParts(open, indent, n, info)
    requires (forall k :: 0 <= k < |pre| ==> !IsFence(pre[k])) && (forall k :: 0 <= k < |body| ==> !IsClosing(body[k], n))
    requires IsClosing(close, n)
    ensures Render(text) == Join(EachLine(pre) + [RenderCodeBlock(TrimSpace(info), Join(body, "\n"))], "\n") + "\n" + Render(rest)
  {
    hide *;
    Closings(body, [close], n);
    FenceIs(open, indent, n, info);
    BlockRenders(pre, open, body, [close], TextLines(rest));
    UnixLines(rest);
    LinesRender(TextLines(rest));
    RenderIs(text);
    RenderIs(rest);
    var before, after := EachLine(pre) + [RenderCodeBlock(TrimSpace(info), Join(body, "\n"))], RenderLines(TextLines(rest), 0);
    JoinConcat(before, after);
    Between(EachLine(pre), RenderCodeBlock(TrimSpace(info), Join(body, "\n")), after);
  }

  /** A fenced block between two texts, the one before without fences: the text before, the code in
      `<pre>`, named when the info string names a language, and the text after, each on its own. */
  lemma FencedBlockRenders(pre: string, open: string, body: string, close: string, post: string,
                           indent: string, n: nat, info: string)
    requires '\n' !in open && '\n' !in close && FenceParts(Chop(open), indent, n, info)
    requires FenceFree(Chop(pre)) && NoClosing(Chop(body), n) && IsClosing(Chop(close), n)
    ensures Render(pre + "\n" + (open + "\n" + (body + "\n" + (close + "\n" + post))))
         == Render(Chop(pre)) + "\n" + RenderCodeBlock(TrimSpace(info), Unix(Chop(body))) + "\n" + Render(post)
  {
    var text := pre + "\n" + (open + "\n" + (body + "\n" + (close + "\n" + post)));
    var (before, inside) := (TextLines(Chop(pre)), TextLines(Chop(body)));
    assert (forall k :: 0 <= k < |before| ==> !IsFence(before[k]))
        && (forall k :: 0 <= k < |inside| ==> !IsClosing(inside[k], n));
    RendersLineByLine(Chop(pre));
    UnixLines(Chop(pre));
    assert EachLine(before) != [];
    hide *;
    BlockLines(pre, open, body, close, post);
    BlockThenRest(text, before, Chop(open), inside, Chop(close), post, indent, n, info);
    UnixLines(Chop(body));
    JoinLast(EachLine(before), RenderCodeBlock(TrimSpace(info), Unix(Chop(body))));
  }

  lemma BlockLines(pre: string, open: string, body: string, close: string, post: string)
    requires '\n' !in open && '\n' !in close
    ensures TextLines(pre + "\n" + (open + "\n" + (body + "\n" + (close + "\n" + post))))
         == TextLines(Chop(pre)) + ([Chop(open)] + TextLines(Chop(body)) + [Chop(close)] + TextLines(post))
  {
    hide *;
    var end := close + "\n" + post;
    TextLinesConcat(pre, open + "\n" + (body + "\n" + end));
    TextLinesConcat(open, body + "\n" + end);
    TextLinesConcat(body, end);
    TextLinesConcat(close, post);
    ChopLine(open);
    ChopLine(close);
    Grouped([Chop(open)], TextLines(Chop(body)), [Chop(close)], TextLines(post));
  }

  lemma Grouped(a: seq<string>, b: seq<string>, c: seq<string>, d: seq<string>)
    ensures a + (b + (c + d)) == a + b + c + d
  {
  }

  lemma JoinLast(parts: seq<string>, last: string)
    requires parts != []
    ensures Join(parts + [last], "\n") == Join(parts, "\n") + "\n" + last
  {
    JoinConcat(parts, [last]);
  }

  // ----- single lines and blocks -----

  /** One word of up to 20 letters, digits and `+-#._`. */
  predicate IsLanguage(info: string) {
    1 <= |info| <= 20 && forall k :: 0 <= k < |info| ==>
      'a' <= info[k] <= 'z' || 'A' <= info[k] <= 'Z' || '0' <= info[k] <= '9' || info[k] in "+-#._"
  }

  lemma LanguageIff(info: string)
    ensures IsLanguageTag(info) <==> IsLanguage(info)
  {
    assert forall c: char :: c in "+-#._" <==> c == '+' || c == '-' || c == '#' || c == '.' || c == '_';
  }

  /** Code is shown in `<pre>`, under its language if the info string names one. */
  lemma CodeBlockIs(info: string, body: string)
    ensures RenderCodeBlock(info, body) ==
              if IsLanguage(info) then "<pre><code class=\"language-" + info + "\">" + HtmlEscape(body) + "</code></pre>"
              else "<pre>" + HtmlEscape(body) + "</pre>"
  {
    hide HtmlEscape, IsLanguageTag, IsLanguage;
    LanguageIff(info);
    var e := HtmlEscape(body);
    Tagged("<pre>", LanguageOpen, info + AttrEnd + e, "</code>", "</pre>");
    Literals();
  }

  lemma Literals()
    ensures "<pre>" + LanguageOpen == "<pre><code class=\"language-" && "</code>" + "</pre>" == "</code></pre>"
  {
  }

  lemma Tagged(a: string, b: string, c: string, d: string, e: string)
    ensures a + (b + c + d) + e == (a + b) + c + (d + e)
  {
  }

  predicate IsHeading(rest: string) {
    exists n :: 1 <= n <= 6 && n < |rest| && (forall k :: 0 <= k < n ==> rest[k] == '#') && IsBlank(rest[n])
      && TrimSpace(rest[n..]) != ""
  }

  predicate IsBullet(rest: string) {
    |rest| > 1 && rest[0] in "-*+" && IsBlank(rest[1])
  }

  /** A line that is neither heading nor bullet is its blanks and the rest, rendered. */
  lemma OtherLineRenders(line: string)
    requires !IsHeading(TrimLeftBlank(line)) && !IsBullet(TrimLeftBlank(line))
    ensures var rest := TrimLeftBlank(line); RenderBlockLine(line) == line[..|line| - |rest|] + RenderInline(rest)
  {
    hide TrimSpace, RenderInline, Wrap, HashRun, TrimLeftBlank;
    var rest := TrimLeftBlank(line);
    HashesOnly(rest, 0);
    assert HeadingLevel(rest) == 0 || TrimSpace(rest[HeadingLevel(rest)..]) == "";
    hide HeadingLevel;
  }

  lemma {:induction false} HashesOnly(s: string, i: nat)
    requires i <= |s|
    ensures forall k :: i <= k < i + HashRun(s, i) ==> s[k] == '#'
    decreases |s| - i
  {
    if i < |s| && s[i] == '#' {
      HashesOnly(s, i + 1);
    }
  }

  // ----- text without markup -----

  predicate PlainLine(line: string) {
    AllPlain(line) && !IsHeading(TrimLeftBlank(line)) && !IsBullet(TrimLeftBlank(line))
  }

  lemma {:induction false} EscapedConcat(a: string, b: string)
    ensures Escaped(a + b) == Escaped(a) + Escaped(b)
  {
    if a == "" {
      assert a + b == b;
    } else {
      assert (a + b)[1..] == a[1..] + b;
      EscapedConcat(a[1..], b);
    }
  }

  lemma PlainLineRenders(line: string)
    requires PlainLine(line)
    ensures RenderBlockLine(line) == Escaped(line) && !IsFence(line)
  {
    hide *;
    var rest := TrimLeftBlank(line);
    var k := |line| - |rest|;
    PlainLineParts(line);
    OtherLineRenders(line);
    PlainRest(line, rest);
    EscapeIsOnePass(rest);
    BlanksEscaped(line[..k]);
    EscapedSplit(line, k);
  }

  lemma PlainLineParts(line: string)
    requires PlainLine(line)
    ensures AllPlain(line) && !IsHeading(TrimLeftBlank(line)) && !IsBullet(TrimLeftBlank(line)) && !IsFence(line)
  {
    PlainIsNoFence(line);
  }

  lemma EscapedSplit(line: string, k: nat)
    requires k <= |line|
    ensures Escaped(line) == Escaped(line[..k]) + Escaped(line[k..])
  {
    hide Escaped;
    EscapedConcat(line[..k], line[k..]);
    assert line == line[..k] + line[k..];
  }

  lemma BlanksEscaped(s: string)
    requires forall k :: 0 <= k < |s| ==> s[k] == ' ' || s[k] == '\t'
    ensures Escaped(s) == s
  {
    EscapedSame(s);
  }

  lemma PlainIsNoFence(line: string)
    requires AllPlain(line)
    ensures !IsFence(line)
  {
    FenceHasTick(line);
  }

  lemma FenceHasTick(line: string)
    ensures IsFence(line) ==> exists k :: 0 <= k < |line| && line[k] == '`'
  {
    if IsFence(line) {
      var indent, n: nat, info :| FenceParts(line, indent, n, info);
      assert line[|indent|] == '`';
    }
  }

  lemma PlainRest(line: string, rest: string)
    requires AllPlain(line) && |rest| <= |line| && rest == line[|line| - |rest|..]
    ensures RenderInline(rest) == HtmlEscape(rest)
  {
    hide RenderInline, HtmlEscape;
    forall k | 0 <= k < |rest| ensures IsPlain(rest[k]) {
      assert rest[k] == line[|line| - |rest| + k];
    }
    PlainRenders(rest);
  }

  lemma {:induction false} JoinEscaped(lines: seq<string>)
    requires forall k :: 0 <= k < |lines| ==> PlainLine(lines[k])
    ensures Join(EachLine(lines), "\n") == Escaped(Join(lines, "\n"))
  {
    hide PlainLine, RenderBlockLine, Escaped;
    if lines == [] {
      NothingEscaped();
    } else {
      PlainLineRenders(lines[0]);
      JoinEscaped(lines[1..]);
      assert EachLine(lines)[1..] == EachLine(lines[1..]);
      if |lines| > 1 {
        var rest := Join(lines[1..], "\n");
        EscapedConcat(lines[0] + "\n", rest);
        EscapedConcat(lines[0], "\n");
        NewlineEscaped();
      }
    }
  }

  lemma NothingEscaped()
    ensures Escaped("") == ""
  {
  }

  lemma NewlineEscaped()
    ensures Escaped("\n") == "\n"
  {
    assert "\n"[1..] == "";
  }

  lemma {:induction false} UnixSame(s: string)
    requires !Contains(s, "\r\n")
    ensures Unix(s) == s
  {
    if s != "" {
      UnixSame(s[1..]);
    }
  }

  /** A text without markup is only escaped, and reads as it was written. */
  lemma PlainTextRenders(text: string)
    requires !Contains(text, "\r\n") && forall k :: 0 <= k < |TextLines(text)| ==> PlainLine(TextLines(text)[k])
    ensures Render(text) == HtmlEscape(text) && PlainText(Render(text)) == text
  {
    hide Contains, PlainLine, RenderBlockLine, IsFence, Unix, HtmlEscape, Render, Join, EachLine, PlainText;
    forall k | 0 <= k < |TextLines(text)| ensures !IsFence(TextLines(text)[k]) {
      PlainLineRenders(TextLines(text)[k]);
    }
    RendersLineByLine(text);
    JoinEscaped(TextLines(text));
    UnixLines(text);
    UnixSame(text);
    EscapeIsOnePass(text);
    StripUndoesEscape(text);
  }
}
