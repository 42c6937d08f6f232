/** Markdown to Telegram HTML: what each construct renders to, the loops that compute it, and that every
 * text renders to a complete message. */
module TelegramRender {
  import opened GoStrings
  import opened TelegramGrammar

  // ----- escaping -----

  /** `htmlEscape`. */
  function HtmlEscape(s: string): string {
    ReplaceAll(ReplaceAll(ReplaceAll(s, "&", "&amp;"), "<", "&lt;"), ">", "&gt;")
  }

  function EscapeByte(c: char): string {
    if c == '&' then "&amp;" else if c == '<' then "&lt;" else if c == '>' then "&gt;" else [c]
  }

  /** One pass over the bytes. */
  function Escaped(s: string): string {
    if s == "" then "" else EscapeByte(s[0]) + Escaped(s[1..])
  }

  lemma {:induction false} ReplaceByteConcat(a: string, b: string, c: char, rep: string)
    ensures ReplaceAll(a + b, [c], rep) == ReplaceAll(a, [c], rep) + ReplaceAll(b, [c], rep)
  {
    if a == "" {
      assert a + b == b;
    } else {
      assert (a + b)[1..] == a[1..] + b;
      ReplaceByteConcat(a[1..], b, c, rep);
    }
  }

  /** The three passes of `htmlEscape`, in their order, are one pass. */
  lemma {:induction false} EscapeIsOnePass(s: string)
    ensures HtmlEscape(s) == Escaped(s)
  {
    if s != "" {
      EscapeIsOnePass(s[1..]);
      var a := ReplaceAll([s[0]], "&", "&amp;");
      assert [s[0]] + s[1..] == s;
      ReplaceByteConcat([s[0]], s[1..], '&', "&amp;");
      var b := ReplaceAll(a, "<", "&lt;");
      ReplaceByteConcat(a, ReplaceAll(s[1..], "&", "&amp;"), '<', "&lt;");
      ReplaceByteConcat(b, ReplaceAll(ReplaceAll(s[1..], "&", "&amp;"), "<", "&lt;"), '>', "&gt;");
      assert ReplaceAll(b, ">", "&gt;") == EscapeByte(s[0]) by {
        assert [s[0]][1..] == "";
        if s[0] == '&' {
          assert a == "&amp;";
          Untouched("&amp;", '<', "&lt;");
          Untouched("&amp;", '>', "&gt;");
        } else if s[0] == '<' {
          assert a == [s[0]] && b == "&lt;";
          Untouched("&lt;", '>', "&gt;");
        }
      }
    }
  }

  lemma {:induction false} Untouched(s: string, c: char, rep: string)
    requires c !in s
    ensures ReplaceAll(s, [c], rep) == s
  {
    if s != "" {
      Untouched(s[1..], c, rep);
      assert [s[0]] + s[1..] == s;
    }
  }

  // ----- inline constructs -----

  /** What a recognised construct renders to and where it ends; or that there is none. */
  datatype Span = NoSpan | Span(next: nat, out: string)

  function BacktickRun(s: string, i: nat): (n: nat)
    requires i <= |s|
    ensures i + n <= |s|
    ensures i < |s| && s[i] == '`' ==> n > 0
    decreases |s| - i
  {
    if i < |s| && s[i] == '`' then 1 + BacktickRun(s, i + 1) else 0
  }

  /** Start of the first run of exactly `n` backticks at or after `j`, |s| if there is none. */
  function FenceFrom(s: string, j: nat, n: nat): (r: nat)
    requires j <= |s|
    ensures r == |s| || (j <= r < |s| && s[r] == '`' && BacktickRun(s, r) == n)
    decreases |s| - j
  {
    if j == |s| then j
    else if s[j] != '`' then FenceFrom(s, j + 1, n)
    else if BacktickRun(s, j) == n then j
    else FenceFrom(s, j + BacktickRun(s, j), n)
  }

  /** `inlineCode`. */
  function InlineCode(s: string, i: nat): (r: Span)
    requires i < |s| && s[i] == '`'
    ensures r.NoSpan? || i < r.next <= |s|
  {
    var n := BacktickRun(s, i);
    var j := FenceFrom(s, i + n, n);
    if j == |s| || TrimSpace(s[i + n..j]) == "" then NoSpan
    else Span(j + n, "<code>" + HtmlEscape(s[i + n..j]) + "</code>")
  }

  method ComputeInlineCode(s: string, i: nat) returns (r: Span)
    requires i < |s| && s[i] == '`'
    ensures r == InlineCode(s, i)
  {
    hide HtmlEscape;
    hide TrimSpace;
    hide BacktickRun;
    var n := BacktickRun(s, i);
    var j := i + n;
    while j < |s|
      invariant i + n <= j <= |s|
      invariant FenceFrom(s, j, n) == FenceFrom(s, i + n, n)
      decreases |s| - j
    {
      if s[j] != '`' {
        j := j + 1;
        continue;
      }
      var m := BacktickRun(s, j);
      if m == n {
        var content := s[i + n..j];
        if TrimSpace(content) == "" {
          return NoSpan;
        }
        return Span(j + m, "<code>" + HtmlEscape(content) + "</code>");
      }
      j := j + m;
    }
    return NoSpan;
  }

  const SCHEMES := ["http://", "https://", "tg://", "mailto:"]

  /** `strings.HasPrefix(strings.ToLower(url), scheme)` for a lower-case ASCII scheme. The only code
      point above U+007F whose lower case is a letter of a scheme is U+0130, which maps to 'i'. */
  predicate HasPrefixFold(url: string, scheme: string) {
    if scheme == "" then true
    else if url == "" then false
    else if (if 'A' <= url[0] <= 'Z' then url[0] + ' ' else url[0]) == scheme[0] then HasPrefixFold(url[1..], scheme[1..])
    else scheme[0] == 'i' && |url| >= 2 && url[0] == '\U{C4}' && url[1] == '\U{B0}' && HasPrefixFold(url[2..], scheme[1..])
  }

  predicate HasAllowedScheme(url: string) {
    exists k :: 0 <= k < |SCHEMES| && HasPrefixFold(url, SCHEMES[k])
  }

  predicate AcceptableUrl(url: string) {
    url != "" && (forall k :: 0 <= k < |url| ==> IsHrefByte(url[k])) && HasAllowedScheme(url)
  }

  /** The closing bracket of a label at `i`, and the target and end of a well-formed link. */
  datatype LinkParts = NoLink | LinkParts(bracket: nat, url: string, next: nat)

  function ParseLink(s: string, i: nat): (r: LinkParts)
    requires i < |s| && s[i] == '['
    ensures r.LinkParts? ==> i < r.bracket < r.next <= |s| && ']' !in s[i..r.bracket] && s[r.bracket] == ']'
    ensures r.LinkParts? ==> AcceptableUrl(r.url)
  {
    var bracket := IndexByte(s[i..], ']');
    if bracket < 0 || i + bracket + 1 >= |s| || s[i + bracket + 1] != '(' then NoLink
    else
      assert s[i..][..bracket] == s[i..i + bracket];
      var end := IndexByte(s[i + bracket + 2..], ')');
      if end < 0 then NoLink
      else
        var url := TrimSpace(s[i + bracket + 2..i + bracket + 2 + end]);
        if AcceptableUrl(url) then LinkParts(i + bracket, url, i + bracket + 2 + end + 1) else NoLink
  }

  function LinkOut(url: string, text: string, rendered: string): string {
    "<a href=\"" + HtmlEscape(url) + "\">" + (if TrimSpace(text) == "" then HtmlEscape(url) else rendered) + "</a>"
  }

  predicate IsWordByte(c: char) {
    c == '_' || c >= '\U{80}' || IsLetter(c) || '0' <= c <= '9'
  }

  predicate IsSpaceByte(c: char) {
    c == ' ' || c == '\t' || c == '\n'
  }

  /** `emphasisDelimiter`: the delimiter and tag at `i`, both empty when there is none. */
  function EmphasisDelimiter(s: string, i: nat): (r: (string, string))
    requires i < |s|
    ensures r.0 == "" || (r.1 in {"b", "i", "s"} && HasPrefix(s[i..], r.0))
  {
    var t := s[i..];
    if HasPrefix(t, "***") then ("", "")
    else if HasPrefix(t, "**") then ("**", "b")
    else if HasPrefix(t, "__") then ("__", "b")
    else if HasPrefix(t, "~~") then ("~~", "s")
    else if s[i] == '*' then ("*", "i")
    else if s[i] == '_' then ("_", "i")
    else ("", "")
  }

  /** Whether the delimiter at `j` may close the emphasis whose content starts at `from`. */
  predicate Closes(s: string, from: nat, j: nat, delim: string)
    requires from <= j && j + |delim| <= |s|
  {
    && !(delim == "_" && j + 1 < |s| && IsWordByte(s[j + 1]))
    && from < j && !IsSpaceByte(s[from]) && !IsSpaceByte(s[j - 1])
  }

  /** Where the emphasis whose content starts at `from` closes, searching from `j` and passing over
      code spans; |s| if it does not. */
  function EmphasisEnd(s: string, from: nat, j: nat, delim: string): (r: nat)
    requires from <= j <= |s| && delim != ""
    ensures r == |s| || (j <= r < |s| && HasPrefix(s[r..], delim) && Closes(s, from, r, delim))
    decreases |s| - j
  {
    if j == |s| then j
    else if s[j] == '`' && InlineCode(s, j).Span? then EmphasisEnd(s, from, InlineCode(s, j).next, delim)
    else if !HasPrefix(s[j..], delim) then EmphasisEnd(s, from, j + 1, delim)
    else if Closes(s, from, j, delim) then j
    else EmphasisEnd(s, from, j + |delim|, delim)
  }

  /** Content bounds and tag of the emphasis at `i`, if it is one. */
  datatype Emphasis = NoEmphasis | Emphasis(from: nat, to: nat, next: nat, tag: string)

  function ParseEmphasis(s: string, i: nat): (r: Emphasis)
    requires i < |s|
    ensures r.NoEmphasis? || (i < r.from < r.to < r.next <= |s| && r.tag in {"b", "i", "s"})
  {
    var (delim, tag) := EmphasisDelimiter(s, i);
    if delim == "" || (delim == "_" && i > 0 && IsWordByte(s[i - 1])) then NoEmphasis
    else
      var from := i + |delim|;
      var j := EmphasisEnd(s, from, from, delim);
      if j == |s| then NoEmphasis else Emphasis(from, j, j + |delim|, tag)
  }

  function Wrap(tag: string, content: string): string {
    "<" + tag + ">" + content + "</" + tag + ">"
  }

  /** The construct at `i`. */
  function SpanAt(s: string, i: nat): (r: Span)
    requires i < |s|
    ensures r.NoSpan? || i < r.next <= |s|
    decreases |s|, 1
  {
    if s[i] == '`' then InlineCode(s, i)
    else if s[i] == '[' then LinkSpan(s, ParseLink(s, i), i)
    else if s[i] == '*' || s[i] == '_' || s[i] == '~' then EmphasisSpan(s, ParseEmphasis(s, i), i)
    else NoSpan
  }

  /** A link: its label is rendered. */
  function LinkSpan(s: string, parts: LinkParts, i: nat): (r: Span)
    requires parts.LinkParts? ==> i < parts.bracket < parts.next <= |s|
    ensures r.NoSpan? || i < r.next <= |s|
    decreases |s|, 0
  {
    match parts
    case NoLink => NoSpan
    case LinkParts(bracket, url, next) =>
      Span(next, LinkOut(url, s[i + 1..bracket], RenderFrom(s[i + 1..bracket], 0)))
  }

  /** Emphasis: its content is rendered. */
  function EmphasisSpan(s: string, e: Emphasis, i: nat): (r: Span)
    requires e.Emphasis? ==> i < e.from < e.to < e.next <= |s|
    ensures r.NoSpan? || i < r.next <= |s|
    decreases |s|, 0
  {
    match e
    case NoEmphasis => NoSpan
    case Emphasis(from, to, next, tag) => Span(next, Wrap(tag, RenderFrom(s[from..to], 0)))
  }

  /** `renderInlineTelegramHTML` from `i` on: a construct, or one escaped byte, and the rest. */
  function RenderFrom(s: string, i: nat): string
    requires i <= |s|
    decreases |s|, 2 + |s| - i
  {
    if i == |s| then ""
    else if SpanAt(s, i).Span? then SpanAt(s, i).out + RenderFrom(s, SpanAt(s, i).next)
    else EscapeByte(s[i]) + RenderFrom(s, i + 1)
  }

  function RenderInline(s: string): string {
    RenderFrom(s, 0)
  }

  method RenderInlineTelegramHTML(s: string) returns (b: string)
    ensures b == RenderInline(s)
    decreases |s|, 1
  {
    hide SpanAt;
    hide InlineCode;
    hide EscapeByte;
    b := "";
    var i := 0;
    while i < |s|
      invariant i <= |s|
      invariant b + RenderFrom(s, i) == RenderFrom(s, 0)
      decreases |s| - i
    {
      var span := NoSpan;
      if s[i] == '`' {
        span := ComputeInlineCode(s, i);
      } else if s[i] == '[' {
        span := InlineLink(s, i);
      } else if s[i] == '*' || s[i] == '_' || s[i] == '~' {
        span := InlineEmphasis(s, i);
      }
      assert span == SpanAt(s, i) by {
        SpanKinds(s, i);
      }
      if span.Span? {
        assert b + (span.out + RenderFrom(s, span.next)) == b + span.out + RenderFrom(s, span.next);
        b := b + span.out;
        i := span.next;
        continue;
      }
      assert b + (EscapeByte(s[i]) + RenderFrom(s, i + 1)) == b + EscapeByte(s[i]) + RenderFrom(s, i + 1);
      b := b + EscapeByte(s[i]);
      i := i + 1;
    }
  }

  lemma SpanKinds(s: string, i: nat)
    requires i < |s|
    ensures s[i] == '`' ==> SpanAt(s, i) == InlineCode(s, i)
    ensures s[i] !in "`[*_~" ==> SpanAt(s, i) == NoSpan
    ensures s[i] in "*_~" ==> var e := ParseEmphasis(s, i);
              SpanAt(s, i) == if e.NoEmphasis? then NoSpan else Span(e.next, Wrap(e.tag, RenderInline(s[e.from..e.to])))
  {
    hide InlineCode;
    hide ParseEmphasis;
    hide ParseLink;
    hide RenderFrom;
    hide LinkOut;
  }

  method InlineLink(s: string, i: nat) returns (r: Span)
    requires i < |s| && s[i] == '['
    ensures r == SpanAt(s, i)
    decreases |s|, 0
  {
    var parts := ParseLink(s, i);
    if parts.NoLink? {
      return NoSpan;
    }
    var text := s[i + 1..parts.bracket];
    var rendered := RenderInlineTelegramHTML(text);
    return Span(parts.next, LinkOut(parts.url, text, rendered));
  }

  method InlineEmphasis(s: string, i: nat) returns (r: Span)
    requires i < |s| && (s[i] == '*' || s[i] == '_' || s[i] == '~')
    ensures r == SpanAt(s, i)
    decreases |s|, 0
  {
    hide *;
    EmphasisCases(s, i);
    var (delim, tag) := EmphasisDelimiter(s, i);
    if delim == "" || (delim == "_" && i > 0 && IsWordByte(s[i - 1])) {
      return NoSpan;
    }
    var from := i + |delim|;
    var j := FindEmphasisEnd(s, from, delim);
    if j == |s| {
      return NoSpan;
    }
    var rendered := RenderInlineTelegramHTML(s[from..j]);
    return Span(j + |delim|, Wrap(tag, rendered));
  }

  lemma EmphasisCases(s: string, i: nat)
    requires i < |s| && (s[i] == '*' || s[i] == '_' || s[i] == '~')
    ensures var (delim, tag) := EmphasisDelimiter(s, i);
            var from := i + |delim|;
            if delim == "" || (delim == "_" && i > 0 && IsWordByte(s[i - 1])) then SpanAt(s, i) == NoSpan
            else
              && from <= |s|
              && var j := EmphasisEnd(s, from, from, delim);
              if j == |s| then SpanAt(s, i) == NoSpan
              else j + |delim| <= |s| && SpanAt(s, i) == Span(j + |delim|, Wrap(tag, RenderInline(s[from..j])))
  {
    hide EmphasisEnd;
    hide EmphasisDelimiter;
    hide RenderFrom;
    hide Wrap;
    hide IsWordByte;
    SpanKinds(s, i);
  }

  /** The search loop of `inlineEmphasis`. */
  method FindEmphasisEnd(s: string, from: nat, delim: string) returns (j: nat)
    requires from <= |s| && delim != ""
    ensures j == EmphasisEnd(s, from, from, delim)
  {
    hide InlineCode;
    hide EmphasisEnd;
    hide IsWordByte;
    hide IsSpaceByte;
    j := from;
    while j < |s|
      invariant from <= j <= |s|
      invariant EmphasisEnd(s, from, j, delim) == EmphasisEnd(s, from, from, delim)
      decreases |s| - j
    {
      EmphasisEndStep(s, from, j, delim);
      if s[j] == '`' {
        var code := ComputeInlineCode(s, j);
        if code.Span? {
          j := code.next;
          continue;
        }
      }
      if !HasPrefix(s[j..], delim) {
        j := j + 1;
        continue;
      }
      var end := j + |delim|;
      if delim == "_" && end < |s| && IsWordByte(s[end]) {
        j := end;
        continue;
      }
      if from == j || IsSpaceByte(s[from]) || IsSpaceByte(s[j - 1]) {
        j := end;
        continue;
      }
      return;
    }
  }

  lemma EmphasisEndStep(s: string, from: nat, j: nat, delim: string)
    requires from <= j < |s| && delim != ""
    ensures EmphasisEnd(s, from, j, delim) ==
              if s[j] == '`' && InlineCode(s, j).Span? then EmphasisEnd(s, from, InlineCode(s, j).next, delim)
              else if !HasPrefix(s[j..], delim) then EmphasisEnd(s, from, j + 1, delim)
              else if Closes(s, from, j, delim) then j
              else EmphasisEnd(s, from, j + |delim|, delim)
  {
    hide InlineCode;
    hide Closes;
  }

  // ----- lines and code blocks -----

  datatype Fence = NoFence | Fence(ticks: nat, info: string)

  /** `codeFence`. */
  function CodeFence(line: string): Fence {
    var t := TrimLeftBlank(line);
    var n := BacktickRun(t, 0);
    if n < 3 then NoFence else Fence(n, TrimSpace(t[n..]))
  }

  predicate ClosesFence(line: string, ticks: nat) {
    var f := CodeFence(line);
    f.Fence? && f.info == "" && f.ticks >= ticks
  }

  /** The line that closes a block of `ticks` backticks, searching from `i`; |lines| if none does. */
  function FenceEnd(lines: seq<string>, i: nat, ticks: nat): (r: nat)
    requires i <= |lines|
    ensures i <= r <= |lines|
    decreases |lines| - i
  {
    if i == |lines| || ClosesFence(lines[i], ticks) then i else FenceEnd(lines, i + 1, ticks)
  }

  method CollectFencedBlock(lines: seq<string>, start: nat, ticks: nat) returns (body: string, next: int)
    requires 0 < start <= |lines|
    ensures var end := FenceEnd(lines, start, ticks);
            body == Join(lines[start..end], "\n") && next == (if end < |lines| then end else |lines| - 1)
  {
    hide CodeFence;
    hide Join;
    var i := start;
    while i < |lines|
      invariant start <= i <= |lines|
      invariant FenceEnd(lines, i, ticks) == FenceEnd(lines, start, ticks)
    {
      var fence := CodeFence(lines[i]);
      if fence.Fence? && fence.info == "" && fence.ticks >= ticks {
        return Join(lines[start..i], "\n"), i;
      }
      i := i + 1;
    }
    assert lines[start..|lines|] == lines[start..];
    return Join(lines[start..], "\n"), |lines| - 1;
  }

  function RenderCodeBlock(info: string, body: string): string {
    if IsLanguageTag(info) then
      "<pre>" + (LanguageOpen + info + AttrEnd + HtmlEscape(body) + "</code>") + "</pre>"
    else "<pre>" + HtmlEscape(body) + "</pre>"
  }

  function HashRun(s: string, i: nat): (n: nat)
    requires i <= |s|
    ensures i + n <= |s|
    decreases |s| - i
  {
    if i < |s| && s[i] == '#' then 1 + HashRun(s, i + 1) else 0
  }

  function HeadingLevel(s: string): (n: nat)
    ensures n <= |s|
  {
    var n := HashRun(s, 0);
    if n == 0 || n > 6 || n >= |s| || (s[n] != ' ' && s[n] != '\t') then 0 else n
  }

  const Bullet := "\U{E2}\U{80}\U{A2} "

  /** `renderTelegramBlockLine`. */
  function RenderBlockLine(line: string): string {
    var rest := TrimLeftBlank(line);
    var indent := line[..|line| - |rest|];
    var level := HeadingLevel(rest);
    if level > 0 && TrimSpace(rest[level..]) != "" then
      indent + Wrap("b", RenderInline(TrimSpace(rest[level..])))
    else if |rest| > 1 && (rest[0] == '-' || rest[0] == '*' || rest[0] == '+') && (rest[1] == ' ' || rest[1] == '\t') then
      indent + Bullet + RenderInline(TrimLeftBlank(rest[1..]))
    else indent + RenderInline(rest)
  }

  /** The rendered lines from line `i` on, a code block counting as one. */
  function RenderLines(lines: seq<string>, i: nat): seq<string>
    requires i <= |lines|
    decreases |lines| - i
  {
    if i == |lines| then []
    else match CodeFence(lines[i])
      case NoFence => [RenderBlockLine(lines[i])] + RenderLines(lines, i + 1)
      case Fence(ticks, info) =>
        var end := FenceEnd(lines, i + 1, ticks);
        [RenderCodeBlock(info, Join(lines[i + 1..end], "\n"))] + RenderLines(lines, if end < |lines| then end + 1 else end)
  }

  function Render(text: string): string {
    Join(RenderLines(SplitLines(ReplaceAll(text, "\r\n", "\n")), 0), "\n")
  }

  method RenderTelegramHTML(text: string) returns (html: string)
    ensures html == Render(text)
    ensures Rendered(html)
  {
    hide RenderBlockLine;
    hide RenderCodeBlock;
    hide CodeFence;
    hide Rendered;
    hide FenceEnd;
    hide RenderLines;
    hide Join;
    hide SplitLines;
    hide ReplaceAll;
    var lines := SplitLines(ReplaceAll(text, "\r\n", "\n"));
    var out: seq<string> := [];
    var i := 0;
    while i < |lines|
      invariant i <= |lines|
      invariant out + RenderLines(lines, i) == RenderLines(lines, 0)
      decreases |lines| - i
    {
      RenderLinesStep(lines, i);
      var fence := CodeFence(lines[i]);
      if fence.NoFence? {
        out := out + [RenderBlockLine(lines[i])];
        i := i + 1;
        continue;
      }
      var body, next := CollectFencedBlock(lines, i + 1, fence.ticks);
      out := out + [RenderCodeBlock(fence.info, body)];
      i := next + 1;
    }
    assert RenderLines(lines, i) == [] by {
      RenderLinesStep(lines, i);
    }
    assert out == RenderLines(lines, 0);
    RenderIsSafe(text);
    return Join(out, "\n");
  }

  lemma RenderLinesStep(lines: seq<string>, i: nat)
    requires i <= |lines|
    ensures i == |lines| ==> RenderLines(lines, i) == []
    ensures i < |lines| && CodeFence(lines[i]).NoFence? ==>
              RenderLines(lines, i) == [RenderBlockLine(lines[i])] + RenderLines(lines, i + 1)
    ensures i < |lines| && CodeFence(lines[i]).Fence? ==>
              var end := FenceEnd(lines, i + 1, CodeFence(lines[i]).ticks);
              RenderLines(lines, i) == [RenderCodeBlock(CodeFence(lines[i]).info, Join(lines[i + 1..end], "\n"))]
                                       + RenderLines(lines, if end < |lines| then end + 1 else end)
  {
    hide RenderBlockLine;
    hide RenderCodeBlock;
    hide CodeFence;
    hide FenceEnd;
    hide Join;
  }

  // ----- safety -----

  lemma {:induction false} EscapedWalk(s: string, stack: seq<string>)
    ensures Walk(Escaped(s), stack) == Some(stack)
  {
    if s != "" {
      EscapedWalk(s[1..], stack);
      var rest := Escaped(s[1..]);
      EscapeByteStep(s[0], rest, stack);
    }
  }

  lemma EscapeByteStep(c: char, rest: string, stack: seq<string>)
    ensures Walk(EscapeByte(c) + rest, stack) == Walk(rest, stack)
  {
    var t := EscapeByte(c) + rest;
    var n := |EscapeByte(c)|;
    assert t[n..] == rest;
    if c == '&' {
      assert HasPrefix(t, "&amp;");
    } else if c == '<' {
      assert HasPrefix(t, "&lt;");
    } else if c == '>' {
      assert HasPrefix(t, "&gt;");
    }
  }

  lemma EscapeWalk(s: string, stack: seq<string>)
    ensures Walk(HtmlEscape(s), stack) == Some(stack)
  {
    EscapeIsOnePass(s);
    EscapedWalk(s, stack);
  }

  lemma {:induction false} EscapedHref(url: string)
    requires forall k :: 0 <= k < |url| ==> IsHrefByte(url[k])
    ensures EntitiesOnly(Escaped(url))
    ensures forall k :: 0 <= k < |Escaped(url)| ==> IsHrefByte(Escaped(url)[k])
    ensures |Escaped(url)| >= |url|
  {
    if url != "" {
      EscapedHref(url[1..]);
      var rest := Escaped(url[1..]);
      var t := EscapeByte(url[0]) + rest;
      if url[0] == '&' {
        assert t[..5] == "&amp;" && t[5..] == rest;
        assert forall k :: 0 <= k < 5 ==> IsHrefByte("&amp;"[k]);
      } else {
        assert t[1..] == rest;
      }
    }
  }

  /** The opening tag of a rendered link is in the grammar. */
  lemma LinkTag(url: string)
    requires AcceptableUrl(url)
    ensures var tag := LinkOpen + HtmlEscape(url) + AttrEnd; IsLinkOpen(tag) && TagName(tag) == "a"
  {
    hide HasAllowedScheme;
    EscapeIsOnePass(url);
    EscapedHref(url);
    hide HtmlEscape;
    hide EntitiesOnly;
    hide IsHrefByte;
    var v := HtmlEscape(url);
    var tag := LinkOpen + v + AttrEnd;
    assert tag[|tag| - 2..] == AttrEnd && tag[|LinkOpen|..|tag| - 2] == v;
    LinkOpenShape(tag);
  }

  /** Emphasis and inline code may open wherever there is no code around. */
  lemma SimpleTagOpens(tag: string, stack: seq<string>)
    requires tag == "<b>" || tag == "<i>" || tag == "<s>" || tag == "<code>"
    requires OutsideCode(stack)
    ensures MayOpen(stack, tag) && TagName(tag) == tag[1..|tag| - 1] && CloseTag(tag) == "</" + TagName(tag) + ">"
    ensures tag != "<code>" ==> OutsideCode(stack + [tag])
    ensures OutsideLink(stack) ==> OutsideLink(stack + [tag])
  {
    SimpleTagShape(tag);
    assert !IsLanguageOpen(tag) && !IsLinkOpen(tag);
    hide TagName;
  }

  lemma LinkOpens(url: string, stack: seq<string>)
    requires AcceptableUrl(url) && OutsideCode(stack) && OutsideLink(stack)
    ensures var tag := LinkOpen + HtmlEscape(url) + AttrEnd;
            MayOpen(stack, tag) && CloseTag(tag) == "</a>" && OutsideCode(stack + [tag])
  {
    hide HtmlEscape;
    hide AcceptableUrl;
    var tag := LinkOpen + HtmlEscape(url) + AttrEnd;
    LinkTag(url);
    assert tag[1] == LinkOpen[1] == 'a';
    hide IsLinkOpen;
    hide IsLanguageOpen;
    hide TagName;
  }

  /** Inline rendering keeps every text well formed, under any tags outside code; a link can only
      arise from a `]`, so a text without one may also stand inside a link. */
  lemma {:induction false} InlineSafe(s: string, i: nat, stack: seq<string>)
    requires i <= |s| && Nested(stack) && OutsideCode(stack) && (']' in s ==> OutsideLink(stack))
    ensures Walk(RenderFrom(s, i), stack) == Some(stack)
    decreases |s|, 1 + |s| - i
  {
    hide Walk;
    hide SpanAt;
    hide EscapeByte;
    if i == |s| {
      EmptyWalk(stack);
    } else if SpanAt(s, i).Span? {
      SpanSafe(s, i, stack);
      InlineSafe(s, SpanAt(s, i).next, stack);
      WalkConcat(SpanAt(s, i).out, RenderFrom(s, SpanAt(s, i).next), stack);
    } else {
      InlineSafe(s, i + 1, stack);
      EscapeByteStep(s[i], RenderFrom(s, i + 1), stack);
    }
  }

  lemma {:induction false} SpanSafe(s: string, i: nat, stack: seq<string>)
    requires i < |s| && SpanAt(s, i).Span?
    requires Nested(stack) && OutsideCode(stack) && (']' in s ==> OutsideLink(stack))
    ensures Walk(SpanAt(s, i).out, stack) == Some(stack)
    decreases |s|, 0
  {
    hide Walk;
    hide MayOpen;
    hide OutsideCode;
    hide OutsideLink;
    hide TagName;
    hide HtmlEscape;
    hide Closes;
    hide ParseLink;
    hide RenderFrom;
    if s[i] == '`' {
      CodeSafe(s, i, stack);
    } else if s[i] == '[' {
      var parts := ParseLink(s, i);
      var text := s[i + 1..parts.bracket];
      var tag := LinkOpen + HtmlEscape(parts.url) + AttrEnd;
      assert s[parts.bracket] == ']' && ']' !in text by {
        assert text == s[i..parts.bracket][1..];
      }
      LinkOpens(parts.url, stack);
      NestedPush(stack, tag);
      InlineSafe(text, 0, stack + [tag]);
      EscapeWalk(parts.url, stack + [tag]);
      var content := if TrimSpace(text) == "" then HtmlEscape(parts.url) else RenderFrom(text, 0);
      Wrapped(tag, content, stack);
      assert SpanAt(s, i).out == tag + content + CloseTag(tag);
    } else {
      var e := ParseEmphasis(s, i);
      SpanKinds(s, i);
      var content := s[e.from..e.to];
      WrapSafe(e.tag, content, stack, ']' in s);
    }
  }

  lemma CodeSafe(s: string, i: nat, stack: seq<string>)
    requires i < |s| && s[i] == '`' && InlineCode(s, i).Span? && Nested(stack) && OutsideCode(stack)
    ensures Walk(InlineCode(s, i).out, stack) == Some(stack)
  {
    hide Walk;
    hide MayOpen;
    hide TagName;
    hide HtmlEscape;
    hide BacktickRun;
    hide FenceFrom;
    hide TrimSpace;
    var n := BacktickRun(s, i);
    var content := s[i + n..FenceFrom(s, i + n, n)];
    SimpleTagOpens("<code>", stack);
    EscapeWalk(content, stack + ["<code>"]);
    Wrapped("<code>", HtmlEscape(content), stack);
    assert CloseTag("<code>") == "</code>" by {
      SimpleTagShape("<code>");
      assert "<code>"[1..5] == "code";
    }
  }

  lemma {:induction false} WrapSafe(tag: string, content: string, stack: seq<string>, link: bool)
    requires tag in {"b", "i", "s"} && Nested(stack) && OutsideCode(stack)
    requires (link ==> OutsideLink(stack)) && (']' in content ==> link)
    ensures Walk(Wrap(tag, RenderInline(content)), stack) == Some(stack)
    decreases |content|, 2 + |content|
  {
    hide Walk;
    hide MayOpen;
    hide TagName;
    hide RenderFrom;
    var open := "<" + tag + ">";
    assert open == "<b>" || open == "<i>" || open == "<s>";
    SimpleTagOpens(open, stack);
    NestedPush(stack, open);
    InlineSafe(content, 0, stack + [open]);
    Wrapped(open, RenderInline(content), stack);
    assert open[1..|open| - 1] == tag;
    assert Wrap(tag, RenderInline(content)) == open + RenderInline(content) + CloseTag(open);
  }

  lemma PreOpens()
    ensures MayOpen([], "<pre>") && CloseTag("<pre>") == "</pre>" && Nested(["<pre>"])
  {
    SimpleTagShape("<pre>");
    assert "<pre>"[1..4] == "pre";
    NestedPush([], "<pre>");
    assert [] + ["<pre>"] == ["<pre>"];
  }

  lemma LanguageOpens(info: string)
    requires IsLanguageTag(info)
    ensures var tag := LanguageOpen + info + AttrEnd; MayOpen(["<pre>"], tag) && CloseTag(tag) == "</code>"
  {
    hide TagName;
    var tag := LanguageOpen + info + AttrEnd;
    assert tag[|tag| - 2..] == AttrEnd && tag[|LanguageOpen|..|tag| - 2] == info;
    LanguageOpenShape(tag);
  }

  lemma CodeBlockSafe(info: string, body: string)
    ensures Rendered(RenderCodeBlock(info, body))
  {
    hide CloseTag;
    hide MayOpen;
    hide HtmlEscape;
    hide Walk;
    hide IsLanguageTag;
    var pre: seq<string> := ["<pre>"];
    var escaped := HtmlEscape(body);
    assert [] + ["<pre>"] == pre;
    PreOpens();
    if IsLanguageTag(info) {
      var tag := LanguageOpen + info + AttrEnd;
      LanguageOpens(info);
      EscapeWalk(body, pre + [tag]);
      Wrapped(tag, escaped, pre);
      Wrapped("<pre>", tag + escaped + "</code>", []);
    } else {
      EscapeWalk(body, pre);
      Wrapped("<pre>", escaped, []);
    }
  }

  lemma LineSafe(line: string)
    ensures Rendered(RenderBlockLine(line))
  {
    hide Walk;
    hide HeadingLevel;
    hide TrimSpace;
    hide Wrap;
    hide TrimLeftBlank;
    var rest := TrimLeftBlank(line);
    var indent := line[..|line| - |rest|];
    var level := HeadingLevel(rest);
    assert Rendered(RenderInline(rest)) by {
      InlineSafe(rest, 0, []);
    }
    assert Rendered(indent + RenderInline(rest)) by {
      PlainWalk(indent, []);
      WalkConcat(indent, RenderInline(rest), []);
    }
    if level > 0 && TrimSpace(rest[level..]) != "" {
      var title := Wrap("b", RenderInline(TrimSpace(rest[level..])));
      assert Rendered(title) by {
        HeadingSafe(TrimSpace(rest[level..]));
      }
      assert Rendered(indent + title) by {
        PlainWalk(indent, []);
        WalkConcat(indent, title, []);
      }
    } else if |rest| > 1 {
      BulletSafe(indent, TrimLeftBlank(rest[1..]));
    }
  }

  lemma BulletSafe(indent: string, item: string)
    requires '<' !in indent && '&' !in indent
    ensures Rendered(indent + Bullet + RenderInline(item))
  {
    assert Rendered(RenderInline(item)) by {
      InlineSafe(item, 0, []);
    }
    assert Rendered(Bullet + RenderInline(item)) by {
      PlainWalk(Bullet, []);
      WalkConcat(Bullet, RenderInline(item), []);
    }
    assert Rendered(indent + (Bullet + RenderInline(item))) by {
      PlainWalk(indent, []);
      WalkConcat(indent, (Bullet + RenderInline(item)), []);
    }
    assert indent + (Bullet + RenderInline(item)) == indent + Bullet + RenderInline(item);
  }

  lemma HeadingSafe(title: string)
    ensures Rendered(Wrap("b", RenderInline(title)))
  {
    WrapSafe("b", title, [], true);
  }

  lemma {:induction false} JoinSafe(parts: seq<string>)
    requires forall k :: 0 <= k < |parts| ==> Rendered(parts[k])
    ensures Rendered(Join(parts, "\n"))
  {
    hide Walk;
    if parts == [] {
      EmptyWalk([]);
    } else if |parts| > 1 {
      JoinSafe(parts[1..]);
      var rest := Join(parts[1..], "\n");
      PlainWalk("\n", []);
      WalkConcat("\n", rest, []);
      WalkConcat(parts[0], "\n" + rest, []);
      assert parts[0] + ("\n" + rest) == parts[0] + "\n" + rest;
    }
  }

  lemma {:induction false} LinesSafe(lines: seq<string>, i: nat)
    requires i <= |lines|
    ensures forall k :: 0 <= k < |RenderLines(lines, i)| ==> Rendered(RenderLines(lines, i)[k])
    decreases |lines| - i
  {
    hide Rendered;
    hide RenderBlockLine;
    hide RenderCodeBlock;
    hide CodeFence;
    hide FenceEnd;
    hide Join;
    if i < |lines| {
      match CodeFence(lines[i])
      case NoFence =>
        LineSafe(lines[i]);
        LinesSafe(lines, i + 1);
      case Fence(ticks, info) =>
        var end := FenceEnd(lines, i + 1, ticks);
        CodeBlockSafe(info, Join(lines[i + 1..end], "\n"));
        LinesSafe(lines, if end < |lines| then end + 1 else end);
    }
  }

  /** Whatever the model writes renders to a complete message: tags are the emitted six, balanced
      and properly nested, nothing inside code, no link in a link, no stray `<` or `&`. */
  lemma RenderIsSafe(text: string)
    ensures Rendered(Render(text))
  {
    var lines := SplitLines(ReplaceAll(text, "\r\n", "\n"));
    LinesSafe(lines, 0);
    JoinSafe(RenderLines(lines, 0));
  }
}
