/** What markdown means once rendered, stated on the text alone. */
module TelegramMarkup {
  import opened GoStrings
  import opened TelegramGrammar
  import opened TelegramRender
  import opened TelegramPlain

  predicate IsPlain(c: char) {
    c != '`' && c != '[' && c != '*' && c != '_' && c != '~'
  }

  predicate AllPlain(s: string) {
    forall k :: 0 <= k < |s| ==> IsPlain(s[k])
  }

  /** Bytes at which no construct starts are escaped one by one. */
  lemma {:induction false} PassOver(s: string, i: nat, n: nat)
    requires i + n <= |s| && forall k :: i <= k < i + n ==> SpanAt(s, k).NoSpan?
    ensures RenderFrom(s, i) == Escaped(s[i..i + n]) + RenderFrom(s, i + n)
    decreases n
  {
    hide SpanAt, EscapeByte;
    if n == 0 {
      assert s[i..i] == "";
    } else {
      PassOver(s, i + 1, n - 1);
      var rest := s[i + 1..i + n];
      assert s[i..i + n] == [s[i]] + rest;
      assert EscapeByte(s[i]) + (Escaped(rest) + RenderFrom(s, i + n)) == EscapeByte(s[i]) + Escaped(rest) + RenderFrom(s, i + n);
    }
  }

  /** A line without markup characters is only escaped. */
  lemma PlainRenders(s: string)
    requires AllPlain(s)
    ensures RenderInline(s) == HtmlEscape(s)
  {
    hide HtmlEscape;
    assert s[0..0 + |s|] == s;
    assert RenderFrom(s, 0) == HtmlEscape(s) + RenderFrom(s, 0 + |s|) by {
      hide SpanAt, RenderFrom, HtmlEscape, IsPlain;
      forall k | 0 <= k < 0 + |s| ensures SpanAt(s, k).NoSpan? {
        assert s[k] == s[k - 0];
      }
      PassOver(s, 0, |s|);
      EscapeIsOnePass(s);
    }
  }

  // ----- emphasis -----

  /** The five delimiters and what they mean. */
  predicate Means(delim: string, tag: string) {
    || (delim == "**" && tag == "b") || (delim == "__" && tag == "b") || (delim == "~~" && tag == "s")
    || (delim == "*" && tag == "i") || (delim == "_" && tag == "i")
  }

  /** Text that may be emphasised with `delim`: not empty, no white space at its ends, no backtick, and
      nowhere the delimiter. It may hold links and the other kinds of emphasis. */
  predicate IsPhrase(t: string, delim: string) {
    && t != "" && !IsSpaceByte(t[0]) && !IsSpaceByte(t[|t| - 1]) && '`' !in t
    && delim != "" && t[0] != delim[0] && t[|t| - 1] != delim[0] && !Contains(t, delim)
  }

  lemma DelimiterHere(s: string, i: nat, delim: string, tag: string)
    requires Means(delim, tag) && i + |delim| < |s| && s[i..i + |delim|] == delim && s[i + |delim|] != delim[0]
    ensures EmphasisDelimiter(s, i) == (delim, tag)
  {
    var t := s[i..];
    assert t[..|delim|] == s[i..i + |delim|] && t[|delim|] == s[i + |delim|];
    assert t[0] == delim[0] && (|delim| == 2 ==> t[1] == delim[1]);
  }

  /** The search passes over text that holds neither a backtick nor the delimiter. */
  lemma {:induction false} EndAfterPhrase(s: string, from: nat, j: nat, end: nat, delim: string, tag: string)
    requires Means(delim, tag) && from <= j <= end && end + |delim| <= |s|
    requires forall k :: j <= k < end ==> s[k] != '`' && !HasPrefix(s[k..], delim)
    requires s[end..end + |delim|] == delim && Closes(s, from, end, delim)
    ensures EmphasisEnd(s, from, j, delim) == end
    decreases end - j
  {
    hide Closes, InlineCode;
    if j == end {
      assert s[j..][..|delim|] == s[end..end + |delim|];
      assert s[j] == delim[0];
    } else {
      EndAfterPhrase(s, from, j + 1, end, delim, tag);
    }
  }

  lemma NoDelimiterInside(s: string, from: nat, phrase: string, delim: string, tag: string, k: nat)
    requires Means(delim, tag) && IsPhrase(phrase, delim) && from <= k < from + |phrase| && from + |phrase| <= |s|
    requires s[from..from + |phrase|] == phrase
    ensures s[k] != '`' && !HasPrefix(s[k..], delim)
  {
    hide IsSpaceByte;
    assert s[k] == s[from..from + |phrase|][k - from];
    if HasPrefix(s[k..], delim) {
      assert s[k..][0] == delim[0] && (|delim| == 2 ==> s[k..][1] == delim[1]);
      assert s[k - from + from] == phrase[k - from];
      if k - from + |delim| <= |phrase| {
        assert s[k..][..|delim|] == delim && phrase[k - from..k - from + |delim|] == s[k..k + |delim|];
        OccurrenceContains(phrase, delim, k - from);
        assert false;
      }
    }
  }

  /** Whatever stands before it, when the scan comes to a phrase between two of the same delimiters, the
      phrase gets the delimiter's tag and is itself rendered; single underscores only at word
      boundaries. */
  lemma EmphasisRenders(pre: string, delim: string, tag: string, phrase: string, post: string)
    requires Means(delim, tag) && IsPhrase(phrase, delim)
    requires delim == "_" ==> (pre == "" || !IsWordByte(pre[|pre| - 1])) && (post == "" || !IsWordByte(post[0]))
    ensures var s := pre + delim + phrase + delim + post;
            RenderFrom(s, |pre|) == Wrap(tag, RenderInline(phrase)) + RenderFrom(s, |s| - |post|)
  {
    hide Wrap, RenderFrom, IsPhrase, Means, IsWordByte, SpanAt;
    Slices(pre, delim, phrase, post);
    var s := pre + delim + phrase + delim + post;
    EmphasisHere(s, |pre|, delim, tag, phrase);
    SpanRenders(s, |pre|);
  }

  lemma Slices(pre: string, delim: string, phrase: string, post: string)
    ensures var s := pre + delim + phrase + delim + post;
            var (i, from) := (|pre|, |pre| + |delim|);
            var end := from + |phrase|;
            && |s| == i + 2 * |delim| + |phrase| + |post|
            && s[0..0 + |pre|] == pre && s[i..from] == delim && s[from..end] == phrase && s[end..end + |delim|] == delim
            && (pre != "" ==> s[i - 1] == pre[i - 1]) && (post != "" ==> s[end + |delim|] == post[0])
  {
  }

  lemma SpanRenders(s: string, i: nat)
    requires i < |s| && SpanAt(s, i).Span?
    ensures RenderFrom(s, i) == SpanAt(s, i).out + RenderFrom(s, SpanAt(s, i).next)
  {
    hide SpanAt;
  }

  lemma EmphasisHere(s: string, i: nat, delim: string, tag: string, phrase: string)
    requires IsPhrase(phrase, delim) && Means(delim, tag) && i + 2 * |delim| + |phrase| <= |s|
    requires s[i..i + |delim|] == delim
    requires var from := i + |delim|; var end := from + |phrase|;
             s[from..end] == phrase && s[end..end + |delim|] == delim
             && (delim == "_" ==> (i == 0 || !IsWordByte(s[i - 1])) && (end + 1 == |s| || !IsWordByte(s[end + 1])))
    ensures SpanAt(s, i) == Span(i + 2 * |delim| + |phrase|, Wrap(tag, RenderInline(phrase)))
  {
    hide *;
    var from := i + |delim|;
    var end := from + |phrase|;
    PhraseEnds(s, i, delim, tag, phrase);
    DelimiterHere(s, i, delim, tag);
    forall k | from <= k < end ensures s[k] != '`' && !HasPrefix(s[k..], delim) {
      NoDelimiterInside(s, from, phrase, delim, tag, k);
    }
    EndAfterPhrase(s, from, from, end, delim, tag);
    SpanFound(s, i, delim, tag, end);
  }

  lemma PhraseEnds(s: string, i: nat, delim: string, tag: string, phrase: string)
    requires IsPhrase(phrase, delim) && Means(delim, tag) && i + 2 * |delim| + |phrase| <= |s|
    requires s[i..i + |delim|] == delim
    requires var from := i + |delim|; var end := from + |phrase|;
             s[from..end] == phrase && s[end..end + |delim|] == delim
             && (delim == "_" ==> end + 1 == |s| || !IsWordByte(s[end + 1]))
    ensures delim != "" && phrase != "" && s[i] == delim[0] && s[i + |delim|] != delim[0]
    ensures Closes(s, i + |delim|, i + |delim| + |phrase|, delim)
  {
    hide IsWordByte, Contains;
    var from := i + |delim|;
    var end := from + |phrase|;
    assert s[from] == s[from..end][0] && s[end - 1] == s[from..end][|phrase| - 1] && s[i] == s[i..from][0];
  }

  lemma SpanFound(s: string, i: nat, delim: string, tag: string, end: nat)
    requires i < |s| && Means(delim, tag) && s[i] == delim[0] && EmphasisDelimiter(s, i) == (delim, tag)
    requires i + |delim| <= end < |s| && EmphasisEnd(s, i + |delim|, i + |delim|, delim) == end
    requires delim == "_" ==> i == 0 || !IsWordByte(s[i - 1])
    ensures SpanAt(s, i) == Span(end + |delim|, Wrap(tag, RenderInline(s[i + |delim|..end])))
  {
    hide EmphasisEnd, EmphasisDelimiter, IsWordByte, RenderFrom, Wrap;
    SpanKinds(s, i);
  }

  /** Position `k` is inside a code span that starts at or after `j`. */
  ghost predicate InCode(s: string, j: nat, k: nat) {
    exists c :: j <= c < k && c < |s| && s[c] == '`' && InlineCode(s, c).Span? && k < InlineCode(s, c).next
  }

  lemma StepAhead(s: string, j: nat, delim: string)
    requires j < |s| && delim != ""
    ensures s[j] == '`' && InlineCode(s, j).Span? ==> j < InlineCode(s, j).next <= |s|
    ensures HasPrefix(s[j..], delim) ==> j + |delim| <= |s|
  {
  }

  lemma InCodeEarlier(s: string, j: nat, next: nat, k: nat)
    requires j <= next
    ensures InCode(s, next, k) ==> InCode(s, j, k)
  {
    hide InlineCode;
  }

  /** A position between two stops of the search. */
  lemma PassedOver(s: string, from: nat, j: nat, delim: string, tag: string, k: nat)
    requires from <= j <= k < |s| && Means(delim, tag) && EmphasisEnd(s, from, j, delim) > j
    requires HasPrefix(s[k..], delim) && k + |delim| <= |s| && Closes(s, from, k, delim)
    requires k < if s[j] == '`' && InlineCode(s, j).Span? then InlineCode(s, j).next
                 else if HasPrefix(s[j..], delim) then j + |delim| else j + 1
    ensures InCode(s, j, k) || (j < k && HasPrefix(s[k - 1..], delim))
  {
    hide Closes, InlineCode, EmphasisEnd;
    EmphasisEndStep(s, from, j, delim);
    if s[j] == '`' && InlineCode(s, j).Span? {
      assert s[k..][0] == delim[0];
    }
  }

  lemma EndAtEnd(s: string, from: nat, delim: string)
    requires from <= |s| && delim != ""
    ensures EmphasisEnd(s, from, |s|, delim) == |s|
  {
  }

  /** The search passes over a delimiter that could close only inside a code span, or where it overlaps
      the delimiter before it. */
  lemma {:induction false} EmphasisEndIsFirst(s: string, from: nat, j: nat, delim: string, tag: string)
    requires from <= j <= |s| && Means(delim, tag)
    ensures forall k :: j <= k < EmphasisEnd(s, from, j, delim) && HasPrefix(s[k..], delim) && Closes(s, from, k, delim)
              ==> InCode(s, j, k) || (j < k && HasPrefix(s[k - 1..], delim))
    decreases |s| - j
  {
    hide Closes, InlineCode, EmphasisEnd, InCode;
    if j < |s| {
      EmphasisEndStep(s, from, j, delim);
      var r := EmphasisEnd(s, from, j, delim);
      var code := s[j] == '`' && InlineCode(s, j).Span?;
      var next := if code then InlineCode(s, j).next else if HasPrefix(s[j..], delim) then j + |delim| else j + 1;
      if r > j {
        StepAhead(s, j, delim);
        EmphasisEndIsFirst(s, from, next, delim, tag);
        forall k | j <= k < r && HasPrefix(s[k..], delim) && Closes(s, from, k, delim)
          ensures InCode(s, j, k) || (j < k && HasPrefix(s[k - 1..], delim))
        {
          if k >= next {
            InCodeEarlier(s, j, next, k);
          } else {
            PassedOver(s, from, j, delim, tag, k);
          }
        }
      }
    } else {
      EndAtEnd(s, from, delim);
    }
  }

  // ----- code, links, identifiers -----

  function Ticks(n: nat): (s: string)
    ensures |s| == n && forall k :: 0 <= k < n ==> s[k] == '`'
  {
    seq(n, _ => '`')
  }

  lemma {:induction false} TicksRun(s: string, i: nat, n: nat)
    requires i + n <= |s| && (forall k :: i <= k < i + n ==> s[k] == '`') && (i + n < |s| ==> s[i + n] != '`')
    ensures BacktickRun(s, i) == n
    decreases n
  {
    if n > 0 {
      TicksRun(s, i + 1, n - 1);
    }
  }

  /** Whatever stands before it, when the scan comes to code between two runs of `n` backticks, the code is
      shown as it is, shorter and longer runs of backticks and all other markup in it included. */
  lemma CodeRenders(pre: string, n: nat, code: string, post: string)
    requires n > 0 && TrimSpace(code) != "" && code != "" && code[0] != '`' && code[|code| - 1] != '`'
    requires (post == "" || post[0] != '`') && forall k :: 0 <= k < |code| ==> !RunAt(code, 0, k, n)
    ensures var s := pre + Ticks(n) + code + Ticks(n) + post;
            RenderFrom(s, |pre|) == "<code>" + HtmlEscape(code) + "</code>" + RenderFrom(s, |s| - |post|)
  {
    var s := pre + Ticks(n) + code + Ticks(n) + post;
    Slices(pre, Ticks(n), code, post);
    hide RenderFrom, TrimSpace, HtmlEscape, RunAt, SpanAt;
    CodeHere(s, |pre|, n, code);
    SpanRenders(s, |pre|);
  }

  lemma CodeHere(s: string, i: nat, n: nat, code: string)
    requires n > 0 && TrimSpace(code) != "" && code != "" && code[0] != '`' && code[|code| - 1] != '`'
    requires forall k :: 0 <= k < |code| ==> !RunAt(code, 0, k, n)
    requires var j := i + n + |code|;
             j + n <= |s| && s[i..i + n] == Ticks(n) && s[i + n..j] == code && s[j..j + n] == Ticks(n)
               && (j + n < |s| ==> s[j + n] != '`')
    ensures SpanAt(s, i) == Span(i + 2 * n + |code|, "<code>" + HtmlEscape(code) + "</code>")
  {
    hide HtmlEscape, RenderFrom, TrimSpace, ParseLink, ParseEmphasis, BacktickRun, FenceFrom, RunAt;
    var from, j := i + n, i + n + |code|;
    assert (forall k :: i <= k < from ==> s[k] == s[i..from][k - i])
        && (forall k :: from <= k < j ==> s[k] == s[from..j][k - from]);
    assert forall k :: j <= k < j + n ==> s[k] == s[j..j + n][k - j];
    TicksRun(s, i, n);
    TicksRun(s, j, n);
    forall k | from <= k < j ensures !RunAt(s, from, k, n) {
      RunInside(s, from, code, k, n);
    }
    assert s[j - 1] == code[|code| - 1];
    RunIs(s, from, j, n);
    CodeSpanIs(s, i, n, from, j);
    SpanKinds(s, i);
  }

  lemma RunIs(s: string, from: nat, j: nat, n: nat)
    requires from < j < |s| && s[j - 1] != '`' && s[j] == '`' && BacktickRun(s, j) == n
    ensures RunAt(s, from, j, n)
  {
    hide BacktickRun;
  }

  /** A run of backticks inside the code is the same run of the text. */
  lemma RunInside(s: string, from: nat, code: string, k: nat, n: nat)
    requires code != "" && code[|code| - 1] != '`' && from <= k < from + |code| <= |s| && s[from..from + |code|] == code
    ensures RunAt(s, from, k, n) ==> RunAt(code, 0, k - from, n)
  {
    var at := k - from;
    assert forall x :: from <= x < from + |code| ==> s[x] == s[from..from + |code|][x - from];
    assert s[k] == code[at] && (k > from ==> s[k - 1] == code[at - 1]);
    if s[k] == '`' {
      var run := BacktickRun(code, at);
      RunOfBackticks(code, at);
      hide BacktickRun;
      forall x | k <= x < k + run ensures s[x] == '`' {
        assert s[x] == code[x - from];
      }
      assert s[k + run] == code[at + run];
      TicksRun(s, k, run);
    }
  }

  /** A link at `i`: the label ends at the first bracket `b`, the target right behind it at the first
      parenthesis `e`, and the trimmed text between the parentheses is acceptable. */
  predicate LinkAt(s: string, i: nat, b: nat, e: nat) {
    && i < b && b + 2 <= e < |s| && s[b] == ']' && s[b + 1] == '(' && s[e] == ')'
    && ']' !in s[i..b] && ')' !in s[b + 2..e] && AcceptableUrl(TrimSpace(s[b + 2..e]))
  }

  /** A link is recognised exactly there, with that target. */
  lemma LinkIff(s: string, i: nat, b: nat, e: nat)
    requires i < |s| && s[i] == '[' && b + 2 <= e < |s|
    ensures LinkAt(s, i, b, e) <==> ParseLink(s, i) == LinkParts(b, TrimSpace(s[b + 2..e]), e + 1)
  {
    assert var r := ParseLink(s, i); r.LinkParts? ==>
        r.next >= 1 && r.bracket + 2 <= r.next - 1 < |s| && LinkAt(s, i, r.bracket, r.next - 1) &&
        r.url == TrimSpace(s[r.bracket + 2..r.next - 1]) by {
      hide AcceptableUrl, TrimSpace;
      var r := ParseLink(s, i);
      if r.LinkParts? {
        var b, e := r.bracket, r.next - 1;
        assert s[b + 2..][..e - b - 2] == s[b + 2..e];
      }
    }
    hide AcceptableUrl, TrimSpace, ParseLink;
    if LinkAt(s, i, b, e) {
      LinkFound(s, i, b, e);
    } else if ParseLink(s, i) == LinkParts(b, TrimSpace(s[b + 2..e]), e + 1) {
    }
  }

  lemma LinkFound(s: string, i: nat, b: nat, e: nat)
    requires i < |s| && s[i] == '[' && LinkAt(s, i, b, e)
    ensures ParseLink(s, i) == LinkParts(b, TrimSpace(s[b + 2..e]), e + 1)
  {
    hide AcceptableUrl, TrimSpace, IndexByte;
    assert s[i..][..b - i] == s[i..b] && s[b + 2..][..e - b - 2] == s[b + 2..e];
    IndexByteIs(s[i..], ']', b - i);
    IndexByteIs(s[b + 2..], ')', e - b - 2);
  }

  /** A run of `n` backticks starts at `k`, seen from `j`. */
  predicate RunAt(s: string, j: nat, k: nat, n: nat) {
    j <= k < |s| && s[k] == '`' && (k == j || s[k - 1] != '`') && BacktickRun(s, k) == n
  }

  /** The run that closes a code span is the first later run of that length. */
  lemma {:induction false} FenceIsFirst(s: string, j: nat, n: nat)
    requires j <= |s|
    ensures forall k :: j <= k < FenceFrom(s, j, n) ==> !RunAt(s, j, k, n)
    decreases |s| - j
  {
    if j < |s| && !(s[j] == '`' && BacktickRun(s, j) == n) {
      var next := if s[j] != '`' then j + 1 else j + BacktickRun(s, j);
      FenceIsFirst(s, next, n);
      forall k | j <= k < FenceFrom(s, j, n) ensures !RunAt(s, j, k, n) {
        assert RunAt(s, j, k, n) ==> next <= k && RunAt(s, next, k, n) by {
          hide BacktickRun;
          RunOfBackticks(s, j);
        }
      }
    }
  }

  lemma {:induction false} RunOfBackticks(s: string, i: nat)
    requires i <= |s|
    ensures var e := i + BacktickRun(s, i);
            (forall k :: i <= k < e ==> s[k] == '`') && (e < |s| ==> s[e] != '`')
    decreases |s| - i
  {
    if i < |s| && s[i] == '`' {
      RunOfBackticks(s, i + 1);
    }
  }

  lemma {:induction false} FenceStarts(s: string, j: nat, n: nat)
    requires j <= |s|
    ensures FenceFrom(s, j, n) == |s| || RunAt(s, j, FenceFrom(s, j, n), n)
    decreases |s| - j
  {
    if j < |s| && !(s[j] == '`' && BacktickRun(s, j) == n) {
      RunOfBackticks(s, j);
      FenceStarts(s, if s[j] != '`' then j + 1 else j + BacktickRun(s, j), n);
    }
  }

  /** A run of `n` backticks opens a code span if and only if there is a later run of `n`, and not only white
      space up to the first one; nothing else does. */
  lemma CodeSpanIs(s: string, i: nat, n: nat, from: nat, j: nat)
    requires i < |s| && s[i] == '`' && n == BacktickRun(s, i) && from == i + n <= j
    requires (forall k :: from <= k < j ==> !RunAt(s, from, k, n)) && (j == |s| || RunAt(s, from, j, n))
    ensures InlineCode(s, i) == if j == |s| || TrimSpace(s[from..j]) == "" then NoSpan
                                else Span(j + n, "<code>" + HtmlEscape(s[from..j]) + "</code>")
  {
    hide TrimSpace, HtmlEscape;
    FenceStarts(s, from, n);
    FenceIsFirst(s, from, n);
    hide BacktickRun, FenceFrom;
  }

  /** Identifiers survive untouched: word bytes with single underscores between them are no markup. */
  lemma SnakeCaseSurvives(s: string)
    requires forall k :: 0 <= k < |s| ==> IsWordByte(s[k])
    requires forall k :: 0 <= k < |s| && s[k] == '_' ==> k > 0 && s[k - 1] != '_'
    ensures RenderInline(s) == s
  {
    hide RenderFrom;
    forall k | 0 <= k < |s| ensures SpanAt(s, k).NoSpan? {
      if s[k] == '_' {
        assert s[k..][0] == '_' && (k + 1 < |s| ==> s[k..][1] == s[k + 1]);
        assert EmphasisDelimiter(s, k) == ("_", "i");
        SpanKinds(s, k);
      }
    }
    PassOver(s, 0, |s|);
    assert s[0..0 + |s|] == s;
    forall k | 0 <= k < |s| ensures EscapeByte(s[k]) == [s[k]] {
    }
    EscapedSame(s);
    NothingLeft(s);
  }

  lemma {:induction false} EscapedSame(s: string)
    requires forall k :: 0 <= k < |s| ==> EscapeByte(s[k]) == [s[k]]
    ensures Escaped(s) == s
  {
    hide EscapeByte;
    if s != "" {
      EscapedSame(s[1..]);
    }
  }

  lemma NothingLeft(s: string)
    ensures RenderFrom(s, |s|) == ""
  {
  }

  // ----- lines and blocks -----

  predicate IsBlank(c: char) {
    c == ' ' || c == '\t'
  }

  lemma {:induction false} TrimIndent(indent: string, rest: string)
    requires (forall k :: 0 <= k < |indent| ==> IsBlank(indent[k])) && rest != "" && !IsBlank(rest[0])
    ensures TrimLeftBlank(indent + rest) == rest
  {
    if indent == "" {
      assert indent + rest == rest;
    } else {
      assert (indent + rest)[1..] == indent[1..] + rest;
      TrimIndent(indent[1..], rest);
    }
  }

  lemma {:induction false} HashesRun(s: string, i: nat, n: nat)
    requires i <= n < |s| && (forall k :: i <= k < n ==> s[k] == '#') && s[n] != '#'
    ensures HashRun(s, i) == n - i
    decreases n - i
  {
    if i < n {
      HashesRun(s, i + 1, n);
    }
  }

  function Hashes(n: nat): (s: string)
    ensures |s| == n && forall k :: 0 <= k < n ==> s[k] == '#'
  {
    seq(n, _ => '#')
  }

  /** One to six hashes and a blank make a bold title, at any indentation; the title is rendered. */
  lemma HeadingRenders(indent: string, level: nat, blank: char, title: string)
    requires (forall k :: 0 <= k < |indent| ==> IsBlank(indent[k])) && 1 <= level <= 6 && IsBlank(blank)
    requires TrimSpace([blank] + title) != ""
    ensures RenderBlockLine(indent + Hashes(level) + [blank] + title) == indent + Wrap("b", RenderInline(TrimSpace([blank] + title)))
  {
    hide *;
    var rest := Hashes(level) + ([blank] + title);
    assert indent + Hashes(level) + [blank] + title == indent + rest;
    HashLevel(level, blank, title);
    TrimIndent(indent, rest);
    HeadingLine(indent, rest, level);
  }

  lemma HashLevel(level: nat, blank: char, title: string)
    requires 1 <= level <= 6 && IsBlank(blank)
    ensures var rest := Hashes(level) + ([blank] + title);
            rest != "" && !IsBlank(rest[0]) && HeadingLevel(rest) == level && rest[level..] == [blank] + title
  {
    var rest := Hashes(level) + ([blank] + title);
    assert rest[0] == '#' && rest[level] == blank;
    HashesRun(rest, 0, level);
  }

  lemma HeadingLine(indent: string, rest: string, level: nat)
    requires TrimLeftBlank(indent + rest) == rest && HeadingLevel(rest) == level && 0 < level <= |rest|
        && TrimSpace(rest[level..]) != ""
    ensures RenderBlockLine(indent + rest) == indent + Wrap("b", RenderInline(TrimSpace(rest[level..])))
  {
    hide RenderInline, Wrap, TrimSpace, TrimLeftBlank, HeadingLevel;
    assert (indent + rest)[..|indent|] == indent;
  }

  /** A dash, star or plus and a blank make a bullet, at any indentation; the item is rendered. */
  lemma BulletRenders(indent: string, mark: char, blank: char, item: string)
    requires (forall k :: 0 <= k < |indent| ==> IsBlank(indent[k])) && (mark == '-' || mark == '*' || mark == '+')
        && IsBlank(blank)
    ensures RenderBlockLine(indent + [mark] + [blank] + item) == indent + Bullet + RenderInline(TrimLeftBlank(item))
  {
    hide RenderInline, Wrap, TrimSpace, TrimLeftBlank, HeadingLevel;
    var rest := [mark] + ([blank] + item);
    assert indent + [mark] + [blank] + item == indent + rest;
    assert rest[0] == mark && rest[1] == blank && rest[1..] == [blank] + item;
    TrimIndent(indent, rest);
    NoHash(rest);
    BlankGoes(blank, item);
    assert (indent + rest)[..|indent|] == indent;
  }

  lemma BlankGoes(blank: char, item: string)
    requires IsBlank(blank)
    ensures TrimLeftBlank([blank] + item) == TrimLeftBlank(item)
  {
    assert ([blank] + item)[1..] == item;
  }

  lemma NoHash(line: string)
    requires line != "" && line[0] != '#'
    ensures HeadingLevel(line) == 0
  {
  }

  lemma {:induction false} FenceEndIsFirst(lines: seq<string>, i: nat, ticks: nat)
    requires i <= |lines|
    ensures var r := FenceEnd(lines, i, ticks);
            (forall k :: i <= k < r ==> !ClosesFence(lines[k], ticks)) && (r < |lines| ==> ClosesFence(lines[r], ticks))
    decreases |lines| - i
  {
    hide ClosesFence;
    if i < |lines| && !ClosesFence(lines[i], ticks) {
      FenceEndIsFirst(lines, i + 1, ticks);
    }
  }

  /** A fenced block is shown verbatim: whatever the code is, stripping its rendering gives it back. */
  lemma CodeIsVerbatim(info: string, body: string)
    ensures PlainText(RenderCodeBlock(info, body)) == body
  {
    hide HtmlEscape, MayOpen, IsLanguageTag, CloseTag;
    var escaped := HtmlEscape(body);
    PreOpens();
    assert [] + ["<pre>"] == ["<pre>"];
    ShownEscape(body);
    if IsLanguageTag(info) {
      var tag := LanguageOpen + info + AttrEnd;
      LanguageOpens(info);
      EscapeWalk(body, ["<pre>", tag]);
      assert ["<pre>"] + [tag] == ["<pre>", tag];
      ShownWrapped(tag, escaped, ["<pre>"]);
      Wrapped(tag, escaped, ["<pre>"]);
      ShownWrapped("<pre>", tag + escaped + "</code>", []);
    } else {
      EscapeWalk(body, ["<pre>"]);
      ShownWrapped("<pre>", escaped, []);
    }
    CodeBlockSafe(info, body);
    assert PlainText(RenderCodeBlock(info, body)) == Shown(RenderCodeBlock(info, body)) by {
      hide Walk, Decode, Unescape, TextOf, Strip;
      TextOfIsStrip(RenderCodeBlock(info, body), []);
      UnescapeIsOnePass(TextOf(RenderCodeBlock(info, body)));
    }
  }
}
