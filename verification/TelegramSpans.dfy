/** Links and emphasis, seen from the rendered line. */
module TelegramSpans {
  import opened GoStrings
  import opened TelegramGrammar
  import opened TelegramRender
  import opened TelegramMarkup

  // ----- links -----

  lemma LinkSlices(pre: string, text: string, target: string, post: string)
    ensures var s := pre + "[" + text + "](" + target + ")" + post;
            var (i, b, e) := (|pre|, |pre| + 1 + |text|, |pre| + |text| + |target| + 3);
            && |s| == e + 1 + |post| && s[i] == '[' && s[b] == ']' && s[b + 1] == '(' && s[e] == ')'
            && s[i + 1..b] == text && s[b + 2..e] == target && s[i..b] == "[" + text
  {
  }

  lemma LinkOfParts(s: string, i: nat, b: nat, url: string, next: nat)
    requires i < |s| && s[i] == '[' && ParseLink(s, i) == LinkParts(b, url, next)
    ensures var text := s[i + 1..b];
            var shown := if TrimSpace(text) == "" then HtmlEscape(url) else RenderInline(text);
            SpanAt(s, i) == Span(next, "<a href=\"" + HtmlEscape(url) + "\">" + shown + "</a>")
  {
    hide HtmlEscape, TrimSpace, ParseLink, RenderFrom, AcceptableUrl;
  }

  /** Whatever stands before it, when the scan comes to a label in brackets and an acceptable target in
      parentheses, it becomes a link to the trimmed target, shown as the rendered label, or as the target
      when the text is blank. */
  lemma LinkRenders(pre: string, text: string, target: string, post: string)
    requires ']' !in text && ')' !in target && AcceptableUrl(TrimSpace(target))
    ensures var s, url := pre + "[" + text + "](" + target + ")" + post, HtmlEscape(TrimSpace(target));
            var shown := if TrimSpace(text) == "" then url else RenderInline(text);
            RenderFrom(s, |pre|) == "<a href=\"" + url + "\">" + shown + "</a>" + RenderFrom(s, |s| - |post|)
  {
    hide *;
    var s := pre + "[" + text + "](" + target + ")" + post;
    LinkSlices(pre, text, target, post);
    var i, b := |pre|, |pre| + 1 + |text|;
    LinkHere(s, i, b, b + 2 + |target|);
    LinkFound(s, i, b, b + 2 + |target|);
    LinkOfParts(s, i, b, TrimSpace(target), b + 3 + |target|);
    SpanRenders(s, i);
  }

  lemma LinkHere(s: string, i: nat, b: nat, e: nat)
    requires i < b && b + 2 <= e < |s| && s[i] == '[' && s[b] == ']' && s[b + 1] == '(' && s[e] == ')'
    requires ']' !in s[i + 1..b] && ')' !in s[b + 2..e] && AcceptableUrl(TrimSpace(s[b + 2..e]))
    ensures LinkAt(s, i, b, e)
  {
    hide AcceptableUrl, TrimSpace;
    assert s[i..b] == [s[i]] + s[i + 1..b];
  }

  /** An acceptable target: not empty, without blank, quote or angle bracket, and of one of four schemes. */
  lemma UrlIs(url: string)
    ensures AcceptableUrl(url) <==>
              && url != "" && (forall k :: 0 <= k < |url| ==> url[k] !in " \t\"'<>")
              && (|| HasPrefixFold(url, "http://") || HasPrefixFold(url, "https://")
                  || HasPrefixFold(url, "tg://") || HasPrefixFold(url, "mailto:"))
  {
    hide HasPrefixFold;
    assert HasAllowedScheme(url) <==>
             HasPrefixFold(url, SCHEMES[0]) || HasPrefixFold(url, SCHEMES[1]) || HasPrefixFold(url, SCHEMES[2])
               || HasPrefixFold(url, SCHEMES[3]);
  }

  /** The scheme is compared without regard to case. */
  lemma {:induction false} SchemeIs(url: string, scheme: string)
    requires '\U{C4}' !in url
    ensures HasPrefixFold(url, scheme) <==>
              |scheme| <= |url| && forall k :: 0 <= k < |scheme| ==>
                (if 'A' <= url[k] <= 'Z' then url[k] + ' ' else url[k]) == scheme[k]
  {
    if scheme != "" && url != "" {
      SchemeIs(url[1..], scheme[1..]);
      assert url == [url[0]] + url[1..] && scheme == [scheme[0]] + scheme[1..];
    }
  }

  // ----- emphasis -----

  /** Emphasis from `i` to `end`: the longest delimiter there, never three stars, around text that has no
      white space at its ends; underscores at word boundaries. */
  ghost predicate EmphasisAt(s: string, i: nat, delim: string, tag: string, end: nat) {
    var from := i + |delim|;
    && Means(delim, tag) && from < end && end + |delim| <= |s| && s[i..from] == delim && s[end..end + |delim|] == delim
    && (|delim| == 1 ==> s[from] != delim[0]) && !HasPrefix(s[i..], "***")
    && s[from] !in " \t\n" && s[end - 1] !in " \t\n"
    && (delim == "_" ==> (i == 0 || !IsWordByte(s[i - 1])) && (end + 1 == |s| || !IsWordByte(s[end + 1])))
  }

  /** Only that is emphasis. */
  lemma EmphasisIsTight(s: string, i: nat) returns (delim: string, tag: string, end: nat)
    requires i < |s| && s[i] in "*_~" && SpanAt(s, i).Span?
    ensures EmphasisAt(s, i, delim, tag, end)
    ensures SpanAt(s, i) == Span(end + |delim|, "<" + tag + ">" + RenderInline(s[i + |delim|..end]) + "</" + tag + ">")
  {
    hide EmphasisEnd, EmphasisDelimiter, SpanAt, IsWordByte, Means, RenderFrom, HasPrefix, Wrap;
    EmphasisCases(s, i);
    delim, tag := EmphasisDelimiter(s, i).0, EmphasisDelimiter(s, i).1;
    end := EmphasisEnd(s, i + |delim|, i + |delim|, delim);
    DelimiterIs(s, i);
    WrapIs(tag, RenderInline(s[i + |delim|..end]));
    EndIs(s, i + |delim|, end, delim, tag);
  }

  lemma DelimiterIs(s: string, i: nat)
    requires i < |s|
    ensures var (delim, tag) := EmphasisDelimiter(s, i);
            delim != "" ==>
              && Means(delim, tag) && i + |delim| <= |s| && s[i..i + |delim|] == delim && !HasPrefix(s[i..], "***")
              && (|delim| == 1 && i + 1 < |s| ==> s[i + 1] != delim[0])
  {
    var t := s[i..];
    var (delim, tag) := EmphasisDelimiter(s, i);
    assert delim != "" && HasPrefix(t, delim) ==> t[..|delim|] == s[i..i + |delim|];
    assert i + 1 < |s| ==> t[..2] == [s[i], s[i + 1]];
  }

  lemma EndIs(s: string, from: nat, end: nat, delim: string, tag: string)
    requires Means(delim, tag) && from <= |s| && end == EmphasisEnd(s, from, from, delim) < |s|
    ensures from < end && end + |delim| <= |s| && s[end..end + |delim|] == delim && s[from] !in " \t\n"
        && s[end - 1] !in " \t\n"
    ensures delim == "_" ==> end + 1 == |s| || !IsWordByte(s[end + 1])
  {
    hide EmphasisEnd, IsWordByte;
    assert s[end..][..|delim|] == s[end..end + |delim|];
  }

  lemma WrapIs(tag: string, content: string)
    ensures Wrap(tag, content) == "<" + tag + ">" + content + "</" + tag + ">"
  {
  }
}
