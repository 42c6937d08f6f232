/** Back from HTML to plain text: the five replacements of `plainTextFromHTML` are one pass over the text,
 * stripping undoes escaping, and what is left of a rendered line shows only bytes the author wrote, in the
 * order they were written. */
module TelegramPlain {
  import opened GoStrings
  import opened TelegramGrammar
  import opened TelegramRender

  // ----- stripping and decoding -----

  /** The text tokens of `t`. */
  function TextOf(t: string): string
    decreases |t|
  {
    if t == "" then ""
    else
      var tok := NextToken(t);
      (if tok.kind == Text then t[..tok.n] else "") + TextOf(t[tok.n..])
  }

  /** The five replacement passes, `&amp;` last. */
  function Unescape(s: string): string {
    var a := ReplaceAll(s, "&lt;", "<");
    var b := ReplaceAll(a, "&gt;", ">");
    var c := ReplaceAll(b, "&quot;", "\"");
    var d := ReplaceAll(c, "&#39;", "'");
    ReplaceAll(d, "&amp;", "&")
  }

  method PlainTextFromHTML(s: string) returns (out: string)
    ensures out == Unescape(TextOf(s))
  {
    hide NextToken;
    hide ReplaceAll;
    hide TextOf;
    var b, i := "", 0;
    assert s[0..] == s && "" + TextOf(s) == TextOf(s);
    while i < |s|
      invariant 0 <= i <= |s|
      invariant b + TextOf(s[i..]) == TextOf(s)
    {
      var tok := NextToken(s[i..]);
      NextText(s, i, b);
      if tok.kind != Text {
        i := i + tok.n;
        continue;
      }
      b := b + s[i..i + tok.n];
      i := i + tok.n;
    }
    NoText();
    assert s[i..] == "" && b + "" == b;
    out := ReplaceAll(b, "&lt;", "<");
    out := ReplaceAll(out, "&gt;", ">");
    out := ReplaceAll(out, "&quot;", "\"");
    out := ReplaceAll(out, "&#39;", "'");
    return ReplaceAll(out, "&amp;", "&");
  }

  lemma NextText(s: string, i: nat, b: string)
    requires i < |s|
    ensures var tok := NextToken(s[i..]);
            var text := if tok.kind == Text then s[i..i + tok.n] else "";
            b + TextOf(s[i..]) == b + text + TextOf(s[i + tok.n..]) && b + "" == b
  {
    hide NextToken;
    var tok := NextToken(s[i..]);
    DropDrop(s, i, tok.n);
    DropTake(s, i, 0, tok.n);
  }

  lemma NoText()
    ensures TextOf("") == ""
  {
  }

  // ----- five passes are one -----

  function Pattern(k: nat): (p: string)
    ensures |p| >= 4 && p[0] == '&' && '&' !in p[1..] && p != ""
    ensures '<' !in p && '>' !in p && '"' !in p && '\'' !in p
  {
    if k == 0 then "&lt;" else if k == 1 then "&gt;" else if k == 2 then "&quot;" else if k == 3 then "&#39;" else "&amp;"
  }

  function Replacement(k: nat): char {
    if k == 0 then '<' else if k == 1 then '>' else if k == 2 then '"' else if k == 3 then '\'' else '&'
  }

  /** Which of the first `k` entities `s` starts with; `k` if none. */
  function Match(s: string, k: nat): (j: nat)
    requires k <= 5
    ensures j == k || (j < k && HasPrefix(s, Pattern(j)))
    ensures forall i :: 0 <= i < j ==> !HasPrefix(s, Pattern(i))
  {
    if k > 0 && Match(s, k - 1) < k - 1 then Match(s, k - 1)
    else if k > 0 && HasPrefix(s, Pattern(k - 1)) then k - 1
    else k
  }

  /** One left-to-right pass that decodes the first `k` entities. */
  function Decode(s: string, k: nat): string
    requires k <= 5
    decreases |s|
  {
    if s == "" then ""
    else
      var j := Match(s, k);
      if j < k then [Replacement(j)] + Decode(s[|Pattern(j)|..], k) else [s[0]] + Decode(s[1..], k)
  }

  lemma NoMatch(s: string, k: nat)
    requires k <= 5 && s != "" && s[0] != '&'
    ensures Match(s, k) == k
  {
    hide *;
    var j := Match(s, k);
    if j < k {
      PrefixStart(s, Pattern(j));
    }
  }

  lemma PrefixStart(s: string, p: string)
    requires p != "" && HasPrefix(s, p)
    ensures s != "" && s[0] == p[0]
  {
  }

  lemma {:induction false} DecodeCopies(q: string, s: string, k: nat)
    requires k <= 5 && '&' !in q
    ensures Decode(q + s, k) == q + Decode(s, k)
  {
    hide Pattern;
    hide Match;
    hide Decode;
    if q == "" {
      assert q + s == s;
    } else {
      assert (q + s)[1..] == q[1..] + s;
      DecodeCopies(q[1..], s, k);
      NoMatch(q + s, k);
      DecodeStep(q + s, k);
      assert [q[0]] + (q[1..] + Decode(s, k)) == q + Decode(s, k);
    }
  }

  /** Decoding produces none of the characters an entity is written with. */
  lemma {:induction false} DecodePrefix(q: string, s: string, k: nat)
    requires k <= 4 && '&' !in q && '<' !in q && '>' !in q && '"' !in q && '\'' !in q
    requires HasPrefix(Decode(s, k), q)
    ensures HasPrefix(s, q)
  {
    hide Pattern;
    if q != "" {
      assert Decode(s, k)[0] == q[0];
      assert Match(s, k) == k;
      assert Decode(s, k)[1..] == Decode(s[1..], k);
      assert HasPrefix(Decode(s[1..], k), q[1..]);
      DecodePrefix(q[1..], s[1..], k);
    }
  }

  lemma DecodeStep(s: string, k: nat)
    requires s != "" && k <= 5
    ensures var j := Match(s, k);
            Decode(s, k) == if j < k then [Replacement(j)] + Decode(s[|Pattern(j)|..], k) else [s[0]] + Decode(s[1..], k)
  {
    hide Match;
    hide Pattern;
  }

  /** One more replacement pass decodes one more entity. */
  lemma {:induction false} OneMorePass(s: string, k: nat)
    requires k <= 4
    ensures ReplaceAll(Decode(s, k), Pattern(k), [Replacement(k)]) == Decode(s, k + 1)
    decreases |s|
  {
    hide Pattern;
    hide Decode;
    hide Match;
    var p, rep := Pattern(k), [Replacement(k)];
    if s == "" {
      DecodeEmpty(k);
      DecodeEmpty(k + 1);
      assert ReplaceAll("", p, rep) == "" by {
      }
    } else {
      var j := Match(s, k);
      DecodeStep(s, k);
      DecodeStep(s, k + 1);
      if j < k {
        OneMorePass(s[|Pattern(j)|..], k);
        assert ReplaceAll([Replacement(j)] + Decode(s[|Pattern(j)|..], k), p,
            rep) == [Replacement(j)] + ReplaceAll(Decode(s[|Pattern(j)|..], k), p, rep);
      } else if HasPrefix(s, p) {
        var rest := s[|p|..];
        OneMorePass(rest, k);
        assert s[1..] == p[1..] + rest && s[0] == p[0];
        DecodeCopies(p[1..], rest, k);
        assert [p[0]] + (p[1..] + Decode(rest, k)) == p + Decode(rest, k);
      } else {
        OneMorePass(s[1..], k);
        assert !HasPrefix([s[0]] + Decode(s[1..], k), Pattern(k)) by {
          assert k <= 4 && s != "" && !HasPrefix(s, Pattern(k));
          hide Pattern;
          hide Decode;
          var p, d := Pattern(k), [s[0]] + Decode(s[1..], k);
          if HasPrefix(d, p) {
            assert d[1..] == Decode(s[1..], k);
            assert HasPrefix(d[1..], p[1..]);
            DecodePrefix(p[1..], s[1..], k);
          }
        }
        assert ReplaceAll([s[0]] + Decode(s[1..], k), p, rep) == [s[0]] + ReplaceAll(Decode(s[1..], k), p, rep);
      }
    }
  }

  lemma DecodeEmpty(k: nat)
    requires k <= 5
    ensures Decode("", k) == ""
  {
  }

  lemma {:induction false} DecodeNothing(s: string)
    ensures Decode(s, 0) == s
  {
    if s != "" {
      DecodeNothing(s[1..]);
      assert [s[0]] + s[1..] == s;
    }
  }

  /** The five chained `ReplaceAll` passes equal a single pass that decodes each entity in place, so
      nothing is decoded twice. */
  lemma UnescapeIsOnePass(s: string)
    ensures Unescape(s) == Decode(s, 5)
  {
    hide Decode;
    hide ReplaceAll;
    DecodeNothing(s);
    OneMorePass(s, 0);
    OneMorePass(s, 1);
    OneMorePass(s, 2);
    OneMorePass(s, 3);
    OneMorePass(s, 4);
  }

  // ----- stripping undoes escaping -----

  lemma {:induction false} NoTagsNothingStripped(t: string)
    requires '<' !in t
    ensures TextOf(t) == t
    decreases |t|
  {
    hide NextToken;
    if t != "" {
      var n := NextToken(t).n;
      NoTagsNothingStripped(t[n..]);
      assert t[..n] + t[n..] == t;
    }
  }

  lemma DecodeByte(c: char, rest: string)
    ensures Decode(EscapeByte(c) + rest, 5) == [c] + Decode(rest, 5)
  {
    var t := EscapeByte(c) + rest;
    var n := |EscapeByte(c)|;
    assert t[n..] == rest;
    assert t[..n] == EscapeByte(c);
    if c == '&' {
      assert HasPrefix(t, Pattern(4));
      assert t[1] == 'a';
      assert Match(t, 5) == 4;
    } else if c == '<' {
      assert HasPrefix(t, Pattern(0));
      assert Match(t, 5) == 0;
    } else if c == '>' {
      assert HasPrefix(t, Pattern(1));
      assert t[1] == 'g';
      assert Match(t, 5) == 1;
    } else {
      assert t[0] == c;
      assert Match(t, 5) == 5;
    }
  }

  lemma {:induction false} DecodeEscaped(s: string)
    ensures Decode(Escaped(s), 5) == s && '<' !in Escaped(s)
  {
    hide Decode;
    if s == "" {
      DecodeEmpty(5);
    } else {
      DecodeEscaped(s[1..]);
      DecodeByte(s[0], Escaped(s[1..]));
      assert [s[0]] + s[1..] == s;
    }
  }

  /** What `PlainTextFromHTML` computes. */
  function PlainText(s: string): string {
    Unescape(TextOf(s))
  }

  /** Every byte string survives escaping and stripping. */
  lemma StripUndoesEscape(s: string)
    ensures PlainText(HtmlEscape(s)) == s
  {
    hide Unescape;
    hide HtmlEscape;
    EscapeIsOnePass(s);
    DecodeEscaped(s);
    NoTagsNothingStripped(HtmlEscape(s));
    UnescapeIsOnePass(Escaped(s));
  }

  // ----- no byte is invented -----

  lemma {:induction false} SubsequenceSame(a: string)
    ensures Subsequence(a, a)
  {
    if a != "" {
      SubsequenceSame(a[1..]);
    }
  }

  lemma {:induction false} SubsequenceConcat(a: string, b: string, c: string, d: string)
    requires Subsequence(a, b) && Subsequence(c, d)
    ensures Subsequence(a + c, b + d)
    decreases |a| + |b|
  {
    if b == "" {
      assert a + c == c && b + d == d;
    } else {
      assert (b + d)[1..] == b[1..] + d;
      if a == "" {
        SubsequenceConcat(a, b[1..], c, d);
      } else if a[0] == b[0] && Subsequence(a[1..], b[1..]) {
        assert (a + c)[1..] == a[1..] + c;
        SubsequenceConcat(a[1..], b[1..], c, d);
      } else {
        SubsequenceConcat(a, b[1..], c, d);
      }
    }
  }

  /** A subsequence of a slice is one of any longer slice. */
  lemma SubsequenceSlice(a: string, s: string, from: nat, x: nat, y: nat, to: nat)
    requires from <= x <= y <= to <= |s| && Subsequence(a, s[x..y])
    ensures Subsequence(a, s[from..to])
  {
    assert Subsequence("", s[from..x]) && Subsequence("", s[y..to]) by {
    }
    SubsequenceConcat("", s[from..x], a, s[x..y]);
    SubsequenceConcat("" + a, s[from..x] + s[x..y], "", s[y..to]);
    assert s[from..x] + s[x..y] + s[y..to] == s[from..to];
    assert "" + a + "" == a;
  }

  /** `t` without its tags, byte by byte. */
  function Strip(t: string): string {
    if t == "" then ""
    else if t[0] == '<' && IndexByte(t, '>') >= 0 then Strip(t[IndexByte(t, '>') + 1..])
    else [t[0]] + Strip(t[1..])
  }

  lemma {:induction false} StripCopies(t: string, n: nat)
    requires n <= |t| && '<' !in t[..n]
    ensures Strip(t) == t[..n] + Strip(t[n..])
  {
    if n == 0 {
      assert t[0..] == t;
    } else {
      TakeDrop(t, 1, n);
      DropTake(t, 1, 0, n - 1);
      DropDrop(t, 1, n - 1);
      assert t[..n] == [t[0]] + t[1..n];
      assert t[0] == t[..n][0];
      StripCopies(t[1..], n - 1);
    }
  }

  lemma StripTag(t: string)
    requires t != "" && t[0] == '<' && IndexByte(t, '>') >= 0
    ensures Strip(t) == Strip(t[IndexByte(t, '>') + 1..])
  {
  }

  /** On well-formed text the token reader and the byte reader agree. */
  lemma {:induction false} TextOfIsStrip(t: string, stack: seq<string>)
    requires Nested(stack) && Walk(t, stack).Some?
    ensures TextOf(t) == Strip(t)
    decreases |t|
  {
    hide Strip;
    if t == "" {
      assert Strip("") == "" by {
        StripEmpty();
      }
    } else {
      WalkToken(t, stack);
      var tok := NextToken(t);
      TextOfIsStrip(t[tok.n..], After(stack, tok, t[..tok.n]));
      if tok.kind == Text {
        assert '<' !in t[..NextToken(t).n] by {
          hide Walk;
          hide MayOpen;
          hide NextToken;
          WalkToken(t, stack);
          if t[0] != '&' {
            RuneIsText(t);
          }
        }
        StripCopies(t, tok.n);
      } else {
        assert IndexByte(t, '>') == NextToken(t).n - 1;
        StripTag(t);
      }
    }
  }

  lemma StripEmpty()
    ensures Strip("") == ""
  {
  }

  lemma WalkStep(a: string, stack: seq<string>)
    requires a != "" && Walk(a, stack).Some?
    ensures Step(a, stack).Some?
    ensures var move := Step(a, stack).value;
            && Walk(a[move.n..], move.stack).Some?
            && move.n == (if a[0] == '<' then IndexByte(a, '>') + 1 else if a[0] == '&' then EntityLen(a) else 1)
            && (a[0] != '<' ==> '<' !in a[..move.n])
            && (a[0] == '&' ==> EntityLen(a[..move.n]) == move.n)
  {
    hide MayOpen;
    if a[0] == '&' {
      EntityPrefix(a);
    }
  }

  /** Well-formed pieces are stripped one by one. */
  lemma {:induction false} StripConcat(a: string, b: string, stack: seq<string>)
    requires Walk(a, stack).Some?
    ensures Strip(a + b) == Strip(a) + Strip(b)
    ensures EntitiesOnly(Strip(a))
    decreases |a|
  {
    hide Walk;
    hide Step;
    hide EntityLen;
    hide Strip;
    if a == "" {
      assert a + b == b;
      StripEmpty();
    } else {
      WalkStep(a, stack);
      var move := Step(a, stack).value;
      var x, rest := a[..move.n], a[move.n..];
      assert a + b == x + (rest + b) && (a + b)[..move.n] == x && (a + b)[move.n..] == rest + b;
      StripConcat(rest, b, move.stack);
      if a[0] == '<' {
        assert (a + b)[..move.n - 1] == a[..move.n - 1];
        IndexByteIs(a + b, '>', move.n - 1);
        StripTag(a);
        StripTag(a + b);
      } else {
        StripCopies(a, move.n);
        StripCopies(a + b, move.n);
        assert x + Strip(rest) + Strip(b) == x + (Strip(rest) + Strip(b));
        assert EntitiesOnly(x + Strip(rest)) by {
          var t := x + Strip(rest);
          assert t[|x|..] == Strip(rest);
          if x[0] == '&' {
            EntityLocal(x, Strip(rest));
          }
        }
      }
    }
  }

  /** Decoding works entity by entity. */
  lemma {:induction false} DecodeConcat(a: string, b: string)
    requires EntitiesOnly(a)
    ensures Decode(a + b, 5) == Decode(a, 5) + Decode(b, 5)
    decreases |a|
  {
    hide Decode;
    hide Match;
    hide Pattern;
    if a == "" {
      DecodeEmpty(5);
      assert a + b == b;
    } else {
      var n := if a[0] == '&' then EntityLen(a) else 1;
      assert (a + b)[n..] == a[n..] + b;
      DecodeConcat(a[n..], b);
      DecodeUnit(a);
      if a[0] == '&' {
        EntityLocal(a, b);
        assert (a + b)[..n] == a[..n];
      }
      DecodeUnit(a + b);
    }
  }

  function EntityByte(t: string): char
    requires t != ""
  {
    if HasPrefix(t, "&amp;") then '&' else if HasPrefix(t, "&lt;") then '<' else if HasPrefix(t, "&gt;") then '>' else t[0]
  }

  lemma DecodeUnit(t: string)
    requires t != "" && (t[0] == '&' ==> EntityLen(t) > 0)
    ensures var n := if t[0] == '&' then EntityLen(t) else 1;
            Decode(t, 5) == [EntityByte(t)] + Decode(t[n..], 5)
  {
    hide Decode;
    hide Match;
    hide Pattern;
    var n := if t[0] == '&' then EntityLen(t) else 1;
    if t[0] == '&' {
      assert t[..n] == EscapeByte(EntityByte(t));
      assert t == EscapeByte(EntityByte(t)) + t[n..];
      DecodeByte(EntityByte(t), t[n..]);
    } else {
      NoMatch(t, 5);
      DecodeStep(t, 5);
    }
  }

  /** What a reader of the rendered `t` sees. */
  function Shown(t: string): string {
    Decode(Strip(t), 5)
  }

  lemma ShownEscape(s: string)
    ensures Shown(HtmlEscape(s)) == s
  {
    hide Decode;
    hide HtmlEscape;
    EscapeIsOnePass(s);
    DecodeEscaped(s);
    var e := Escaped(s);
    assert e[..|e|] == e && e[|e|..] == "";
    StripCopies(e, |e|);
    StripEmpty();
    assert e + "" == e;
  }

  /** Tags around content do not show. */
  lemma ShownWrapped(tag: string, content: string, stack: seq<string>)
    requires Nested(stack) && MayOpen(stack, tag) && Walk(content, stack + [tag]) == Some(stack + [tag])
    ensures Shown(tag + content + CloseTag(tag)) == Shown(content)
  {
    hide Walk;
    hide Decode;
    hide MayOpen;
    hide IsTagName;
    MayOpenIsOpenTag(stack, tag);
    OpenTagShape(tag);
    var close := CloseTag(tag);
    var tail := content + close;
    assert tag + content + close == tag + tail;
    OpenTagToken(tag, tail);
    assert (tag + tail)[|tag|..] == tail && (tag + tail)[0] == '<';
    StripTag(tag + tail);
    StripConcat(content, close, stack + [tag]);
    CloseTagToken(TagName(tag), "");
    assert close + "" == close && close[|close|..] == "";
    StripTag(close);
    StripEmpty();
    assert Strip(content) + "" == Strip(content);
  }

  /** Rendering a line and stripping it again shows a subsequence of the line. */
  lemma {:induction false} RenderShows(s: string, i: nat, stack: seq<string>)
    requires i <= |s| && Nested(stack) && OutsideCode(stack) && (']' in s ==> OutsideLink(stack))
    ensures Subsequence(Shown(RenderFrom(s, i)), s[i..])
    decreases |s|, 2 + |s| - i
  {
    hide SpanAt;
    hide EscapeByte;
    hide MayOpen;
    hide Walk;
    if i == |s| {
      assert Shown("") == "" by {
      }
    } else if SpanAt(s, i).Span? {
      var next, out := SpanAt(s, i).next, SpanAt(s, i).out;
      SpanShows(s, i, stack);
      RenderShows(s, next, stack);
      SpanSafe(s, i, stack);
      assert Shown(out + RenderFrom(s, next)) == Shown(out) + Shown(RenderFrom(s, next)) by {
        hide Decode;
        hide Strip;
        hide Walk;
        StripConcat(out, RenderFrom(s, next), stack);
        DecodeConcat(Strip(out), Strip(RenderFrom(s, next)));
      }
      SubsequenceConcat(Shown(out), s[i..next], Shown(RenderFrom(s, next)), s[next..]);
      assert s[i..next] + s[next..] == s[i..];
    } else {
      RenderShows(s, i + 1, stack);
      ShownByte(s[i], RenderFrom(s, i + 1));
      SubsequenceSame([s[i]]);
      SubsequenceConcat([s[i]], [s[i]], Shown(RenderFrom(s, i + 1)), s[i + 1..]);
      assert [s[i]] + s[i + 1..] == s[i..];
    }
  }

  lemma ShownByte(c: char, rest: string)
    ensures Shown(EscapeByte(c) + rest) == [c] + Shown(rest)
  {
    hide Decode;
    var t := EscapeByte(c) + rest;
    assert t[..|EscapeByte(c)|] == EscapeByte(c) && t[|EscapeByte(c)|..] == rest;
    StripCopies(t, |EscapeByte(c)|);
    DecodeByte(c, Strip(rest));
  }

  lemma {:induction false} SpanShows(s: string, i: nat, stack: seq<string>)
    requires i < |s| && SpanAt(s, i).Span?
    requires Nested(stack) && OutsideCode(stack) && (']' in s ==> OutsideLink(stack))
    ensures Subsequence(Shown(SpanAt(s, i).out), s[i..SpanAt(s, i).next])
    decreases |s|, 1
  {
    hide Walk;
    hide MayOpen;
    hide OutsideCode;
    hide OutsideLink;
    hide TagName;
    hide HtmlEscape;
    hide Closes;
    hide RenderFrom;
    hide Shown;
    hide Subsequence;
    hide ParseLink;
    hide ParseEmphasis;
    hide InlineCode;
    if s[i] == '`' {
      SpanKinds(s, i);
      CodeShows(s, i, stack);
    } else if s[i] == '[' {
      LinkShows(s, i, stack);
    } else {
      EmphasisShows(s, i, stack);
    }
  }

  lemma {:induction false} EmphasisShows(s: string, i: nat, stack: seq<string>)
    requires i < |s| && s[i] in "*_~" && SpanAt(s, i).Span?
    requires Nested(stack) && OutsideCode(stack) && (']' in s ==> OutsideLink(stack))
    ensures Subsequence(Shown(SpanAt(s, i).out), s[i..SpanAt(s, i).next])
    decreases |s|, 0
  {
    hide Walk;
    hide MayOpen;
    hide OutsideCode;
    hide OutsideLink;
    hide TagName;
    hide RenderFrom;
    hide Shown;
    hide Subsequence;
    hide ParseEmphasis;
    hide SpanAt;
    var e := ParseEmphasis(s, i);
    SpanKinds(s, i);
    var content := s[e.from..e.to];
    var open := "<" + e.tag + ">";
    assert open == "<b>" || open == "<i>" || open == "<s>";
    SimpleTagOpens(open, stack);
    NestedPush(stack, open);
    InlineSafe(content, 0, stack + [open]);
    RenderShows(content, 0, stack + [open]);
    assert content[0..] == content;
    ShownWrapped(open, RenderInline(content), stack);
    assert open[1..|open| - 1] == e.tag;
    assert Wrap(e.tag, RenderInline(content)) == open + RenderInline(content) + CloseTag(open);
    SubsequenceSlice(Shown(RenderInline(content)), s, i, e.from, e.to, e.next);
  }

  lemma CodeShows(s: string, i: nat, stack: seq<string>)
    requires i < |s| && s[i] == '`' && InlineCode(s, i).Span? && Nested(stack) && OutsideCode(stack)
    ensures Subsequence(Shown(InlineCode(s, i).out), s[i..InlineCode(s, i).next])
  {
    hide Walk;
    hide MayOpen;
    hide TagName;
    hide HtmlEscape;
    hide BacktickRun;
    hide FenceFrom;
    hide TrimSpace;
    hide Shown;
    hide Subsequence;
    var n := BacktickRun(s, i);
    var j := FenceFrom(s, i + n, n);
    var content := s[i + n..j];
    SimpleTagOpens("<code>", stack);
    EscapeWalk(content, stack + ["<code>"]);
    assert CloseTag("<code>") == "</code>" by {
      SimpleTagShape("<code>");
      assert "<code>"[1..5] == "code";
    }
    ShownWrapped("<code>", HtmlEscape(content), stack);
    ShownEscape(content);
    SubsequenceSame(content);
    SubsequenceSlice(content, s, i, i + n, j, j + n);
  }

  lemma {:induction false} LinkShows(s: string, i: nat, stack: seq<string>)
    requires i < |s| && s[i] == '[' && SpanAt(s, i).Span?
    requires Nested(stack) && OutsideCode(stack) && (']' in s ==> OutsideLink(stack))
    ensures Subsequence(Shown(SpanAt(s, i).out), s[i..SpanAt(s, i).next])
    decreases |s|, 0
  {
    hide Walk;
    hide MayOpen;
    hide OutsideCode;
    hide OutsideLink;
    hide TagName;
    hide HtmlEscape;
    hide ParseLink;
    hide RenderFrom;
    hide Shown;
    hide Subsequence;
    hide AcceptableUrl;
    hide TrimSpace;
    var parts := ParseLink(s, i);
    var text := s[i + 1..parts.bracket];
    var tag := LinkOpen + HtmlEscape(parts.url) + AttrEnd;
    assert s[parts.bracket] == ']' && ']' !in text by {
      assert text == s[i..parts.bracket][1..];
    }
    LinkOpens(parts.url, stack);
    NestedPush(stack, tag);
    if TrimSpace(text) == "" {
      EscapeWalk(parts.url, stack + [tag]);
      ShownWrapped(tag, HtmlEscape(parts.url), stack);
      ShownEscape(parts.url);
      UrlIsThere(s, i);
    } else {
      InlineSafe(text, 0, stack + [tag]);
      RenderShows(text, 0, stack + [tag]);
      assert text[0..] == text;
      ShownWrapped(tag, RenderFrom(text, 0), stack);
      SubsequenceSlice(Shown(RenderFrom(text, 0)), s, i, i + 1, parts.bracket, parts.next);
    }
    var content := if TrimSpace(text) == "" then HtmlEscape(parts.url) else RenderFrom(text, 0);
    assert SpanAt(s, i).out == tag + content + CloseTag(tag);
  }

  lemma TrimmedSubsequence(raw: string)
    ensures Subsequence(TrimSpace(raw), raw)
  {
    hide Subsequence;
    hide TrimRightSpace;
    hide LeadingSpace;
    hide TrailingSpace;
    var left := TrimLeftSpace(raw);
    var url := TrimSpace(raw);
    TrimLeftTrims(raw);
    TrimRightTrims(left);
    var x := |raw| - |left|;
    DropTake(raw, x, 0, |url|);
    SubsequenceSame(url);
    assert url == raw[x..x + |url|] && raw[0..|raw|] == raw;
    SubsequenceSlice(url, raw, 0, x, x + |url|, |raw|);
  }

  lemma UrlIsThere(s: string, i: nat)
    requires i < |s| && s[i] == '[' && ParseLink(s, i).LinkParts?
    ensures Subsequence(ParseLink(s, i).url, s[i..ParseLink(s, i).next])
  {
    hide Subsequence;
    hide TrimSpace;
    var parts := ParseLink(s, i);
    hide ParseLink;
    TrimmedSubsequence(s[parts.bracket + 2..parts.next - 1]);
    SubsequenceSlice(parts.url, s, i, parts.bracket + 2, parts.next - 1, parts.next);
  }

  /** Stripping a rendered line invents nothing: what is left are bytes of the line, in order. */
  lemma StripOfRenderIsSubsequence(s: string)
    ensures Subsequence(PlainText(RenderInline(s)), s)
  {
    hide Walk;
    hide Decode;
    hide Subsequence;
    hide RenderFrom;
    hide Unescape;
    RenderShows(s, 0, []);
    InlineSafe(s, 0, []);
    TextOfIsStrip(RenderInline(s), []);
    UnescapeIsOnePass(TextOf(RenderInline(s)));
    assert s[0..] == s;
  }
}
