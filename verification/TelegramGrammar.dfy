/** Tokens of rendered Telegram HTML (the splitter's and the stripper's), the grammar of messages Telegram
 * accepts (`Rendered`: every `<` starts an emitted tag, every `&` an entity, tags nest), and what a text
 * means (`Trace`: each token with the tags open around it). */
module TelegramGrammar {
  import opened GoStrings

  // ----- tokens -----

  datatype Kind = Text | Open | Close

  datatype Token = Token(n: nat, kind: Kind, name: string)

  predicate IsLetter(c: char) {
    'a' <= c <= 'z' || 'A' <= c <= 'Z'
  }

  predicate IsTagName(s: string) {
    0 < |s| <= 10 && forall k :: 0 <= k < |s| ==> IsLetter(s[k])
  }

  /** `strings.IndexAny(s, " \t")`. */
  function IndexBlank(s: string): (r: int)
    ensures -1 <= r < |s|
  {
    var space, tab := IndexByte(s, ' '), IndexByte(s, '\t');
    if space < 0 then tab else if tab < 0 then space else if space < tab then space else tab
  }

  function TagNameOf(inner: string): (name: string)
    ensures name == "" || IsTagName(name)
  {
    var end := IndexBlank(inner);
    var head := if end > 0 then inner[..end] else inner;
    if IsTagName(head) then head else ""
  }

  /** The name in an opening tag that is given with its brackets and attributes. */
  function TagName(openTag: string): string {
    var a := if HasPrefix(openTag, "<") then openTag[1..] else openTag;
    TagNameOf(if HasSuffix(a, ">") then a[..|a| - 1] else a)
  }

  predicate IsCont(c: char) {
    '\U{80}' <= c <= '\U{BF}'
  }

  /** Bytes of the UTF-8 rune `t` starts with, by the table of section 4 of RFC 3629; an ill-formed
      sequence counts as one byte, as Go's decoder has it. */
  function RuneSize(t: string): (n: nat)
    requires t != ""
    ensures 1 <= n <= |t|
    ensures forall k :: 1 <= k < n ==> IsCont(t[k])
    ensures n > 1 ==> t[0] >= '\U{C2}'
  {
    var b := t[0];
    if '\U{C2}' <= b <= '\U{DF}' && |t| >= 2 && IsCont(t[1]) then 2
    else if '\U{E0}' <= b <= '\U{EF}' && |t| >= 3 && IsCont(t[1]) && IsCont(t[2])
      && (b == '\U{E0}' ==> t[1] >= '\U{A0}') && (b == '\U{ED}' ==> t[1] <= '\U{9F}') then 3
    else if '\U{F0}' <= b <= '\U{F4}' && |t| >= 4 && IsCont(t[1]) && IsCont(t[2]) && IsCont(t[3])
      && (b == '\U{F0}' ==> t[1] >= '\U{90}') && (b == '\U{F4}' ==> t[1] <= '\U{8F}') then 4
    else 1
  }

  /** `nextHTMLToken` at the start of `t`: how many bytes belong together, and whether they open or close
      a tag. */
  function NextToken(t: string): (tok: Token)
    requires t != ""
    ensures 1 <= tok.n <= |t|
    ensures tok.kind == Text || (t[0] == '<' && t[tok.n - 1] == '>' && IsTagName(tok.name))
  {
    var gt := IndexByte(t, '>');
    if t[0] == '<' && gt > 0 && HasSuffix(t[1..gt], "/") then Token(gt + 1, Text, "")
    else if t[0] == '<' && gt > 0 && HasPrefix(t[1..gt], "/") && IsTagName(t[2..gt]) then Token(gt + 1, Close, t[2..gt])
    else if t[0] == '<' && gt > 0 && !HasPrefix(t[1..gt], "/") && TagNameOf(t[1..gt]) != "" then
      Token(gt + 1, Open, TagNameOf(t[1..gt]))
    else
      var semi := IndexByte(t, ';');
      if t[0] == '&' && 1 < semi <= 12 then Token(semi + 1, Text, "") else Token(RuneSize(t), Text, "")
  }

  /** The open tags, outermost first, after a token; a closing tag that matches nothing is ignored. */
  function After(stack: seq<string>, tok: Token, text: string): seq<string> {
    match tok.kind
    case Open => stack + [text]
    case Close => if |stack| > 0 && TagName(stack[|stack| - 1]) == tok.name then stack[..|stack| - 1] else stack
    case Text => stack
  }

  // ----- meaning -----

  /** One token of a text, with the tags open before and after it. */
  datatype Entry = Entry(text: string, kind: Kind, before: seq<string>, after: seq<string>)

  /** How `t` reads when the tags of `stack` are already open. */
  function Trace(t: string, stack: seq<string>): seq<Entry>
    decreases |t|
  {
    if t == "" then []
    else
      var tok := NextToken(t);
      var after := After(stack, tok, t[..tok.n]);
      [Entry(t[..tok.n], tok.kind, stack, after)] + Trace(t[tok.n..], after)
  }

  /** What a reader sees: each text token under the tags that format it. */
  datatype Glyph = Glyph(text: string, tags: seq<string>)

  function GlyphsOf(e: Entry): seq<Glyph> {
    if e.kind == Text then [Glyph(e.text, e.before)] else []
  }

  function Visible(trace: seq<Entry>): seq<Glyph> {
    if trace == [] then [] else GlyphsOf(trace[0]) + Visible(trace[1..])
  }

  lemma {:induction false} VisibleConcat(a: seq<Entry>, b: seq<Entry>)
    ensures Visible(a + b) == Visible(a) + Visible(b)
  {
    hide GlyphsOf;
    if a == [] {
      assert a + b == b;
    } else {
      assert (a + b)[1..] == a[1..] + b;
      VisibleConcat(a[1..], b);
      assert GlyphsOf(a[0]) + (Visible(a[1..]) + Visible(b)) == GlyphsOf(a[0]) + Visible(a[1..]) + Visible(b);
    }
  }

  // ----- grammar -----

  predicate IsLanguageByte(c: char) {
    IsLetter(c) || '0' <= c <= '9' || c == '+' || c == '-' || c == '#' || c == '.' || c == '_'
  }

  predicate IsLanguageTag(s: string) {
    0 < |s| <= 20 && forall k :: 0 <= k < |s| ==> IsLanguageByte(s[k])
  }

  const LanguageOpen := "<code class=\"language-"
  const LinkOpen := "<a href=\""
  const AttrEnd := "\">"

  /** A tag `head` + attribute value + `">`. */
  predicate IsAttrTag(tag: string, head: string) {
    |tag| >= |head| + 2 && HasPrefix(tag, head) && HasSuffix(tag, AttrEnd)
  }

  function AttrValue(tag: string, head: string): string
    requires IsAttrTag(tag, head)
  {
    tag[|head|..|tag| - 2]
  }

  predicate IsHrefByte(c: char) {
    c !in " \t\"'<>"
  }

  /** An escaped link target: no quote, bracket or blank, and `&` only as an entity. */
  predicate IsHref(v: string) {
    && v != ""
    && (forall k :: 0 <= k < |v| ==> IsHrefByte(v[k]))
    && EntitiesOnly(v)
  }

  /** Length of the entity `t` starts with (the three that escaping produces), 0 if none. */
  function EntityLen(t: string): (n: nat)
    ensures n <= |t|
    ensures n > 0 ==> t[0] == '&' && t[n - 1] == ';' && '<' !in t[..n] && n >= 4
  {
    if HasPrefix(t, "&amp;") then 5 else if HasPrefix(t, "&lt;") || HasPrefix(t, "&gt;") then 4 else 0
  }

  predicate EntitiesOnly(v: string) {
    if v == "" then true
    else if v[0] == '&' then EntityLen(v) > 0 && EntitiesOnly(v[EntityLen(v)..])
    else EntitiesOnly(v[1..])
  }

  predicate IsSimpleTag(tag: string) {
    tag == "<b>" || tag == "<i>" || tag == "<s>" || tag == "<code>" || tag == "<pre>"
  }

  predicate IsLanguageOpen(tag: string) {
    IsAttrTag(tag, LanguageOpen) && IsLanguageTag(AttrValue(tag, LanguageOpen))
  }

  predicate IsLinkOpen(tag: string) {
    IsAttrTag(tag, LinkOpen) && IsHref(AttrValue(tag, LinkOpen))
  }

  /** Exactly the opening tags the renderer emits. */
  predicate IsOpenTag(tag: string) {
    IsSimpleTag(tag) || IsLanguageOpen(tag) || IsLinkOpen(tag)
  }

  predicate OutsideCode(stack: seq<string>) {
    forall k :: 0 <= k < |stack| ==> TagName(stack[k]) != "code" && TagName(stack[k]) != "pre"
  }

  predicate OutsideLink(stack: seq<string>) {
    forall k :: 0 <= k < |stack| ==> TagName(stack[k]) != "a"
  }

  /** Where a tag may open: a code block only at top level, a language tag only directly in one,
      nothing inside code, no link inside a link. */
  predicate MayOpen(stack: seq<string>, tag: string) {
    if tag == "<pre>" then stack == []
    else if IsLanguageOpen(tag) then stack == ["<pre>"]
    else IsOpenTag(tag) && OutsideCode(stack) && (IsLinkOpen(tag) ==> OutsideLink(stack))
  }

  function CloseTag(tag: string): string {
    "</" + TagName(tag) + ">"
  }

  datatype Move = Move(n: nat, stack: seq<string>)

  /** The first construct of `t` under `stack` and the tags open after it; None when `t` starts a
      construct the grammar does not have. */
  function Step(t: string, stack: seq<string>): (r: Option<Move>)
    requires t != ""
    ensures r.None? || 1 <= r.value.n <= |t|
  {
    if t[0] == '<' then
      var n := IndexByte(t, '>') + 1;
      if n == 0 then None
      else if MayOpen(stack, t[..n]) then Some(Move(n, stack + [t[..n]]))
      else if |stack| > 0 && t[..n] == CloseTag(stack[|stack| - 1]) then Some(Move(n, stack[..|stack| - 1]))
      else None
    else if t[0] == '&' then
      if EntityLen(t) == 0 then None else Some(Move(EntityLen(t), stack))
    else Some(Move(1, stack))
  }

  /** The tags open after `t` when it is well formed under `stack`, None when it is not. */
  function Walk(t: string, stack: seq<string>): Option<seq<string>>
    decreases |t|
  {
    if t == "" then Some(stack)
    else match Step(t, stack)
      case None => None
      case Some(move) => Walk(t[move.n..], move.stack)
  }

  /** A complete message in the language Telegram accepts from this daemon. */
  predicate Rendered(s: string) {
    Walk(s, []) == Some([])
  }

  /** Stacks that can arise: every tag was allowed where it opened. */
  predicate Nested(stack: seq<string>) {
    forall k :: 0 <= k < |stack| ==> MayOpen(stack[..k], stack[k])
  }

  // ----- the two views agree -----

  lemma SimpleTagShape(tag: string)
    requires IsSimpleTag(tag)
    ensures |tag| >= 3 && tag[0] == '<' && tag[|tag| - 1] == '>' && '>' !in tag[..|tag| - 1]
    ensures tag[1] != '/' && tag[|tag| - 2] != '/'
    ensures TagName(tag) == tag[1..|tag| - 1] && IsTagName(TagName(tag))
  {
    hide IsSimpleTag;
    var name := SimpleTagName(tag);
  }

  lemma SimpleTagName(tag: string) returns (name: string)
    requires IsSimpleTag(tag)
    ensures IsTagName(name) && tag == "<" + name + ">"
  {
    if tag == "<b>" {
      name := "b";
    } else if tag == "<i>" {
      name := "i";
    } else if tag == "<s>" {
      name := "s";
    } else if tag == "<pre>" {
      name := "pre";
    } else {
      name := "code";
    }
  }

  lemma AttrTagShape(tag: string, k: nat)
    requires 1 <= k && k + 4 <= |tag|
    requires tag[0] == '<' && IsTagName(tag[1..k + 1]) && tag[k + 1] == ' '
    requires tag[|tag| - 2] == '"' && tag[|tag| - 1] == '>'
    ensures TagName(tag) == TagNameOf(tag[1..|tag| - 1]) == tag[1..k + 1]
  {
    hide IsTagName;
    var inner := tag[1..|tag| - 1];
    assert tag[1..][..|tag| - 2] == inner;
    assert inner[..k] == tag[1..k + 1];
    assert ' ' !in inner[..k] && '\t' !in inner[..k] by {
      LettersOnly(inner[..k]);
    }
    IndexByteIs(inner, ' ', k);
    var r := IndexByte(inner, '\t');
    assert r < 0 || r > k;
  }

  lemma LettersOnly(name: string)
    requires IsTagName(name)
    ensures ' ' !in name && '\t' !in name && '/' !in name && '>' !in name
  {
  }

  /** What every emitted opening tag looks like to the tokenizer. */
  ghost predicate TagShape(tag: string) {
    && |tag| >= 3 && tag[0] == '<' && tag[|tag| - 1] == '>' && '>' !in tag[..|tag| - 1]
    && tag[1] != '/' && tag[|tag| - 2] != '/'
    && IsTagName(TagName(tag)) && TagName(tag) == TagNameOf(tag[1..|tag| - 1])
  }

  lemma LanguageOpenShape(tag: string)
    requires IsLanguageOpen(tag)
    ensures TagShape(tag) && TagName(tag) == "code"
  {
    hide TagName;
    hide TagNameOf;
    var head, v := LanguageOpen, AttrValue(tag, LanguageOpen);
    assert tag == head + v + AttrEnd;
    assert tag[..|tag| - 1] == head + v + "\"";
    assert '>' !in head && '>' !in v;
    assert tag[1..5] == head[1..5] == "code";
    assert tag[5] == head[5];
    AttrTagShape(tag, 4);
  }

  lemma LinkOpenShape(tag: string)
    requires IsLinkOpen(tag)
    ensures TagShape(tag) && TagName(tag) == "a"
  {
    hide TagName;
    hide TagNameOf;
    hide EntitiesOnly;
    var head, v := LinkOpen, AttrValue(tag, LinkOpen);
    assert tag == head + v + AttrEnd;
    assert tag[..|tag| - 1] == head + v + "\"";
    assert '>' !in head && '>' !in v;
    assert tag[1..2] == head[1..2] == "a";
    assert tag[2] == head[2];
    AttrTagShape(tag, 1);
  }

  lemma OpenTagShape(tag: string)
    requires IsOpenTag(tag)
    ensures TagShape(tag)
  {
    hide IsLanguageOpen;
    hide IsLinkOpen;
    if IsSimpleTag(tag) {
      SimpleTagShape(tag);
      assert tag[1..][..|tag| - 2] == tag[1..|tag| - 1];
    } else if IsLanguageOpen(tag) {
      LanguageOpenShape(tag);
    } else {
      LinkOpenShape(tag);
    }
  }

  /** An emitted opening tag is one token wherever it stands. */
  lemma OpenTagToken(tag: string, rest: string)
    requires IsOpenTag(tag)
    ensures NextToken(tag + rest) == Token(|tag|, Open, TagName(tag))
    ensures IndexByte(tag + rest, '>') == |tag| - 1
  {
    hide IsOpenTag;
    hide TagName;
    hide TagNameOf;
    OpenTagShape(tag);
    var t := tag + rest;
    assert t[..|tag| - 1] == tag[..|tag| - 1];
    IndexByteIs(t, '>', |tag| - 1);
    var inner := t[1..|tag| - 1];
    assert inner == tag[1..|tag| - 1];
    assert inner[0] != '/' && inner[|inner| - 1] != '/';
  }

  lemma CloseTagToken(name: string, rest: string)
    requires IsTagName(name)
    ensures NextToken("</" + name + ">" + rest) == Token(|name| + 3, Close, name)
    ensures IndexByte("</" + name + ">" + rest, '>') == |name| + 2
  {
    var t := "</" + name + ">" + rest;
    assert t[..|name| + 2] == "</" + name;
    IndexByteIs(t, '>', |name| + 2);
    assert t[1..|name| + 2] == "/" + name;
    assert t[2..|name| + 2] == name;
    assert t[1..|name| + 2][|name|..] == [name[|name| - 1]];
  }

  lemma EntityToken(t: string)
    requires EntityLen(t) > 0
    ensures NextToken(t) == Token(EntityLen(t), Text, "")
  {
    var n := EntityLen(t);
    assert t[..n] == "&amp;" || t[..n] == "&lt;" || t[..n] == "&gt;";
    IndexByteIs(t, ';', n - 1);
  }

  // ----- reading a prefix -----

  /** The entries of the first `m` bytes, or None when `m` falls inside a token. */
  function Upto(t: string, stack: seq<string>, m: nat): Option<seq<Entry>>
    decreases |t|
  {
    if m == 0 then Some([])
    else if t == "" then None
    else
      var tok := NextToken(t);
      if tok.n > m then None
      else
        var after := After(stack, tok, t[..tok.n]);
        var rest := Upto(t[tok.n..], after, m - tok.n);
        if rest.None? then None
        else Some([Entry(t[..tok.n], tok.kind, stack, after)] + rest.value)
  }

  /** The tags open after the entries `tr`, read from `stack`. */
  function StackAfter(stack: seq<string>, tr: seq<Entry>): seq<string> {
    if tr == [] then stack else tr[|tr| - 1].after
  }

  /** One more token after a token boundary is again a boundary. */
  lemma {:induction false} UptoNext(t: string, stack: seq<string>, m: nat)
    requires m < |t| && Upto(t, stack, m).Some?
    ensures var tr := Upto(t, stack, m).value;
            var before := StackAfter(stack, tr);
            var tok := NextToken(t[m..]);
            var text := t[m..m + tok.n];
            Upto(t, stack, m + tok.n) == Some(tr + [Entry(text, tok.kind, before, After(before, tok, text))])
    decreases |t|
  {
    hide NextToken;
    hide After;
    if m > 0 {
      var tok := NextToken(t);
      var after := After(stack, tok, t[..tok.n]);
      var rest := Upto(t[tok.n..], after, m - tok.n).value;
      UptoNext(t[tok.n..], after, m - tok.n);
      DropDrop(t, tok.n, m - tok.n);
      var e := Entry(t[..tok.n], tok.kind, stack, after);
      assert StackAfter(stack, [e] + rest) == StackAfter(after, rest);
      var next := NextToken(t[m..]);
      DropTake(t, tok.n, m - tok.n, m - tok.n + next.n);
      var b := StackAfter(after, rest);
      var last := [Entry(t[m..m + next.n], next.kind, b, After(b, next, t[m..m + next.n]))];
      assert [e] + (rest + last) == ([e] + rest) + last;
    } else {
      assert t[0..] == t;
      var tok := NextToken(t);
      var after := After(stack, tok, t[..tok.n]);
      var e := Entry(t[..tok.n], tok.kind, stack, after);
      assert Upto(t[tok.n..], after, tok.n - tok.n) == Some([]);
      assert [] + [e] == [e] + [];
    }
  }

  lemma TraceSplitsGlue(e: Entry, rest: seq<Entry>, stack: seq<string>, after: seq<string>, u: string)
    requires e.after == after
    ensures [e] + (rest + Trace(u, StackAfter(after, rest))) == ([e] + rest) + Trace(u, StackAfter(stack, [e] + rest))
  {
    hide Trace;
    assert StackAfter(stack, [e] + rest) == StackAfter(after, rest);
  }

  /** A reading splits at every token boundary. */
  lemma {:induction false} TraceSplits(t: string, stack: seq<string>, m: nat)
    requires m <= |t| && Upto(t, stack, m).Some?
    ensures var tr := Upto(t, stack, m).value;
            Trace(t, stack) == tr + Trace(t[m..], StackAfter(stack, tr))
    decreases |t|
  {
    hide NextToken;
    hide After;
    if m == 0 {
      assert t[0..] == t;
    } else {
      var tok := NextToken(t);
      var after := After(stack, tok, t[..tok.n]);
      var rest := Upto(t[tok.n..], after, m - tok.n).value;
      TraceSplits(t[tok.n..], after, m - tok.n);
      assert t[tok.n..][m - tok.n..] == t[m..];
      var e := Entry(t[..tok.n], tok.kind, stack, after);
      assert Trace(t, stack) == [e] + Trace(t[tok.n..], after);
      TraceSplitsGlue(e, rest, stack, after, t[m..]);
    }
  }

  // ----- well-formed texts -----

  /** In a well-formed text the grammar and the tokenizer take the same step. */
  lemma WalkToken(t: string, stack: seq<string>)
    requires t != "" && Nested(stack) && Walk(t, stack).Some?
    ensures var tok := NextToken(t);
            var after := After(stack, tok, t[..tok.n]);
            && Walk(t[tok.n..], after) == Walk(t, stack)
            && Nested(after)
            && (t[0] == '<' ==> tok.kind != Text)
            && (t[0] == '&' ==> EntityLen(t) == tok.n)
            && (tok.kind == Open ==> MayOpen(stack, t[..tok.n]))
            && (tok.kind == Close ==> stack != [] && t[..tok.n] == CloseTag(stack[|stack| - 1]) && after == stack[..|stack| - 1])
  {
    if t[0] == '<' {
      var gt := IndexByte(t, '>');
      var tag, rest := t[..gt + 1], t[gt + 1..];
      assert t == tag + rest;
      if MayOpen(stack, tag) {
        assert IsOpenTag(tag);
        OpenTagToken(tag, rest);
        NestedPush(stack, tag);
      } else {
        var top := stack[|stack| - 1];
        assert MayOpen(stack[..|stack| - 1], top);
        assert IsOpenTag(top);
        OpenTagShape(top);
        CloseTagToken(TagName(top), rest);
        NestedPop(stack);
      }
    } else if t[0] == '&' {
      EntityToken(t);
    } else {
      var n := RuneSize(t);
      SkipPlain(t, n, stack);
    }
  }

  lemma NestedPush(stack: seq<string>, tag: string)
    requires Nested(stack) && MayOpen(stack, tag)
    ensures Nested(stack + [tag])
  {
    var s := stack + [tag];
    forall k | 0 <= k < |s| ensures MayOpen(s[..k], s[k]) {
      if k < |stack| {
        assert s[..k] == stack[..k];
      } else {
        assert s[..k] == stack;
      }
    }
  }

  lemma NestedPop(stack: seq<string>)
    requires Nested(stack) && stack != []
    ensures Nested(stack[..|stack| - 1])
  {
    var s := stack[..|stack| - 1];
    forall k | 0 <= k < |s| ensures MayOpen(s[..k], s[k]) {
      assert s[..k] == stack[..k];
    }
  }

  /** Bytes other than `<` and `&` leave the grammar where it is. */
  lemma {:induction false} SkipPlain(t: string, n: nat, stack: seq<string>)
    requires n <= |t|
    requires forall k :: 0 <= k < n ==> t[k] != '<' && t[k] != '&'
    ensures Walk(t, stack) == Walk(t[n..], stack)
  {
    if n == 0 {
      assert t[0..] == t;
    } else {
      SkipPlain(t[1..], n - 1, stack);
      assert t[1..][n - 1..] == t[n..];
    }
  }

  /** A construct is recognised from its own bytes alone. */
  lemma StepLocal(a: string, b: string, stack: seq<string>)
    requires a != "" && Step(a, stack).Some?
    ensures Step(a + b, stack) == Step(a, stack)
  {
    var t := a + b;
    var n := Step(a, stack).value.n;
    assert t[..n] == a[..n];
    if a[0] == '<' {
      assert t[..n - 1] == a[..n - 1];
      IndexByteIs(t, '>', n - 1);
    } else if a[0] == '&' {
      EntityLocal(a, b);
    }
  }

  lemma EntityLocal(a: string, b: string)
    requires EntityLen(a) > 0
    ensures EntityLen(a + b) == EntityLen(a)
  {
    var n := EntityLen(a);
    assert (a + b)[..n] == a[..n];
  }

  lemma WalkHead(t: string, stack: seq<string>)
    requires t != ""
    ensures var step := Step(t, stack);
            Walk(t, stack) == if step.None? then None else Walk(t[step.value.n..], step.value.stack)
  {
    hide Step;
  }

  /** Well-formed pieces compose. */
  lemma {:induction false} WalkConcat(a: string, b: string, stack: seq<string>)
    requires Walk(a, stack).Some?
    ensures Walk(a + b, stack) == Walk(b, Walk(a, stack).value)
    decreases |a|
  {
    hide Step;
    hide Walk;
    if a == "" {
      EmptyWalk(stack);
      assert a + b == b;
    } else {
      WalkHead(a, stack);
      WalkHead(a + b, stack);
      StepLocal(a, b, stack);
      var move := Step(a, stack).value;
      assert (a + b)[move.n..] == a[move.n..] + b;
      WalkConcat(a[move.n..], b, move.stack);
    }
  }

  // ----- one tag at a time -----

  lemma MayOpenIsOpenTag(stack: seq<string>, tag: string)
    requires MayOpen(stack, tag)
    ensures IsOpenTag(tag)
  {
  }

  lemma TopIsTag(stack: seq<string>)
    requires Nested(stack) && stack != []
    ensures IsTagName(TagName(stack[|stack| - 1]))
  {
    var m := |stack| - 1;
    assert MayOpen(stack[..m], stack[m]);
    OpenTagShape(stack[m]);
  }

  lemma CloseIsNotOpen(stack: seq<string>)
    requires stack != []
    ensures !MayOpen(stack, CloseTag(stack[|stack| - 1]))
  {
    var close := CloseTag(stack[|stack| - 1]);
    if MayOpen(stack, close) {
      OpenTagShape(close);
    }
  }

  lemma OpenStep(stack: seq<string>, tag: string, rest: string)
    requires MayOpen(stack, tag)
    ensures Walk(tag + rest, stack) == Walk(rest, stack + [tag])
    ensures Trace(tag + rest, stack) == [Entry(tag, Open, stack, stack + [tag])] + Trace(rest, stack + [tag])
  {
    assert IsOpenTag(tag);
    assert |tag| > 0 && tag[0] == '<' by {
      OpenTagShape(tag);
    }
    hide NextToken;
    OpenTagToken(tag, rest);
    hide MayOpen;
    var t := tag + rest;
    assert t[..|tag|] == tag && t[|tag|..] == rest;
  }

  lemma CloseStep(stack: seq<string>, rest: string)
    requires stack != [] && IsTagName(TagName(stack[|stack| - 1]))
    ensures var m := |stack| - 1; var close := CloseTag(stack[m]);
            && Walk(close + rest, stack) == Walk(rest, stack[..m])
            && Trace(close + rest, stack) == [Entry(close, Close, stack, stack[..m])] + Trace(rest, stack[..m])
  {
    hide IsTagName;
    var m := |stack| - 1;
    var name := TagName(stack[m]);
    var close := CloseTag(stack[m]);
    var t := close + rest;
    CloseTagToken(name, rest);
    assert t == "</" + name + ">" + rest;
    assert t[..|close|] == close && t[|close|..] == rest;
    assert !MayOpen(stack, close) by {
      if MayOpen(stack, close) {
        assert IsOpenTag(close);
        OpenTagShape(close);
      }
    }
  }

  /** A tag around content that leaves the open tags as they were. */
  lemma Wrapped(tag: string, content: string, stack: seq<string>)
    requires Nested(stack) && MayOpen(stack, tag) && Walk(content, stack + [tag]) == Some(stack + [tag])
    ensures Walk(tag + content + CloseTag(tag), stack) == Some(stack)
  {
    hide Walk;
    hide MayOpen;
    var inner := stack + [tag];
    var close := CloseTag(tag);
    NestedPush(stack, tag);
    TopIsTag(inner);
    assert tag + content + close == tag + (content + close);
    OpenStep(stack, tag, content + close);
    WalkConcat(content, close, inner);
    CloseStep(inner, "");
    assert close + "" == close && inner[..|stack|] == stack;
    assert Walk("", stack) == Some(stack) by {
      EmptyWalk(stack);
    }
  }

  lemma EmptyWalk(stack: seq<string>)
    ensures Walk("", stack) == Some(stack)
  {
  }

  /** Text without `<` and `&` is well formed anywhere. */
  lemma PlainWalk(s: string, stack: seq<string>)
    requires '<' !in s && '&' !in s
    ensures Walk(s, stack) == Some(stack)
  {
    SkipPlain(s, |s|, stack);
    assert s[|s|..] == "";
  }

  lemma RuneIsText(t: string)
    requires t != "" && t[0] != '<' && t[0] != '&'
    ensures NextToken(t) == Token(RuneSize(t), Text, "")
  {
  }

  lemma EntityPrefix(t: string)
    requires EntityLen(t) > 0
    ensures EntityLen(t[..EntityLen(t)]) == EntityLen(t)
  {
  }
}
