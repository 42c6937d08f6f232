/** Splitting rendered HTML into messages that are complete on their own, read like the original and keep
 * to the size limit under an exact condition. */
module TelegramSplit {
  import opened GoStrings
  import opened TelegramGrammar
  import opened TelegramRunes

  const TELEGRAM_CHUNK_LIMIT := 4000

  // ----- closing and reopening -----

  /** The text that closes `stack`, innermost tag first. */
  function Closers(stack: seq<string>): string {
    if stack == [] then "" else CloseTag(stack[|stack| - 1]) + Closers(stack[..|stack| - 1])
  }

  method CloseTags(stack: seq<string>) returns (b: string)
    ensures b == Closers(stack)
  {
    assert stack[..|stack|] == stack;
    b := "";
    var i := |stack| - 1;
    while i >= 0
      invariant -1 <= i < |stack|
      invariant b + Closers(stack[..i + 1]) == Closers(stack)
    {
      assert stack[..i + 1][..i] == stack[..i];
      b := b + ("</" + TagName(stack[i]) + ">");
      i := i - 1;
    }
    assert stack[..0] == [];
  }

  method CloseTagsLen(stack: seq<string>) returns (n: nat)
    ensures n == |Closers(stack)|
  {
    n := 0;
    for k := 0 to |stack|
      invariant n == |Closers(stack[..k])|
    {
      assert stack[..k + 1][..k] == stack[..k];
      n := n + |TagName(stack[k])| + 3;
    }
    assert stack[..|stack|] == stack;
  }

  /** The entries that reopening `stack` from its first `k` tags on adds to a reading. */
  ghost function Reopening(stack: seq<string>, k: nat): (tr: seq<Entry>)
    requires k <= |stack|
    ensures Visible(tr) == []
    decreases |stack| - k
  {
    if k == |stack| then []
    else
      var e, rest := Entry(stack[k], Open, stack[..k], stack[..k + 1]), Reopening(stack, k + 1);
      assert ([e] + rest)[1..] == rest;
      [e] + rest
  }

  lemma {:induction false} ReopenRead(stack: seq<string>, k: nat, u: string)
    requires k <= |stack| && Nested(stack)
    ensures Walk(Join(stack[k..], "") + u, stack[..k]) == Walk(u, stack)
    ensures Trace(Join(stack[k..], "") + u, stack[..k]) == Reopening(stack, k) + Trace(u, stack)
    decreases |stack| - k
  {
    hide Walk;
    hide Trace;
    hide MayOpen;
    if k == |stack| {
      assert Join(stack[k..], "") + u == u;
      assert stack[..k] == stack;
      assert Trace(u, stack) == [] + Trace(u, stack);
    } else {
      var tag, rest := stack[k], Join(stack[k + 1..], "") + u;
      assert stack[k..][1..] == stack[k + 1..];
      assert Join(stack[k..], "") + u == tag + rest;
      assert stack[..k] + [tag] == stack[..k + 1];
      OpenStep(stack[..k], tag, rest);
      ReopenRead(stack, k + 1, u);
      var e := Entry(tag, Open, stack[..k], stack[..k + 1]);
      var tr := Reopening(stack, k + 1);
      assert [e] + (tr + Trace(u, stack)) == ([e] + tr) + Trace(u, stack);
    }
  }

  lemma {:induction false} ClosersRead(stack: seq<string>)
    requires Nested(stack)
    ensures Walk(Closers(stack), stack) == Some([])
    ensures Visible(Trace(Closers(stack), stack)) == []
    ensures Closers(stack) == "" || Closers(stack)[0] == '<'
    decreases |stack|
  {
    hide NextToken;
    if stack != [] {
      var m := |stack| - 1;
      var top, below := stack[m], stack[..m];
      assert MayOpen(below, top);
      OpenTagShape(top);
      NestedPop(stack);
      ClosersRead(below);
      CloseStep(stack, Closers(below));
      var e := Entry(CloseTag(top), Close, stack, below);
      assert Trace(Closers(stack), stack)[1..] == Trace(Closers(below), below);
    }
  }

  // ----- a piece of a text reads the same inside a chunk -----

  /** A token of a well-formed text is well formed alone. */
  lemma TokenWalk(t: string, stack: seq<string>)
    requires t != "" && Nested(stack) && Walk(t, stack).Some?
    ensures var tok := NextToken(t); Walk(t[..tok.n], stack) == Some(After(stack, tok, t[..tok.n]))
  {
    hide Walk;
    WalkToken(t, stack);
    var tok := NextToken(t);
    var x := t[..tok.n];
    if tok.kind != Text {
      assert var tok := NextToken(t); var x := t[..tok.n]; Step(x, stack) == Some(Move(|x|, After(stack, tok, x))) by {
        hide MayOpen;
        hide NextToken;
        hide IsTagName;
        var tok := NextToken(t);
        var x := t[..tok.n];
        assert x[tok.n - 1] == '>' && x[0] == '<' && x + "" == x;
        assert IndexByte(x, '>') == tok.n - 1 by {
          if tok.kind == Open {
            MayOpenIsOpenTag(stack, x);
            OpenTagToken(x, "");
          } else {
            TopIsTag(stack);
            CloseTagToken(TagName(stack[|stack| - 1]), "");
          }
        }
        assert x[..tok.n] == x;
        if tok.kind == Close {
          TopIsTag(stack);
          CloseIsNotOpen(stack);
        }
      }
      OneStep(x, stack);
    } else if t[0] == '&' {
      OneStep(x, stack);
    } else {
      assert Walk(t[..NextToken(t).n], stack) == Some(stack) by {
        hide NextToken;
        hide Walk;
        RuneIsText(t);
        var x := t[..RuneSize(t)];
        SkipPlain(x, |x|, stack);
        assert x[|x|..] == "";
        EmptyWalk(stack);
      }
    }
  }

  lemma OneStep(x: string, stack: seq<string>)
    requires x != "" && Step(x, stack).Some? && Step(x, stack).value.n == |x|
    ensures Walk(x, stack) == Some(Step(x, stack).value.stack)
  {
    hide Step;
    assert x[|x|..] == "";
  }

  /** A token is read the same wherever the text is cut behind it. */
  lemma TokenLocal(t: string, stack: seq<string>, m: nat, q: string)
    requires t != "" && Nested(stack) && Walk(t, stack).Some?
    requires NextToken(t).n <= m <= |t| && (q == "" || q[0] == '<')
    ensures NextToken(t[..m] + q) == NextToken(t)
  {
    hide Walk;
    hide MayOpen;
    hide NextToken;
    WalkToken(t, stack);
    var tok := NextToken(t);
    if tok.kind != Text {
      assert NextToken(t[..m] + q) == NextToken(t) by {
        hide MayOpen;
        hide NextToken;
        hide IsTagName;
        var tok := NextToken(t);
        var x := t[..tok.n];
        SplitToken(t, tok.n, m, q);
        if tok.kind == Open {
          MayOpenIsOpenTag(stack, x);
          OpenTagToken(x, t[tok.n..m] + q);
          OpenTagToken(x, t[tok.n..]);
        } else {
          TopIsTag(stack);
          CloseTagToken(TagName(stack[|stack| - 1]), t[tok.n..m] + q);
          CloseTagToken(TagName(stack[|stack| - 1]), t[tok.n..]);
        }
      }
    } else if t[0] == '&' {
      assert NextToken(t[..m] + q) == NextToken(t) by {
        hide NextToken;
        hide EntityLen;
        var n := EntityLen(t);
        SplitToken(t, n, m, q);
        EntityPrefix(t);
        EntityLocal(t[..n], t[n..m] + q);
        EntityToken(t);
        EntityToken(t[..m] + q);
      }
    } else {
      RuneIsText(t);
      RuneIsText(t[..m] + q);
    }
  }

  lemma SplitToken(t: string, n: nat, m: nat, q: string)
    requires n <= m <= |t|
    ensures t[..m] + q == t[..n] + (t[n..m] + q) && t == t[..n] + t[n..]
  {
  }

  lemma TraceStep(t: string, stack: seq<string>)
    requires t != ""
    ensures var tok := NextToken(t); var after := After(stack, tok, t[..tok.n]);
            Trace(t, stack) == [Entry(t[..tok.n], tok.kind, stack, after)] + Trace(t[tok.n..], after)
  {
    hide NextToken;
  }

  lemma UptoHead(t: string, stack: seq<string>, m: nat)
    requires Upto(t, stack, m).Some?
    ensures m == 0 ==> Upto(t, stack, m).value == []
    ensures m > 0 ==> t != "" && NextToken(t).n <= m
    ensures m > 0 ==>
              (var tok := NextToken(t);
               var after := After(stack, tok, t[..tok.n]);
               var rest := Upto(t[tok.n..], after, m - tok.n);
               rest.Some? && Upto(t, stack, m).value == [Entry(t[..tok.n], tok.kind, stack, after)] + rest.value)
  {
    hide NextToken;
    hide After;
  }

  /** Everything up to a token boundary of a well-formed text reads the same when the text is cut
      there and followed by closing tags. */
  lemma {:induction false} PieceLocal(t: string, stack: seq<string>, m: nat, q: string)
    requires m <= |t| && Upto(t, stack, m).Some?
    requires Nested(stack) && Walk(t, stack).Some? && (q == "" || q[0] == '<')
    ensures var tr := Upto(t, stack, m).value; var after := StackAfter(stack, tr);
            && Nested(after)
            && Walk(t[m..], after) == Walk(t, stack)
            && Walk(t[..m] + q, stack) == Walk(q, after)
            && Trace(t[..m] + q, stack) == tr + Trace(q, after)
    decreases |t|
  {
    hide MayOpen;
    hide NextToken;
    hide After;
    hide Walk;
    hide Trace;
    hide Upto;
    UptoHead(t, stack, m);
    var u := t[..m] + q;
    if m == 0 {
      assert t[0..] == t && u == q;
      assert Trace(q, stack) == [] + Trace(q, stack);
    } else {
      var tok := NextToken(t);
      var x := t[..tok.n];
      var after := After(stack, tok, x);
      var tl := t[tok.n..];
      WalkToken(t, stack);
      TokenWalk(t, stack);
      TokenLocal(t, stack, m, q);
      PieceLocal(tl, after, m - tok.n, q);
      var v := tl[..m - tok.n] + q;
      AfterToken(t, tok.n, m, q);
      WalkConcat(x, v, stack);
      var e := Entry(x, tok.kind, stack, after);
      var rest := Upto(tl, after, m - tok.n).value;
      TraceStep(u, stack);
      TraceSplitsGlue(e, rest, stack, after, q);
    }
  }

  lemma AfterToken(t: string, n: nat, m: nat, q: string)
    requires n <= m <= |t|
    ensures var u := t[..m] + q; var v := t[n..][..m - n] + q;
            u == t[..n] + v && u[..n] == t[..n] && u[n..] == v && t[n..][m - n..] == t[m..]
  {
    DropDrop(t, n, m - n);
    DropTake(t, n, 0, m - n);
    SplitToken(t, n, m, q);
  }

  function Chunk(open: seq<string>, text: string, still: seq<string>): string {
    Join(open, "") + text + Closers(still)
  }

  /** A chunk is complete on its own and shows exactly the glyphs of its piece. */
  lemma ChunkReads(t: string, open: seq<string>, m: nat)
    requires m <= |t| && Upto(t, open, m).Some?
    requires Nested(open) && Walk(t, open).Some?
    ensures var tr := Upto(t, open, m).value; var c := Chunk(open, t[..m], StackAfter(open, tr));
            && Rendered(c)
            && Visible(Trace(c, [])) == Visible(tr)
            && forall e :: e in tr ==> e in Trace(c, [])
  {
    hide NextToken;
    hide MayOpen;
    hide Trace;
    hide Walk;
    var tr := Upto(t, open, m).value;
    var after := StackAfter(open, tr);
    var c, u := Chunk(open, t[..m], after), t[..m] + Closers(after);
    assert Nested(after) by {
      PieceLocal(t, open, m, "");
    }
    ClosersRead(after);
    PieceLocal(t, open, m, Closers(after));
    ReopenRead(open, 0, u);
    assert open[0..] == open && open[..0] == [];
    assert c == Join(open, "") + u;
    var closing := Trace(Closers(after), after);
    VisibleConcat(tr, closing);
    VisibleConcat(Reopening(open, 0), tr + closing);
  }

  // ----- where to cut -----

  /** Bytes of `t` taken before the next token, with the tags then open closed, goes over `budget`;
      the first token is always taken. */
  function Reach(t: string, stack: seq<string>, used: nat, budget: int): (r: nat)
    ensures r <= |t|
    ensures t != "" && used == 0 ==> r > 0
    decreases |t|
  {
    if t == "" then 0
    else
      var tok := NextToken(t);
      var after := After(stack, tok, t[..tok.n]);
      if used > 0 && used + tok.n + |Closers(after)| > budget then 0
      else tok.n + Reach(t[tok.n..], after, used + tok.n, budget)
  }

  ghost predicate IsBoundary(s: string, pos: nat, open: seq<string>, b: int)
    requires pos <= |s|
  {
    pos <= b <= |s| && Upto(s[pos..], open, b - pos).Some?
  }

  ghost predicate IsBreak(s: string, pos: nat, open: seq<string>, c: char, b: int)
    requires pos <= |s|
  {
    pos < b && IsBoundary(s, pos, open, b) && s[b - 1] == c
  }

  /** No token ending in `c` ends in (lo, hi]. */
  ghost predicate NoBreak(s: string, pos: nat, open: seq<string>, c: char, lo: int, hi: int)
    requires pos <= |s|
  {
    forall b :: lo < b <= hi ==> !IsBreak(s, pos, open, c, b)
  }

  /** `cut` is the end of the last token ending in `c` in (lo, hi]. */
  ghost predicate LastBreak(s: string, pos: nat, open: seq<string>, c: char, lo: int, hi: int, cut: int)
    requires pos <= |s|
  {
    lo < cut <= hi && IsBreak(s, pos, open, c, cut) && NoBreak(s, pos, open, c, cut, hi)
  }

  /** The tags open at a boundary. */
  ghost function OpenAt(s: string, pos: nat, open: seq<string>, b: int): seq<string>
    requires pos <= |s| && IsBoundary(s, pos, open, b)
  {
    StackAfter(open, Upto(s[pos..], open, b - pos).value)
  }

  /** The first token after `pos` fits in `budget` once its tags are closed. */
  ghost predicate FirstFits(s: string, pos: nat, open: seq<string>, budget: int)
    requires pos < |s|
  {
    var tok := NextToken(s[pos..]);
    tok.n + |Closers(After(open, tok, s[pos..pos + tok.n]))| <= budget
  }

  /** Between the ends of two neighbouring tokens there is no boundary. */
  lemma {:induction false} NoBoundaryInside(t: string, stack: seq<string>, m: nat, b: nat)
    requires m < |t| && Upto(t, stack, m).Some? && m < b < m + NextToken(t[m..]).n
    ensures Upto(t, stack, b).None?
    decreases |t|
  {
    hide NextToken;
    hide After;
    var tok := NextToken(t);
    if m == 0 {
      assert t[0..] == t;
    } else {
      DropDrop(t, tok.n, m - tok.n);
      NoBoundaryInside(t[tok.n..], After(stack, tok, t[..tok.n]), m - tok.n, b - tok.n);
    }
  }

  /** The furthest budgeted cut, brought forward to the last newline, else to the last space, when
      that still fills more than half of the budget. */
  method HtmlCut(s: string, pos: nat, open: seq<string>, budget: int) returns (cut: nat, cutOpen: seq<string>)
    requires pos < |s| && budget >= 1
    ensures pos < cut <= |s|
    ensures IsBoundary(s, pos, open, cut) && cutOpen == OpenAt(s, pos, open, cut)
    ensures FirstFits(s, pos, open, budget) ==> cut - pos + |Closers(cutOpen)| <= budget
    ensures var hard, half := pos + Reach(s[pos..], open, 0, budget), pos + budget / 2;
            if hard == |s| then cut == hard
            else || LastBreak(s, pos, open, '\n', half, hard, cut)
                 || (&& NoBreak(s, pos, open, '\n', half, hard)
                     && (|| LastBreak(s, pos, open, ' ', half, hard, cut)
                         || (NoBreak(s, pos, open, ' ', half, hard) && cut == hard)))
  {
    hide NextToken;
    hide After;
    hide Closers;
    hide Reach;
    hide BestSoFar;
    hide FirstFits;
    hide LastBreak;
    hide NoBreak;
    var stack, used, i := open, 0, pos;
    var bestNL, bestSpace := -1, -1;
    var bestNLStack, bestSpaceStack: seq<string> := [], [];
    StartBest(s, pos, open, budget);
    while i < |s|
      invariant pos <= i <= |s| && used == i - pos
      invariant IsBoundary(s, pos, open, i) && stack == OpenAt(s, pos, open, i)
      invariant Reach(s[pos..], open, 0, budget) == used + Reach(s[i..], stack, used, budget)
      invariant i > pos && FirstFits(s, pos, open, budget) ==> used + |Closers(stack)| <= budget
      invariant BestSoFar(s, pos, open, budget, '\n', i, bestNL, bestNLStack)
      invariant BestSoFar(s, pos, open, budget, ' ', i, bestSpace, bestSpaceStack)
      decreases |s| - i
    {
      var tok := NextToken(s[i..]);
      var after := After(stack, tok, s[i..][..tok.n]);
      var closing := CloseTagsLen(after);
      CutStep(s, pos, open, i);
      BestStep(s, pos, open, budget, '\n', i, bestNL, bestNLStack, tok, i + tok.n);
      BestStep(s, pos, open, budget, ' ', i, bestSpace, bestSpaceStack, tok, i + tok.n);
      ReachStep(s, pos, open, budget, i, stack);
      if i > pos && used + tok.n + closing > budget {
        break;
      }
      used := used + tok.n;
      stack := after;
      i := i + tok.n;
      if tok.kind == Text {
        if s[i - 1] == '\n' {
          bestNL, bestNLStack := i, stack;
        } else if s[i - 1] == ' ' {
          bestSpace, bestSpaceStack := i, stack;
        }
      }
    }
    var half := pos + budget / 2;
    CutChosen(s, pos, open, budget, '\n', i, bestNL, bestNLStack, half);
    CutChosen(s, pos, open, budget, ' ', i, bestSpace, bestSpaceStack, half);
    if i >= |s| {
      assert s[|s|..] == "";
      return |s|, stack;
    }
    if bestNL > half {
      return bestNL, bestNLStack;
    }
    if bestSpace > half {
      return bestSpace, bestSpaceStack;
    }
    return i, stack;
  }

  /** `best` is the end of the last token ending in `c` up to `i` (-1 if none), with its open tags. */
  ghost predicate BestSoFar(s: string, pos: nat, open: seq<string>, budget: int, c: char, i: int,
                            best: int, bestStack: seq<string>)
    requires pos < |s|
  {
    if best == -1 then NoBreak(s, pos, open, c, pos, i)
    else
      && LastBreak(s, pos, open, c, pos, i, best)
      && bestStack == OpenAt(s, pos, open, best)
      && (FirstFits(s, pos, open, budget) ==> best - pos + |Closers(bestStack)| <= budget)
  }

  lemma StartBest(s: string, pos: nat, open: seq<string>, budget: int)
    requires pos < |s|
    ensures BestSoFar(s, pos, open, budget, '\n', pos, -1, []) && BestSoFar(s, pos, open, budget, ' ', pos, -1, [])
  {
    hide IsBoundary;
  }

  lemma ReachStep(s: string, pos: nat, open: seq<string>, budget: int, i: nat, stack: seq<string>)
    requires pos <= i < |s| && (i == pos ==> stack == open)
    ensures var tok := NextToken(s[i..]);
            var after := After(stack, tok, s[i..][..tok.n]);
            && Reach(s[i..], stack, i - pos, budget)
               == (if i > pos && i - pos + tok.n + |Closers(after)| > budget then 0
                   else tok.n + Reach(s[i + tok.n..], after, i - pos + tok.n, budget))
            && (i == pos ==> (FirstFits(s, pos, open, budget) <==> tok.n + |Closers(after)| <= budget))
  {
    hide NextToken;
    hide After;
    hide Closers;
    var tok := NextToken(s[i..]);
    DropDrop(s, i, tok.n);
    DropTake(s, i, 0, tok.n);
  }

  /** A break found after the middle is the last one there; one found before leaves none after it. */
  lemma CutChosen(s: string, pos: nat, open: seq<string>, budget: int, c: char, i: nat, best: int, bestStack: seq<string>, half: nat)
    requires pos <= half && pos <= i <= |s| && pos < |s| && BestSoFar(s, pos, open, budget, c, i, best, bestStack)
    ensures best > half ==>
              && LastBreak(s, pos, open, c, half, i, best) && IsBoundary(s, pos, open, best) && best <= i
              && bestStack == OpenAt(s, pos, open, best)
              && (FirstFits(s, pos, open, budget) ==> best - pos + |Closers(bestStack)| <= budget)
    ensures best <= half ==> NoBreak(s, pos, open, c, half, i)
  {
    hide IsBoundary;
    hide OpenAt;
    hide FirstFits;
    hide Closers;
  }

  /** One turn of the loop of `HtmlCut`: the next token ends at the next boundary. */
  lemma CutStep(s: string, pos: nat, open: seq<string>, i: nat)
    requires pos <= i < |s| && IsBoundary(s, pos, open, i)
    ensures var tok := NextToken(s[i..]); var stack := OpenAt(s, pos, open, i);
            && IsBoundary(s, pos, open, i + tok.n)
            && OpenAt(s, pos, open, i + tok.n) == After(stack, tok, s[i..][..tok.n])
  {
    hide NextToken;
    hide After;
    hide Upto;
    var t, m := s[pos..], i - pos;
    assert t[m..] == s[i..];
    var tok := NextToken(s[i..]);
    assert t[m..m + tok.n] == s[i..][..tok.n];
    UptoNext(t, open, m);
    assert i + tok.n - pos == m + tok.n;
  }

  lemma NoBoundaryBetween(s: string, pos: nat, open: seq<string>, i: nat)
    requires pos <= i < |s| && IsBoundary(s, pos, open, i)
    ensures forall b :: i < b < i + NextToken(s[i..]).n ==> !IsBoundary(s, pos, open, b)
  {
    hide NextToken;
    hide Upto;
    assert s[pos..][i - pos..] == s[i..];
    forall b | i < b < i + NextToken(s[i..]).n ensures !IsBoundary(s, pos, open, b) {
      NoBoundaryInside(s[pos..], open, i - pos, b - pos);
    }
  }

  /** The best cut seen so far after one more token. */
  lemma BestStep(s: string, pos: nat, open: seq<string>, budget: int, c: char, i: nat, best: int, bestStack: seq<string>,
                 tok: Token, j: nat)
    requires pos <= i < |s| && IsBoundary(s, pos, open, i) && c != '>'
    requires BestSoFar(s, pos, open, budget, c, i, best, bestStack)
    requires tok == NextToken(s[i..]) && j == i + tok.n && IsBoundary(s, pos, open, j)
    ensures if tok.kind == Text && s[j - 1] == c
            then (FirstFits(s, pos, open, budget) ==> j - pos + |Closers(OpenAt(s, pos, open, j))| <= budget)
              ==> BestSoFar(s, pos, open, budget, c, j, j, OpenAt(s, pos, open, j))
            else BestSoFar(s, pos, open, budget, c, j, best, bestStack)
  {
    hide NextToken;
    hide IsBoundary;
    hide OpenAt;
    hide FirstFits;
    hide Closers;
    hide After;
    NoBoundaryBetween(s, pos, open, i);
  }

  // ----- the size limit -----

  /** A token fits a chunk of `limit` bytes: the tags to reopen before it, itself, and the tags to
      close behind it. */
  predicate Fits(e: Entry, limit: int) {
    |Join(e.before, "")| + |e.text| + |Closers(e.after)| <= limit
  }

  ghost predicate AllFit(tr: seq<Entry>, limit: int) {
    forall k :: 0 <= k < |tr| ==> Fits(tr[k], limit)
  }

  lemma {:induction false} JoinAppend(parts: seq<string>, last: string)
    ensures Join(parts + [last], "") == Join(parts, "") + last
  {
    if parts == [] {
      assert parts + [last] == [last];
      assert Join([last], "") == last;
    } else {
      assert (parts + [last])[1..] == parts[1..] + [last];
      JoinAppend(parts[1..], last);
      if |parts| == 1 {
        assert parts[1..] == [];
      }
    }
  }

  /** A complete text is at least as long as what closes its open tags. */
  lemma {:induction false} ClosersBound(t: string, stack: seq<string>)
    requires Nested(stack) && Walk(t, stack) == Some([])
    ensures |t| >= |Closers(stack)|
    decreases |t|
  {
    hide NextToken;
    hide MayOpen;
    hide Walk;
    if t == "" {
      EmptyWalk(stack);
    } else {
      WalkToken(t, stack);
      var tok := NextToken(t);
      var after := After(stack, tok, t[..tok.n]);
      ClosersBound(t[tok.n..], after);
      if tok.kind == Open {
        assert after[..|after| - 1] == stack;
      }
    }
  }

  /** Every token of a complete text fits in the text's own length. */
  lemma {:induction false} OwnLengthFits(t: string, stack: seq<string>, limit: int)
    requires Nested(stack) && Walk(t, stack) == Some([])
    requires |Join(stack, "")| + |t| <= limit
    ensures AllFit(Trace(t, stack), limit)
    decreases |t|
  {
    hide NextToken;
    hide MayOpen;
    hide Walk;
    hide Closers;
    hide Join;
    if t != "" {
      WalkToken(t, stack);
      var tok := NextToken(t);
      var x, rest := t[..tok.n], t[tok.n..];
      var after := After(stack, tok, x);
      ClosersBound(rest, after);
      if tok.kind == Open {
        JoinAppend(stack, x);
      } else if tok.kind == Close {
        JoinAppend(after, stack[|stack| - 1]);
        assert after + [stack[|stack| - 1]] == stack;
      }
      OwnLengthFits(rest, after, limit);
      TraceStep(t, stack);
    }
  }

  // ----- the pieces put together -----

  /** Blanks at top level, the only glyphs a cut may lose. */
  ghost predicate AllBlank(gs: seq<Glyph>) {
    forall k :: 0 <= k < |gs| ==> gs[k].tags == [] && (gs[k].text == "\n" || gs[k].text == " ")
  }

  /** The glyphs of the chunks with the dropped glyphs put back behind each. */
  ghost function Reassembled(chunks: seq<string>, drops: seq<seq<Glyph>>): seq<Glyph>
    requires |chunks| == |drops|
  {
    if chunks == [] then []
    else
      var n := |chunks| - 1;
      Reassembled(chunks[..n], drops[..n]) + Visible(Trace(chunks[n], [])) + drops[n]
  }

  /** `out` shows `s`: each chunk is complete, and together they show every glyph of `s` once, in
      order and under the same tags, but for blanks at cuts outside all tags. */
  ghost predicate Shows(s: string, out: seq<string>) {
    (forall k :: 0 <= k < |out| ==> Rendered(out[k])) && exists drops :: ShownBut(s, out, drops)
  }

  /** The glyphs of `s` are those of the chunks with the blanks `drops[k]` after chunk k. */
  ghost predicate ShownBut(s: string, out: seq<string>, drops: seq<seq<Glyph>>) {
    && |drops| == |out|
    && (forall k :: 0 <= k < |drops| ==> AllBlank(drops[k]))
    && Visible(Trace(s, [])) == Reassembled(out, drops)
  }

  function Limit(maxLen: int): int {
    if maxLen <= 0 then TELEGRAM_CHUNK_LIMIT else maxLen
  }

  /** What the loop of `SplitTelegramHTML` has established for a well-formed `s` when it stands at
      `pos` under the tags `open`, having read `done`. */
  ghost predicate Progress(s: string, limit: int, pos: nat, open: seq<string>, done: seq<Entry>,
                           out: seq<string>, drops: seq<seq<Glyph>>)
    requires pos <= |s|
  {
    && |drops| == |out|
    && (forall k :: 0 <= k < |out| ==> Rendered(out[k]))
    && (forall k :: 0 <= k < |drops| ==> AllBlank(drops[k]))
    && Nested(open) && Walk(s[pos..], open) == Some([])
    && Trace(s, []) == done + Trace(s[pos..], open)
    && Visible(done) == Reassembled(out, drops)
    && ((forall k :: 0 <= k < |out| ==> |out[k]| <= limit) <==> AllFit(done, limit))
  }

  lemma ChunkStep(s: string, limit: int, pos: nat, open: seq<string>, done: seq<Entry>,
                  out: seq<string>, drops: seq<seq<Glyph>>, budget: int, cut: nat)
    returns (done': seq<Entry>)
    requires pos < |s| && 1 <= limit && Progress(s, limit, pos, open, done, out, drops)
    requires budget == (if limit - |Join(open, "")| < 1 then 1 else limit - |Join(open, "")|)
    requires pos < cut <= |s| && IsBoundary(s, pos, open, cut)
    requires FirstFits(s, pos, open, budget) ==> cut - pos + |Closers(OpenAt(s, pos, open, cut))| <= budget
    ensures var still := OpenAt(s, pos, open, cut); var c := Chunk(open, s[pos..cut], still);
            Progress(s, limit, cut, still, done', out + [c], drops + [[]])
  {
    hide NextToken;
    hide MayOpen;
    hide Walk;
    hide Trace;
    hide Closers;
    hide Join;
    hide After;
    hide Visible;
    hide Fits;
    hide FirstFits;
    var t, m := s[pos..], cut - pos;
    var tr, still := Upto(t, open, m).value, OpenAt(s, pos, open, cut);
    var c := Chunk(open, s[pos..cut], still);
    assert t[..m] == s[pos..cut] && t[m..] == s[cut..];
    ChunkReads(t, open, m);
    TraceSplits(t, open, m);
    PieceLocal(t, open, m, "");
    VisibleConcat(done, tr);
    done' := done + tr;
    assert done + (tr + Trace(s[cut..], still)) == done' + Trace(s[cut..], still);
    AppendChunk(out, drops, c);
    ChunkFits(s, limit, pos, open, budget, cut, tr, c);
    AllFitConcat(done, tr, limit);
    assert Nested(still) && Walk(s[cut..], still) == Some([]);
    assert Visible(done') == Reassembled(out + [c], drops + [[]]);
  }

  lemma AppendChunk(out: seq<string>, drops: seq<seq<Glyph>>, c: string)
    requires |out| == |drops|
    ensures Reassembled(out + [c], drops + [[]]) == Reassembled(out, drops) + Visible(Trace(c, []))
  {
    var n := |out|;
    assert (out + [c])[..n] == out && (drops + [[]])[..n] == drops;
  }

  /** The chunk keeps to the limit exactly when all its tokens fit. */
  lemma ChunkFits(s: string, limit: int, pos: nat, open: seq<string>, budget: int, cut: nat, tr: seq<Entry>, c: string)
    requires pos < cut <= |s| && IsBoundary(s, pos, open, cut)
    requires budget == (if limit - |Join(open, "")| < 1 then 1 else limit - |Join(open, "")|)
    requires tr == Upto(s[pos..], open, cut - pos).value
    requires c == Chunk(open, s[pos..cut], OpenAt(s, pos, open, cut))
    requires Rendered(c) && forall e :: e in tr ==> e in Trace(c, [])
    requires FirstFits(s, pos, open, budget) ==> cut - pos + |Closers(OpenAt(s, pos, open, cut))| <= budget
    ensures |c| <= limit <==> AllFit(tr, limit)
  {
    hide NextToken;
    hide After;
    hide Walk;
    hide Trace;
    hide Closers;
    if |c| <= limit {
      assert Join([], "") == "";
      OwnLengthFits(c, [], limit);
      forall k | 0 <= k < |tr| ensures Fits(tr[k], limit) {
        assert tr[k] in Trace(c, []);
      }
    }
    if AllFit(tr, limit) {
      assert Fits(tr[0], limit);
      assert |c| == |Join(open, "")| + (cut - pos) + |Closers(OpenAt(s, pos, open, cut))|;
      var tok := NextToken(s[pos..]);
      assert s[pos..][..tok.n] == s[pos..pos + tok.n];
      assert tr[0] == Entry(s[pos..pos + tok.n], tok.kind, open, After(open, tok, s[pos..pos + tok.n]));
    }
  }

  /** A top-level blank between two chunks is dropped. */
  lemma DropStep(s: string, limit: int, pos: nat, done: seq<Entry>, out: seq<string>, drops: seq<seq<Glyph>>)
    returns (done': seq<Entry>, drops': seq<seq<Glyph>>)
    requires pos < |s| && 1 <= limit && out != []
    requires Progress(s, limit, pos, [], done, out, drops) && (s[pos] == '\n' || s[pos] == ' ')
    ensures Progress(s, limit, pos + 1, [], done', out, drops')
  {
    hide Walk;
    hide Trace;
    var e := Entry([s[pos]], Text, [], []);
    ReadBlank(s[pos..], limit);
    assert s[pos..][1..] == s[pos + 1..];
    AllFitConcat(done, [e], limit);
    done' := done + [e];
    assert done + ([e] + Trace(s[pos + 1..], [])) == done' + Trace(s[pos + 1..], []);
    assert Visible([e]) == [Glyph(e.text, [])];
    VisibleConcat(done, [e]);
    drops' := DropMore(out, drops, Glyph(e.text, []));
  }

  lemma ReadBlank(t: string, limit: int)
    requires t != "" && (t[0] == '\n' || t[0] == ' ') && 1 <= limit
    ensures var e := Entry([t[0]], Text, [], []);
            && Walk(t, []) == Walk(t[1..], [])
            && Trace(t, []) == [e] + Trace(t[1..], [])
            && AllFit([e], limit)
  {
    hide NextToken;
    RuneIsText(t);
    assert t[..1] == [t[0]];
    assert Join([], "") == "" && Closers([]) == "";
  }

  lemma AllFitConcat(a: seq<Entry>, b: seq<Entry>, limit: int)
    ensures AllFit(a + b, limit) <==> AllFit(a, limit) && AllFit(b, limit)
  {
    hide Fits;
    var c := a + b;
    assert forall k :: 0 <= k < |a| ==> c[k] == a[k];
    assert forall k :: 0 <= k < |b| ==> c[|a| + k] == b[k];
    if AllFit(c, limit) {
      forall k | 0 <= k < |b| ensures Fits(b[k], limit) {
        assert Fits(c[|a| + k], limit);
      }
    }
  }

  lemma DropMore(out: seq<string>, drops: seq<seq<Glyph>>, g: Glyph) returns (drops': seq<seq<Glyph>>)
    requires out != [] && |drops| == |out| && AllBlank([g])
    requires forall k :: 0 <= k < |drops| ==> AllBlank(drops[k])
    ensures |drops'| == |out|
    ensures forall k :: 0 <= k < |drops'| ==> AllBlank(drops'[k])
    ensures Reassembled(out, drops') == Reassembled(out, drops) + [g]
  {
    var n := |out| - 1;
    drops' := drops[..n] + [drops[n] + [g]];
    assert AllBlank(drops[n]) && [g][0] == g;
    assert drops'[..n] == drops[..n];
  }

  /** What is left, the open tags and the chunks so far are well-formed UTF-8. */
  ghost predicate WholeRunes(s: string, pos: nat, open: seq<string>, out: seq<string>)
    requires pos <= |s|
  {
    IsUtf8(s[pos..]) && AllUtf8(open) && AllUtf8(out)
  }

  lemma StartRunes(s: string)
    requires IsUtf8(s)
    ensures WholeRunes(s, 0, [], []) && AllUtf8([s])
  {
    hide IsUtf8;
    assert s[0..] == s;
  }

  /** Cutting a well-formed message at a token boundary cuts no rune. */
  lemma RunesStep(s: string, pos: nat, open: seq<string>, cut: nat, out: seq<string>)
    requires pos < cut <= |s| && WholeRunes(s, pos, open, out) && IsBoundary(s, pos, open, cut)
    ensures var still := OpenAt(s, pos, open, cut);
            WholeRunes(s, cut, still, out + [Join(open, "") + s[pos..cut] + Closers(still)])
  {
    hide IsUtf8, Upto, Join, Closers;
    var t, still := s[pos..], OpenAt(s, pos, open, cut);
    CutIsUtf8(t, open, cut - pos);
    DropDrop(s, pos, cut - pos);
    assert t[..cut - pos] == s[pos..cut];
    JoinIsUtf8(open);
    ClosersAreUtf8(still);
    Utf8Concat(Join(open, ""), s[pos..cut]);
    Utf8Concat(Join(open, "") + s[pos..cut], Closers(still));
  }

  lemma {:induction false} ClosersAreUtf8(stack: seq<string>)
    ensures IsUtf8(Closers(stack))
  {
    hide IsUtf8, CloseTag;
    EmptyIsUtf8();
    if stack != [] {
      var n := |stack| - 1;
      CloseTagIsUtf8(stack[n]);
      ClosersAreUtf8(stack[..n]);
      Utf8Concat(CloseTag(stack[n]), Closers(stack[..n]));
    }
  }

  lemma BlankIsRune(s: string, pos: nat, out: seq<string>)
    requires pos < |s| && WholeRunes(s, pos, [], out) && (s[pos] == '\n' || s[pos] == ' ')
    ensures WholeRunes(s, pos + 1, [], out)
  {
    var t := s[pos..];
    assert RuneSize(t) == 1;
    hide RuneSize;
    assert t[1..] == s[pos + 1..];
  }

  /** `splitTelegramHTML`. */
  method SplitTelegramHTML(s: string, maxLen: int) returns (out: seq<string>)
    ensures Rendered(s) ==> Shows(s, out)
    ensures Rendered(s) ==>
              ((forall k :: 0 <= k < |out| ==> |out[k]| <= Limit(maxLen)) <==> AllFit(Trace(s, []), Limit(maxLen)))
    ensures IsUtf8(s) ==> AllUtf8(out)
  {
    hide Walk;
    hide Trace;
    hide NextToken;
    hide After;
    hide FirstFits;
    hide IsBoundary;
    hide OpenAt;
    hide Closers;
    hide Upto;
    hide Progress;
    hide Shows;
    hide AllFit;
    hide Join;
    hide Rendered;
    hide IsUtf8;
    hide AllUtf8;
    hide WholeRunes;
    var limit := if maxLen <= 0 then TELEGRAM_CHUNK_LIMIT else maxLen;
    if |s| <= limit {
      Untouched(s, limit);
      if IsUtf8(s) {
        StartRunes(s);
      }
      return [s];
    }
    out := [];
    var open: seq<string> := [];
    var pos := 0;
    ghost var done: seq<Entry>, drops: seq<seq<Glyph>> := [], [];
    if Rendered(s) {
      StartProgress(s, limit);
    }
    if IsUtf8(s) {
      StartRunes(s);
    }
    while pos < |s|
      invariant 0 <= pos <= |s|
      invariant Rendered(s) ==> Progress(s, limit, pos, open, done, out, drops)
      invariant IsUtf8(s) ==> WholeRunes(s, pos, open, out)
      decreases |s| - pos
    {
      var prefix := Join(open, "");
      var budget := limit - |prefix|;
      if budget < 1 {
        budget := 1;
      }
      var cut, cutOpen := HtmlCut(s, pos, open, budget);
      var closing := CloseTags(cutOpen);
      if Rendered(s) {
        done := ChunkStep(s, limit, pos, open, done, out, drops, budget, cut);
      }
      if IsUtf8(s) {
        RunesStep(s, pos, open, cut, out);
      }
      out, drops := out + [prefix + s[pos..cut] + closing], drops + [[]];
      open, pos := cutOpen, cut;
      if |open| == 0 {
        while pos < |s| && (s[pos] == '\n' || s[pos] == ' ')
          invariant cut <= pos <= |s| && out != []
          invariant Rendered(s) ==> Progress(s, limit, pos, [], done, out, drops)
          invariant IsUtf8(s) ==> WholeRunes(s, pos, [], out)
        {
          if IsUtf8(s) {
            BlankIsRune(s, pos, out);
          }
          if Rendered(s) {
            done, drops := DropStep(s, limit, pos, done, out, drops);
          }
          pos := pos + 1;
        }
      }
    }
    if Rendered(s) {
      AllShown(s, limit, open, done, out, drops);
    }
    if IsUtf8(s) {
      RunesKept(s, pos, open, out);
    }
  }

  lemma RunesKept(s: string, pos: nat, open: seq<string>, out: seq<string>)
    requires pos <= |s| && WholeRunes(s, pos, open, out)
    ensures AllUtf8(out)
  {
    hide IsUtf8, AllUtf8;
  }

  lemma StartProgress(s: string, limit: int)
    requires Rendered(s)
    ensures Progress(s, limit, 0, [], [], [], [])
  {
    hide Walk;
    hide Trace;
    assert s[0..] == s;
    assert [] + Trace(s, []) == Trace(s, []);
  }

  lemma AllShown(s: string, limit: int, open: seq<string>, done: seq<Entry>, out: seq<string>, drops: seq<seq<Glyph>>)
    requires Progress(s, limit, |s|, open, done, out, drops)
    ensures Shows(s, out)
    ensures (forall k :: 0 <= k < |out| ==> |out[k]| <= limit) <==> AllFit(Trace(s, []), limit)
  {
    hide Walk;
    hide AllFit;
    hide Reassembled;
    hide Visible;
    hide Rendered;
    hide AllBlank;
    hide Nested;
    assert s[|s|..] == "";
    assert Trace(s, []) == done + [] == done;
    assert ShownBut(s, out, drops);
  }

  /** A text within the limit is sent as it is. */
  lemma Untouched(s: string, limit: int)
    requires |s| <= limit
    ensures Rendered(s) ==> Shows(s, [s]) && AllFit(Trace(s, []), limit)
  {
    hide NextToken;
    hide Walk;
    hide Trace;
    hide Visible;
    hide Closers;
    if Rendered(s) {
      OwnLengthFits(s, [], limit);
      assert Reassembled([s], [[]]) == Visible(Trace(s, []));
      var drops: seq<seq<Glyph>> := [[]];
      assert ShownBut(s, [s], drops);
    }
  }
}
