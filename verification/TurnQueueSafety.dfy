/** What every run of the turn queue keeps. */
module TurnQueueSafety {
  import opened GoStrings
  import opened TurnQueue

  function Last(t: Turn): nat
    requires t.parts != []
  {
    t.parts[|t.parts| - 1].origin
  }

  ghost predicate Increasing(parts: seq<Part>) {
    forall j, k :: 0 <= j < k < |parts| ==> parts[j].origin < parts[k].origin
  }

  predicate Merged(t: Turn) {
    t.reason.MergedInto?
  }

  /** An unmerged row carries its own input first, then inputs of rows merged into it. */
  ghost predicate Carries(ts: seq<Turn>, i: nat)
    requires i < |ts|
  {
    && ts[i].parts != [] && ts[i].parts[0].origin == i
    && Increasing(ts[i].parts)
    && forall k :: 0 < k < |ts[i].parts| ==>
         ts[i].parts[k].origin < |ts| && ts[ts[i].parts[k].origin].reason == MergedInto(i)
  }

  /** A merged row's input, as it was enqueued, is with its head. */
  ghost predicate IsCarried(ts: seq<Turn>, i: nat)
    requires i < |ts| && Merged(ts[i])
  {
    var h := ts[i].reason.head;
    && h < i && ts[h].bot == ts[i].bot && !Merged(ts[h]) && ts[i].status == Done
    && |ts[i].parts| == 1 && ts[i].parts[0].origin == i && ts[i].parts[0] in ts[h].parts
  }

  ghost predicate RowsOk(ts: seq<Turn>) {
    && (forall i :: 0 <= i < |ts| && !Merged(ts[i]) ==> Carries(ts, i))
    && (forall i :: 0 <= i < |ts| && Merged(ts[i]) ==> IsCarried(ts, i))
  }

  predicate StatusOk(t: Turn) {
    && (t.reason == Open <==> t.status == Queued || t.status == Running)
    && (t.reason == DroppedByStop || t.reason == SessionArchived ==> t.status == Failed)
    && (t.status == Running || t.reason == Ended ==> t.started.Some?)
    && (t.reason != Ended ==> t.err == Success)
  }

  ghost predicate StatusesOk(ts: seq<Turn>) {
    forall i :: 0 <= i < |ts| ==> StatusOk(ts[i])
  }

  /** Turn `i` is running, or queued before `j`. */
  predicate Ahead(ts: seq<Turn>, i: nat, j: nat)
    requires i < |ts| && j < |ts|
  {
    && i != j && ts[i].bot == ts[j].bot && ts[j].status == Queued
    && (ts[i].status == Running || (ts[i].status == Queued && i < j))
  }

  /** What is queued behind a turn is a single input, younger than all the turn carries. */
  ghost predicate OrderOk(ts: seq<Turn>) {
    forall i, j :: 0 <= i < |ts| && 0 <= j < |ts| && Ahead(ts, i, j) ==>
      |ts[j].parts| == 1 && ts[i].parts != [] && Last(ts[i]) < j
  }

  /** The runner's map names exactly the running turns, one per bot. */
  ghost predicate ActiveOk(ts: seq<Turn>, active: map<nat, nat>) {
    && (forall i :: 0 <= i < |ts| && ts[i].status == Running ==> ts[i].bot in active && active[ts[i].bot] == i)
    && (forall b :: b in active ==> active[b] < |ts| && ts[active[b]].status == Running && ts[active[b]].bot == b)
  }

  ghost predicate LogRows(ts: seq<Turn>, fin: seq<nat>) {
    forall k :: 0 <= k < |fin| ==> fin[k] < |ts| && ts[fin[k]].reason == Ended && ts[fin[k]].parts != []
  }

  ghost predicate LogComplete(ts: seq<Turn>, fin: seq<nat>) {
    forall i :: 0 <= i < |ts| && ts[i].reason == Ended ==> i in fin
  }

  ghost predicate LogOrdered(ts: seq<Turn>, fin: seq<nat>)
    requires LogRows(ts, fin)
  {
    forall k, l :: 0 <= k < l < |fin| && ts[fin[k]].bot == ts[fin[l]].bot ==> Last(ts[fin[k]]) < fin[l]
  }

  ghost predicate LogBeforeOpen(ts: seq<Turn>, fin: seq<nat>)
    requires LogRows(ts, fin)
  {
    forall k, j :: 0 <= k < |fin| && 0 <= j < |ts| && ts[j].bot == ts[fin[k]].bot && ts[j].reason == Open
      ==> Last(ts[fin[k]]) < j
  }

  /** The log holds every ended turn once, and per bot in the order of what they carry. */
  ghost predicate FinishedOk(ts: seq<Turn>, fin: seq<nat>) {
    LogRows(ts, fin) && LogComplete(ts, fin) && LogOrdered(ts, fin) && LogBeforeOpen(ts, fin)
  }

  ghost predicate Inv(s: State) {
    && RowsOk(s.turns) && StatusesOk(s.turns) && OrderOk(s.turns)
    && ActiveOk(s.turns, s.active) && FinishedOk(s.turns, s.finished)
    && GENERAL !in s.archived
  }

  // ----- each step keeps the invariant -----

  lemma EnqueueKeeps(s: State, bot: nat, source: Source, text: string)
    requires Inv(s)
    ensures Inv(Enqueue(s, bot, source, text))
  {
    hide RowsOk, StatusesOk, OrderOk, FinishedOk;
    var t := NewTurn(s, bot, source, text);
    AppendRows(s.turns, t);
    AppendOrder(s.turns, t);
    AppendLog(s.turns, t, s.finished);
  }

  /** A row as it is when it is new. */
  ghost predicate IsNew(ts: seq<Turn>, t: Turn) {
    |t.parts| == 1 && t.parts[0].origin == |ts| && t.status == Queued && t.reason == Open && t.err == Success
  }

  lemma AppendRows(ts: seq<Turn>, t: Turn)
    requires RowsOk(ts) && StatusesOk(ts) && IsNew(ts, t)
    ensures RowsOk(ts + [t]) && StatusesOk(ts + [t])
  {
    var ts' := ts + [t];
    var n := |ts|;
    assert forall i :: 0 <= i < n ==> ts'[i] == ts[i];
    forall i | 0 <= i < |ts'| && !Merged(ts'[i]) ensures Carries(ts', i) {
      if i < n {
        assert Carries(ts, i);
      }
    }
    forall i | 0 <= i < |ts'| && Merged(ts'[i]) ensures IsCarried(ts', i) {
      assert IsCarried(ts, i);
    }
  }

  lemma AppendOrder(ts: seq<Turn>, t: Turn)
    requires RowsOk(ts) && StatusesOk(ts) && OrderOk(ts) && IsNew(ts, t)
    ensures OrderOk(ts + [t])
  {
    var ts' := ts + [t];
    var n := |ts|;
    forall i, j | 0 <= i < |ts'| && 0 <= j < |ts'| && Ahead(ts', i, j)
      ensures |ts'[j].parts| == 1 && ts'[i].parts != [] && Last(ts'[i]) < j
    {
      if j < n {
        assert Ahead(ts, i, j);
      } else {
        assert StatusOk(ts[i]);
        hide RowsOk, OrderOk, StatusesOk;
        LastBound(ts, i);
      }
    }
  }

  lemma AppendLog(ts: seq<Turn>, t: Turn, fin: seq<nat>)
    requires RowsOk(ts) && StatusesOk(ts) && FinishedOk(ts, fin) && IsNew(ts, t)
    ensures FinishedOk(ts + [t], fin)
  {
    var ts' := ts + [t];
    var n := |ts|;
    assert forall i :: 0 <= i < n ==> ts'[i] == ts[i];
    forall k, j | 0 <= k < |fin| && 0 <= j < |ts'| && ts'[j].bot == ts'[fin[k]].bot && ts'[j].reason == Open
      ensures Last(ts'[fin[k]]) < j
    {
      if j == n {
        hide RowsOk, StatusesOk;
        LastBound(ts, fin[k]);
      }
    }
  }

  lemma LastBound(ts: seq<Turn>, i: nat)
    requires i < |ts| && RowsOk(ts) && !Merged(ts[i])
    ensures ts[i].parts != [] && i <= Last(ts[i]) < |ts|
  {
    assert Carries(ts, i);
  }

  /** Rows keep what they carry, and merged rows stay as they are. */
  ghost predicate SameCarriage(ts: seq<Turn>, ts': seq<Turn>) {
    && |ts| == |ts'|
    && forall i :: 0 <= i < |ts| ==>
         && ts'[i].parts == ts[i].parts && ts'[i].bot == ts[i].bot && Merged(ts'[i]) == Merged(ts[i])
         && (Merged(ts[i]) ==> ts'[i] == ts[i])
  }

  lemma SameCarriageRows(ts: seq<Turn>, ts': seq<Turn>)
    requires RowsOk(ts) && SameCarriage(ts, ts')
    ensures RowsOk(ts')
  {
    forall i | 0 <= i < |ts'| && !Merged(ts'[i]) ensures Carries(ts', i) {
      assert Carries(ts, i);
    }
    forall i | 0 <= i < |ts'| && Merged(ts'[i]) ensures IsCarried(ts', i) {
      assert IsCarried(ts, i);
    }
  }

  lemma DropRows(ts: seq<Turn>, bot: nat, reason: Reason)
    requires RowsOk(ts) && StatusesOk(ts) && (reason == DroppedByStop || reason == SessionArchived)
    ensures RowsOk(DropQueue(ts, bot, reason)) && StatusesOk(DropQueue(ts, bot, reason))
  {
    var ts' := DropQueue(ts, bot, reason);
    assert StatusesOk(ts');
    assert SameCarriage(ts, ts') by {
      hide RowsOk;
      forall i | 0 <= i < |ts| ensures Merged(ts[i]) ==> !IsQueued(ts[i], bot) {
        assert StatusOk(ts[i]);
      }
    }
    SameCarriageRows(ts, ts');
  }

  /** Closing queued turns unrun. */
  lemma DropKeeps(s: State, bot: nat, reason: Reason)
    requires Inv(s) && (reason == DroppedByStop || reason == SessionArchived)
    ensures Inv(s.(turns := DropQueue(s.turns, bot, reason)))
  {
    var ts, ts' := s.turns, DropQueue(s.turns, bot, reason);
    DropRows(ts, bot, reason);
    hide RowsOk;
    hide OrderOk, StatusesOk, FinishedOk, ActiveOk, DropQueue;
    DropOrder(ts, bot, reason);
    DropLog(ts, bot, reason, s.finished);
    DropActive(ts, bot, reason, s.active);
  }

  lemma DropOrder(ts: seq<Turn>, bot: nat, reason: Reason)
    requires OrderOk(ts)
    ensures OrderOk(DropQueue(ts, bot, reason))
  {
    var ts' := DropQueue(ts, bot, reason);
    forall i, j | 0 <= i < |ts'| && 0 <= j < |ts'| && Ahead(ts', i, j)
      ensures |ts'[j].parts| == 1 && ts'[i].parts != [] && Last(ts'[i]) < j
    {
      assert Ahead(ts, i, j);
    }
  }

  lemma DropLog(ts: seq<Turn>, bot: nat, reason: Reason, fin: seq<nat>)
    requires StatusesOk(ts) && FinishedOk(ts, fin) && (reason == DroppedByStop || reason == SessionArchived)
    ensures FinishedOk(DropQueue(ts, bot, reason), fin)
  {
    var ts' := DropQueue(ts, bot, reason);
    forall k | 0 <= k < |fin| ensures fin[k] < |ts| && ts'[fin[k]] == ts[fin[k]] {
      assert StatusOk(ts[fin[k]]);
    }
    assert LogRows(ts', fin);
  }

  lemma DropActive(ts: seq<Turn>, bot: nat, reason: Reason, active: map<nat, nat>)
    requires StatusesOk(ts) && ActiveOk(ts, active) && (reason == DroppedByStop || reason == SessionArchived)
    ensures ActiveOk(DropQueue(ts, bot, reason), active) && StatusesOk(DropQueue(ts, bot, reason))
  {
    var ts' := DropQueue(ts, bot, reason);
    forall i | 0 <= i < |ts'| ensures StatusOk(ts'[i]) {
      assert StatusOk(ts[i]);
    }
  }

  // ----- folding -----

  /** What a fold of the first `n` rows collects: the head's parts, then the single parts of the other
      queued rows, in order. */
  ghost predicate FoldGood(ts: seq<Turn>, bot: nat, n: nat, f: seq<Part>)
    requires n <= |ts|
  {
    var h := FirstQueued(ts, bot);
    if h >= n then f == []
    else
      && ts[h].parts <= f && Increasing(f)
      && (forall k :: |ts[h].parts| <= k < |f| ==> f[k].origin < n && f[k].origin != h && IsQueued(ts[f[k].origin], bot))
      && (forall e :: h < e < n && IsQueued(ts[e], bot) ==> ts[e].parts != [] && ts[e].parts[0] in f)
  }

  lemma {:induction false} FoldFacts(ts: seq<Turn>, bot: nat, n: nat)
    requires n <= |ts| && RowsOk(ts) && OrderOk(ts) && StatusesOk(ts)
    ensures FoldGood(ts, bot, n, FoldParts(ts, bot, n))
  {
    assert FoldGood(ts, bot, 0, []) by {
      hide FirstQueued;
    }
    hide RowsOk, OrderOk, StatusesOk, FoldGood, FirstQueued;
    if n == 0 {
    } else {
      FoldFacts(ts, bot, n - 1);
      if IsQueued(ts[n - 1], bot) {
        FoldOne(ts, bot, n, FoldParts(ts, bot, n - 1));
      } else {
        FoldSkip(ts, bot, n, FoldParts(ts, bot, n - 1));
        assert FoldParts(ts, bot, n - 1) + [] == FoldParts(ts, bot, n - 1);
      }
    }
  }

  lemma FoldSkip(ts: seq<Turn>, bot: nat, n: nat, g: seq<Part>)
    requires 0 < n <= |ts| && !IsQueued(ts[n - 1], bot) && FoldGood(ts, bot, n - 1, g)
    ensures FoldGood(ts, bot, n, g)
  {
    hide FirstQueued;
    var h := FirstQueued(ts, bot);
    if h < n - 1 {
      forall k | |ts[h].parts| <= k < |g| ensures g[k].origin < n {
        assert g[k].origin < n - 1;
      }
    }
  }

  lemma FoldOne(ts: seq<Turn>, bot: nat, n: nat, g: seq<Part>)
    requires 0 < n <= |ts| && RowsOk(ts) && OrderOk(ts) && StatusesOk(ts) && IsQueued(ts[n - 1], bot)
    requires FoldGood(ts, bot, n - 1, g)
    ensures FoldGood(ts, bot, n, g + ts[n - 1].parts)
  {
    hide *;
    var h := FirstQueued(ts, bot);
    QueuedCarries(ts, bot, h);
    if h < n - 1 {
      QueuedBehind(ts, bot, h, n - 1);
      FoldAppend(ts, bot, n, g, ts[n - 1].parts[0]);
    } else {
      FoldFirst(ts, bot, n, g);
    }
  }

  lemma QueuedCarries(ts: seq<Turn>, bot: nat, i: nat)
    requires RowsOk(ts) && StatusesOk(ts) && i < |ts| && IsQueued(ts[i], bot)
    ensures ts[i].parts != [] && ts[i].parts[0].origin == i && Increasing(ts[i].parts)
  {
    assert StatusOk(ts[i]);
    assert Carries(ts, i);
  }

  lemma QueuedBehind(ts: seq<Turn>, bot: nat, h: nat, i: nat)
    requires RowsOk(ts) && StatusesOk(ts) && OrderOk(ts) && h < i < |ts| && IsQueued(ts[h], bot) && IsQueued(ts[i], bot)
    ensures |ts[i].parts| == 1 && ts[i].parts[0].origin == i && ts[h].parts != [] && Last(ts[h]) < i
  {
    QueuedCarries(ts, bot, i);
    hide RowsOk, StatusesOk;
    assert Ahead(ts, h, i);
  }

  lemma FoldFirst(ts: seq<Turn>, bot: nat, n: nat, g: seq<Part>)
    requires 0 < n <= |ts| && FirstQueued(ts, bot) == n - 1 && FoldGood(ts, bot, n - 1, g)
    requires Increasing(ts[n - 1].parts)
    ensures FoldGood(ts, bot, n, g + ts[n - 1].parts)
  {
    hide FirstQueued, IsQueued, Increasing;
    assert g + ts[n - 1].parts == ts[n - 1].parts;
  }

  lemma FoldAppend(ts: seq<Turn>, bot: nat, n: nat, g: seq<Part>, last: Part)
    requires 0 < n <= |ts| && FirstQueued(ts, bot) < n - 1 && IsQueued(ts[n - 1], bot)
    requires FoldGood(ts, bot, n - 1, g)
    requires last.origin == n - 1 && ts[n - 1].parts == [last]
    requires var t := ts[FirstQueued(ts, bot)]; t.parts != [] && Increasing(t.parts) && Last(t) < n - 1
    ensures FoldGood(ts, bot, n, g + [last])
  {
    assert Increasing(g + [last]);
    hide *;
    FoldBelow(ts, bot, n, g);
    FoldGrows(ts, bot, n, g, last);
  }

  /** All that was folded so far is older than row `n - 1`. */
  lemma FoldBelow(ts: seq<Turn>, bot: nat, n: nat, g: seq<Part>)
    requires 0 < n <= |ts| && FirstQueued(ts, bot) < n - 1 && FoldGood(ts, bot, n - 1, g)
    requires var t := ts[FirstQueued(ts, bot)]; t.parts != [] && Increasing(t.parts) && Last(t) < n - 1
    ensures forall k :: 0 <= k < |g| ==> g[k].origin < n - 1
  {
    hide FirstQueued, IsQueued;
    var t := ts[FirstQueued(ts, bot)];
    forall k | 0 <= k < |g| ensures g[k].origin < n - 1 {
      if k < |t.parts| {
        assert g[k] == t.parts[k];
        assert t.parts[k].origin <= Last(t);
      }
    }
  }

  lemma FoldGrows(ts: seq<Turn>, bot: nat, n: nat, g: seq<Part>, last: Part)
    requires 0 < n <= |ts| && FirstQueued(ts, bot) < n - 1 && IsQueued(ts[n - 1], bot)
    requires FoldGood(ts, bot, n - 1, g) && Increasing(g + [last])
    requires last.origin == n - 1 && ts[n - 1].parts == [last]
    ensures FoldGood(ts, bot, n, g + [last])
  {
    hide FirstQueued, IsQueued, Increasing;
    var h, f := FirstQueued(ts, bot), g + [last];
    assert f[|g|] == last;
    forall k | |ts[h].parts| <= k < |f| ensures f[k].origin < n && f[k].origin != h && IsQueued(ts[f[k].origin], bot) {
      assert k < |g| ==> f[k] == g[k];
    }
    forall e | h < e < n && IsQueued(ts[e], bot) ensures ts[e].parts != [] && ts[e].parts[0] in f {
      assert e < n - 1 ==> ts[e].parts[0] in g;
    }
  }

  lemma StartKeeps(s: State, bot: nat)
    requires Inv(s)
    ensures Inv(Start(s, bot))
  {
    var ts := s.turns;
    if !Busy(s, bot) && FirstQueued(ts, bot) < |ts| {
      hide RowsOk, StatusesOk, OrderOk, ActiveOk, FinishedOk, Folded, Repointed, FirstQueued;
      FoldedRows(ts, bot, s.clock);
      FoldedOrder(ts, bot, s.clock);
      FoldedActive(ts, bot, s.clock, s.active);
      FoldedFinished(ts, bot, s.clock, s.finished);
    }
  }

  lemma FoldedStatuses(ts: seq<Turn>, bot: nat, now: nat)
    requires StatusesOk(ts)
    ensures StatusesOk(Folded(ts, bot, now))
  {
    hide FoldParts, FirstQueued;
  }

  lemma FoldedRows(ts: seq<Turn>, bot: nat, now: nat)
    requires RowsOk(ts) && StatusesOk(ts) && OrderOk(ts) && FirstQueued(ts, bot) < |ts|
    ensures RowsOk(Folded(ts, bot, now)) && StatusesOk(Folded(ts, bot, now))
  {
    var ts' := Folded(ts, bot, now);
    FoldFacts(ts, bot, |ts|);
    FoldedStatuses(ts, bot, now);
    assert forall i :: 0 <= i < |ts| && IsQueued(ts[i], bot) ==> !Merged(ts[i]) by {
      forall i | 0 <= i < |ts| ensures IsQueued(ts[i], bot) ==> !Merged(ts[i]) {
        assert StatusOk(ts[i]);
      }
    }
    forall i | 0 <= i < |ts'| && !Merged(ts'[i]) ensures Carries(ts', i) {
      FoldedCarries(ts, bot, now, i);
    }
    forall i | 0 <= i < |ts'| && Merged(ts'[i]) ensures IsCarried(ts', i) {
      FoldedIsCarried(ts, bot, now, i);
    }
  }

  lemma FoldedCarries(ts: seq<Turn>, bot: nat, now: nat, i: nat)
    requires RowsOk(ts) && StatusesOk(ts) && FirstQueued(ts, bot) < |ts| && i < |ts|
    requires FoldGood(ts, bot, |ts|, FoldParts(ts, bot, |ts|))
    requires !Merged(Folded(ts, bot, now)[i])
    ensures Carries(Folded(ts, bot, now), i)
  {
    var h, f, ts' := FirstQueued(ts, bot), FoldParts(ts, bot, |ts|), Folded(ts, bot, now);
    assert StatusOk(ts[i]);
    assert Carries(ts, i);
    hide RowsOk;
    if i == h {
      assert ts'[h].parts == f && f[0] == ts[h].parts[0];
      forall k | 0 < k < |f| ensures f[k].origin < |ts| && ts'[f[k].origin].reason == MergedInto(h) {
        if k < |ts[h].parts| {
          assert f[k] == ts[h].parts[k];
          assert StatusOk(ts[f[k].origin]);
        }
      }
    } else {
      forall k | 0 < k < |ts[i].parts| ensures ts'[ts[i].parts[k].origin] == ts[ts[i].parts[k].origin] {
        assert StatusOk(ts[ts[i].parts[k].origin]);
      }
    }
  }

  lemma FoldedIsCarried(ts: seq<Turn>, bot: nat, now: nat, i: nat)
    requires RowsOk(ts) && StatusesOk(ts) && OrderOk(ts) && FirstQueued(ts, bot) < |ts| && i < |ts|
    requires FoldGood(ts, bot, |ts|, FoldParts(ts, bot, |ts|))
    requires Merged(Folded(ts, bot, now)[i])
    ensures IsCarried(Folded(ts, bot, now), i)
  {
    hide *;
    FoldedAt(ts, bot, now, i);
    if IsQueued(ts[i], bot) {
      FoldedNowMerged(ts, bot, now, i);
    } else {
      FoldedStillMerged(ts, bot, now, i);
    }
  }

  /** What a fold makes of row `i`. */
  lemma FoldedAt(ts: seq<Turn>, bot: nat, now: nat, i: nat)
    requires i < |ts| && FirstQueued(ts, bot) < |ts|
    ensures var h, r := FirstQueued(ts, bot), Folded(ts, bot, now)[i];
            && (!IsQueued(ts[i], bot) ==> r == ts[i])
            && (i == h ==> IsQueued(ts[i], bot) && r.parts == FoldParts(ts, bot, |ts|) && r.bot == ts[i].bot
                           && r.reason == ts[i].reason && r.status == Running)
            && (IsQueued(ts[i], bot) && i != h ==> h < i && r == ts[i].(status := Done, reason := MergedInto(h)))
  {
    hide FoldParts, IsQueued;
  }

  lemma FoldedNowMerged(ts: seq<Turn>, bot: nat, now: nat, i: nat)
    requires RowsOk(ts) && StatusesOk(ts) && OrderOk(ts) && FirstQueued(ts, bot) < |ts| && i < |ts|
    requires FoldGood(ts, bot, |ts|, FoldParts(ts, bot, |ts|))
    requires IsQueued(ts[i], bot) && Merged(Folded(ts, bot, now)[i])
    ensures IsCarried(Folded(ts, bot, now), i)
  {
    var h := FirstQueued(ts, bot);
    assert IsQueued(ts[h], bot) && StatusOk(ts[h]) && StatusOk(ts[i]);
    FoldedAt(ts, bot, now, i);
    FoldedAt(ts, bot, now, h);
    QueuedBehind(ts, bot, h, i);
    hide RowsOk, StatusesOk, OrderOk, FoldParts, Folded, FirstQueued;
  }

  lemma FoldedStillMerged(ts: seq<Turn>, bot: nat, now: nat, i: nat)
    requires RowsOk(ts) && StatusesOk(ts) && OrderOk(ts) && FirstQueued(ts, bot) < |ts| && i < |ts|
    requires FoldGood(ts, bot, |ts|, FoldParts(ts, bot, |ts|))
    requires !IsQueued(ts[i], bot) && Merged(Folded(ts, bot, now)[i])
    ensures IsCarried(Folded(ts, bot, now), i)
  {
    var h, f := FirstQueued(ts, bot), FoldParts(ts, bot, |ts|);
    FoldedAt(ts, bot, now, i);
    assert IsCarried(ts, i);
    var g := ts[i].reason.head;
    FoldedAt(ts, bot, now, g);
    if IsQueued(ts[g], bot) {
      NotAbsorbed(ts, bot, i);
      hide RowsOk, StatusesOk, OrderOk, FoldParts, Folded, FirstQueued;
      var k :| 0 <= k < |ts[h].parts| && ts[h].parts[k] == ts[i].parts[0];
      assert f[k] == ts[i].parts[0];
    } else {
      hide RowsOk, StatusesOk, OrderOk, FoldParts, Folded, FirstQueued;
    }
  }

  /** A row that took in others is the oldest in its queue, so it is not merged itself. */
  lemma NotAbsorbed(ts: seq<Turn>, bot: nat, i: nat)
    requires RowsOk(ts) && StatusesOk(ts) && OrderOk(ts)
    requires i < |ts| && Merged(ts[i]) && ts[i].reason.head < |ts| && IsQueued(ts[ts[i].reason.head], bot)
    ensures ts[i].reason.head == FirstQueued(ts, bot)
  {
    var g, h := ts[i].reason.head, FirstQueued(ts, bot);
    assert IsCarried(ts, i);
    assert Carries(ts, g);
    assert h <= g;
    assert h < g ==> Ahead(ts, h, g);
  }

  lemma FoldedOrder(ts: seq<Turn>, bot: nat, now: nat)
    requires OrderOk(ts) && FirstQueued(ts, bot) < |ts|
    ensures OrderOk(Folded(ts, bot, now))
  {
    var ts' := Folded(ts, bot, now);
    hide FoldParts;
    forall i, j | 0 <= i < |ts'| && 0 <= j < |ts'| && Ahead(ts', i, j)
      ensures |ts'[j].parts| == 1 && ts'[i].parts != [] && Last(ts'[i]) < j
    {
      assert !IsQueued(ts[j], bot) && !IsQueued(ts[i], bot);
      assert Ahead(ts, i, j);
    }
  }

  lemma FoldedActive(ts: seq<Turn>, bot: nat, now: nat, active: map<nat, nat>)
    requires ActiveOk(ts, active) && FirstQueued(ts, bot) < |ts| && bot !in active
    ensures ActiveOk(Folded(ts, bot, now), active[bot := FirstQueued(ts, bot)])
  {
    hide FoldParts;
  }

  lemma FoldedFinished(ts: seq<Turn>, bot: nat, now: nat, fin: seq<nat>)
    requires RowsOk(ts) && StatusesOk(ts) && OrderOk(ts) && FinishedOk(ts, fin) && FirstQueued(ts, bot) < |ts|
    ensures FinishedOk(Folded(ts, bot, now), fin)
  {
    var ts' := Folded(ts, bot, now);
    forall k | 0 <= k < |fin| ensures fin[k] < |ts| && ts'[fin[k]] == ts[fin[k]] {
      assert StatusOk(ts[fin[k]]);
    }
  }

  // ----- ending and recovering a turn -----

  /** Row `i` leaves the running state: it ends, or goes back to the queue. */
  lemma LeaveRunning(s: State, i: nat, t': Turn)
    requires Inv(s) && i < |s.turns| && s.turns[i].status == Running && StatusOk(t')
    requires t'.parts == s.turns[i].parts && t'.bot == s.turns[i].bot
    requires t'.reason == Ended || (t'.reason == Open && t'.status == Queued)
    ensures Inv(s.(turns := s.turns[i := t'], active := s.active - {t'.bot},
                   finished := if t'.reason == Ended then s.finished + [i] else s.finished))
  {
    var ts, ts', bot := s.turns, s.turns[i := t'], t'.bot;
    assert StatusOk(ts[i]);
    assert Carries(ts, i);
    assert SameCarriage(ts, ts');
    SameCarriageRows(ts, ts');
    hide RowsOk;
    assert StatusesOk(ts');
    LeaveOrder(ts, i, t', s.active);
    assert forall j :: 0 <= j < |ts| && j != i && ts[j].bot == bot && ts[j].reason == Open ==> Last(ts[i]) < j by {
      forall j | 0 <= j < |ts| && j != i && ts[j].bot == bot && ts[j].reason == Open ensures Last(ts[i]) < j {
        assert StatusOk(ts[j]);
        assert Ahead(ts, i, j);
      }
    }
    hide OrderOk;
    hide StatusesOk;
    LeaveFinished(ts, i, t', s.finished);
  }

  lemma LeaveOrder(ts: seq<Turn>, i: nat, t': Turn, active: map<nat, nat>)
    requires OrderOk(ts) && ActiveOk(ts, active) && i < |ts| && ts[i].status == Running
    requires t'.parts == ts[i].parts && t'.parts != [] && t'.parts[0].origin == i && Increasing(t'.parts)
    requires t'.bot == ts[i].bot && t'.status != Running
    ensures OrderOk(ts[i := t']) && ActiveOk(ts[i := t'], active - {t'.bot})
  {
    var ts' := ts[i := t'];
    forall a, b | 0 <= a < |ts'| && 0 <= b < |ts'| && Ahead(ts', a, b)
      ensures |ts'[b].parts| == 1 && ts'[a].parts != [] && Last(ts'[a]) < b
    {
      if b == i {
        if ts[a].status == Queued {
          assert Ahead(ts, i, a);
        }
        assert false;
      } else {
        assert Ahead(ts, a, b);
      }
    }
  }

  lemma LeaveFinished(ts: seq<Turn>, i: nat, t': Turn, fin: seq<nat>)
    requires FinishedOk(ts, fin) && i < |ts| && ts[i].reason == Open
    requires t'.parts == ts[i].parts && t'.parts != [] && t'.bot == ts[i].bot
    requires t'.reason == Ended || t'.reason == Open
    requires forall j :: 0 <= j < |ts| && j != i && ts[j].bot == ts[i].bot && ts[j].reason == Open ==> Last(ts[i]) < j
    ensures FinishedOk(ts[i := t'], if t'.reason == Ended then fin + [i] else fin)
  {
    var ts' := ts[i := t'];
    var fin' := if t'.reason == Ended then fin + [i] else fin;
    assert forall k :: 0 <= k < |fin| ==> fin[k] != i && fin'[k] == fin[k] && ts'[fin[k]] == ts[fin[k]];
    assert t'.reason == Ended ==> fin'[|fin|] == i;
    assert LogRows(ts', fin');
    assert LogComplete(ts', fin') by {
      LogGrows(ts, i, t', fin);
    }
    LogStaysOrdered(ts, i, t', fin);
    LogStaysBefore(ts, i, t', fin);
  }

  lemma LogGrows(ts: seq<Turn>, i: nat, t': Turn, fin: seq<nat>)
    requires LogComplete(ts, fin) && i < |ts| && (t'.reason == Ended || t'.reason == Open)
    ensures LogComplete(ts[i := t'], if t'.reason == Ended then fin + [i] else fin)
  {
    var ts' := ts[i := t'];
    var fin' := if t'.reason == Ended then fin + [i] else fin;
    forall j | 0 <= j < |ts'| && ts'[j].reason == Ended ensures j in fin' {
      if j == i {
        assert fin'[|fin|] == i;
      } else {
        assert j in fin;
      }
    }
  }

  lemma LogStaysOrdered(ts: seq<Turn>, i: nat, t': Turn, fin: seq<nat>)
    requires LogRows(ts, fin) && LogOrdered(ts, fin) && LogBeforeOpen(ts, fin)
    requires i < |ts| && ts[i].reason == Open && t'.parts == ts[i].parts && t'.bot == ts[i].bot
    requires LogRows(ts[i := t'], if t'.reason == Ended then fin + [i] else fin)
    ensures LogOrdered(ts[i := t'], if t'.reason == Ended then fin + [i] else fin)
  {
    var ts' := ts[i := t'];
    var fin' := if t'.reason == Ended then fin + [i] else fin;
    forall k, l | 0 <= k < l < |fin'| && ts'[fin'[k]].bot == ts'[fin'[l]].bot ensures Last(ts'[fin'[k]]) < fin'[l] {
      assert ts'[fin[k]] == ts[fin[k]];
    }
  }

  lemma LogStaysBefore(ts: seq<Turn>, i: nat, t': Turn, fin: seq<nat>)
    requires LogRows(ts, fin) && LogBeforeOpen(ts, fin)
    requires i < |ts| && ts[i].reason == Open && t'.parts == ts[i].parts && t'.bot == ts[i].bot
    requires LogRows(ts[i := t'], if t'.reason == Ended then fin + [i] else fin)
    requires ts[i].parts != []
    requires forall j :: 0 <= j < |ts| && j != i && ts[j].bot == ts[i].bot && ts[j].reason == Open ==> Last(ts[i]) < j
    ensures LogBeforeOpen(ts[i := t'], if t'.reason == Ended then fin + [i] else fin)
  {
    var ts' := ts[i := t'];
    var fin' := if t'.reason == Ended then fin + [i] else fin;
    forall k, j | 0 <= k < |fin'| && 0 <= j < |ts'| && ts'[j].bot == ts'[fin'[k]].bot && ts'[j].reason == Open
      ensures Last(ts'[fin'[k]]) < j
    {
      if k < |fin| {
        var f := fin[k];
        assert fin'[k] == f && ts[f].reason == Ended && f != i && ts'[f] == ts[f];
        assert ts[j].reason == Open && ts[j].bot == ts[f].bot;
        assert Last(ts[f]) < j;
      } else {
        assert fin'[k] == i && ts'[i] == t' && j != i && ts'[j] == ts[j];
        assert Last(t') == Last(ts[i]);
      }
    }
  }

  lemma FinishKeeps(s: State, bot: nat, out: Outcome)
    requires Inv(s)
    ensures Inv(Finish(s, bot, out))
  {
    hide RowsOk, OrderOk, FinishedOk;
    if Finish(s, bot, out) != s {
      var i := s.active[bot];
      assert StatusOk(s.turns[i]);
      hide StatusesOk;
      var t' := s.turns[i].(status := if out.err == Success then Done else Failed, reason := Ended, err := out.err);
      LeaveRunning(s, i, t');
    }
  }

  /** The end of a timed-out turn of General comes to its follow-up, and queues one. */
  predicate Injecting(s: State) {
    && GENERAL in s.closing && s.closing[GENERAL].turn < |s.turns| && s.closing[GENERAL].phase.Handed?
    && s.closing[GENERAL].out.err == TimedOut && Injects(s, s.closing[GENERAL].turn, s.closing[GENERAL].phase.worker)
  }

  function FollowUpTurn(s: State): Turn
    requires Injecting(s)
  {
    NewTurn(s, GENERAL, System, FollowUpText(s.closing[GENERAL].phase.worker, s.closing[GENERAL].out.quoted))
  }

  /** The one turn that the end of a turn may add is a follow-up. */
  ghost predicate AddsTurn(s: State, ts: seq<Turn>, bot: nat) {
    if bot == GENERAL && Injecting(s) then ts == s.turns + [FollowUpTurn(s)] else ts == s.turns
  }

  /** The end of a turn of General comes to the hand-off, and starts a worker. */
  predicate HandsOff(s: State, bot: nat) {
    && bot in s.closing && s.closing[bot].turn < |s.turns| && s.closing[bot].phase == Answered
    && MayHandOff(s, bot, s.closing[bot]) && Spawns(s, s.closing[bot].turn, s.closing[bot].out)
  }

  /** A message that nobody has seen; a report of it goes to General and is not blank. */
  ghost predicate IsFresh(row: Row) {
    && !row.delivered && row.turn == None
    && (row.relay ==> row.to == GENERAL && row.wake && Trimmed(row.text) && row.text != "")
  }

  /** At most one message more. */
  ghost predicate AddsRow(inbox: seq<Row>, inbox': seq<Row>) {
    inbox' == inbox || (|inbox'| == |inbox| + 1 && inbox' == inbox + [inbox'[|inbox|]] && IsFresh(inbox'[|inbox|]))
  }

  /** The ends under way stay those of the same turns, and the ends of other bots as they are. */
  ghost predicate SameEnds(closing: map<nat, Closing>, closing': map<nat, Closing>, bot: nat) {
    && (forall b :: b in closing' ==> b in closing && closing'[b].turn == closing[b].turn && closing'[b].out == closing[b].out)
    && (forall b :: b in closing && b != bot ==> b in closing' && closing'[b] == closing[b])
  }

  /** The end of a turn of `bot` gets one phase further, and is over after the last. */
  ghost predicate NextPhase(closing: map<nat, Closing>, closing': map<nat, Closing>, bot: nat)
    requires bot in closing
  {
    match closing[bot].phase
    case Closed => bot in closing' && closing'[bot].phase == Answered
    case Answered => bot in closing' && closing'[bot].phase.Handed?
    case Handed(_) => bot in closing' && closing'[bot].phase == FollowedUp
    case FollowedUp => closing' == closing - {bot}
  }

  /** The posts may grow at the first phase of General's end, its reply, and at the last, the fallbacks. */
  predicate Posts(s: State, bot: nat) {
    bot == GENERAL && bot in s.closing && (s.closing[bot].phase == Closed || s.closing[bot].phase == FollowedUp)
  }

  /** What the goroutine that ended a turn of `bot` may do next. */
  ghost predicate GoesOn(s: State, r: State, bot: nat) {
    && (if bot in s.closing && s.closing[bot].turn < |s.turns| then NextPhase(s.closing, r.closing, bot) else r == s)
    && r.active == s.active && r.finished == s.finished && r.archived == s.archived && r.clock == s.clock && r.cut == s.cut
    && (forall b :: b != bot ==> (b in r.waiting <==> b in s.waiting)) && (!Posts(s, bot) ==> r.dm == s.dm)
    && (bot == GENERAL || bot !in s.closing || s.closing[bot].phase != FollowedUp ==> r.answers == s.answers)
    && (if HandsOff(s, bot) then r.spawned == s.spawned + [s.closing[bot].turn] && HandedOff(r.inbox, s.clock)
        else r.spawned == s.spawned)
    && AddsTurn(s, r.turns, bot) && AddsRow(s.inbox, r.inbox) && SameEnds(s.closing, r.closing, bot)
  }

  lemma HandoffAdds(s: State, i: nat, out: Outcome)
    requires i < |s.turns|
    ensures AddsRow(s.inbox, s.inbox)
    ensures var h := Handoff(s, i, out);
            && h == s.(bots := h.bots, spawned := h.spawned, inbox := h.inbox) && AddsRow(s.inbox, h.inbox)
            && if Spawns(s, i, out) then h.spawned == s.spawned + [i] && HandedOff(h.inbox, s.clock) else h == s
  {
    hide Spawns, WorkerPrompt, LastOwnerRequest, TrimSpace;
    if Spawns(s, i, out) {
      var row := Handoff(s, i, out).inbox[|s.inbox|];
      assert row.from == Some(GENERAL) && row.wake && row.created >= s.clock;
    }
  }

  lemma HandOverGoes(s: State, bot: nat, c: Closing)
    requires bot in s.closing && s.closing[bot] == c && c.turn < |s.turns| && c.phase == Answered
    ensures GoesOn(s, HandOver(s, bot, c), bot)
  {
    hide Spawns, MayHandOff, Handoff, HandedOff, AddsRow;
    HandoffAdds(s, c.turn, c.out);
  }

  lemma FollowUpGoes(s: State, bot: nat, c: Closing)
    requires bot in s.closing && s.closing[bot] == c && c.turn < |s.turns| && c.phase.Handed?
    ensures GoesOn(s, FollowUp(s, bot, c, c.phase.worker), bot)
  {
    hide Injects, FollowUpText;
  }

  lemma AnswerGoes(s: State, bot: nat, c: Closing)
    requires bot in s.closing && s.closing[bot] == c && c.turn < |s.turns| && c.phase == Closed
    ensures GoesOn(s, Answer(s, bot, c), bot)
  {
  }

  lemma AnswerIsText(out: Outcome)
    ensures AnswerDue(out) ==> Trimmed(AnswerText(out)) && AnswerText(out) != ""
  {
    hide Trimmed, TrimSpace, Truncate;
    if AnswerDue(out) {
      TruncateKeeps(out.output, WORKER_RELAY_MAX);
    }
  }

  lemma SettleGoes(s: State, bot: nat, c: Closing)
    requires bot in s.closing && s.closing[bot] == c && c.turn < |s.turns| && c.phase == FollowedUp
    ensures GoesOn(s, Settle(s, bot, c), bot)
  {
    hide Trimmed, TrimSpace, Truncate, FallbackTexts, PendingRow, AnswerDue, AnswerText;
    var w, f := WorkerRelay(s, bot, c.out), FulfillOwnerRelay(s, c.turn, c.out);
    AnswerIsText(c.out);
    hide AnswerOf;
    assert w == s.(inbox := w.inbox) && AddsRow(s.inbox, w.inbox) && AddsRow(s.inbox, s.inbox);
    assert f == s.(dm := f.dm);
    hide WorkerRelay, FulfillOwnerRelay, AddsRow;
  }

  lemma GoOnGoes(s: State, bot: nat)
    ensures GoesOn(s, GoOn(s, bot), bot)
  {
    if bot in s.closing && s.closing[bot].turn < |s.turns| {
      hide HandOver, FollowUp, Answer, Settle, GoesOn;
      var c := s.closing[bot];
      match c.phase
      case Closed => AnswerGoes(s, bot, c);
      case Answered => HandOverGoes(s, bot, c);
      case Handed(_) => FollowUpGoes(s, bot, c);
      case FollowedUp => SettleGoes(s, bot, c);
    }
  }

  lemma GoOnKeeps(s: State, bot: nat)
    requires Inv(s)
    ensures Inv(GoOn(s, bot))
  {
    GoOnGoes(s, bot);
    if bot == GENERAL && Injecting(s) {
      EnqueueKeeps(s, GENERAL, System, FollowUpText(s.closing[GENERAL].phase.worker, s.closing[GENERAL].out.quoted));
    }
    hide RowsOk, StatusesOk, OrderOk, ActiveOk, FinishedOk, GoOn, Injecting, AddsRow, SameEnds, NextPhase, HandsOff;
  }

  lemma RecoverRowKeeps(s: State, i: nat)
    requires Inv(s) && i < |s.turns|
    ensures Inv(RecoverRow(s, i))
  {
    var t := s.turns[i];
    if t.status == Running {
      var t' := if t.bot in s.archived then t.(status := Failed, reason := Ended, err := Fatal)
                else t.(status := Queued, started := None, err := Success);
      assert StatusOk(t);
      LeaveRunning(s, i, t');
    }
  }

  lemma {:induction false} RecoverKeeps(s: State, n: nat)
    requires Inv(s) && n <= |s.turns|
    ensures Inv(RecoverUpTo(s, n))
    ensures forall i :: 0 <= i < n ==> RecoverUpTo(s, n).turns[i].status != Running
  {
    hide RowsOk;
    hide StatusesOk;
    hide OrderOk;
    hide ActiveOk;
    hide FinishedOk;
    if n > 0 {
      RecoverKeeps(s, n - 1);
      RecoverRowKeeps(RecoverUpTo(s, n - 1), n - 1);
    }
  }

  /** After recovery nothing runs, so the new process's empty map is right. */
  lemma RestartKeeps(s: State)
    requires Inv(s)
    ensures Inv(Restart(s)) && RecoverUpTo(s, |s.turns|).active == map[]
    ensures forall i :: 0 <= i < |s.turns| ==> Restart(s).turns[i].status != Running
  {
    RecoverKeeps(s, |s.turns|);
    var r := RecoverUpTo(s, |s.turns|);
    hide RecoverUpTo, RowsOk, OrderOk, FinishedOk, StatusesOk;
    assert r.active == map[] by {
      forall b ensures b !in r.active {
      }
    }
  }

  // ----- inputs are never rewritten -----

  /** Every row keeps its bot and the input it was created with. */
  ghost predicate KeepsInputs(ts: seq<Turn>, ts': seq<Turn>) {
    && |ts| <= |ts'|
    && forall o :: 0 <= o < |ts| ==>
         ts'[o].bot == ts[o].bot && ts[o].parts != [] && ts'[o].parts != [] && ts'[o].parts[0] == ts[o].parts[0]
  }

  /** Every row of a reachable table holds the input it was created with. */
  lemma OwnPart(ts: seq<Turn>, o: nat)
    requires RowsOk(ts) && o < |ts|
    ensures ts[o].parts != [] && ts[o].parts[0].origin == o
  {
    if Merged(ts[o]) {
      assert IsCarried(ts, o);
    } else {
      assert Carries(ts, o);
    }
  }

  lemma StartKeepsInputs(s: State, bot: nat)
    requires RowsOk(s.turns) && StatusesOk(s.turns) && OrderOk(s.turns)
    ensures KeepsInputs(s.turns, Start(s, bot).turns)
  {
    var ts, ts' := s.turns, Start(s, bot).turns;
    hide OrderOk, StatusesOk, Increasing, FoldParts;
    if FirstQueued(ts, bot) < |ts| {
      FoldFacts(ts, bot, |ts|);
    }
    forall o | 0 <= o < |ts| ensures ts[o].parts != [] {
      OwnPart(ts, o);
    }
    hide RowsOk, StatusesOk, FoldParts, FirstQueued;
  }

  lemma {:induction false} RecoverKeepsInputs(s: State, n: nat)
    requires n <= |s.turns|
    ensures forall o :: 0 <= o < |s.turns| ==>
              RecoverUpTo(s, n).turns[o].bot == s.turns[o].bot && RecoverUpTo(s, n).turns[o].parts == s.turns[o].parts
  {
    if n > 0 {
      RecoverKeepsInputs(s, n - 1);
    }
  }

  /** Every step keeps the invariant and every input already there. */
  lemma StepKeeps(s: State, step: Step)
    requires Inv(s)
    ensures Inv(Next(s, step)) && KeepsInputs(s.turns, Next(s, step).turns)
  {
    hide RowsOk, StatusesOk, OrderOk, ActiveOk, FinishedOk, Start, GoOn, Restart, DropQueue;
    KeepsItself(s);
    match step
    case DoEnqueue(bot, source, text) =>
      EnqueueKeeps(s, bot, source, text);
      AddKeepsInputs(s, NewTurn(s, bot, source, text));
    case DoStart(bot) =>
      StartKeeps(s, bot);
      StartKeepsInputs(s, bot);
    case DoFinish(bot, out) =>
      FinishKeeps(s, bot, out);
    case DoGoOn(bot) =>
      GoOnKeeps(s, bot);
      GoOnKeepsInputs(s, bot);
    case DoStop(bot) =>
      DropKeeps(s, bot, DroppedByStop);
      DropKeepsInputs(s, bot, DroppedByStop);
    case DoArchive(bot) =>
      DropKeeps(s, bot, SessionArchived);
      DropKeepsInputs(s, bot, SessionArchived);
    case DoUnarchive(bot) =>
    case DoUnpark(bot) =>
    case DoRestart =>
      RestartKeeps(s);
      RestartKeepsInputs(s);
    case DoSend(from, to, body, wake) =>
    case DoReport(from, body) =>
    case DoDeliver(row, sender) =>
      if row < |s.inbox| {
        EnqueueKeeps(s, s.inbox[row].to, FromBot, Label(sender, s.inbox[row].text));
        AddKeepsInputs(s, NewTurn(s, s.inbox[row].to, FromBot, Label(sender, s.inbox[row].text)));
      }
    case DoTick =>
  }

  lemma AddKeepsInputs(s: State, t: Turn)
    requires Inv(s)
    ensures KeepsInputs(s.turns, s.turns + [t])
  {
    hide Inv;
    KeepsItself(s);
  }

  lemma DropKeepsInputs(s: State, bot: nat, reason: Reason)
    requires Inv(s)
    ensures KeepsInputs(s.turns, DropQueue(s.turns, bot, reason))
  {
    hide Inv;
    KeepsItself(s);
  }

  lemma RestartKeepsInputs(s: State)
    requires Inv(s)
    ensures KeepsInputs(s.turns, Restart(s).turns)
  {
    hide Inv, RecoverUpTo;
    KeepsItself(s);
    RecoverKeepsInputs(s, |s.turns|);
  }

  lemma GoOnKeepsInputs(s: State, bot: nat)
    requires KeepsInputs(s.turns, s.turns)
    ensures KeepsInputs(s.turns, GoOn(s, bot).turns)
  {
    hide GoOn;
    GoOnGoes(s, bot);
  }

  lemma {:induction false} RunKeeps(steps: seq<Step>)
    ensures Inv(Run(steps))
  {
    hide Inv;
    if steps == [] {
      assert Inv(Empty) by {
        EmptyInv();
      }
    } else {
      RunKeeps(steps[..|steps| - 1]);
      StepKeeps(Run(steps[..|steps| - 1]), steps[|steps| - 1]);
    }
  }

  lemma EmptyInv()
    ensures Inv(Empty)
  {
  }

  lemma {:induction false} RunOnKeepsInputs(before: seq<Step>, after: seq<Step>)
    ensures KeepsInputs(Run(before).turns, Run(before + after).turns)
    decreases |after|
  {
    hide *;
    RunMore(before, after);
    if after == [] {
      RunKeeps(before);
      KeepsItself(Run(before));
    } else {
      var mid := before + after[..|after| - 1];
      RunOnKeepsInputs(before, after[..|after| - 1]);
      RunKeeps(mid);
      StepKeeps(Run(mid), after[|after| - 1]);
      KeepsBoth(Run(before).turns, Run(mid).turns, Run(before + after).turns);
    }
  }

  lemma KeepsItself(s: State)
    requires Inv(s)
    ensures KeepsInputs(s.turns, s.turns)
  {
    forall o | 0 <= o < |s.turns| ensures s.turns[o].parts != [] {
    }
  }

  lemma KeepsBoth(a: seq<Turn>, b: seq<Turn>, c: seq<Turn>)
    requires KeepsInputs(a, b) && KeepsInputs(b, c)
    ensures KeepsInputs(a, c)
  {
  }

  /** The turn that carries the input of row `o`. */
  function Carrier(ts: seq<Turn>, o: nat): nat
    requires o < |ts|
  {
    if Merged(ts[o]) then ts[o].reason.head else o
  }

  /** Where a turn stands: waiting in the queue, running, ended and logged, or dropped unrun. */
  datatype Place = Waiting | InProgress | Finished | Dropped

  function PlaceOf(t: Turn): Place {
    if t.status == Queued then Waiting
    else if t.status == Running then InProgress
    else if t.reason == Ended then Finished
    else Dropped
  }

  /** How often the ended turns of the log carry input `o`. */
  ghost function TimesFinished(ts: seq<Turn>, fin: seq<nat>, o: nat): nat
    requires forall k :: 0 <= k < |fin| ==> fin[k] < |ts|
  {
    if fin == [] then 0
    else TimesFinished(ts, fin[..|fin| - 1], o) + if HasOrigin(ts[fin[|fin| - 1]].parts, o) then 1 else 0
  }

  ghost predicate HasOrigin(parts: seq<Part>, o: nat) {
    exists k :: 0 <= k < |parts| && parts[k].origin == o
  }

  /** In a reachable state the turns that carry an input are exactly its carrier, merged rows aside. */
  lemma CarrierHolds(s: State, o: nat)
    requires Inv(s) && o < |s.turns|
    ensures var c := Carrier(s.turns, o);
            && c < |s.turns| && !Merged(s.turns[c]) && s.turns[c].bot == s.turns[o].bot
            && s.turns[o].parts != [] && s.turns[o].parts[0] in s.turns[c].parts
            && forall i :: 0 <= i < |s.turns| && !Merged(s.turns[i]) ==> (HasOrigin(s.turns[i].parts, o) <==> i == c)
  {
    var ts, c := s.turns, Carrier(s.turns, o);
    OwnPart(ts, o);
    if Merged(ts[o]) {
      assert IsCarried(ts, o);
    }
    forall i | 0 <= i < |ts| && !Merged(ts[i]) ensures HasOrigin(ts[i].parts, o) <==> i == c {
      assert Carries(ts, i);
      if i == c {
        var k :| 0 <= k < |ts[c].parts| && ts[c].parts[k] == ts[o].parts[0];
        assert ts[i].parts[k].origin == o;
      }
    }
  }

  /** Two entries of the log: rows that ended, unmerged, in the order of what they carry. */
  lemma LogPair(s: State, k: nat, l: nat)
    requires Inv(s) && k <= l < |s.finished|
    ensures s.finished[k] < |s.turns| && s.finished[l] < |s.turns|
    ensures var a, b := s.turns[s.finished[k]], s.turns[s.finished[l]];
            && !Merged(a) && a.parts != [] && a.parts[0].origin == s.finished[k] && Increasing(a.parts)
            && (k < l && a.bot == b.bot ==> s.finished[k] <= Last(a) < s.finished[l])
  {
    assert Carries(s.turns, s.finished[k]);
  }

  /** The log names the carrier once if it ended. */
  lemma {:induction false} FinishedOnce(s: State, o: nat, n: nat)
    requires Inv(s) && o < |s.turns| && n <= |s.finished|
    ensures forall k :: 0 <= k < |s.finished| ==> s.finished[k] < |s.turns|
    ensures TimesFinished(s.turns, s.finished[..n], o) == (if Carrier(s.turns, o) in s.finished[..n] then 1 else 0)
  {
    hide Inv;
    hide HasOrigin;
    var ts, fin, c := s.turns, s.finished, Carrier(s.turns, o);
    CarrierHolds(s, o);
    forall k | 0 <= k < |fin| ensures fin[k] < |ts| && !Merged(ts[fin[k]]) {
      LogPair(s, k, k);
    }
    if n > 0 {
      FinishedOnce(s, o, n - 1);
      assert fin[..n][..n - 1] == fin[..n - 1] && fin[..n] == fin[..n - 1] + [fin[n - 1]];
      if fin[n - 1] == c && c in fin[..n - 1] {
        var k :| 0 <= k < n - 1 && fin[k] == c;
        LogPair(s, k, n - 1);
      }
    }
  }

  /** The turn that a step adds to the table: input from outside, a delivered message, or a follow-up. */
  function NewRow(s: State, step: Step): Option<Turn> {
    match step
    case DoEnqueue(bot, source, text) => Some(NewTurn(s, bot, source, text))
    case DoDeliver(row, sender) =>
      if row < |s.inbox| && !s.inbox[row].delivered && s.inbox[row].wake
      then Some(NewTurn(s, s.inbox[row].to, FromBot, Label(sender, s.inbox[row].text)))
      else None
    case DoGoOn(bot) => if bot == GENERAL && Injecting(s) then Some(FollowUpTurn(s)) else None
    case _ => None
  }

  /** What a new row holds: queued, unread, with one text; an input from outside exactly as it came in, a
      message to its whole length. */
  ghost predicate HoldsNew(s: State, step: Step, t: Turn) {
    && t.status == Queued && t.reason == Open && t.created == s.clock && t.started == None && t.held == []
    && |t.parts| == 1 && t.parts[0].origin == |s.turns|
    && (step.DoEnqueue? ==> t.bot == step.bot && t.source == step.source && t.parts[0].text == step.text)
    && (step.DoDeliver? ==> step.row < |s.inbox| && t.bot == s.inbox[step.row].to && t.source == FromBot
                            && HasSuffix(t.parts[0].text, ":\n" + s.inbox[step.row].text))
    && (step.DoGoOn? ==> t.bot == GENERAL && t.source == System)
  }

  lemma NewRowHolds(s: State, step: Step)
    requires NewRow(s, step).Some?
    ensures HoldsNew(s, step, NewRow(s, step).value)
  {
    hide Label, HasSuffix, Injecting, FollowUpText;
    if step.DoDeliver? {
      LabelKeeps(step.sender, s.inbox[step.row].text);
    }
  }

  lemma RowAdded(s: State, step: Step)
    ensures var r, t := Next(s, step), NewRow(s, step);
            if t.Some? then |r.turns| == |s.turns| + 1 && r.turns[|s.turns|] == t.value && HoldsNew(s, step, t.value)
            else |r.turns| == |s.turns|
  {
    if NewRow(s, step).Some? {
      NewRowHolds(s, step);
    }
    hide HoldsNew, NewTurn, Label, TrimSpace, GoOn, RecoverUpTo, Folded, Repointed, FirstQueued, Injecting, FollowUpTurn,
         AddsRow, SameEnds, HandsOff;
    if step.DoGoOn? {
      GoOnGoes(s, step.bot);
    }
  }

  /** Exactly one place: whatever happens before and after, a step adds at most one row, with one input
      in it, and that input is carried by exactly one turn of its bot, unchanged; and it is finished once
      if that turn ended, else never. */
  lemma ExactlyOnePlace(before: seq<Step>, step: Step, after: seq<Step>)
    requires |Run(before).turns| < |Run(before + [step]).turns|
    ensures var s, o, added := Run(before + [step] + after), |Run(before).turns|, NewRow(Run(before), step);
            && |Run(before + [step]).turns| == o + 1 && o < |s.turns|
            && added.Some? && |added.value.parts| == 1 && added.value.parts[0].origin == o
            && var c := Carrier(s.turns, o);
            && c < |s.turns| && !Merged(s.turns[c]) && s.turns[c].bot == added.value.bot
            && added.value.parts[0] in s.turns[c].parts && HoldsNew(Run(before), step, added.value)
            && (forall i :: 0 <= i < |s.turns| && !Merged(s.turns[i]) && HasOrigin(s.turns[i].parts, o) ==> i == c)
            && (forall k :: 0 <= k < |s.finished| ==> s.finished[k] < |s.turns|)
            && TimesFinished(s.turns, s.finished, o) == (if PlaceOf(s.turns[c]) == Finished then 1 else 0)
  {
    var mid := before + [step];
    var s, o := Run(mid + after), |Run(before).turns|;
    hide Run, Next, Inv, Label, Injecting, FollowUpText, HasOrigin, HoldsNew;
    RunSnoc(before, step);
    RowAdded(Run(before), step);
    RunOnKeepsInputs(mid, after);
    RunKeeps(mid + after);
    CarrierHolds(s, o);
    FinishedOnce(s, o, |s.finished|);
    assert s.finished[..|s.finished|] == s.finished;
    LoggedIffEnded(s, Carrier(s.turns, o));
  }

  lemma LoggedIffEnded(s: State, i: nat)
    requires Inv(s) && i < |s.turns| && !Merged(s.turns[i])
    ensures i in s.finished <==> PlaceOf(s.turns[i]) == Finished
  {
    assert StatusOk(s.turns[i]);
    if i in s.finished {
      var k :| 0 <= k < |s.finished| && s.finished[k] == i;
      assert s.turns[s.finished[k]].reason == Ended;
    }
  }

  function Origins(parts: seq<Part>): seq<nat> {
    seq(|parts|, k requires 0 <= k < |parts| => parts[k].origin)
  }

  /** The inputs that the ended turns of `bot` carried, in finishing order. */
  ghost function FinishedInputs(ts: seq<Turn>, fin: seq<nat>, bot: nat): seq<nat>
    requires forall k :: 0 <= k < |fin| ==> fin[k] < |ts|
  {
    if fin == [] then []
    else
      var t := ts[fin[|fin| - 1]];
      FinishedInputs(ts, fin[..|fin| - 1], bot) + if t.bot == bot then Origins(t.parts) else []
  }

  ghost predicate Rising(a: seq<nat>) {
    forall j, k :: 0 <= j < k < |a| ==> a[j] < a[k]
  }

  /** Entry `k` of the log ended a turn of `bot` that carried something no older than `x`. */
  predicate Bounds(s: State, k: nat, bot: nat, x: nat) {
    && k < |s.finished| && s.finished[k] < |s.turns|
    && var t := s.turns[s.finished[k]]; t.bot == bot && t.parts != [] && x <= Last(t)
  }

  lemma {:induction false} FinishedRising(s: State, bot: nat, n: nat)
    requires Inv(s) && n <= |s.finished|
    ensures forall k :: 0 <= k < |s.finished| ==> s.finished[k] < |s.turns|
    ensures var a := FinishedInputs(s.turns, s.finished[..n], bot);
            && Rising(a)
            && forall x :: x in a ==> exists k :: 0 <= k < n && Bounds(s, k, bot, x)
  {
    hide Inv;
    var ts, fin := s.turns, s.finished;
    forall k | 0 <= k < |fin| ensures fin[k] < |ts| && ts[fin[k]].parts != [] {
      LogPair(s, k, k);
    }
    if n > 0 {
      FinishedRising(s, bot, n - 1);
      assert fin[..n][..n - 1] == fin[..n - 1];
      var a, t := FinishedInputs(ts, fin[..n - 1], bot), ts[fin[n - 1]];
      LogPair(s, n - 1, n - 1);
      if t.bot == bot {
        forall x | x in a ensures x < fin[n - 1] {
          var k :| 0 <= k < n - 1 && Bounds(s, k, bot, x);
          LogPair(s, k, n - 1);
        }
        RisingConcat(a, Origins(t.parts), fin[n - 1]);
        forall x | x in a ensures exists k :: 0 <= k < n && Bounds(s, k, bot, x) {
          var k :| 0 <= k < n - 1 && Bounds(s, k, bot, x);
        }
        forall x | x in Origins(t.parts) ensures Bounds(s, n - 1, bot, x) {
          var k :| 0 <= k < |t.parts| && t.parts[k].origin == x;
          assert k < |t.parts| - 1 ==> t.parts[k].origin < t.parts[|t.parts| - 1].origin;
        }
      }
    }
  }

  lemma RisingConcat(a: seq<nat>, b: seq<nat>, m: nat)
    requires Rising(a) && Rising(b) && (forall x :: x in a ==> x < m) && (b != [] ==> b[0] >= m)
    ensures Rising(a + b)
  {
    var c := a + b;
    forall j, k | 0 <= j < k < |c| ensures c[j] < c[k] {
      if j < |a| && k >= |a| {
        assert a[j] in a;
        assert b[k - |a|] >= b[0];
      }
    }
  }

  /** First in, first out, across merges, stops and restarts: the inputs finished for a bot were
      finished in the order they were enqueued, none twice. */
  lemma FinishedInOrder(steps: seq<Step>, bot: nat)
    ensures forall k :: 0 <= k < |Run(steps).finished| ==> Run(steps).finished[k] < |Run(steps).turns|
    ensures Rising(FinishedInputs(Run(steps).turns, Run(steps).finished, bot))
  {
    RunKeeps(steps);
    var fin := Run(steps).finished;
    hide Inv;
    FinishedRising(Run(steps), bot, |fin|);
    assert fin[..|fin|] == fin;
  }
}
