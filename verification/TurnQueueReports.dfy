/** Worker reports: from the inbox row to the owner, however turns are merged and restarted. */
module TurnQueueReports {
  import opened GoStrings
  import opened TurnQueue
  import opened TurnQueueSafety
  import opened TurnQueueHistory

  /** The owner has been told: by a reply of General that is not blank, or by a fallback that ends in
      the report, cut to the fallback length. */
  ghost predicate Heard(dm: seq<Post>, t: nat, report: string) {
    exists k :: 0 <= k < |dm| && Tells(dm[k], t, report)
  }

  predicate Tells(p: Post, t: nat, report: string) {
    p.turn == t && match p case Reply(_, text) => TrimSpace(text) != "" case Fallback(_, text) => HasSuffix(text, Cut(report))
  }

  /** A post from which the owner can have heard anything. */
  predicate Speaks(p: Post) {
    p.Fallback? || TrimSpace(p.text) != ""
  }

  /** The input holds a message: one of its texts ends in it, after a line that says from whom. */
  ghost predicate HoldsMessage(parts: seq<Part>, text: string) {
    exists k :: 0 <= k < |parts| && HasSuffix(parts[k].text, ":\n" + text)
  }

  /** The end of turn `t` of General is under way and the owner has not been told. */
  predicate InProgress(closing: map<nat, Closing>, t: nat) {
    GENERAL in closing && closing[GENERAL].turn == t && !Told(GENERAL, closing[GENERAL])
  }

  /** The owner has been told of a report with turn `t`, or will be, or a crash cut it short. */
  ghost predicate Owed(s: State, t: nat, report: string) {
    InProgress(s.closing, t) || t in s.cut || Heard(s.dm, t, report)
  }

  /** A report is waiting to be delivered, or attached to one unmerged turn of General that holds it;
      and when that turn has ended, the owner has been told, or will be, or a crash cut it short. */
  ghost predicate ReportOk(s: State, row: Row) {
    && row.to == GENERAL && row.wake && Trimmed(row.text) && row.text != ""
    && (!row.delivered ==> row.turn == None)
    && (row.delivered ==>
          && row.turn.Some? && row.turn.value < |s.turns|
          && var t := s.turns[row.turn.value];
          && !Merged(t) && t.bot == GENERAL && HoldsMessage(t.parts, row.text)
          && (t.reason == Ended ==> Owed(s, row.turn.value, row.text)))
  }

  ghost predicate ReportsOk(s: State) {
    forall r :: 0 <= r < |s.inbox| && s.inbox[r].relay ==> ReportOk(s, s.inbox[r])
  }

  /** Turn `t` of General has ended and had its say. */
  predicate Spoken(s: State, t: nat) {
    t < |s.turns| && s.turns[t].bot == GENERAL && s.turns[t].reason == Ended && t !in s.cut && !InProgress(s.closing, t)
  }

  /** Nothing is said about a turn before it is due, or after a crash cut its end short. */
  ghost predicate PostsOk(s: State) {
    forall k :: 0 <= k < |s.dm| && Speaks(s.dm[k]) ==> Spoken(s, s.dm[k].turn)
  }

  /** A turn whose end was cut short has ended, and its end is not taken up again. */
  ghost predicate CutOk(s: State) {
    && (forall t :: t in s.cut ==> t < |s.turns| && s.turns[t].reason == Ended)
    && (forall b :: b in s.closing ==> s.closing[b].turn !in s.cut)
  }

  /** General's turns are never dropped by an archive. */
  ghost predicate NeverArchived(ts: seq<Turn>) {
    forall i :: 0 <= i < |ts| && ts[i].bot == GENERAL ==> ts[i].reason != SessionArchived
  }

  ghost predicate Reports(s: State) {
    NeverArchived(s.turns) && ReportsOk(s) && PostsOk(s) && CutOk(s)
  }

  ghost predicate ReportInv(s: State) {
    Inv(s) && ClosingOk(s) && Reports(s)
  }

  // ----- the fallback text -----

  /** Every fallback ends in the cut report, and needs no trimming before it is posted. */
  lemma FallbackTells(name: string, report: string, named: bool)
    requires TrimSpace(report) != ""
    ensures var text := OwnerRelayFallback(name, report, named);
            text != "" && HasSuffix(text, Cut(report)) && TrimSpace(text) == text
  {
    hide Trimmed;
    var n, c := TrimSpace(name), Cut(report);
    TrimSpaceTrims(name);
    TruncateKeeps(report, RELAY_MAX);
    hide TrimSpace;
    hide Cut;
    if n != "" {
      Prefixed(n, c);
    }
    TrimSpaceTrims(c);
    assert c[|c| - |c|..] == c;
  }

  lemma Prefixed(n: string, c: string)
    requires n != "" && c != "" && Trimmed(n) && Trimmed(c)
    ensures var text := n + ": " + c; TrimSpace(text) == text && HasSuffix(text, c)
  {
    hide LeadingSpace;
    hide TrailingSpace;
    hide TrimSpace;
    var text := n + ": " + c;
    assert text == n + (": " + c);
    LeadingSpaceAppend(n, ": " + c);
    TrailingSpacePrepend(n + ": ", c);
    TrimSpaceTrims(text);
    assert text[|text| - |c|..] == c;
  }

  /** Among the fallbacks of turn `i` is one for each report it carries. */
  lemma {:induction false} FallbackThere(inbox: seq<Row>, n: nat, i: nat, out: Outcome, r: nat)
    requires r < n <= |inbox| && inbox[r].relay && inbox[r].turn == Some(i) && TrimSpace(inbox[r].text) != ""
    ensures exists k :: 0 <= k < |FallbackTexts(inbox, n, i, out)| && HasSuffix(FallbackTexts(inbox, n, i, out)[k], Cut(inbox[r].text))
  {
    hide OwnerRelayFallback;
    hide SenderName;
    hide Cut;
    hide TrimSpace;
    var before, all := FallbackTexts(inbox, n - 1, i, out), FallbackTexts(inbox, n, i, out);
    assert before <= all;
    if r < n - 1 {
      FallbackThere(inbox, n - 1, i, out, r);
      var k :| 0 <= k < |before| && HasSuffix(before[k], Cut(inbox[r].text));
      assert all[k] == before[k];
    } else {
      var row := inbox[r];
      var text := OwnerRelayFallback(SenderName(row, out.names), row.text, r in out.named);
      FallbackTells(SenderName(row, out.names), row.text, r in out.named);
      assert text in all;
    }
  }

  // ----- what leaves the reports where they are -----

  lemma HeardMore(dm: seq<Post>, dm': seq<Post>, t: nat, report: string)
    requires Heard(dm, t, report) && dm <= dm'
    ensures Heard(dm', t, report)
  {
    var k :| 0 <= k < |dm| && Tells(dm[k], t, report);
    assert dm'[k] == dm[k];
  }

  /** What is said of a turn when nothing speaks of it. */
  lemma SilentIsUnheard(s: State, t: nat, report: string)
    requires PostsOk(s) && !Spoken(s, t)
    ensures !Heard(s.dm, t, report)
  {
    hide Spoken, TrimSpace;
    assert forall k :: 0 <= k < |s.dm| && Tells(s.dm[k], t, report) ==> Speaks(s.dm[k]);
  }

  /** Turn `i` holds what it held, and if it ended in between, its end is under way. */
  ghost predicate SameTurn(s: State, r: State, i: nat)
    requires i < |s.turns| && i < |r.turns|
  {
    && r.turns[i].bot == s.turns[i].bot && r.turns[i].parts == s.turns[i].parts && (Merged(r.turns[i]) ==> Merged(s.turns[i]))
    && (r.turns[i].reason == Ended ==> s.turns[i].reason == Ended || InProgress(r.closing, i))
  }

  ghost predicate OwedStays(s: State, r: State, row: Row) {
    row.relay && row.turn.Some? && Owed(s, row.turn.value, row.text) ==> Owed(r, row.turn.value, row.text)
  }

  lemma ReportsStay(s: State, r: State)
    requires ReportsOk(s) && AddsRow(s.inbox, r.inbox) && |s.turns| <= |r.turns|
    requires forall i :: 0 <= i < |s.turns| && s.turns[i].bot == GENERAL ==> SameTurn(s, r, i)
    requires forall k :: 0 <= k < |s.inbox| ==> OwedStays(s, r, s.inbox[k])
    ensures ReportsOk(r)
  {
    hide InProgress, HoldsMessage, Heard, Trimmed;
    forall k | 0 <= k < |r.inbox| && r.inbox[k].relay ensures ReportOk(r, r.inbox[k]) {
      if k < |s.inbox| {
        assert ReportOk(s, s.inbox[k]) && OwedStays(s, r, s.inbox[k]);
        if s.inbox[k].delivered {
          assert SameTurn(s, r, s.inbox[k].turn.value);
        }
      }
    }
  }

  /** A step that posts nothing and leaves what General still has to say. */
  ghost predicate Quiet(s: State, r: State) {
    && r.dm == s.dm && r.cut == s.cut && (forall t :: InProgress(r.closing, t) == InProgress(s.closing, t))
    && (forall b :: b in r.closing ==> r.closing[b].turn !in s.cut)
  }

  lemma QuietReports(s: State, r: State)
    requires Reports(s) && Quiet(s, r) && EndedStay(s.turns, r.turns) && AddsRow(s.inbox, r.inbox) && NeverArchived(r.turns)
    requires forall i :: 0 <= i < |s.turns| && s.turns[i].bot == GENERAL ==> SameTurn(s, r, i)
    ensures Reports(r)
  {
    hide TrimSpace, InProgress, Heard;
    assert forall k :: 0 <= k < |s.inbox| ==> OwedStays(s, r, s.inbox[k]);
    ReportsStay(s, r);
    hide ReportsOk, NeverArchived, SameTurn, AddsRow;
  }

  // ----- the end of a turn tells the owner -----

  lemma FinishReports(s: State, bot: nat, out: Outcome)
    requires Reports(s) && EndedStay(s.turns, Finish(s, bot, out).turns) && (bot in s.active ==> bot !in s.closing)
    requires bot in s.active && s.active[bot] < |s.turns| ==> s.turns[s.active[bot]].reason == Open && s.turns[s.active[bot]].bot == bot
    ensures Reports(Finish(s, bot, out))
  {
    var r := Finish(s, bot, out);
    hide TrimSpace, Heard;
    if r != s {
      assert AddsRow(s.inbox, r.inbox);
      forall k | 0 <= k < |s.inbox| ensures OwedStays(s, r, s.inbox[k]) {
      }
      ReportsStay(s, r);
      hide ReportsOk, OwedStays, AddsRow;
    }
  }

  lemma AnswerReports(s: State, c: Closing)
    requires Reports(s) && GENERAL in s.closing && s.closing[GENERAL] == c && c.phase == Closed
    requires c.turn < |s.turns| && s.turns[c.turn].bot == GENERAL && s.turns[c.turn].reason == Ended
    ensures Reports(Answer(s, GENERAL, c))
  {
    var r := Answer(s, GENERAL, c);
    hide TrimSpace;
    assert s.dm <= r.dm;
    forall k | 0 <= k < |s.inbox| ensures OwedStays(s, r, s.inbox[k]) {
      AnswerOwed(s, c, s.inbox[k]);
    }
    ReportsStay(s, r);
    hide ReportsOk, Heard, OwedStays;
  }

  lemma AnswerOwed(s: State, c: Closing, row: Row)
    requires GENERAL in s.closing && s.closing[GENERAL] == c && c.phase == Closed
    ensures OwedStays(s, Answer(s, GENERAL, c), row)
  {
    hide TrimSpace;
    var r := Answer(s, GENERAL, c);
    if row.turn.Some? && Owed(s, row.turn.value, row.text) && !InProgress(r.closing, row.turn.value) {
      if InProgress(s.closing, row.turn.value) {
        assert Tells(r.dm[|s.dm|], row.turn.value, row.text);
        assert Heard(r.dm, row.turn.value, row.text);
      } else if Heard(s.dm, row.turn.value, row.text) {
        HeardMore(s.dm, r.dm, row.turn.value, row.text);
      }
    }
  }

  /** The end of a turn of General without a reply posts a fallback for every report it carries. */
  lemma FulfillTells(s: State, i: nat, out: Outcome, r: nat)
    requires r < |s.inbox| && s.inbox[r].relay && s.inbox[r].turn == Some(i) && TrimSpace(s.inbox[r].text) != ""
    requires out.err != Success || TrimSpace(out.output) == ""
    ensures Heard(FulfillOwnerRelay(s, i, out).dm, i, s.inbox[r].text)
  {
    hide TrimSpace, Cut, FallbackTexts;
    var report, dm := s.inbox[r].text, FulfillOwnerRelay(s, i, out).dm;
    FallbackThere(s.inbox, |s.inbox|, i, out, r);
    var texts := FallbackTexts(s.inbox, |s.inbox|, i, out);
    var k :| 0 <= k < |texts| && HasSuffix(texts[k], Cut(report));
    assert dm[|s.dm| + k] == Fallback(i, texts[k]);
    assert Tells(dm[|s.dm| + k], i, report);
  }

  lemma SettleReports(s: State, c: Closing)
    requires Reports(s) && GENERAL in s.closing && s.closing[GENERAL] == c && c.phase == FollowedUp
    requires c.turn < |s.turns| && s.turns[c.turn].bot == GENERAL && s.turns[c.turn].reason == Ended
    ensures Reports(Settle(s, GENERAL, c))
  {
    var r, f := Settle(s, GENERAL, c), FulfillOwnerRelay(s, c.turn, c.out);
    hide TrimSpace, FallbackTexts;
    assert f == s.(dm := f.dm) && s.dm <= f.dm && forall k :: |s.dm| <= k < |f.dm| ==> f.dm[k].turn == c.turn;
    hide FulfillOwnerRelay;
    forall k | 0 <= k < |s.inbox| ensures OwedStays(s, r, s.inbox[k]) {
      if s.inbox[k].relay {
        SettleOwed(s, c, k);
      }
    }
    ReportsStay(s, r);
    hide ReportsOk, Heard, OwedStays;
  }

  lemma SettleOwed(s: State, c: Closing, k: nat)
    requires k < |s.inbox| && s.inbox[k].relay && ReportOk(s, s.inbox[k])
    requires GENERAL in s.closing && s.closing[GENERAL] == c && c.phase == FollowedUp
    ensures OwedStays(s, Settle(s, GENERAL, c), s.inbox[k])
  {
    var row, dm := s.inbox[k], FulfillOwnerRelay(s, c.turn, c.out).dm;
    TrimSpaceTrims(row.text);
    hide TrimSpace, FallbackTexts, Heard, HoldsMessage, Trimmed;
    assert s.dm <= dm;
    if row.turn.Some? && Heard(s.dm, row.turn.value, row.text) {
      HeardMore(s.dm, dm, row.turn.value, row.text);
    } else if row.turn.Some? && InProgress(s.closing, row.turn.value) {
      FulfillTells(s, c.turn, c.out, k);
    }
  }

  /** Beyond General's reply and its fallbacks, the end of a turn says nothing. */
  lemma GoOnQuiet(s: State, r: State, bot: nat)
    requires CutOk(s) && GoesOn(s, r, bot)
    requires bot == GENERAL ==> bot in s.closing && s.closing[bot].phase != Closed && s.closing[bot].phase != FollowedUp
    ensures Quiet(s, r)
  {
    hide TrimSpace, AddsTurn, AddsRow;
  }

  lemma GoOnReports(s: State, bot: nat)
    requires Reports(s)
    requires bot in s.closing ==> Ends(s, bot)
    ensures Reports(GoOn(s, bot))
  {
    var r := GoOn(s, bot);
    GoOnGoes(s, bot);
    hide ReportsOk, PostsOk, CutOk, SameEnds, NextPhase, InProgress, Answer, HandOver, FollowUp, Settle;
    if bot == GENERAL && bot in s.closing && s.closing[bot].phase == Closed {
      AnswerReports(s, s.closing[bot]);
    } else if bot == GENERAL && bot in s.closing && s.closing[bot].phase == FollowedUp {
      SettleReports(s, s.closing[bot]);
    } else if r != s {
      GoOnQuiet(s, r, bot);
      QuietReports(s, r);
    }
  }

  // ----- fold, delivery, restart -----

  /** Folding keeps every report of a folded row. */
  lemma {:induction false} FoldHolds(ts: seq<Turn>, bot: nat, n: nat)
    requires n <= |ts|
    ensures forall e, report :: 0 <= e < n && IsQueued(ts[e], bot) && HoldsMessage(ts[e].parts, report) ==>
              HoldsMessage(FoldParts(ts, bot, n), report)
  {
    hide HasSuffix;
    if n > 0 {
      FoldHolds(ts, bot, n - 1);
      var before, own := FoldParts(ts, bot, n - 1), if IsQueued(ts[n - 1], bot) then ts[n - 1].parts else [];
      var all := FoldParts(ts, bot, n);
      assert all == before + own;
      forall e, report | 0 <= e < n && IsQueued(ts[e], bot) && HoldsMessage(ts[e].parts, report)
        ensures HoldsMessage(all, report)
      {
        if e < n - 1 {
          assert HoldsMessage(before, report);
          var k :| 0 <= k < |before| && HasSuffix(before[k].text, ":\n" + report);
          assert all[k] == before[k];
        } else {
          var k :| 0 <= k < |own| && HasSuffix(own[k].text, ":\n" + report);
          assert all[|before| + k] == own[k];
        }
      }
    }
  }

  lemma StartReports(s: State, bot: nat)
    requires Reports(s) && StatusesOk(s.turns)
    ensures Reports(Start(s, bot))
  {
    var ts, r := s.turns, Start(s, bot);
    if r != s {
      FoldHolds(ts, bot, |ts|);
      hide FoldParts, Heard, TrimSpace, HoldsMessage, InProgress, FirstQueued;
      assert NeverArchived(r.turns);
      forall k | 0 <= k < |r.inbox| && r.inbox[k].relay ensures ReportOk(r, r.inbox[k]) {
        assert ReportOk(s, s.inbox[k]);
        StartReport(s, bot, k);
      }
      hide Start, StatusesOk, ReportOk;
    }
  }

  lemma StartReport(s: State, bot: nat, r: nat)
    requires r < |s.inbox| && s.inbox[r].relay && ReportOk(s, s.inbox[r]) && StatusesOk(s.turns) && FirstQueued(s.turns, bot) < |s.turns|
    requires forall e, report :: 0 <= e < |s.turns| && IsQueued(s.turns[e], bot) && HoldsMessage(s.turns[e].parts, report) ==>
              HoldsMessage(FoldParts(s.turns, bot, |s.turns|), report)
    ensures ReportOk(StartAny(s, bot), StartAny(s, bot).inbox[r])
  {
    hide Trimmed, Heard, HoldsMessage, InProgress;
    var ts, ts', inbox' := s.turns, Folded(s.turns, bot, s.clock), Repointed(s.inbox, s.turns, bot);
    var h, row := FirstQueued(ts, bot), s.inbox[r];
    assert StatusOk(ts[h]);
    if row.delivered {
      var t := row.turn.value;
      if IsQueued(ts[t], bot) {
        assert inbox'[r] == row.(turn := Some(h));
        assert ts'[h].parts == FoldParts(ts, bot, |ts|) && ts'[h].reason == ts[h].reason == Open;
      } else {
        assert inbox'[r] == row && ts'[t] == ts[t];
      }
    } else {
      assert inbox'[r] == row;
    }
  }

  lemma DeliverReports(s: State, row: nat, sender: string)
    requires Reports(s)
    ensures Reports(Deliver(s, row, sender))
  {
    hide Label, HasSuffix, TrimSpace, InProgress, Heard;
    var r := Deliver(s, row, sender);
    if r != s {
      LabelKeeps(sender, s.inbox[row].text);
      assert HasSuffix(r.turns[|s.turns|].parts[0].text, ":\n" + s.inbox[row].text);
      forall k | 0 <= k < |r.inbox| && r.inbox[k].relay ensures ReportOk(r, r.inbox[k]) {
        assert ReportOk(s, s.inbox[k]);
      }
    }
  }

  lemma {:induction false} RecoverReasons(s: State, n: nat)
    requires n <= |s.turns| && GENERAL !in s.archived
    ensures var r := RecoverUpTo(s, n);
            && r.archived == s.archived
            && forall i :: 0 <= i < |s.turns| ==>
                 && r.turns[i].parts == s.turns[i].parts && r.turns[i].bot == s.turns[i].bot
                 && (s.turns[i].bot == GENERAL ==> r.turns[i].reason == s.turns[i].reason)
  {
    if n > 0 {
      RecoverReasons(s, n - 1);
    }
  }

  lemma RestartReports(s: State)
    requires Reports(s) && ClosingOk(s) && StatusesOk(s.turns) && GENERAL !in s.archived
    ensures Reports(Restart(s))
  {
    hide RecoverUpTo, TrimSpace, Heard, HoldsMessage;
    var r := Restart(s);
    RecoverReasons(s, |s.turns|);
    RecoverStays(s, |s.turns|);
    hide ClosingOk, StatusesOk, Restart;
    ReportsStay(s, r);
    hide ReportsOk;
  }

  lemma OtherReports(s: State, step: Step)
    requires Reports(s) && EndedStay(s.turns, Next(s, step).turns)
    requires !step.DoFinish? && !step.DoGoOn? && !step.DoRestart? && !step.DoStart? && !step.DoDeliver?
    ensures Reports(Next(s, step))
  {
    NextIs(s, step);
    OtherRows(s, step);
    OtherTurns(s, step);
    hide Next, Reports, AddsRow, InProgress, EndedStay, SameTurn;
    assert CutOk(s);
    QuietReports(s, Next(s, step));
  }

  lemma OtherRows(s: State, step: Step)
    requires !step.DoFinish? && !step.DoGoOn? && !step.DoRestart? && !step.DoStart? && !step.DoDeliver?
    ensures AddsRow(s.inbox, Next(s, step).inbox)
  {
    hide TrimSpace, Trimmed, NewTurn, DropQueue;
    if step.DoSend? || step.DoReport? {
      TrimSpaceTrims(step.body);
      assert step.DoReport? && TrimSpace(step.body) != "" ==>
        IsFresh(Row(GENERAL, Some(step.from), TrimSpace(step.body), true, true, s.clock, false, None));
    }
  }

  lemma OtherTurns(s: State, step: Step)
    requires NeverArchived(s.turns)
    requires !step.DoFinish? && !step.DoGoOn? && !step.DoRestart? && !step.DoStart? && !step.DoDeliver?
    ensures NeverArchived(Next(s, step).turns) && |s.turns| <= |Next(s, step).turns|
    ensures forall i :: 0 <= i < |s.turns| && s.turns[i].bot == GENERAL ==> SameTurn(s, Next(s, step), i)
  {
    hide TrimSpace, InProgress;
  }

  /** Every step keeps the place of every report, and what the owner was told. */
  lemma StepReports(s: State, step: Step)
    requires ReportInv(s)
    ensures ReportInv(Next(s, step)) && KeepsRows(s.inbox, Next(s, step).inbox)
  {
    assert Inv(s) && ClosingOk(s) && Reports(s) && StatusesOk(s.turns) && GENERAL !in s.archived;
    if step.DoGoOn? && step.bot in s.closing {
      assert ClosingRow(s.turns, s.finished, step.bot, s.closing[step.bot]);
    }
    assert step.DoGoOn? && step.bot in s.closing ==> Ends(s, step.bot);
    hide *;
    NextIs(s, step);
    StepKeeps(s, step);
    StepClosing(s, step);
    StepStays(s, step);
    match step
    case DoFinish(bot, out) =>
      FinishStays(s, bot, out);
      FinishReports(s, bot, out);
    case DoGoOn(bot) =>
      GoOnReports(s, bot);
    case DoRestart => RestartReports(s);
    case DoStart(bot) => StartReports(s, bot);
    case DoDeliver(row, sender) => DeliverReports(s, row, sender);
    case _ => OtherReports(s, step);
  }

  lemma {:induction false} RunReports(steps: seq<Step>)
    ensures ReportInv(Run(steps))
  {
    assert ClosingOk(Empty) && Reports(Empty);
    hide Next, Inv, ClosingOk, Reports;
    if steps == [] {
      EmptyInv();
    } else {
      RunReports(steps[..|steps| - 1]);
      StepReports(Run(steps[..|steps| - 1]), steps[|steps| - 1]);
    }
  }

  // ----- no report is lost, but for a crash -----

  /** Report `r` is still to be delivered, or with a turn of General that holds it and is waiting,
      running or being ended. Once that is over, the owner has been told if and only if the turn was
      neither dropped by /stop nor cut short by a crash between the update of its row and the reply or
      fallback. */
  ghost predicate Placed(s: State, row: Row) {
    row.delivered ==>
      && row.turn.Some? && row.turn.value < |s.turns|
      && var i, t := row.turn.value, s.turns[row.turn.value];
      && t.bot == GENERAL && HoldsMessage(t.parts, row.text)
      && (|| t.status == Queued || t.status == Running || InProgress(s.closing, i)
          || (&& (t.reason == Ended || t.reason == DroppedByStop)
              && (Heard(s.dm, i, row.text) <==> t.reason == Ended && i !in s.cut)))
  }

  /** Every report there is in any run, a worker's answer included, is there after whatever happens
      next, unchanged and placed. */
  lemma EveryReportIsPlaced(before: seq<Step>, r: nat, after: seq<Step>)
    requires r < |Run(before).inbox| && Run(before).inbox[r].relay
    ensures var was, s := Run(before).inbox[r], Run(before + after);
            && r < |s.inbox|
            && var row := s.inbox[r];
            row.relay && row.text == was.text && row.from == was.from && Placed(s, row)
  {
    hide Run, ReportInv, EndedStay, Placed;
    RunOnStays(before, after);
    RunReports(before + after);
    WhereReportIs(Run(before + after), r);
  }

  /** Whatever happens before and after a worker's report, its row is there and it is placed. */
  lemma NoReportLost(before: seq<Step>, from: nat, body: string, after: seq<Step>)
    requires TrimSpace(body) != "" && from != GENERAL
    ensures var s := Run(before + [DoReport(from, body)] + after); var r := |Run(before).inbox|;
            && r < |s.inbox|
            && var row := s.inbox[r];
            row.relay && row.text == TrimSpace(body) && row.from == Some(from) && Placed(s, row)
  {
    RunSnoc(before, DoReport(from, body));
    hide TrimSpace, Run, Placed;
    EveryReportIsPlaced(before + [DoReport(from, body)], |Run(before).inbox|, after);
  }

  lemma WhereReportIs(s: State, r: nat)
    requires ReportInv(s) && r < |s.inbox| && s.inbox[r].relay
    ensures Placed(s, s.inbox[r])
  {
    assert StatusesOk(s.turns) && ReportOk(s, s.inbox[r]);
    hide Inv, ClosingOk, PostsOk, CutOk, HoldsMessage, Heard, InProgress, Trimmed;
    if s.inbox[r].delivered {
      var i := s.inbox[r].turn.value;
      assert StatusOk(s.turns[i]);
      if !Spoken(s, i) {
        SilentIsUnheard(s, i, s.inbox[r].text);
      }
    }
  }

  /** The turns marked as cut are those whose end was under way at a crash, General's before the owner
      was told, a worker's before its report was queued. */
  lemma {:induction false} CutByCrash(steps: seq<Step>, t: nat)
    ensures t in Run(steps).cut <==>
              exists n, b :: 0 <= n < |steps| && steps[n] == DoRestart && CutsShort(Run(steps[..n]), b, t)
  {
    hide Next, CutsShort;
    if steps != [] {
      var n := |steps| - 1;
      var s, rest := Run(steps[..n]), steps[..n];
      assert steps == rest + [steps[n]];
      RunSnoc(rest, steps[n]);
      CutByCrash(rest, t);
      StepCut(s, steps[n], t);
      forall m | 0 <= m < n ensures rest[m] == steps[m] && rest[..m] == steps[..m] {
      }
      if m, b :| 0 <= m < n && steps[m] == DoRestart && CutsShort(Run(steps[..m]), b, t) {
        assert rest[m] == DoRestart && CutsShort(Run(rest[..m]), b, t);
      }
      if m, b :| 0 <= m < |rest| && rest[m] == DoRestart && CutsShort(Run(rest[..m]), b, t) {
        assert steps[m] == DoRestart && CutsShort(Run(steps[..m]), b, t);
      }
    }
  }

  lemma StepCut(s: State, step: Step, t: nat)
    ensures t in Next(s, step).cut <==> t in s.cut || (step == DoRestart && exists b :: CutsShort(s, b, t))
  {
    NextIs(s, step);
    hide Next, GoOn, RecoverUpTo, Told, AddsTurn, AddsRow, SameEnds, NextPhase;
    if step.DoGoOn? {
      GoOnGoes(s, step.bot);
    } else if step.DoRestart? {
      if b :| CutsShort(s, b, t) {
        assert b in s.closing && !Told(b, s.closing[b]);
      }
      if t in Restart(s).cut && t !in s.cut {
        var b :| b in s.closing && !Told(b, s.closing[b]) && s.closing[b].turn == t;
        assert CutsShort(s, b, t);
      }
    }
  }

  // ----- a crash that loses a report -----

  const Failing := Outcome(Fatal, "", "", false, false, map[], {})

  lemma FailingIsCut(s: State)
    requires GENERAL in s.active && s.active[GENERAL] < |s.turns| && StatusesOk(Finish(s, GENERAL, Failing).turns)
    ensures var i, e := s.active[GENERAL], Restart(Finish(s, GENERAL, Failing));
            e.inbox == s.inbox && i in e.cut && i < |e.turns| && e.turns[i].reason == Ended
  {
    var f := Finish(s, GENERAL, Failing);
    RecoverStays(f, |f.turns|);
    hide RecoverUpTo, StatusesOk;
    assert GENERAL in f.closing && !Told(GENERAL, f.closing[GENERAL]);
  }

  /** A report that is with a running turn of General is lost when the process dies just after that
      turn failed: nothing is queued or running any more, and the owner has heard nothing. */
  lemma CrashLosesReport(steps: seq<Step>, r: nat)
    requires var s := Run(steps);
             && GENERAL in s.active && r < |s.inbox| && s.inbox[r].relay && s.inbox[r].delivered
             && s.inbox[r].turn == Some(s.active[GENERAL])
    ensures var s, i := Run(steps + [DoFinish(GENERAL, Failing)] + [DoRestart]), Run(steps).active[GENERAL];
            && r < |s.inbox| && s.inbox[r].turn == Some(i) && i < |s.turns| && s.turns[i].reason == Ended
            && !Heard(s.dm, i, s.inbox[r].text)
  {
    var s, i := Run(steps), Run(steps).active[GENERAL];
    var mid := steps + [DoFinish(GENERAL, Failing)];
    RunSnoc(steps, DoFinish(GENERAL, Failing));
    RunSnoc(mid, DoRestart);
    assert i < |s.turns| && StatusesOk(Run(mid).turns) by {
      RunKeeps(steps);
      RunKeeps(mid);
    }
    FailingIsCut(s);
    assert PostsOk(Run(mid + [DoRestart])) by {
      RunReports(mid + [DoRestart]);
    }
    var e := Run(mid + [DoRestart]);
    hide Run, PostsOk, Restart, Finish, StatusesOk;
    assert e == Restart(Finish(s, GENERAL, Failing));
    SilentIsUnheard(e, i, s.inbox[r].text);
  }
}
