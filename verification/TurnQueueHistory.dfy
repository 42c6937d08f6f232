/** What no step of the turn queue takes back.
 *
 * Ended rows stay as they are, messages to the owner stay in order, and the turn an end under way belongs
 * to does not change. The theorems over runs in `TurnQueueReports`, `TurnQueueAnswers`,
 * `TurnQueueEpisodes` and `TurnQueueRequests` start from a step somewhere in a run and go on to its end;
 * this is what carries what the step did to there.
 */
module TurnQueueHistory {
  import opened GoStrings
  import opened TurnQueue
  import opened TurnQueueSafety

  /** Ended rows stay as they are, and every row stays with its bot. */
  ghost predicate EndedStay(ts: seq<Turn>, ts': seq<Turn>) {
    && |ts| <= |ts'|
    && forall i :: 0 <= i < |ts| ==> ts'[i].bot == ts[i].bot && (ts[i].reason == Ended ==> ts'[i] == ts[i])
  }

  /** Messages stay, and what they say stays. */
  ghost predicate KeepsRows(a: seq<Row>, b: seq<Row>) {
    && |a| <= |b|
    && forall r :: 0 <= r < |a| ==>
         && b[r].text == a[r].text && b[r].relay == a[r].relay && b[r].to == a[r].to && b[r].from == a[r].from
         && b[r].wake == a[r].wake && b[r].created == a[r].created
         && (a[r].delivered ==> b[r].delivered)
  }

  /** Ended rows and messages stay. */
  ghost predicate Stays(s: State, r: State) {
    EndedStay(s.turns, r.turns) && KeepsRows(s.inbox, r.inbox)
  }

  lemma QueueStays(ts: seq<Turn>, bot: nat, now: nat, reason: Reason)
    requires StatusesOk(ts)
    ensures EndedStay(ts, DropQueue(ts, bot, reason)) && EndedStay(ts, Folded(ts, bot, now))
  {
    forall i | 0 <= i < |ts| && IsQueued(ts[i], bot) ensures ts[i].reason != Ended {
      assert StatusOk(ts[i]);
    }
    hide StatusesOk, FoldParts;
  }

  lemma DropStays(s: State, bot: nat)
    requires StatusesOk(s.turns)
    ensures Stays(s, Stop(s, bot)) && Stays(s, Archive(s, bot))
  {
    QueueStays(s.turns, bot, s.clock, DroppedByStop);
    QueueStays(s.turns, bot, s.clock, SessionArchived);
    hide StatusesOk, DropQueue, Folded, EndedStay;
  }

  lemma StartStays(s: State, bot: nat)
    requires StatusesOk(s.turns)
    ensures Stays(s, Start(s, bot))
  {
    QueueStays(s.turns, bot, s.clock, DroppedByStop);
    assert KeepsRows(s.inbox, Repointed(s.inbox, s.turns, bot)) by {
      hide FirstQueued, IsQueued;
    }
    hide StatusesOk, Folded, Repointed, FirstQueued;
  }

  lemma RecoverRowStays(s: State, i: nat)
    requires i < |s.turns| && StatusesOk(s.turns)
    ensures var r := RecoverRow(s, i);
            && EndedStay(s.turns, r.turns) && StatusesOk(r.turns)
            && r == s.(turns := r.turns, active := r.active, finished := r.finished)
  {
    assert StatusOk(s.turns[i]);
  }

  /** Recovery touches running rows only, and nothing but rows, the map of what runs, and the log. */
  lemma {:induction false} RecoverStays(s: State, n: nat)
    requires n <= |s.turns| && StatusesOk(s.turns)
    ensures var r := RecoverUpTo(s, n);
            && EndedStay(s.turns, r.turns) && StatusesOk(r.turns)
            && r == s.(turns := r.turns, active := r.active, finished := r.finished)
  {
    if n > 0 {
      var r := RecoverUpTo(s, n - 1);
      RecoverStays(s, n - 1);
      RecoverRowStays(r, n - 1);
      hide StatusesOk, RecoverRow;
    }
  }

  lemma RestartStays(s: State)
    requires StatusesOk(s.turns)
    ensures Stays(s, Restart(s))
  {
    RecoverStays(s, |s.turns|);
    hide RecoverUpTo, StatusesOk;
  }

  lemma GoOnStays(s: State, bot: nat)
    ensures Stays(s, GoOn(s, bot))
  {
    GoOnGoes(s, bot);
    hide GoOn;
  }

  lemma FinishStays(s: State, bot: nat, out: Outcome)
    requires Inv(s)
    ensures Stays(s, Finish(s, bot, out))
    ensures bot in s.active && s.active[bot] < |s.turns| ==> s.turns[s.active[bot]].reason == Open && s.turns[s.active[bot]].bot == bot
  {
    hide RowsOk, OrderOk, FinishedOk;
    if bot in s.active {
      assert StatusOk(s.turns[s.active[bot]]);
    }
  }

  /** A step by its kind: the end of a turn, a restart, or one that leaves the log, the posts and the
      ends under way alone. */
  lemma NextIs(s: State, step: Step)
    ensures step.DoFinish? ==> Next(s, step) == Finish(s, step.bot, step.out)
    ensures step.DoGoOn? ==> Next(s, step) == GoOn(s, step.bot)
    ensures step.DoStart? ==> Next(s, step) == Start(s, step.bot)
    ensures step.DoStop? ==> Next(s, step) == Stop(s, step.bot)
    ensures step.DoArchive? ==> Next(s, step) == Archive(s, step.bot)
    ensures step.DoRestart? ==> Next(s, step) == Restart(s) && Restart(s).closing == map[]
    ensures !step.DoFinish? && !step.DoGoOn? && !step.DoRestart? ==>
              var r := Next(s, step);
              && r.finished == s.finished && r.closing == s.closing && r.cut == s.cut && r.spawned == s.spawned
              && r.dm == s.dm && r.answers == s.answers && (step.DoStart? || r.active == s.active)
              && forall b :: b in r.closing && b in r.active ==> b in s.active
  {
    hide Folded, Repointed, FirstQueued, TrimSpace, DropQueue, NewTurn, Label, Finish, GoOn, RecoverUpTo;
  }

  lemma OtherStays(s: State, step: Step)
    requires !step.DoFinish? && !step.DoGoOn? && !step.DoRestart? && !step.DoStart? && !step.DoStop? && !step.DoArchive?
    ensures Stays(s, Next(s, step))
  {
    hide NewTurn, Label, TrimSpace;
  }

  /** No step rewrites an ended row or a message. */
  lemma StepStays(s: State, step: Step)
    requires Inv(s)
    ensures Stays(s, Next(s, step))
  {
    NextIs(s, step);
    assert StatusesOk(s.turns);
    hide Inv, Next, Start, Finish, GoOn, Stop, Archive, Stays;
    match step
    case DoFinish(bot, out) =>
      FinishStays(s, bot, out);
    case DoStart(bot) =>
      StartStays(s, bot);
    case DoGoOn(bot) =>
      GoOnStays(s, bot);
    case DoStop(bot) =>
      DropStays(s, bot);
    case DoArchive(bot) =>
      DropStays(s, bot);
    case DoRestart =>
      RestartStays(s);
    case _ =>
      OtherStays(s, step);
  }

  // ----- which turn an end under way belongs to -----

  /** `a` is the turn of `bot` that ended last. */
  ghost predicate LastEnded(ts: seq<Turn>, fin: seq<nat>, bot: nat, a: nat) {
    exists k :: 0 <= k < |fin| && fin[k] == a && NoneAfter(ts, fin, bot, k)
  }

  ghost predicate NoneAfter(ts: seq<Turn>, fin: seq<nat>, bot: nat, k: nat) {
    forall l :: k < l < |fin| && fin[l] < |ts| ==> ts[fin[l]].bot != bot
  }

  ghost predicate ClosingRow(ts: seq<Turn>, fin: seq<nat>, bot: nat, c: Closing) {
    && c.turn < |ts| && ts[c.turn].bot == bot && ts[c.turn].reason == Ended && ts[c.turn].err == c.out.err
    && LastEnded(ts, fin, bot, c.turn)
  }

  /** An end under way belongs to the turn of its bot that ended last, and that bot runs nothing. */
  ghost predicate ClosingOk(s: State) {
    forall b :: b in s.closing ==> b !in s.active && ClosingRow(s.turns, s.finished, b, s.closing[b])
  }

  /** The end of a turn of `bot` under way is that of an ended turn of `bot`. */
  predicate Ends(s: State, bot: nat)
    requires bot in s.closing
  {
    var i := s.closing[bot].turn; i < |s.turns| && s.turns[i].bot == bot && s.turns[i].reason == Ended
  }

  /** The last turn of a bot to end stays that while only turns of other bots end. */
  lemma LastStays(ts: seq<Turn>, ts': seq<Turn>, fin: seq<nat>, fin': seq<nat>, bot: nat, a: nat)
    requires EndedStay(ts, ts') && LogRows(ts, fin) && LastEnded(ts, fin, bot, a) && fin <= fin'
    requires forall l :: |fin| <= l < |fin'| && fin'[l] < |ts'| ==> ts'[fin'[l]].bot != bot
    ensures LastEnded(ts', fin', bot, a)
  {
    var k :| 0 <= k < |fin| && fin[k] == a && NoneAfter(ts, fin, bot, k);
    assert forall l :: 0 <= l < |fin| ==> fin'[l] == fin[l];
    assert fin'[k] == a && NoneAfter(ts', fin', bot, k);
  }

  lemma ClosingRowStays(ts: seq<Turn>, ts': seq<Turn>, fin: seq<nat>, fin': seq<nat>, bot: nat, c: Closing, c': Closing)
    requires EndedStay(ts, ts') && LogRows(ts, fin) && ClosingRow(ts, fin, bot, c) && fin <= fin'
    requires forall l :: |fin| <= l < |fin'| && fin'[l] < |ts'| ==> ts'[fin'[l]].bot != bot
    requires c'.turn == c.turn && c'.out == c.out
    ensures ClosingRow(ts', fin', bot, c')
  {
    LastStays(ts, ts', fin, fin', bot, c.turn);
    hide LastEnded, LogRows;
  }

  lemma LastIsNew(ts: seq<Turn>, fin: seq<nat>, bot: nat, i: nat)
    ensures LastEnded(ts, fin + [i], bot, i)
  {
    assert (fin + [i])[|fin|] == i && NoneAfter(ts, fin + [i], bot, |fin|);
  }

  /** A step that leaves the log alone and starts no end. */
  lemma ClosingStays(s: State, r: State, bot: nat)
    requires LogRows(s.turns, s.finished) && ClosingOk(s) && EndedStay(s.turns, r.turns) && r.finished == s.finished
    requires SameEnds(s.closing, r.closing, bot) && forall b :: b in r.closing && b in r.active ==> b in s.active
    ensures ClosingOk(r)
  {
    hide LogRows, EndedStay, ClosingRow;
    forall b | b in r.closing ensures ClosingRow(r.turns, r.finished, b, r.closing[b]) {
      ClosingRowStays(s.turns, r.turns, s.finished, s.finished, b, s.closing[b], r.closing[b]);
    }
  }

  lemma FinishClosing(s: State, bot: nat, out: Outcome)
    requires LogRows(s.turns, s.finished) && ClosingOk(s) && EndedStay(s.turns, Finish(s, bot, out).turns)
    requires bot in s.active && s.active[bot] < |s.turns| ==> s.turns[s.active[bot]].bot == bot
    ensures ClosingOk(Finish(s, bot, out))
  {
    hide LogRows, LastEnded, EndedStay;
    var r := Finish(s, bot, out);
    if r != s {
      LastIsNew(r.turns, s.finished, bot, s.active[bot]);
      forall b | b in r.closing && b != bot ensures b !in r.active && ClosingRow(r.turns, r.finished, b, r.closing[b]) {
        ClosingRowStays(s.turns, r.turns, s.finished, r.finished, b, s.closing[b], r.closing[b]);
      }
    }
  }

  lemma StepClosing(s: State, step: Step)
    requires Inv(s) && ClosingOk(s)
    ensures ClosingOk(Next(s, step))
  {
    StepStays(s, step);
    NextIs(s, step);
    hide Inv, EndedStay, KeepsRows, Next, Finish, GoOn, Restart, ClosingRow;
    if step.DoFinish? {
      FinishStays(s, step.bot, step.out);
      FinishClosing(s, step.bot, step.out);
    } else if !step.DoRestart? {
      if step.DoGoOn? {
        GoOnGoes(s, step.bot);
      }
      ClosingStays(s, Next(s, step), if step.DoGoOn? then step.bot else GENERAL);
    }
  }

  lemma {:induction false} RunClosing(steps: seq<Step>)
    ensures Inv(Run(steps)) && ClosingOk(Run(steps))
  {
    RunKeeps(steps);
    hide Inv, Next, ClosingRow;
    if steps != [] {
      RunClosing(steps[..|steps| - 1]);
      StepClosing(Run(steps[..|steps| - 1]), steps[|steps| - 1]);
    }
  }

  lemma {:induction false} RunOnStays(before: seq<Step>, after: seq<Step>)
    ensures Stays(Run(before), Run(before + after))
  {
    hide Run, Inv, Next;
    RunMore(before, after);
    if after != [] {
      var mid := before + after[..|after| - 1];
      RunOnStays(before, after[..|after| - 1]);
      RunKeeps(mid);
      StepStays(Run(mid), after[|after| - 1]);
    }
  }

  /** In every run, what a bot is running is an open turn of it. */
  lemma RunningRow(steps: seq<Step>, bot: nat)
    requires bot in Run(steps).active
    ensures var s, i := Run(steps), Run(steps).active[bot];
            i < |s.turns| && s.turns[i].bot == bot && s.turns[i].status == Running && s.turns[i].reason == Open && !Merged(s.turns[i])
  {
    RunKeeps(steps);
    assert StatusOk(Run(steps).turns[Run(steps).active[bot]]);
  }
}
