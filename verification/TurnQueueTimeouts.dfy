/** General's timeouts: the chain of follow-ups ends. */
module TurnQueueTimeouts {
  import opened GoStrings
  import opened TurnQueue
  import opened TurnQueueSafety
  import opened TurnQueueHistory

  /** What a turn can still cost General in timeouts: an ordinary one itself and its follow-up, a
      follow-up only itself. */
  function Weight(t: Turn): nat {
    if t.bot != GENERAL || t.reason != Open then 0
    else if IsFollowUp(Text(t.parts)) then 1
    else 2
  }

  function Backlog(ts: seq<Turn>): nat {
    if ts == [] then 0 else Backlog(ts[..|ts| - 1]) + Weight(ts[|ts| - 1])
  }

  lemma {:induction false} BacklogUpdate(ts: seq<Turn>, i: nat, t: Turn)
    requires i < |ts|
    ensures Backlog(ts[i := t]) == Backlog(ts) - Weight(ts[i]) + Weight(t)
  {
    hide Weight;
    var n := |ts| - 1;
    if i == n {
      assert ts[i := t][..n] == ts[..n];
    } else {
      assert ts[i := t][..n] == ts[..n][i := t];
      BacklogUpdate(ts[..n], i, t);
    }
  }

  lemma BacklogAppend(ts: seq<Turn>, t: Turn)
    ensures Backlog(ts + [t]) == Backlog(ts) + Weight(t)
  {
    assert (ts + [t])[..|ts|] == ts;
  }

  /** Changing rows one by one to something no heavier makes the whole no heavier. */
  lemma {:induction false} BacklogBelow(ts: seq<Turn>, ts': seq<Turn>)
    requires |ts| == |ts'| && forall i :: 0 <= i < |ts| ==> Weight(ts'[i]) <= Weight(ts[i])
    ensures Backlog(ts') <= Backlog(ts)
  {
    hide Weight;
    if ts != [] {
      BacklogBelow(ts[..|ts| - 1], ts'[..|ts'| - 1]);
    }
  }

  lemma {:induction false} FoldAlone(ts: seq<Turn>, bot: nat, n: nat)
    requires n <= |ts| && FirstQueued(ts, bot) < |ts|
    requires forall e :: FirstQueued(ts, bot) < e < n ==> !IsQueued(ts[e], bot)
    ensures FoldParts(ts, bot, n) == if n > FirstQueued(ts, bot) then ts[FirstQueued(ts, bot)].parts else []
  {
    if n > 0 {
      FoldAlone(ts, bot, n - 1);
    }
  }

  lemma FoldWeights(ts: seq<Turn>, bot: nat, now: nat)
    requires StatusesOk(ts) && FirstQueued(ts, bot) < |ts|
    ensures var h, ts' := FirstQueued(ts, bot), Folded(ts, bot, now);
            && (forall i :: 0 <= i < |ts| && i != h ==> Weight(ts'[i]) <= Weight(ts[i]))
            && (forall i :: 0 <= i < |ts| && i != h && IsQueued(ts[i], bot) ==> Weight(ts'[i]) == 0)
            && (forall i :: 0 <= i < |ts| && IsQueued(ts[i], bot) ==> Weight(ts[i]) >= if bot == GENERAL then 1 else 0)
            && Weight(ts'[h]) <= (if bot == GENERAL then 2 else 0)
  {
    hide IsFollowUp;
    hide Text;
    forall i | 0 <= i < |ts| && IsQueued(ts[i], bot) ensures ts[i].reason == Open {
      assert StatusOk(ts[i]);
    }
  }

  /** Folding a queue into one turn does not add to the backlog. */
  lemma StartBacklog(s: State, bot: nat)
    requires StatusesOk(s.turns)
    ensures Backlog(Start(s, bot).turns) <= Backlog(s.turns)
  {
    var ts := s.turns;
    var h := FirstQueued(ts, bot);
    if !Busy(s, bot) && h < |ts| {
      var ts' := Folded(ts, bot, s.clock);
      FoldWeights(ts, bot, s.clock);
      if e :| h < e < |ts| && IsQueued(ts[e], bot) {
        hide Weight;
        hide Folded;
        var mid, low := ts'[h := ts[h]], ts[e := ts'[e]];
        BacklogUpdate(ts, e, ts'[e]);
        BacklogBelow(low, mid);
        BacklogUpdate(ts', h, ts[h]);
      } else {
        FoldAlone(ts, bot, |ts|);
        assert StatusOk(ts[h]);
        assert Weight(ts'[h]) == Weight(ts[h]);
        hide Weight;
        hide Folded;
        BacklogBelow(ts, ts');
      }
    }
  }

  /** Both follow-up texts are recognised as follow-ups. */
  lemma FollowUpIsFollowUp(worker: bool, quoted: string)
    ensures IsFollowUp(FollowUpText(worker, quoted))
  {
    hide Contains;
    var a := "Error: this work is ";
    var text := FollowUpText(worker, quoted);
    assert TimeoutPrefix <= text;
    var b := text[|a| + |TOO_LONG|..];
    assert text[..|a| + |TOO_LONG|] == TimeoutPrefix[..|a| + |TOO_LONG|] == a + TOO_LONG;
    assert text == a + TOO_LONG + b;
    assert text[|a|..|a| + |TOO_LONG|] == TOO_LONG;
    OccurrenceContains(text, TOO_LONG, |a|);
  }

  /** A timed-out ordinary turn whose follow-up may still be queued. */
  predicate OwesFollowUp(ts: seq<Turn>, closing: map<nat, Closing>) {
    && GENERAL in closing && closing[GENERAL].turn < |ts|
    && closing[GENERAL].out.err == TimedOut && closing[GENERAL].phase != FollowedUp
    && !IsFollowUp(Text(ts[closing[GENERAL].turn].parts))
  }

  /** What General's turns, the one being ended included, can still cost in timeouts. */
  function Load(s: State): nat {
    Backlog(s.turns) + if OwesFollowUp(s.turns, s.closing) then 1 else 0
  }

  /** A timed-out turn of General costs one: a follow-up itself, an ordinary turn itself and leaves the
      follow-up owed. */
  lemma FinishLoad(s: State, bot: nat, out: Outcome)
    requires bot in s.active && s.active[bot] < |s.turns| ==> s.turns[s.active[bot]].reason == Open && s.turns[s.active[bot]].bot == bot
    requires Stays(s, Finish(s, bot, out)) && (GENERAL in s.closing ==> Ends(s, GENERAL))
    ensures Load(Finish(s, bot, out)) <= Load(s)
    ensures TimesOut(s, DoFinish(bot, out)) && s.active[bot] < |s.turns| ==> Load(Finish(s, bot, out)) < Load(s)
  {
    hide Backlog, IsFollowUp, Text;
    if Finish(s, bot, out) != s {
      var i := s.active[bot];
      BacklogUpdate(s.turns, i, EndRow(s, bot, i, out).turns[i]);
    }
  }

  /** The rest of the end of a turn queues no more than was owed. */
  lemma GoOnLoad(s: State, bot: nat)
    ensures Load(GoOn(s, bot)) <= Load(s)
  {
    hide Backlog, IsFollowUp, Text, FollowUpText, HandedOff, HandoffSince, ShouldSpawn, AddsRow, HandsOff, GoOn;
    GoOnGoes(s, bot);
    if bot == GENERAL && Injecting(s) {
      FollowUpWeighs(s);
      BacklogAppend(s.turns, FollowUpTurn(s));
    }
  }

  lemma FollowUpWeighs(s: State)
    requires Injecting(s)
    ensures Weight(FollowUpTurn(s)) == 1
  {
    FollowUpIsFollowUp(s.closing[GENERAL].phase.worker, s.closing[GENERAL].out.quoted);
    hide FollowUpText, IsFollowUp, Injecting;
    var t := FollowUpTurn(s);
    assert Texts(t.parts) == [t.parts[0].text];
    assert Text(t.parts) == t.parts[0].text;
  }

  /** Input for General from outside: the owner, a schedule, a delivered message. */
  predicate FeedsGeneral(s: State, step: Step) {
    || (step.DoEnqueue? && step.bot == GENERAL)
    || (step.DoDeliver? && step.row < |s.inbox| && s.inbox[step.row].to == GENERAL)
  }

  predicate TimesOut(s: State, step: Step) {
    step.DoFinish? && step.bot == GENERAL && step.out.err == TimedOut && GENERAL in s.active
  }

  /** A turn that times out makes the load lighter, and no other step without input from outside makes
      it heavier. */
  lemma StepLoad(s: State, step: Step)
    requires Inv(s) && ClosingOk(s) && !FeedsGeneral(s, step)
    ensures Load(Next(s, step)) + (if TimesOut(s, step) then 1 else 0) <= Load(s)
  {
    hide Load, Next, GoOn, Finish, Restart, FeedsGeneral, Stays;
    NextIs(s, step);
    assert StatusesOk(s.turns) && ActiveOk(s.turns, s.active);
    assert GENERAL in s.closing ==> Ends(s, GENERAL) by {
      assert GENERAL in s.closing ==> ClosingRow(s.turns, s.finished, GENERAL, s.closing[GENERAL]);
    }
    StepStays(s, step);
    if step.DoFinish? {
      FinishStays(s, step.bot, step.out);
    }
    hide Inv, ClosingOk, StatusesOk, ActiveOk;
    match step
    case DoFinish(bot, out) => FinishLoad(s, bot, out);
    case DoGoOn(bot) => GoOnLoad(s, bot);
    case DoRestart => RestartLoad(s);
    case _ => QuietLoad(s, step);
  }

  lemma QuietLoad(s: State, step: Step)
    requires !FeedsGeneral(s, step) && !step.DoFinish? && !step.DoGoOn? && !step.DoRestart?
    requires StatusesOk(s.turns) && Stays(s, Next(s, step)) && (GENERAL in s.closing ==> Ends(s, GENERAL))
    ensures Load(Next(s, step)) <= Load(s)
  {
    hide Backlog, IsFollowUp, Text, StatusesOk, FeedsGeneral;
    NextIs(s, step);
    QuietBacklog(s, step);
    hide Next;
  }

  lemma QuietBacklog(s: State, step: Step)
    requires StatusesOk(s.turns) && !FeedsGeneral(s, step) && !step.DoFinish? && !step.DoGoOn? && !step.DoRestart?
    ensures Backlog(Next(s, step).turns) <= Backlog(s.turns)
  {
    hide Start, Backlog, TrimSpace, Label;
    match step
    case DoEnqueue(bot, source, text) => BacklogAppend(s.turns, NewTurn(s, bot, source, text));
    case DoStart(bot) => StartBacklog(s, bot);
    case DoStop(bot) => BacklogBelow(s.turns, DropQueue(s.turns, bot, DroppedByStop));
    case DoArchive(bot) => BacklogBelow(s.turns, DropQueue(s.turns, bot, SessionArchived));
    case DoDeliver(row, sender) =>
      if row < |s.inbox| {
        BacklogAppend(s.turns, NewTurn(s, s.inbox[row].to, FromBot, Label(sender, s.inbox[row].text)));
      }
    case _ =>
  }

  lemma RestartLoad(s: State)
    requires StatusesOk(s.turns)
    ensures Load(Restart(s)) <= Load(s)
  {
    RecoverBacklog(s, |s.turns|);
    hide RecoverUpTo, Told, IsFollowUp, Text, Backlog, StatusesOk;
  }

  lemma {:induction false} RecoverBacklog(s: State, n: nat)
    requires StatusesOk(s.turns) && n <= |s.turns|
    ensures Backlog(RecoverUpTo(s, n).turns) <= Backlog(s.turns)
  {
    hide Backlog;
    if n > 0 {
      var r, i := RecoverUpTo(s, n - 1), n - 1;
      RecoverBacklog(s, i);
      assert StatusOk(r.turns[i]) by {
        RecoverStays(s, i);
        assert StatusesOk(r.turns);
      }
      BacklogUpdate(r.turns, i, RecoverRow(r, i).turns[i]);
      assert RecoverRow(r, i).turns == r.turns[i := RecoverRow(r, i).turns[i]];
    }
  }

  /** How many turns of General time out while `after` runs on from `before`. */
  ghost function Timeouts(before: seq<Step>, after: seq<Step>): nat {
    if after == [] then 0
    else
      var n := |after| - 1;
      Timeouts(before, after[..n]) + if TimesOut(Run(before + after[..n]), after[n]) then 1 else 0
  }

  ghost predicate NoInputForGeneral(before: seq<Step>, after: seq<Step>) {
    forall n :: 0 <= n < |after| ==> !FeedsGeneral(Run(before + after[..n]), after[n])
  }

  lemma NoInputPrefix(before: seq<Step>, after: seq<Step>, n: nat)
    requires n < |after| && NoInputForGeneral(before, after)
    ensures NoInputForGeneral(before, after[..n]) && !FeedsGeneral(Run(before + after[..n]), after[n])
  {
    hide Run;
    hide FeedsGeneral;
    forall k | 0 <= k < n ensures !FeedsGeneral(Run(before + after[..n][..k]), after[..n][k]) {
      assert after[..n][..k] == after[..k];
    }
  }

  /** The chain ends: with no new input for General, at most as many of its turns time out as the
      load says, whatever else happens in between, restarts included. */
  lemma {:induction false} TimeoutChainEnds(before: seq<Step>, after: seq<Step>)
    requires NoInputForGeneral(before, after)
    ensures Timeouts(before, after) + Load(Run(before + after)) <= Load(Run(before))
  {
    hide Inv, ClosingOk, Next, TimesOut, NoInputForGeneral, Run, Load;
    RunMore(before, after);
    if after != [] {
      var n := |after| - 1;
      NoInputPrefix(before, after, n);
      TimeoutChainEnds(before, after[..n]);
      RunClosing(before + after[..n]);
      StepLoad(Run(before + after[..n]), after[n]);
    }
  }
}
