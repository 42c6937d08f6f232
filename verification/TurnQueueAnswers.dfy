/** What becomes of a worker's answer: it is reported, or a report of the worker was pending, or none
 * was due, or a crash came first. */
module TurnQueueAnswers {
  import opened GoStrings
  import opened TurnQueue
  import opened TurnQueueSafety
  import opened TurnQueueHistory
  import opened TurnQueueReports

  /** What is recorded of an answer is so: the report there is holds the answer; the one that was
      pending may hold another text of the same worker. */
  ghost predicate Matches(inbox: seq<Row>, bot: nat, out: Outcome, a: Relayed) {
    match a
    case NotDue => !AnswerDue(out)
    case Reported(r) => AnswerDue(out) && r < |inbox| && IsReport(inbox[r], bot) && inbox[r].text == AnswerText(out)
    case WasPending(r) => AnswerDue(out) && r < |inbox| && IsReport(inbox[r], bot)
  }

  /** The end of turn `i` of `bot` is under way. */
  predicate EndsNow(s: State, bot: nat, i: nat) {
    bot in s.closing && s.closing[bot].turn == i
  }

  /** Turn `i` of worker `bot` ended with `out`: its end is under way, or a crash cut it short, or its
      answer is accounted for; just one of the three. */
  ghost predicate Answered(s: State, bot: nat, i: nat, out: Outcome) {
    && i < |s.turns| && s.turns[i].bot == bot && s.turns[i].reason == Ended && s.turns[i].err == out.err
    && (!EndsNow(s, bot, i) || (s.closing[bot].out == out && i !in s.cut && i !in s.answers))
    && (EndsNow(s, bot, i) || (i in s.cut <==> i !in s.answers))
    && (i !in s.answers || Matches(s.inbox, bot, out, s.answers[i]))
  }

  lemma MatchesStays(inbox: seq<Row>, inbox': seq<Row>, bot: nat, out: Outcome, a: Relayed)
    requires Matches(inbox, bot, out, a) && KeepsRows(inbox, inbox')
    ensures Matches(inbox', bot, out, a)
  {
    hide AnswerDue, AnswerText;
  }

  /** The last thing at the end of a worker's turn accounts for its answer. */
  lemma SettleAnswers(s: State, bot: nat)
    requires bot != GENERAL && bot in s.closing && s.closing[bot].phase == FollowedUp && s.closing[bot].turn < |s.turns|
    ensures var c, r := s.closing[bot], GoOn(s, bot);
            && r.closing == s.closing - {bot} && r.answers == s.answers[c.turn := AnswerOf(s, bot, c.out)]
            && Matches(r.inbox, bot, c.out, AnswerOf(s, bot, c.out))
  {
    hide AnswerDue, AnswerText;
  }

  lemma GoOnAnswered(s: State, b: nat, bot: nat, i: nat, out: Outcome)
    requires bot != GENERAL && Answered(s, bot, i, out) && (b in s.closing ==> Ends(s, b))
    ensures Answered(GoOn(s, b), bot, i, out)
  {
    GoOnGoes(s, b);
    GoOnStays(s, b);
    hide GoOn, AnswerOf, Matches, KeepsRows, AddsRow, AddsTurn;
    var r := GoOn(s, b);
    if i in s.answers {
      MatchesStays(s.inbox, r.inbox, bot, out, s.answers[i]);
    }
    if b != GENERAL && b in s.closing && s.closing[b].phase == FollowedUp {
      SettleAnswers(s, b);
    }
  }

  lemma FinishAnswered(s: State, b: nat, o: Outcome, bot: nat, i: nat, out: Outcome)
    requires Answered(s, bot, i, out) && EndedStay(s.turns, Finish(s, b, o).turns)
    requires b in s.active ==> b !in s.closing && (s.active[b] < |s.turns| ==> s.turns[s.active[b]].reason == Open)
    ensures Answered(Finish(s, b, o), bot, i, out)
  {
    hide Matches;
  }

  lemma RestartAnswered(s: State, bot: nat, i: nat, out: Outcome)
    requires bot != GENERAL && Answered(s, bot, i, out) && StatusesOk(s.turns)
    requires forall b :: b in s.closing ==> Ends(s, b)
    ensures Answered(Restart(s), bot, i, out)
  {
    RecoverStays(s, |s.turns|);
    hide Matches, RecoverUpTo, StatusesOk;
    assert EndsNow(s, bot, i) ==> !Told(bot, s.closing[bot]);
  }

  lemma StepAnswered(s: State, step: Step, bot: nat, i: nat, out: Outcome)
    requires Inv(s) && ClosingOk(s) && bot != GENERAL && Answered(s, bot, i, out)
    ensures Answered(Next(s, step), bot, i, out)
  {
    NextIs(s, step);
    StepStays(s, step);
    forall b | b in s.closing ensures Ends(s, b) && b !in s.active {
      assert ClosingRow(s.turns, s.finished, b, s.closing[b]);
    }
    assert StatusesOk(s.turns);
    if step.DoFinish? {
      FinishStays(s, step.bot, step.out);
    }
    hide Inv, ClosingOk, StatusesOk, Ends, GoOn, Finish, Restart, Next, Matches, KeepsRows;
    match step
    case DoFinish(b, o) => FinishAnswered(s, b, o, bot, i, out);
    case DoGoOn(b) => GoOnAnswered(s, b, bot, i, out);
    case DoRestart => RestartAnswered(s, bot, i, out);
    case _ =>
      if i in s.answers {
        MatchesStays(s.inbox, Next(s, step).inbox, bot, out, s.answers[i]);
      }
  }

  lemma {:induction false} RunAnswered(before: seq<Step>, after: seq<Step>, bot: nat, i: nat, out: Outcome)
    requires bot != GENERAL && Answered(Run(before), bot, i, out)
    ensures Answered(Run(before + after), bot, i, out)
    decreases |after|
  {
    hide Run, Next, Answered, Inv, ClosingOk;
    RunMore(before, after);
    if after != [] {
      var rest := after[..|after| - 1];
      RunAnswered(before, rest, bot, i, out);
      RunClosing(before + rest);
      StepAnswered(Run(before + rest), after[|after| - 1], bot, i, out);
    }
  }

  /** However a worker's turn ended in any run, and whatever happens next, just one of three holds: its
      end is under way; a crash cut it short; or its answer is accounted for. In that case a report with
      the answer is in the inbox, and placed, unless no report was due or a report of the same worker,
      perhaps with another text, was pending when the end came to it. */
  lemma AnswerReported(before: seq<Step>, bot: nat, out: Outcome, after: seq<Step>)
    requires bot != GENERAL && out.err != TimedOut && bot in Run(before).active
    ensures var s, i := Run(before + [DoFinish(bot, out)] + after), Run(before).active[bot];
            && i < |s.turns| && s.turns[i].bot == bot && s.turns[i].reason == Ended && s.turns[i].err == out.err
            && (EndsNow(s, bot, i) ==> i !in s.cut && i !in s.answers)
            && (!EndsNow(s, bot, i) ==> (i in s.cut <==> i !in s.answers))
            && (i in s.answers ==>
                  var due := !out.waiting && out.err != Stopped && TrimSpace(out.output) != "";
                  match s.answers[i]
                  case NotDue => !due
                  case Reported(r) =>
                    && due && r < |s.inbox| && IsReport(s.inbox[r], bot)
                    && s.inbox[r].text == AnswerText(out) && Placed(s, s.inbox[r])
                  case WasPending(r) =>
                    due && r < |s.inbox| && IsReport(s.inbox[r], bot) && Placed(s, s.inbox[r]))
  {
    var mid, i := before + [DoFinish(bot, out)], Run(before).active[bot];
    RunSnoc(before, DoFinish(bot, out));
    assert Answered(Run(mid), bot, i, out) by {
      RunReports(before);
      RunAnswersOk(before);
      FinishIsAnswered(Run(before), bot, out);
    }
    RunAnswered(mid, after, bot, i, out);
    var s := Run(mid + after);
    hide Run, ReportInv, Placed, AnswerText, TrimSpace;
    RunReports(mid + after);
    if i in s.answers && !s.answers[i].NotDue? {
      WhereReportIs(s, s.answers[i].row);
    }
  }

  lemma FinishIsAnswered(s: State, bot: nat, out: Outcome)
    requires Inv(s) && CutOk(s) && AnswersOk(s) && bot != GENERAL && out.err != TimedOut && bot in s.active
    ensures Answered(Finish(s, bot, out), bot, s.active[bot], out)
  {
    assert StatusOk(s.turns[s.active[bot]]);
  }

  /** Only turns that ended are accounted for, and none whose end is under way. */
  ghost predicate AnswersOk(s: State) {
    && (forall i :: i in s.answers ==> i < |s.turns| && s.turns[i].reason == Ended)
    && (forall b :: b in s.closing ==> s.closing[b].turn !in s.answers)
  }

  lemma GoOnAnswersOk(s: State, bot: nat)
    requires AnswersOk(s) && EndedStay(s.turns, GoOn(s, bot).turns)
    requires forall b :: b in s.closing ==> Ends(s, b)
    ensures AnswersOk(GoOn(s, bot))
  {
    GoOnGoes(s, bot);
    hide GoOn, AnswerOf, Matches, AddsTurn, AddsRow, NextPhase, HandsOff, HandedOff;
    if bot != GENERAL && bot in s.closing && s.closing[bot].phase == FollowedUp {
      SettleAnswers(s, bot);
      forall b | b in s.closing && b != bot ensures s.closing[b].turn != s.closing[bot].turn {
        assert Ends(s, b) && Ends(s, bot);
      }
    }
  }

  lemma StepAnswersOk(s: State, step: Step)
    requires AnswersOk(s) && EndedStay(s.turns, Next(s, step).turns)
    requires forall b :: b in s.closing ==> Ends(s, b)
    requires step.DoFinish? && step.bot in s.active && s.active[step.bot] < |s.turns| ==> s.turns[s.active[step.bot]].reason == Open
    ensures AnswersOk(Next(s, step))
  {
    NextIs(s, step);
    hide Next, GoOn, RecoverUpTo, Ends;
    if step.DoGoOn? {
      GoOnAnswersOk(s, step.bot);
    } else if step.DoRestart? {
      RecoverAnswers(s, |s.turns|);
    }
  }

  lemma {:induction false} RecoverAnswers(s: State, n: nat)
    requires n <= |s.turns|
    ensures RecoverUpTo(s, n).answers == s.answers
  {
    if n > 0 {
      RecoverAnswers(s, n - 1);
    }
  }

  lemma {:induction false} RunAnswersOk(steps: seq<Step>)
    ensures AnswersOk(Run(steps))
  {
    if steps != [] {
      var s, step := Run(steps[..|steps| - 1]), steps[|steps| - 1];
      RunAnswersOk(steps[..|steps| - 1]);
      RunClosing(steps[..|steps| - 1]);
      assert forall b :: b in s.closing ==> Ends(s, b) by {
        hide Inv, Run, Next, LastEnded;
        assert forall b :: b in s.closing ==> ClosingRow(s.turns, s.finished, b, s.closing[b]);
      }
      hide EndedStay, Next, AnswersOk, Ends, Inv, ClosingOk, Run;
      StepStays(s, step);
      if step.DoFinish? {
        FinishStays(s, step.bot, step.out);
      }
      StepAnswersOk(s, step);
    }
  }

  // ----- a crash that loses an answer -----

  /** A worker's answer is lost when the process dies while the end of its turn is under way, wherever it
      is between the update of the row and the report: the turn is done, no answer is accounted for, and
      nobody has heard of it. */
  lemma CrashLosesAnswer(steps: seq<Step>, bot: nat)
    requires bot != GENERAL && bot in Run(steps).closing
    ensures var was, s := Run(steps), Run(steps + [DoRestart]);
            var i := was.closing[bot].turn;
            && i < |s.turns| == |was.turns| && s.turns[i].reason == Ended && s.turns[i].err == was.closing[bot].out.err
            && i in s.cut && i !in s.answers && s.inbox == was.inbox && s.dm == was.dm && s.active == map[] && s.closing == map[]
  {
    var s := Run(steps);
    RunSnoc(steps, DoRestart);
    assert ClosingRow(s.turns, s.finished, bot, s.closing[bot]) && StatusesOk(s.turns) && s.closing[bot].turn !in s.answers by {
      RunClosing(steps);
      RunAnswersOk(steps);
      hide ClosingRow;
    }
    hide Run, LastEnded;
    RecoverStays(s, |s.turns|);
    hide StatusesOk, RecoverUpTo;
    assert bot in s.closing && !Told(bot, s.closing[bot]);
  }

  /** So it goes with any answer of a worker's first turn. */
  lemma CrashBeforeReport(out: Outcome)
    requires AnswerDue(out)
    ensures var s := Run([DoEnqueue(1, User, "b"), DoStart(1), DoFinish(1, out), DoGoOn(1), DoRestart]);
            && |s.turns| == 1 && s.turns[0].reason == Ended && s.turns[0].err == out.err
            && s.inbox == [] && s.dm == [] && s.active == map[] && s.closing == map[]
  {
    var steps := [DoEnqueue(1, User, "b"), DoStart(1)];
    var ended := [DoEnqueue(1, User, "b"), DoStart(1), DoFinish(1, out), DoGoOn(1)];
    assert steps + [DoFinish(1, out)] + [DoGoOn(1)] == ended;
    assert ended + [DoRestart] == [DoEnqueue(1, User, "b"), DoStart(1), DoFinish(1, out), DoGoOn(1), DoRestart];
    OneStarted();
    RunSnoc(steps, DoFinish(1, out));
    RunSnoc(steps + [DoFinish(1, out)], DoGoOn(1));
    hide Run, Next;
    OneEnds(Run(steps), out);
    CrashLosesAnswer(ended, 1);
  }

  lemma OneEnds(s: State, out: Outcome)
    requires s.active == map[1 := 0] && |s.turns| == 1 && out.err != TimedOut
    ensures var r := Next(Next(s, DoFinish(1, out)), DoGoOn(1));
            && |r.turns| == 1 && r.inbox == s.inbox && r.dm == s.dm
            && 1 in r.closing && r.closing[1].turn == 0 && r.closing[1].out == out
  {
  }

  lemma OneStarted()
    ensures var s := Run([DoEnqueue(1, User, "b"), DoStart(1)]);
            s.active == map[1 := 0] && s.inbox == [] && s.dm == [] && |s.turns| == 1
  {
    RunSnoc([], DoEnqueue(1, User, "b"));
    RunSnoc([DoEnqueue(1, User, "b")], DoStart(1));
  }
}
