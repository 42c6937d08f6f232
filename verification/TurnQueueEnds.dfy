/** How far the end of a turn of General comes in a run: the hand-off, and then the follow-up. */
module TurnQueueEnds {
  import opened GoStrings
  import opened TurnQueue
  import opened TurnQueueSafety
  import opened TurnQueueHistory
  import opened TurnQueueTimeouts
  import opened TurnQueueEpisodes

  /** The two things the end of a turn of General may do about its work. */
  datatype Act = HandOff | FollowUp

  /** The end of turn `i` of General is under way. */
  predicate Under(s: State, i: nat) {
    GENERAL in s.closing && s.closing[GENERAL].turn == i
  }

  /** It has not come past `act`. */
  predicate Awaits(s: State, i: nat, act: Act) {
    && Under(s, i)
    && (|| s.closing[GENERAL].phase == Closed || s.closing[GENERAL].phase == Answered
        || (act == FollowUp && s.closing[GENERAL].phase.Handed?))
  }

  /** `act` is what it does next. */
  predicate IsNext(s: State, i: nat, act: Act) {
    Under(s, i) && if act == HandOff then s.closing[GENERAL].phase == Answered else s.closing[GENERAL].phase.Handed?
  }

  /** Step `n` of `after`, which goes on from `mid`, is `act` at the end of turn `i`. */
  ghost predicate TakenAt(mid: seq<Step>, after: seq<Step>, n: nat, i: nat, act: Act) {
    n < |after| && after[n] == DoGoOn(GENERAL) && IsNext(Run(mid + after[..n]), i, act)
  }

  /** Step `n` is a crash before `act`. */
  ghost predicate LostAt(mid: seq<Step>, after: seq<Step>, n: nat, i: nat, act: Act) {
    n < |after| && after[n] == DoRestart && Awaits(Run(mid + after[..n]), i, act)
  }

  /** What the end of turn `i` is known by: the turn ended with `out`. */
  ghost predicate EndedWith(s: State, i: nat, out: Outcome) {
    && i < |s.turns| && s.turns[i].bot == GENERAL && s.turns[i].reason == Ended && s.turns[i].err == out.err
    && (Under(s, i) ==> s.closing[GENERAL].out == out)
  }

  // ----- one step -----

  lemma HandOverIs(s: State)
    requires GENERAL in s.closing && s.closing[GENERAL].turn < |s.turns| && s.closing[GENERAL].phase == Answered
    ensures var c, r := s.closing[GENERAL], GoOn(s, GENERAL);
            GENERAL in r.closing && r.closing[GENERAL] == c.(phase := Handed(HandsOff(s, GENERAL)))
  {
    hide Spawns, MayHandOff, Handoff;
    HandoffAdds(s, s.closing[GENERAL].turn, s.closing[GENERAL].out);
  }

  /** A step brings the end past `act` only by taking it, or by a crash. */
  lemma StepAwaits(s: State, step: Step, i: nat, out: Outcome, act: Act)
    requires Inv(s) && ClosingOk(s) && EndedWith(s, i, out)
    ensures var r := Next(s, step);
            && EndedWith(r, i, out)
            && (Awaits(r, i, act) <==>
                  Awaits(s, i, act) && step != DoRestart && !(step == DoGoOn(GENERAL) && IsNext(s, i, act)))
  {
    assert Under(s, i) ==> GENERAL !in s.active;
    if step.DoFinish? {
      FinishStays(s, step.bot, step.out);
    }
    StepStays(s, step);
    hide Inv, ClosingOk, Next, KeepsRows;
    StepMoves(s, step, i, out, act);
  }

  lemma StepMoves(s: State, step: Step, i: nat, out: Outcome, act: Act)
    requires EndedWith(s, i, out) && i < |Next(s, step).turns| && Next(s, step).turns[i] == s.turns[i]
    requires Under(s, i) ==> GENERAL !in s.active
    requires step.DoFinish? && step.bot in s.active && s.active[step.bot] < |s.turns| ==> s.turns[s.active[step.bot]].reason == Open
    ensures var r := Next(s, step);
            && EndedWith(r, i, out)
            && (Awaits(r, i, act) <==>
                  Awaits(s, i, act) && step != DoRestart && !(step == DoGoOn(GENERAL) && IsNext(s, i, act)))
  {
    if step.DoFinish? {
      FinishMoves(s, step.bot, step.out, i);
    }
    hide Next, Finish, GoOn, Restart;
    NextIs(s, step);
    if step.DoGoOn? {
      GoOnMoves(s, step.bot, i);
    }
  }

  /** Turn `i` has ended, so it is another turn that ends now. */
  lemma FinishMoves(s: State, bot: nat, out: Outcome, i: nat)
    requires Under(s, i) ==> GENERAL !in s.active
    requires i < |s.turns| && s.turns[i].reason == Ended
    requires bot in s.active && s.active[bot] < |s.turns| ==> s.turns[s.active[bot]].reason == Open
    ensures var r := Finish(s, bot, out); Under(r, i) == Under(s, i) && (Under(s, i) ==> r.closing[GENERAL] == s.closing[GENERAL])
  {
  }

  lemma GoOnMoves(s: State, bot: nat, i: nat)
    requires i < |s.turns|
    ensures var r := GoOn(s, bot);
            && (Under(r, i) ==> Under(s, i) && r.closing[GENERAL].out == s.closing[GENERAL].out)
            && forall act :: Awaits(r, i, act) <==> Awaits(s, i, act) && !(bot == GENERAL && IsNext(s, i, act))
  {
    GoOnGoes(s, bot);
    hide GoOn, AddsTurn, AddsRow, HandsOff, HandedOff, Posts;
  }

  /** Workers are started at hand-offs only. */
  lemma StepSpawned(s: State, step: Step)
    ensures Next(s, step).spawned ==
            s.spawned + if step == DoGoOn(GENERAL) && HandsOff(s, GENERAL) then [s.closing[GENERAL].turn] else []
  {
    NextIs(s, step);
    hide Next, GoOn, AddsTurn, AddsRow, NextPhase, SameEnds, Spawns;
    if step.DoGoOn? {
      GoOnGoes(s, step.bot);
    } else if step.DoRestart? {
      RecoverSpawned(s, |s.turns|);
    }
  }

  lemma {:induction false} RecoverSpawned(s: State, n: nat)
    requires n <= |s.turns|
    ensures RecoverUpTo(s, n).spawned == s.spawned
  {
    if n > 0 {
      RecoverSpawned(s, n - 1);
    }
  }

  // ----- over runs -----

  lemma StepOf(mid: seq<Step>, after: seq<Step>, n: nat)
    requires n < |after|
    ensures Run(mid + after[..n + 1]) == Next(Run(mid + after[..n]), after[n])
    ensures mid + after == (mid + after[..n + 1]) + after[n + 1..]
  {
    assert mid + after[..n + 1] == (mid + after[..n]) + [after[n]];
    hide *;
    RunSnoc(mid + after[..n], after[n]);
  }

  lemma {:induction false} SpawnedStays(mid: seq<Step>, after: seq<Step>, i: nat)
    requires i in Run(mid).spawned
    ensures i in Run(mid + after).spawned
  {
    hide Run, Next, HandsOff;
    RunMore(mid, after);
    if after != [] {
      SpawnedStays(mid, after[..|after| - 1], i);
      StepSpawned(Run(mid + after[..|after| - 1]), after[|after| - 1]);
    }
  }

  /** What happened among the first steps of `after` does not depend on the rest. */
  lemma PrefixSame(mid: seq<Step>, after: seq<Step>, k: nat, n: nat, i: nat, act: Act)
    requires n < k <= |after|
    ensures TakenAt(mid, after[..k], n, i, act) == TakenAt(mid, after, n, i, act)
    ensures LostAt(mid, after[..k], n, i, act) == LostAt(mid, after, n, i, act)
  {
    hide Run, IsNext, Awaits;
    assert after[..k][..n] == after[..n];
  }

  lemma {:induction false} RunEndedWith(mid: seq<Step>, after: seq<Step>, i: nat, out: Outcome)
    requires EndedWith(Run(mid), i, out)
    ensures EndedWith(Run(mid + after), i, out)
  {
    hide Run, Next, EndedWith, Inv, ClosingOk;
    RunMore(mid, after);
    if after != [] {
      var rest := after[..|after| - 1];
      RunEndedWith(mid, rest, i, out);
      RunClosing(mid + rest);
      StepAwaits(Run(mid + rest), after[|after| - 1], i, out, HandOff);
    }
  }

  ghost predicate Taken(mid: seq<Step>, after: seq<Step>, i: nat, act: Act) {
    exists n :: TakenAt(mid, after, n, i, act)
  }

  ghost predicate Lost(mid: seq<Step>, after: seq<Step>, i: nat, act: Act) {
    exists n :: LostAt(mid, after, n, i, act)
  }

  lemma OneMore(mid: seq<Step>, after: seq<Step>, i: nat, act: Act)
    requires after != []
    ensures var rest, step := after[..|after| - 1], after[|after| - 1];
            && (Taken(mid, after, i, act) <==>
                  Taken(mid, rest, i, act) || (step == DoGoOn(GENERAL) && IsNext(Run(mid + rest), i, act)))
            && (Lost(mid, after, i, act) <==>
                  Lost(mid, rest, i, act) || (step == DoRestart && Awaits(Run(mid + rest), i, act)))
  {
    hide Run, IsNext, Awaits;
    var k := |after| - 1;
    var rest := after[..k];
    forall n: nat | n < k
      ensures TakenAt(mid, rest, n, i, act) == TakenAt(mid, after, n, i, act)
      ensures LostAt(mid, rest, n, i, act) == LostAt(mid, after, n, i, act)
    {
      PrefixSame(mid, after, k, n, i, act);
    }
    if n :| TakenAt(mid, rest, n, i, act) {
      assert TakenAt(mid, after, n, i, act);
    }
    if n :| LostAt(mid, rest, n, i, act) {
      assert LostAt(mid, after, n, i, act);
    }
    assert TakenAt(mid, after, k, i, act) <==> after[k] == DoGoOn(GENERAL) && IsNext(Run(mid + rest), i, act);
    assert LostAt(mid, after, k, i, act) <==> after[k] == DoRestart && Awaits(Run(mid + rest), i, act);
  }

  /** The end still awaits `act` if and only if it neither took it nor was lost before it, and not both
      happened. */
  lemma {:induction false} JustOne(mid: seq<Step>, after: seq<Step>, i: nat, out: Outcome, act: Act)
    requires EndedWith(Run(mid), i, out) && Awaits(Run(mid), i, act)
    ensures Awaits(Run(mid + after), i, act) <==> !Taken(mid, after, i, act) && !Lost(mid, after, i, act)
    ensures !(Taken(mid, after, i, act) && Lost(mid, after, i, act))
  {
    RunMore(mid, after);
    if after == [] {
      assert mid + after == mid;
    } else {
      var rest, step := after[..|after| - 1], after[|after| - 1];
      assert IsNext(Run(mid + rest), i, act) ==> Awaits(Run(mid + rest), i, act);
      hide *;
      JustOne(mid, rest, i, out, act);
      RunEndedWith(mid, rest, i, out);
      RunClosing(mid + rest);
      StepAwaits(Run(mid + rest), step, i, out, act);
      OneMore(mid, after, i, act);
    }
  }

  /** The end takes `act` once. */
  lemma TakenOnce(mid: seq<Step>, after: seq<Step>, n: nat, m: nat, i: nat, out: Outcome, act: Act)
    requires EndedWith(Run(mid), i, out) && Awaits(Run(mid), i, act)
    requires TakenAt(mid, after, n, i, act) && TakenAt(mid, after, m, i, act)
    ensures n == m
  {
    if n < m {
      assert Awaits(Run(mid + after[..m]), i, act);
      PrefixSame(mid, after, m, n, i, act);
      JustOne(mid, after[..m], i, out, act);
    } else if m < n {
      TakenOnce(mid, after, m, n, i, out, act);
    }
  }

  // ----- whether a worker was started -----

  /** Step `n` of `after` starts a worker at the end of turn `i`. */
  ghost predicate WorkerAt(mid: seq<Step>, after: seq<Step>, n: nat, i: nat) {
    TakenAt(mid, after, n, i, HandOff) && HandsOff(Run(mid + after[..n]), GENERAL)
  }

  ghost predicate Worker(mid: seq<Step>, after: seq<Step>, i: nat) {
    exists n :: WorkerAt(mid, after, n, i)
  }

  lemma WorkerMore(mid: seq<Step>, after: seq<Step>, i: nat)
    requires after != []
    ensures var rest, step := after[..|after| - 1], after[|after| - 1];
            Worker(mid, after, i) <==>
              Worker(mid, rest, i)
              || (step == DoGoOn(GENERAL) && IsNext(Run(mid + rest), i, HandOff) && HandsOff(Run(mid + rest), GENERAL))
  {
    hide Run, IsNext, Awaits, HandsOff;
    var k := |after| - 1;
    var rest := after[..k];
    forall n: nat | n < k ensures WorkerAt(mid, rest, n, i) == WorkerAt(mid, after, n, i) {
      PrefixSame(mid, after, k, n, i, HandOff);
      assert rest[..n] == after[..n];
    }
    if n :| WorkerAt(mid, rest, n, i) {
      assert WorkerAt(mid, after, n, i);
    }
    assert WorkerAt(mid, after, k, i) <==>
      after[k] == DoGoOn(GENERAL) && IsNext(Run(mid + rest), i, HandOff) && HandsOff(Run(mid + rest), GENERAL);
  }

  /** The end of turn `i` started a worker if and only if it took the hand-off where one was due. */
  lemma {:induction false} SpawnedIff(mid: seq<Step>, after: seq<Step>, i: nat)
    requires i !in Run(mid).spawned
    ensures i in Run(mid + after).spawned <==> Worker(mid, after, i)
  {
    RunMore(mid, after);
    if after == [] {
      assert mid + after == mid;
    } else {
      var rest, step := after[..|after| - 1], after[|after| - 1];
      var s := Run(mid + rest);
      assert HandsOff(s, GENERAL) && s.closing[GENERAL].turn == i ==> IsNext(s, i, HandOff);
      assert IsNext(s, i, HandOff) && HandsOff(s, GENERAL) ==> s.closing[GENERAL].turn == i;
      hide *;
      SpawnedIff(mid, rest, i);
      WorkerMore(mid, after, i);
      StepSpawned(s, step);
    }
  }

  /** What the end remembers of the hand-off is whether it started a worker. */
  ghost predicate Remembers(s: State, i: nat) {
    Under(s, i) && s.closing[GENERAL].phase.Handed? ==> s.closing[GENERAL].phase.worker == (i in s.spawned)
  }

  lemma StepRemembers(s: State, step: Step, i: nat)
    requires Remembers(s, i) && (Awaits(s, i, HandOff) ==> i !in s.spawned)
    requires i < |s.turns| && s.turns[i].reason == Ended && (Under(s, i) ==> GENERAL !in s.active)
    requires step.DoFinish? && step.bot in s.active && s.active[step.bot] < |s.turns| ==> s.turns[s.active[step.bot]].reason == Open
    ensures Remembers(Next(s, step), i)
  {
    StepSpawned(s, step);
    NextIs(s, step);
    if step.DoFinish? {
      FinishMoves(s, step.bot, step.out, i);
    }
    hide Next, Finish, GoOn, Restart, HandsOff;
    if step.DoGoOn? {
      GoOnGoes(s, step.bot);
      if step.bot == GENERAL && IsNext(s, i, HandOff) {
        HandOverIs(s);
      }
    }
  }

  lemma {:induction false} RunRemembers(mid: seq<Step>, after: seq<Step>, i: nat, out: Outcome)
    requires EndedWith(Run(mid), i, out) && Awaits(Run(mid), i, HandOff) && i !in Run(mid).spawned
    ensures Remembers(Run(mid + after), i)
  {
    assert Remembers(Run(mid), i);
    RunMore(mid, after);
    if after == [] {
      assert mid + after == mid;
    } else {
      var rest, step := after[..|after| - 1], after[|after| - 1];
      var s := Run(mid + rest);
      hide Run, Next, Remembers, EndedWith, Awaits, TakenAt, HandsOff;
      RunRemembers(mid, rest, i, out);
      assert Awaits(s, i, HandOff) ==> i !in s.spawned by {
        SpawnedIff(mid, rest, i);
        JustOne(mid, rest, i, out, HandOff);
        if n :| WorkerAt(mid, rest, n, i) {
          assert TakenAt(mid, rest, n, i, HandOff);
        }
      }
      assert i < |s.turns| && s.turns[i].reason == Ended by {
        RunEndedWith(mid, rest, i, out);
        assert EndedWith(s, i, out);
      }
      RunClosing(mid + rest);
      assert Under(s, i) ==> GENERAL !in s.active;
      if step.DoFinish? {
        FinishStays(s, step.bot, step.out);
      }
      hide Inv, ClosingOk;
      StepRemembers(s, step, i);
    }
  }

  /** Whether a worker was started is settled when the end comes to the follow-up. */
  lemma SettledAt(mid: seq<Step>, after: seq<Step>, n: nat, i: nat, out: Outcome)
    requires EndedWith(Run(mid), i, out) && Awaits(Run(mid), i, HandOff) && i !in Run(mid).spawned
    requires TakenAt(mid, after, n, i, FollowUp)
    ensures i in Run(mid + after[..n]).spawned <==> i in Run(mid + after).spawned
  {
    assert !Awaits(Run(mid + after[..n]), i, HandOff);
    assert forall s :: IsNext(s, i, HandOff) ==> Awaits(s, i, HandOff);
    hide Run, EndedWith, HandsOff, Awaits, IsNext;
    SpawnedIff(mid, after[..n], i);
    SpawnedIff(mid, after, i);
    forall m: nat | m < n ensures WorkerAt(mid, after[..n], m, i) == WorkerAt(mid, after, m, i) {
      PrefixSame(mid, after, n, m, i, HandOff);
      assert after[..n][..m] == after[..m];
    }
    forall m: nat | WorkerAt(mid, after, m, i) ensures m < n {
      if n <= m {
        NotAgain(mid, after, n, m, i, out);
      }
    }
    if m: nat :| WorkerAt(mid, after, m, i) {
      assert WorkerAt(mid, after[..n], m, i);
    }
    if m: nat :| WorkerAt(mid, after[..n], m, i) {
      assert WorkerAt(mid, after, m, i);
    }
  }

  /** What an end does not await any more it does not await later. */
  lemma NotAgain(mid: seq<Step>, after: seq<Step>, n: nat, m: nat, i: nat, out: Outcome)
    requires EndedWith(Run(mid), i, out) && Awaits(Run(mid), i, HandOff)
    requires n <= m <= |after| && Awaits(Run(mid + after[..m]), i, HandOff)
    ensures Awaits(Run(mid + after[..n]), i, HandOff)
  {
    hide Run, EndedWith, Awaits, IsNext;
    JustOne(mid, after[..n], i, out, HandOff);
    JustOne(mid, after[..m], i, out, HandOff);
    if k :| TakenAt(mid, after[..n], k, i, HandOff) {
      PrefixSame(mid, after, n, k, i, HandOff);
      PrefixSame(mid, after, m, k, i, HandOff);
    }
    if k :| LostAt(mid, after[..n], k, i, HandOff) {
      PrefixSame(mid, after, n, k, i, HandOff);
      PrefixSame(mid, after, m, k, i, HandOff);
    }
  }

  // ----- in every run -----

  lemma EndBegins(before: seq<Step>, out: Outcome)
    requires GENERAL in Run(before).active
    ensures var i, s := Run(before).active[GENERAL], Run(before + [DoFinish(GENERAL, out)]);
            && s == Finish(Run(before), GENERAL, out) && i < |Run(before).turns| && EndedWith(s, i, out) && i !in s.spawned
            && Awaits(s, i, HandOff) && Awaits(s, i, FollowUp)
  {
    var s, i := Run(before), Run(before).active[GENERAL];
    RunSnoc(before, DoFinish(GENERAL, out));
    NextIs(s, DoFinish(GENERAL, out));
    RunningRow(before, GENERAL);
    assert i !in s.spawned by {
      RunSpawn(before);
      assert SpawnsRecorded(s);
      hide Run, Inv, ClosingOk, EpisodesOk;
    }
    hide Run, Next;
  }

  /** However a turn of General ends in any run, and whatever happens next, for its hand-off as for its
      follow-up just one of three holds: the end still comes to it; the process died before; or the end
      came to it, at one point of the run. */
  lemma TakenOrLost(before: seq<Step>, out: Outcome, after: seq<Step>, act: Act)
    requires GENERAL in Run(before).active
    ensures var mid := before + [DoFinish(GENERAL, out)];
            var s, i := Run(mid + after), Run(before).active[GENERAL];
            && i < |s.turns| && s.turns[i].reason == Ended && s.turns[i].err == out.err
            && (Awaits(s, i, act) <==> !Taken(mid, after, i, act) && !Lost(mid, after, i, act))
            && !(Taken(mid, after, i, act) && Lost(mid, after, i, act))
            && forall n, m :: TakenAt(mid, after, n, i, act) && TakenAt(mid, after, m, i, act) ==> n == m
  {
    var mid, i := before + [DoFinish(GENERAL, out)], Run(before).active[GENERAL];
    EndBegins(before, out);
    RunEndedWith(mid, after, i, out);
    assert EndedWith(Run(mid + after), i, out);
    hide Run, EndedWith, Awaits, TakenAt, LostAt;
    JustOne(mid, after, i, out, act);
    forall n, m | TakenAt(mid, after, n, i, act) && TakenAt(mid, after, m, i, act) ensures n == m {
      TakenOnce(mid, after, n, m, i, out, act);
    }
  }
}
