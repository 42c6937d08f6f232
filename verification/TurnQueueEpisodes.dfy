/** One timeout of General starts at most one worker.
 *
 * The follow-up of a timed-out turn is carried by the next turn of General to end, and that turn starts
 * no worker when the timed-out one did. Both turns are named by their place in a run, so the statement is
 * about the two of them wherever they come.
 */
module TurnQueueEpisodes {
  import opened GoStrings
  import opened TurnQueue
  import opened TurnQueueSafety
  import opened TurnQueueHistory
  import opened TurnQueueTimeouts

  // ----- what a spawned worker leaves behind -----

  /** A turn at whose end a worker was started had begun, and General's message to that worker is in
      the inbox since. */
  ghost predicate SpawnRecorded(s: State, a: nat) {
    && a < |s.turns| && s.turns[a].bot == GENERAL && s.turns[a].reason == Ended && s.turns[a].started.Some?
    && HandedOff(s.inbox, s.turns[a].started.value)
  }

  ghost predicate SpawnsRecorded(s: State) {
    forall k :: 0 <= k < |s.spawned| ==> SpawnRecorded(s, s.spawned[k])
  }

  ghost predicate ClockOk(s: State) {
    forall i :: 0 <= i < |s.turns| && s.turns[i].started.Some? ==> s.turns[i].started.value <= s.clock
  }

  /** Entries `k` and `l` of the log are turns of General, one after the other. */
  ghost predicate Neighbours(ts: seq<Turn>, fin: seq<nat>, k: nat, l: nat) {
    && k < l < |fin| && fin[k] < |ts| && fin[l] < |ts| && ts[fin[k]].bot == GENERAL && ts[fin[l]].bot == GENERAL
    && forall m :: k < m < l && fin[m] < |ts| ==> ts[fin[m]].bot != GENERAL
  }

  /** A timed-out turn and the follow-up that ended next did not both get a worker. */
  ghost predicate EpisodesOk(s: State) {
    forall k: nat, l: nat :: Neighbours(s.turns, s.finished, k, l) && s.turns[s.finished[k]].err == TimedOut
                   && IsFollowUp(Text(s.turns[s.finished[l]].parts))
      ==> !(s.finished[k] in s.spawned && s.finished[l] in s.spawned)
  }

  ghost predicate SpawnInv(s: State) {
    Inv(s) && ClosingOk(s) && ClockOk(s) && SpawnsRecorded(s) && EpisodesOk(s)
  }

  lemma HandedOffStays(a: seq<Row>, b: seq<Row>, since: nat, early: nat)
    requires KeepsRows(a, b) && HandedOff(a, since) && early <= since
    ensures HandedOff(b, early)
  {
    var r :| 0 <= r < |a| && a[r].from == Some(GENERAL) && a[r].wake && a[r].created >= since;
    assert b[r].from == Some(GENERAL);
  }

  /** A step that starts no worker but at the end of turn `a`. */
  lemma RecordsStay(s: State, r: State, a: nat)
    requires SpawnsRecorded(s) && Stays(s, r)
    requires r.spawned == s.spawned || (r.spawned == s.spawned + [a] && SpawnRecorded(r, a))
    ensures SpawnsRecorded(r)
  {
    hide KeepsRows, HandedOff;
    forall k | 0 <= k < |r.spawned| ensures SpawnRecorded(r, r.spawned[k]) {
      if k < |s.spawned| {
        assert SpawnRecorded(s, s.spawned[k]);
        var since := s.turns[s.spawned[k]].started.value;
        HandedOffStays(s.inbox, r.inbox, since, since);
      }
    }
  }

  /** A step that starts no worker, and logs only turns that have none or are not General's. */
  lemma EpisodesStay(s: State, r: State)
    requires EpisodesOk(s) && LogRows(s.turns, s.finished) && EndedStay(s.turns, r.turns)
    requires s.finished <= r.finished && r.spawned == s.spawned
    requires forall m :: |s.finished| <= m < |r.finished| && r.finished[m] in s.spawned ==> NotGenerals(r.turns, r.finished[m])
    ensures EpisodesOk(r)
  {
    hide IsFollowUp, Text;
    assert forall m :: 0 <= m < |s.finished| ==> r.finished[m] == s.finished[m];
    forall k: nat, l: nat | Neighbours(r.turns, r.finished, k, l) && r.turns[r.finished[k]].err == TimedOut
                            && IsFollowUp(Text(r.turns[r.finished[l]].parts))
      ensures !(r.finished[k] in r.spawned && r.finished[l] in r.spawned)
    {
      if l < |s.finished| {
        assert Neighbours(s.turns, s.finished, k, l);
      }
    }
  }

  predicate NotGenerals(ts: seq<Turn>, i: nat) {
    i < |ts| ==> ts[i].bot != GENERAL
  }

  // ----- the window of a follow-up reaches back to the timed-out turn -----

  lemma {:induction false} LastTimeoutIsNewest(ts: seq<Turn>, n: nat, a: nat)
    requires a < n <= |ts| && ts[a].bot == GENERAL && ts[a].err == TimedOut
    ensures a <= LastTimeout(ts, n) < n
  {
    if a < n - 1 {
      LastTimeoutIsNewest(ts, n - 1, a);
    }
  }

  lemma TimeoutLogged(s: State, c: nat) returns (m: nat)
    requires Inv(s) && c < |s.turns| && s.turns[c].err == TimedOut
    ensures m < |s.finished| && s.finished[m] == c
  {
    assert StatusOk(s.turns[c]) && c in s.finished;
    hide Inv;
    m :| 0 <= m < |s.finished| && s.finished[m] == c;
  }

  /** The turn that timed out last before an ended turn is the one before it in the log. */
  lemma TimeoutBefore(s: State, k: nat, l: nat)
    requires Inv(s) && Neighbours(s.turns, s.finished, k, l) && s.turns[s.finished[k]].err == TimedOut
    ensures s.finished[k] < s.finished[l] && LastTimeout(s.turns, s.finished[l]) == s.finished[k]
  {
    var a, b := s.finished[k], s.finished[l];
    LogPair(s, k, l);
    LastTimeoutIsNewest(s.turns, b, a);
    hide Inv, LastTimeout;
    var m := TimeoutLogged(s, LastTimeout(s.turns, b));
    LogPair(s, l, if m < l then l else m);
    LogPair(s, if m < k then m else k, k);
  }

  /** When the timed-out turn got a worker, its follow-up sees that one was started. */
  lemma NoSecondWorker(s: State, k: nat, l: nat, out: Outcome)
    requires Inv(s) && SpawnsRecorded(s) && Neighbours(s.turns, s.finished, k, l)
    requires s.turns[s.finished[k]].err == TimedOut && IsFollowUp(Text(s.turns[s.finished[l]].parts))
    requires s.finished[k] in s.spawned
    ensures !Spawns(s, s.finished[l], out)
  {
    var a, b := s.finished[k], s.finished[l];
    TimeoutBefore(s, k, l);
    var j :| 0 <= j < |s.spawned| && s.spawned[j] == a;
    assert SpawnRecorded(s, a);
    hide Inv, IsFollowUp, Text, HandedOff, LastOwnerRequest, LastTimeout;
    HandedOffStays(s.inbox, s.inbox, s.turns[a].started.value, HandoffSince(s.turns, b));
  }

  /** Starting a worker at the end of the turn that ended last keeps the episodes apart. */
  lemma EpisodesSpawn(s: State, r: State, c: Closing)
    requires Inv(s) && SpawnsRecorded(s) && EpisodesOk(s) && ClosingRow(s.turns, s.finished, GENERAL, c)
    requires Spawns(s, c.turn, c.out) && r.turns == s.turns && r.finished == s.finished && r.spawned == s.spawned + [c.turn]
    ensures EpisodesOk(r)
  {
    hide Inv, SpawnsRecorded, IsFollowUp, Text, Spawns, LastEnded;
    forall k: nat, l: nat | Neighbours(r.turns, r.finished, k, l) && r.turns[r.finished[k]].err == TimedOut
                  && IsFollowUp(Text(r.turns[r.finished[l]].parts))
      ensures !(r.finished[k] in r.spawned && r.finished[l] in r.spawned)
    {
      assert Neighbours(s.turns, s.finished, k, l);
      OnlyAtTheEnd(s, c.turn, k, l);
      if r.finished[l] == c.turn && r.finished[k] in s.spawned {
        NoSecondWorker(s, k, l, c.out);
      }
    }
  }

  /** The turn that ended last is not followed by another, and is in the log once. */
  lemma OnlyAtTheEnd(s: State, b: nat, k: nat, l: nat)
    requires Inv(s) && LastEnded(s.turns, s.finished, GENERAL, b) && Neighbours(s.turns, s.finished, k, l)
    ensures s.finished[k] != b
  {
    hide Inv;
    var m :| 0 <= m < |s.finished| && s.finished[m] == b && NoneAfter(s.turns, s.finished, GENERAL, m);
    if s.finished[k] == b {
      LogPair(s, l, l);
      if k < m {
        LogPair(s, k, m);
      }
    }
  }

  // ----- every step -----

  lemma {:induction false} RecoverClock(s: State, n: nat)
    requires n <= |s.turns| && ClockOk(s)
    ensures ClockOk(RecoverUpTo(s, n)) && RecoverUpTo(s, n).clock == s.clock
  {
    if n > 0 {
      RecoverClock(s, n - 1);
    }
  }

  lemma StepClock(s: State, step: Step)
    requires ClockOk(s)
    ensures ClockOk(Next(s, step))
  {
    hide FoldParts, Repointed, FirstQueued, GoOn, RecoverUpTo, TrimSpace, Label, Injecting, AddsRow, SameEnds,
         HandsOff, FollowUpText;
    match step
    case DoGoOn(bot) => GoOnGoes(s, bot);
    case DoRestart => RecoverClock(s, |s.turns|);
    case _ =>
  }

  /** Recovery logs the interrupted turns of archived bots, none of them General's. */
  lemma {:induction false} RecoverLog(s: State, n: nat)
    requires n <= |s.turns|
    ensures var r := RecoverUpTo(s, n);
            && s.finished <= r.finished && r.archived == s.archived && r.spawned == s.spawned
            && (forall i :: 0 <= i < |s.turns| ==> r.turns[i].bot == s.turns[i].bot)
            && forall m :: |s.finished| <= m < |r.finished| ==> r.finished[m] < |s.turns| && s.turns[r.finished[m]].bot in s.archived
  {
    if n > 0 {
      RecoverLog(s, n - 1);
    }
  }

  lemma RestartLog(s: State)
    requires GENERAL !in s.archived
    ensures s.finished <= Restart(s).finished && Restart(s).spawned == s.spawned
    ensures forall m :: |s.finished| <= m < |Restart(s).finished| ==> NotGenerals(Restart(s).turns, Restart(s).finished[m])
  {
    RecoverLog(s, |s.turns|);
    hide RecoverUpTo;
  }

  lemma FinishSpawn(s: State, bot: nat, out: Outcome)
    requires SpawnsRecorded(s) && EpisodesOk(s) && LogRows(s.turns, s.finished) && Stays(s, Finish(s, bot, out))
    requires bot in s.active && s.active[bot] < |s.turns| ==> s.turns[s.active[bot]].reason == Open
    ensures SpawnsRecorded(Finish(s, bot, out)) && EpisodesOk(Finish(s, bot, out))
  {
    hide EpisodesOk, LogRows, HandedOff, EndedStay, KeepsRows;
    var r := Finish(s, bot, out);
    if r != s {
      assert forall k :: 0 <= k < |s.spawned| ==> SpawnRecorded(s, s.spawned[k]);
      assert s.active[bot] !in s.spawned;
      hide SpawnsRecorded;
      RecordsStay(s, r, 0);
      EpisodesStay(s, r);
    }
  }

  lemma GoOnSpawn(s: State, bot: nat)
    requires Inv(s) && ClockOk(s) && SpawnsRecorded(s) && EpisodesOk(s) && Stays(s, GoOn(s, bot))
    requires bot in s.closing ==> ClosingRow(s.turns, s.finished, bot, s.closing[bot])
    ensures SpawnsRecorded(GoOn(s, bot)) && EpisodesOk(GoOn(s, bot))
  {
    assert LogRows(s.turns, s.finished);
    var r := GoOn(s, bot);
    if bot in s.closing {
      assert StatusOk(s.turns[s.closing[bot].turn]);
    }
    hide Inv, SpawnsRecorded, EpisodesOk, EndedStay, KeepsRows, LastEnded, LogRows, GoOn, AddsRow, SameEnds,
         NextPhase, Injecting, IsFollowUp, Text, HandedOff;
    GoOnGoes(s, bot);
    if HandsOff(s, bot) {
      var c := s.closing[bot];
      hide Spawns;
      EpisodesSpawn(s, r, c);
      HandedOffStays(r.inbox, r.inbox, s.clock, s.turns[c.turn].started.value);
      RecordsStay(s, r, c.turn);
    } else {
      RecordsStay(s, r, 0);
      EpisodesStay(s, r);
    }
  }

  lemma StepSpawn(s: State, step: Step)
    requires SpawnInv(s)
    ensures SpawnInv(Next(s, step))
  {
    assert Inv(s) && ClosingOk(s) && ClockOk(s) && SpawnsRecorded(s) && EpisodesOk(s);
    assert LogRows(s.turns, s.finished) && GENERAL !in s.archived;
    if step.DoGoOn? && step.bot in s.closing {
      assert ClosingRow(s.turns, s.finished, step.bot, s.closing[step.bot]);
    }
    var r := Next(s, step);
    assert Inv(r) && ClosingOk(r) && ClockOk(r) && SpawnsRecorded(r) && EpisodesOk(r) by {
      hide *;
      StepKeeps(s, step);
      StepClosing(s, step);
      StepClock(s, step);
      StepStays(s, step);
      NextIs(s, step);
      match step
      case DoFinish(bot, out) =>
        FinishStays(s, bot, out);
        FinishSpawn(s, bot, out);
      case DoGoOn(bot) => GoOnSpawn(s, bot);
      case _ =>
        if step.DoRestart? {
          RestartLog(s);
        }
        RecordsStay(s, r, 0);
        assert EndedStay(s.turns, r.turns);
        EpisodesStay(s, r);
    }
  }

  lemma {:induction false} RunSpawn(steps: seq<Step>)
    ensures SpawnInv(Run(steps))
  {
    assert ClosingOk(Empty);
    hide Inv, ClosingOk, Next;
    if steps == [] {
      EmptyInv();
    } else {
      RunSpawn(steps[..|steps| - 1]);
      StepSpawn(Run(steps[..|steps| - 1]), steps[|steps| - 1]);
    }
  }

  /** In every run, of a timed-out turn and a follow-up that is the next turn of General to end, at
      most one got a worker. */
  lemma OneWorkerPerEpisode(steps: seq<Step>, k: nat, l: nat)
    requires var s := Run(steps);
             && Neighbours(s.turns, s.finished, k, l) && s.turns[s.finished[k]].err == TimedOut
             && IsFollowUp(Text(s.turns[s.finished[l]].parts))
    ensures var s := Run(steps); !(s.finished[k] in s.spawned && s.finished[l] in s.spawned)
  {
    assert EpisodesOk(Run(steps)) by {
      RunSpawn(steps);
    }
    hide Run, IsFollowUp, Text;
  }

  // ----- the follow-up is carried by the next turn that ends -----

  /** Turn `c` of General ended next after turn `a`. */
  ghost predicate EndedNext(ts: seq<Turn>, fin: seq<nat>, a: nat, c: nat) {
    exists k: nat, l: nat :: Neighbours(ts, fin, k, l) && fin[k] == a && fin[l] == c
  }

  /** Where the follow-up in row `f` is, queued at the end of turn `a`: in the queue while General
      runs nothing, with the running turn, in the turn that ended next, or dropped by /stop. */
  ghost predicate FollowUpAt(ts: seq<Turn>, fin: seq<nat>, active: map<nat, nat>, f: nat, a: nat, c: nat) {
    && f < |ts| && c == Carrier(ts, f) && c < |ts| && ts[c].bot == GENERAL && !Merged(ts[c])
    && (ts[c].reason == Open ==> LastEnded(ts, fin, GENERAL, a) && (ts[c].status == Running || GENERAL !in active))
    && (ts[c].reason != Open ==> ts[c].reason == DroppedByStop || (ts[c].reason == Ended && EndedNext(ts, fin, a, c)))
  }

  ghost predicate FollowUpPlaced(s: State, f: nat, a: nat) {
    && f < |s.turns| && s.turns[f].bot == GENERAL && a < |s.turns| && s.turns[a].bot == GENERAL
    && FollowUpAt(s.turns, s.finished, s.active, f, a, Carrier(s.turns, f))
  }

  lemma InjectPlaces(s: State)
    requires ClosingOk(s) && Injecting(s) && LogRows(s.turns, s.finished)
    ensures FollowUpPlaced(GoOn(s, GENERAL), |s.turns|, s.closing[GENERAL].turn)
    ensures GoOn(s, GENERAL).turns == s.turns + [FollowUpTurn(s)] && IsFollowUp(FollowUpTurn(s).parts[0].text)
  {
    FollowUpIsFollowUp(s.closing[GENERAL].phase.worker, s.closing[GENERAL].out.quoted);
    var r, c := GoOn(s, GENERAL), s.closing[GENERAL];
    assert GENERAL !in s.active && ClosingRow(s.turns, s.finished, GENERAL, c);
    hide ClosingOk, LogRows, Injecting, FollowUpText, IsFollowUp, LastEnded, GoOn, AddsRow, HandsOff, HandedOff,
         NextPhase, SameEnds;
    GoOnGoes(s, GENERAL);
    assert LastEnded(r.turns, r.finished, GENERAL, c.turn) by {
      LastStays(s.turns, r.turns, s.finished, r.finished, GENERAL, c.turn);
    }
  }

  lemma NextStays(ts: seq<Turn>, ts': seq<Turn>, fin: seq<nat>, fin': seq<nat>, a: nat, c: nat)
    requires EndedStay(ts, ts') && fin <= fin' && LogRows(ts, fin) && EndedNext(ts, fin, a, c)
    ensures EndedNext(ts', fin', a, c)
  {
    var k: nat, l: nat :| Neighbours(ts, fin, k, l) && fin[k] == a && fin[l] == c;
    assert forall m :: 0 <= m < |fin| ==> fin'[m] == fin[m];
    assert Neighbours(ts', fin', k, l);
  }

  lemma LastThenNext(ts: seq<Turn>, ts': seq<Turn>, fin: seq<nat>, a: nat, i: nat)
    requires EndedStay(ts, ts') && LogRows(ts, fin) && LastEnded(ts, fin, GENERAL, a)
    requires a < |ts| && ts[a].bot == GENERAL && i < |ts'| && ts'[i].bot == GENERAL
    ensures EndedNext(ts', fin + [i], a, i)
  {
    var k :| 0 <= k < |fin| && fin[k] == a && NoneAfter(ts, fin, GENERAL, k);
    var fin' := fin + [i];
    assert fin'[k] == a && fin'[|fin|] == i && forall m :: k < m < |fin| ==> fin'[m] == fin[m];
    assert Neighbours(ts', fin', k, |fin|);
  }

  /** The turn that carries the follow-up: if it was open, one of General's that is open, with General
      running it or nothing, or that /stop dropped; else the same as it was. */
  ghost predicate Moves(s: State, r: State, f: nat)
    requires f < |s.turns| && f < |r.turns|
  {
    var c, c' := Carrier(s.turns, f), Carrier(r.turns, f);
    && c < |s.turns| && c' < |r.turns| && !Merged(r.turns[c'])
    && if s.turns[c].reason == Open
       then && r.turns[c'].bot == GENERAL
            && (r.turns[c'].reason == DroppedByStop
                || (r.turns[c'].reason == Open && (r.turns[c'].status == Running || GENERAL !in r.active)))
       else c' == c && r.turns[c].reason == s.turns[c].reason
  }

  lemma PlaceMoves(s: State, r: State, f: nat, a: nat)
    requires FollowUpPlaced(s, f, a) && LogRows(s.turns, s.finished) && EndedStay(s.turns, r.turns) && s.finished <= r.finished
    requires forall m :: |s.finished| <= m < |r.finished| ==> NotGenerals(r.turns, r.finished[m])
    requires Moves(s, r, f)
    ensures FollowUpPlaced(r, f, a)
  {
    hide LogRows, LastEnded, EndedNext;
    var c := Carrier(s.turns, f);
    if s.turns[c].reason == Open {
      LastStays(s.turns, r.turns, s.finished, r.finished, GENERAL, a);
    } else if s.turns[c].reason == Ended {
      NextStays(s.turns, r.turns, s.finished, r.finished, a, c);
    }
  }

  lemma StartMoves(s: State, bot: nat, f: nat, a: nat)
    requires FollowUpPlaced(s, f, a) && StatusesOk(s.turns) && Start(s, bot) != s
    requires Merged(s.turns[f]) && IsQueued(s.turns[Carrier(s.turns, f)], bot) ==> Carrier(s.turns, f) == FirstQueued(s.turns, bot)
    ensures Moves(s, Start(s, bot), f)
  {
    var ts, h := s.turns, FirstQueued(s.turns, bot);
    var c := Carrier(ts, f);
    assert StatusOk(ts[f]) && StatusOk(ts[c]) && StatusOk(ts[h]);
    FoldedAt(ts, bot, s.clock, f);
    FoldedAt(ts, bot, s.clock, c);
    FoldedAt(ts, bot, s.clock, h);
    hide StatusesOk, Folded, FirstQueued, Repointed, LastEnded, EndedNext;
  }

  lemma FinishPlaces(s: State, bot: nat, out: Outcome, f: nat, a: nat)
    requires FollowUpPlaced(s, f, a) && LogRows(s.turns, s.finished) && Stays(s, Finish(s, bot, out))
    requires StatusesOk(s.turns) && ActiveOk(s.turns, s.active)
    ensures FollowUpPlaced(Finish(s, bot, out), f, a)
  {
    var r, c := Finish(s, bot, out), Carrier(s.turns, f);
    assert StatusOk(s.turns[c]) && StatusOk(s.turns[f]);
    if r != s {
      var i := s.active[bot];
      assert StatusOk(s.turns[i]);
      hide StatusesOk, LogRows, LastEnded, EndedNext, KeepsRows;
      if bot != GENERAL {
        PlaceMoves(s, r, f, a);
      } else if s.turns[c].reason == Open {
        assert c == i && Carrier(r.turns, f) == c;
        LastThenNext(s.turns, r.turns, s.finished, a, i);
      } else if s.turns[c].reason == Ended {
        NextStays(s.turns, r.turns, s.finished, r.finished, a, c);
      }
    }
  }

  lemma StopMoves(s: State, bot: nat, f: nat, a: nat)
    requires FollowUpPlaced(s, f, a) && StatusesOk(s.turns)
    ensures Moves(s, Stop(s, bot), f) && Moves(s, Archive(s, bot), f)
  {
    var c := Carrier(s.turns, f);
    assert StatusOk(s.turns[c]) && StatusOk(s.turns[f]);
    hide StatusesOk, LastEnded, EndedNext;
  }

  lemma {:induction false} RecoverGeneral(s: State, n: nat)
    requires n <= |s.turns| && GENERAL !in s.archived
    ensures var r := RecoverUpTo(s, n);
            && r.archived == s.archived
            && forall i :: 0 <= i < |s.turns| ==>
                 && r.turns[i].bot == s.turns[i].bot && (s.turns[i].status != Running ==> r.turns[i] == s.turns[i])
                 && (s.turns[i].bot == GENERAL ==> r.turns[i].reason == s.turns[i].reason)
  {
    if n > 0 {
      RecoverGeneral(s, n - 1);
    }
  }

  lemma RestartMoves(s: State, f: nat, a: nat)
    requires FollowUpPlaced(s, f, a) && GENERAL !in s.archived && StatusesOk(s.turns)
    ensures Moves(s, Restart(s), f)
  {
    assert StatusOk(s.turns[f]);
    RecoverGeneral(s, |s.turns|);
    hide RecoverUpTo, StatusesOk, LastEnded, EndedNext;
  }

  /** A step that changes no turn of General but by adding rows. */
  lemma OtherMoves(s: State, step: Step, f: nat, a: nat)
    requires FollowUpPlaced(s, f, a)
    requires !step.DoStart? && !step.DoFinish? && !step.DoRestart? && !step.DoStop? && !step.DoArchive?
    ensures f < |Next(s, step).turns| && Moves(s, Next(s, step), f) && Next(s, step).finished == s.finished
  {
    hide GoOn, TrimSpace, Label, Injecting, AddsRow, SameEnds, HandsOff, HandedOff, FollowUpText, LastEnded, EndedNext;
    if step.DoGoOn? {
      GoOnGoes(s, step.bot);
    }
  }

  /** A step keeps the follow-up in its place. */
  lemma StepPlaces(s: State, step: Step, f: nat, a: nat)
    requires Inv(s) && FollowUpPlaced(s, f, a)
    ensures FollowUpPlaced(Next(s, step), f, a)
  {
    assert StatusesOk(s.turns) && ActiveOk(s.turns, s.active) && LogRows(s.turns, s.finished) && GENERAL !in s.archived && f < |s.turns|;
    if step.DoStart? && Merged(s.turns[f]) && IsQueued(s.turns[Carrier(s.turns, f)], step.bot) {
      NotAbsorbed(s.turns, step.bot, f);
    }
    var r := Next(s, step);
    hide Inv, StatusesOk, ActiveOk, LogRows, FollowUpPlaced, Moves, Next, Start, Finish, GoOn, Stop, Archive,
         Restart, KeepsRows, NotGenerals;
    NextIs(s, step);
    StepStays(s, step);
    match step
    case DoFinish(bot, out) => FinishPlaces(s, bot, out, f, a);
    case DoStart(bot) =>
      if r != s {
        StartMoves(s, bot, f, a);
        PlaceMoves(s, r, f, a);
      }
    case DoStop(bot) =>
      StopMoves(s, bot, f, a);
      PlaceMoves(s, r, f, a);
    case DoArchive(bot) =>
      StopMoves(s, bot, f, a);
      PlaceMoves(s, r, f, a);
    case DoRestart =>
      RestartLog(s);
      RestartMoves(s, f, a);
      PlaceMoves(s, r, f, a);
    case _ =>
      OtherMoves(s, step, f, a);
      PlaceMoves(s, r, f, a);
  }

  lemma {:induction false} RunPlaces(before: seq<Step>, after: seq<Step>, f: nat, a: nat)
    requires FollowUpPlaced(Run(before), f, a)
    ensures FollowUpPlaced(Run(before + after), f, a)
  {
    hide *;
    RunMore(before, after);
    if after != [] {
      var n := |after| - 1;
      RunPlaces(before, after[..n], f, a);
      RunKeeps(before + after[..n]);
      StepPlaces(Run(before + after[..n]), after[n], f, a);
    }
  }

  /** A text that is in one of the joined inputs is in the joined text. */
  lemma {:induction false} JoinHolds(texts: seq<string>, sep: string, k: nat, p: string)
    requires k < |texts| && Contains(texts[k], p)
    ensures Contains(Join(texts, sep), p)
  {
    hide Contains;
    var i := ContainedOccurs(texts[k], p);
    if |texts| == 1 {
    } else if k == 0 {
      var rest := sep + Join(texts[1..], sep);
      assert Join(texts, sep) == texts[0] + rest;
      assert (texts[0] + rest)[i..i + |p|] == texts[0][i..i + |p|];
      OccurrenceContains(texts[0] + rest, p, i);
    } else {
      JoinHolds(texts[1..], sep, k - 1, p);
      var front, rest := texts[0] + sep, Join(texts[1..], sep);
      var j := ContainedOccurs(rest, p);
      assert Join(texts, sep) == front + rest;
      assert (front + rest)[|front| + j..|front| + j + |p|] == rest[j..j + |p|];
      OccurrenceContains(front + rest, p, |front| + j);
    }
  }

  lemma FollowUpCarried(s: State, f: nat, part: Part)
    requires Inv(s) && f < |s.turns| && s.turns[f].parts != [] && s.turns[f].parts[0] == part && IsFollowUp(part.text)
    ensures Carrier(s.turns, f) < |s.turns| && IsFollowUp(Text(s.turns[Carrier(s.turns, f)].parts))
  {
    hide Inv, Contains, Join, Carrier;
    CarrierHolds(s, f);
    var parts := s.turns[Carrier(s.turns, f)].parts;
    var k :| 0 <= k < |parts| && parts[k] == part;
    JoinHolds(Texts(parts), "\n\n", k, TOO_LONG);
  }

  lemma EpisodeEnds(s: State, f: nat, a: nat)
    requires SpawnInv(s) && FollowUpPlaced(s, f, a) && s.turns[a].err == TimedOut
    requires var c := Carrier(s.turns, f); c < |s.turns| && IsFollowUp(Text(s.turns[c].parts))
    ensures f < |s.turns|
    ensures var c := Carrier(s.turns, f);
            && c < |s.turns| && s.turns[c].bot == GENERAL
            && (s.turns[c].reason == Open ==> LastEnded(s.turns, s.finished, GENERAL, a))
            && (s.turns[c].reason != Open && s.turns[c].reason != DroppedByStop ==>
                  s.turns[c].reason == Ended && EndedNext(s.turns, s.finished, a, c) && !(a in s.spawned && c in s.spawned))
  {
    assert EpisodesOk(s);
    hide Inv, ClosingOk, IsFollowUp, Text, LastEnded;
  }

  /** Whatever happens after a follow-up was queued, it is placed, and its carrier is recognised. */
  lemma EpisodePlaced(before: seq<Step>, after: seq<Step>)
    requires Injecting(Run(before))
    ensures var b, s := Run(before), Run(before + [DoGoOn(GENERAL)] + after);
            var f, a := |b.turns|, b.closing[GENERAL].turn;
            && FollowUpPlaced(s, f, a) && Carrier(s.turns, f) < |s.turns| && IsFollowUp(Text(s.turns[Carrier(s.turns, f)].parts))
            && a < |b.turns| && a < |s.turns| && s.turns[a] == b.turns[a] && s.turns[a].err == TimedOut
  {
    var b, mid := Run(before), before + [DoGoOn(GENERAL)];
    var r, s, f, a := Run(mid), Run(mid + after), |b.turns|, b.closing[GENERAL].turn;
    RunSnoc(before, DoGoOn(GENERAL));
    hide Run, Next, GoOn, Injects, FollowUpText, IsFollowUp, Text, FollowUpPlaced, LastEnded, EndedNext;
    NextIs(b, DoGoOn(GENERAL));
    assert LogRows(b.turns, b.finished) && ClosingOk(b) && b.turns[a].reason == Ended && b.turns[a].err == TimedOut && a < f by {
      RunClosing(before);
      assert ClosingRow(b.turns, b.finished, GENERAL, b.closing[GENERAL]);
    }
    hide Injecting, Inv, LogRows, ClosingOk;
    InjectPlaces(b);
    RunPlaces(mid, after, f, a);
    assert f < |s.turns| && s.turns[f].parts != [] && s.turns[f].parts[0] == r.turns[f].parts[0] && s.turns[a] == r.turns[a] by {
      RunOnKeepsInputs(mid, after);
      RunOnStays(mid, after);
    }
    hide KeepsInputs, Stays;
    RunKeeps(mid + after);
    FollowUpCarried(s, f, r.turns[f].parts[0]);
  }

  /** The whole episode, whatever happens before and after the follow-up of a timed-out turn is queued,
      restarts included. Until the follow-up has run or /stop has dropped it, no other turn of General
      ends; the turn it ends with is recognised as a follow-up; and of the two turns at most one got a
      worker. */
  lemma EpisodeRuns(before: seq<Step>, after: seq<Step>)
    requires Injecting(Run(before))
    ensures var s, f, a := Run(before + [DoGoOn(GENERAL)] + after), |Run(before).turns|, Run(before).closing[GENERAL].turn;
            && f < |s.turns|
            && var c := Carrier(s.turns, f);
            && c < |s.turns| && s.turns[c].bot == GENERAL
            && (s.turns[c].reason == Open ==> LastEnded(s.turns, s.finished, GENERAL, a))
            && (s.turns[c].reason != Open && s.turns[c].reason != DroppedByStop ==>
                  && s.turns[c].reason == Ended && EndedNext(s.turns, s.finished, a, c)
                  && IsFollowUp(Text(s.turns[c].parts)) && !(a in s.spawned && c in s.spawned))
  {
    hide Run, Injects, IsFollowUp, Text, FollowUpPlaced, SpawnInv, LastEnded, EndedNext;
    EpisodePlaced(before, after);
    RunSpawn(before + [DoGoOn(GENERAL)] + after);
    EpisodeEnds(Run(before + [DoGoOn(GENERAL)] + after), |Run(before).turns|, Run(before).closing[GENERAL].turn);
  }
}
