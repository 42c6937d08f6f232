/** What becomes of an owner's request when General's turn times out: whether a worker is started, what
 * it is told, and whether a follow-up is queued. */
module TurnQueueRequests {
  import opened GoStrings
  import opened TurnQueue
  import opened TurnQueueSafety
  import opened TurnQueueHistory
  import opened TurnQueueTimeouts
  import opened TurnQueueEpisodes
  import opened TurnQueueEnds

  /** A turn of General ends, and nothing comes in between. */
  function EndOf(out: Outcome): seq<Step> {
    [DoFinish(GENERAL, out), DoGoOn(GENERAL), DoGoOn(GENERAL), DoGoOn(GENERAL), DoGoOn(GENERAL)]
  }

  lemma RunEnd(steps: seq<Step>, out: Outcome)
    ensures Run(steps + EndOf(out)) == Ending(Run(steps), GENERAL, out)
  {
    hide Next, Finish, GoOn;
    var a := steps + [DoFinish(GENERAL, out)];
    var b := a + [DoGoOn(GENERAL)];
    var c := b + [DoGoOn(GENERAL)];
    var d := c + [DoGoOn(GENERAL)];
    RunSnoc(steps, DoFinish(GENERAL, out));
    RunSnoc(a, DoGoOn(GENERAL));
    RunSnoc(b, DoGoOn(GENERAL));
    RunSnoc(c, DoGoOn(GENERAL));
    RunSnoc(d, DoGoOn(GENERAL));
    assert steps + EndOf(out) == d + [DoGoOn(GENERAL)];
    forall s: State ensures Next(s, DoGoOn(GENERAL)) == GoOn(s, GENERAL) && Next(s, DoFinish(GENERAL, out)) == Finish(s, GENERAL, out) {
      NextIs(s, DoGoOn(GENERAL));
      NextIs(s, DoFinish(GENERAL, out));
    }
  }

  // ----- a timeout, branch by branch -----

  /** The owner's work: asked for by the owner, or the follow-up of a timeout. */
  predicate OwnerWork(t: Turn) {
    t.source == User || IsFollowUp(Text(t.parts))
  }

  /** General sent a waking message in the window of turn `i`: since its row was created or, for a
      follow-up, since the turn that timed out last began, if that is earlier. */
  predicate Sent(s: State, i: nat)
    requires i < |s.turns|
  {
    HandedOff(s.inbox, HandoffSince(s.turns, i))
  }

  /** Whether the timeout of turn `i` starts a worker. */
  predicate GetsWorker(s: State, i: nat, spawnFails: bool)
    requires i < |s.turns|
  {
    !Sent(s, i) && OwnerWork(s.turns[i]) && LastOwnerRequest(s.turns, i) != "" && !spawnFails
  }

  /** Whether it queues a follow-up. */
  predicate GetsFollowUp(s: State, i: nat)
    requires i < |s.turns|
  {
    !Sent(s, i) && s.turns[i].source == User && !IsFollowUp(Text(s.turns[i].parts))
  }

  lemma {:induction false} NewestLocal(ts: seq<Turn>, ts': seq<Turn>, n: nat, limit: nat)
    requires n <= |ts| == |ts'|
    requires forall k :: 0 <= k < |ts| ==> ts'[k].bot == ts[k].bot && ts'[k].source == ts[k].source && ts'[k].parts == ts[k].parts
    ensures NewestRequest(ts', n, limit) == NewestRequest(ts, n, limit)
  {
    hide Text, IsRequest;
    if n > 0 && limit > 0 {
      NewestLocal(ts, ts', n - 1, limit);
      NewestLocal(ts, ts', n - 1, limit - 1);
    }
  }

  lemma {:induction false} TimeoutLocal(ts: seq<Turn>, ts': seq<Turn>, n: nat)
    requires n <= |ts| == |ts'| && forall k :: 0 <= k < n ==> ts'[k] == ts[k]
    ensures LastTimeout(ts', n) == LastTimeout(ts, n)
  {
    if n > 0 {
      TimeoutLocal(ts, ts', n - 1);
    }
  }

  /** Closing the row changes neither the window nor the request. */
  lemma ClosedSame(ts: seq<Turn>, i: nat, t: Turn)
    requires i < |ts| && t.bot == ts[i].bot && t.source == ts[i].source && t.parts == ts[i].parts && t.held == ts[i].held
    requires t.created == ts[i].created
    ensures HandoffSince(ts[i := t], i) == HandoffSince(ts, i)
    ensures LastOwnerRequest(ts[i := t], i) == LastOwnerRequest(ts, i) && OwnerWork(t) == OwnerWork(ts[i])
  {
    hide Text, IsFollowUp, TrimSpace;
    var ts' := ts[i := t];
    NewestLocal(ts, ts', |ts|, REQUESTS_READ);
    TimeoutLocal(ts, ts', i);
    var k := NewestRequest(ts, |ts|, REQUESTS_READ);
    assert k < |ts| ==> ts'[k].parts == ts[k].parts;
    var m := LastTimeout(ts, i);
    assert m < |ts| ==> ts'[m] == ts[m];
  }

  /** The end of a timed-out turn of General, phase by phase. */
  lemma TimedOutGoes(s: State, c: Closing)
    requires GENERAL in s.closing && s.closing[GENERAL] == c && c.turn < |s.turns| && c.out.err == TimedOut
    ensures var r := GoOn(s, GENERAL);
            match c.phase
            case Closed => r == s.(closing := s.closing[GENERAL := c.(phase := Answered)])
            case Answered =>
              var h := Handoff(s, c.turn, c.out);
              r == h.(closing := h.closing[GENERAL := c.(phase := Handed(Spawns(s, c.turn, c.out)))])
            case Handed(w) =>
              && r.turns == s.turns + (if Injects(s, c.turn, w) then [NewTurn(s, GENERAL, System, FollowUpText(w, c.out.quoted))] else [])
              && r.inbox == s.inbox && r.spawned == s.spawned && r.closing == s.closing[GENERAL := c.(phase := FollowedUp)]
            case FollowedUp => r.turns == s.turns && r.inbox == s.inbox && r.spawned == s.spawned
  {
    hide Handoff, Spawns, Injects, FollowUpText, NewTurn, FallbackTexts, TrimSpace;
  }

  /** The message a new worker finds. */
  function FirstPrompt(s: State, request: string): Row {
    Row(s.bots, Some(GENERAL), WORKER_PROMPT + "\n\n" + request, true, false, s.clock, false, None)
  }

  lemma PromptText(owner: string)
    requires owner != "" && Trimmed(owner)
    ensures TrimSpace(WorkerPrompt(owner)) == WORKER_PROMPT + "\n\n" + owner
  {
    assert Trimmed(WORKER_PROMPT) by {
      var n := |WORKER_PROMPT|;
      assert WORKER_PROMPT[0] == 'G' && WORKER_PROMPT[n - 1] == '.';
      TrailingSpaceEnd(WORKER_PROMPT);
    }
    hide LeadingSpace, TrailingSpace;
    TrimSpaceTrims(owner);
    hide TrimSpace;
    var rest := "\n\n" + owner;
    assert WORKER_PROMPT + "\n\n" + owner == WORKER_PROMPT + rest;
    LeadingSpaceAppend(WORKER_PROMPT, rest);
    TrailingSpacePrepend(WORKER_PROMPT + "\n\n", owner);
    TrimSpaceTrims(WORKER_PROMPT + "\n\n" + owner);
  }

  lemma SpawnIs(s: State, i: nat, out: Outcome)
    requires i < |s.turns|
    ensures var h := Handoff(s, i, out);
            && h.turns == s.turns && h.clock == s.clock && h.closing == s.closing
            && (if Spawns(s, i, out)
                then && h.spawned == s.spawned + [i] && h.bots == s.bots + 1
                     && h.inbox == s.inbox + [FirstPrompt(s, LastOwnerRequest(s.turns, i))]
                else h == s)
  {
    assert Trimmed(LastOwnerRequest(s.turns, i)) by {
      TrimSpaceTrims(Text(RequestParts(s.turns, i)));
      hide TrimSpace, RequestParts, Trimmed;
    }
    if Spawns(s, i, out) {
      PromptText(LastOwnerRequest(s.turns, i));
    }
    hide Spawns, LastOwnerRequest, WorkerPrompt, TrimSpace;
  }

  /** The end of a turn of General that times out, in any state: exactly when a worker is started, what
      it is told, exactly when a follow-up is queued, and exactly when neither happens. */
  lemma TimeoutEnds(s: State, out: Outcome)
    requires GENERAL in s.active && s.active[GENERAL] < |s.turns| && out.err == TimedOut
    ensures var i, f := s.active[GENERAL], Ending(s, GENERAL, out);
            var worker, followUp := GetsWorker(s, i, out.spawnFails), GetsFollowUp(s, i);
            && f.spawned == s.spawned + (if worker then [i] else [])
            && f.inbox == s.inbox + (if worker then [FirstPrompt(s, LastOwnerRequest(s.turns, i))] else [])
            && |f.turns| == |s.turns| + (if followUp then 1 else 0)
            && (forall k :: 0 <= k < |s.turns| && k != i ==> f.turns[k] == s.turns[k])
            && (followUp ==> f.turns[|s.turns|] == NewTurn(s, GENERAL, System, FollowUpText(worker, out.quoted)))
            && (!worker && !followUp <==>
                  Sent(s, i) || (if IsFollowUp(Text(s.turns[i].parts)) then LastOwnerRequest(s.turns, i) == "" || out.spawnFails
                                 else s.turns[i].source != User))
  {
    hide HandoffSince, LastOwnerRequest, IsFollowUp, Text, HandedOff, Finish, GoOn, Handoff, Spawns, Injects,
         FollowUpText;
    var i := s.active[GENERAL];
    FinishOf(s, out);
    var s1 := Finish(s, GENERAL, out);
    TimedOutGoes(s1, Closing(i, out, Closed));
    var s2 := GoOn(s1, GENERAL);
    OnlyClosedSame(s, s2, i, out);
    TimedOutGoes(s2, Closing(i, out, Answered));
    SpawnIs(s2, i, out);
    var s3, w := GoOn(s2, GENERAL), Spawns(s2, i, out);
    TimedOutGoes(s3, Closing(i, out, Handed(w)));
    InjectsIff(s, s2, s3, i, out);
    TimedOutGoes(GoOn(s3, GENERAL), Closing(i, out, FollowedUp));
  }

  /** The row of turn `i` is closed, and nothing else has happened to the turns. */
  ghost predicate OnlyClosed(s: State, r: State, i: nat) {
    && i < |s.turns| == |r.turns|
    && (forall k :: 0 <= k < |s.turns| && k != i ==> r.turns[k] == s.turns[k])
    && r.turns[i].bot == s.turns[i].bot && r.turns[i].source == s.turns[i].source && r.turns[i].parts == s.turns[i].parts
    && r.turns[i].held == s.turns[i].held && r.turns[i].created == s.turns[i].created
  }

  lemma FinishOf(s: State, out: Outcome)
    requires GENERAL in s.active && s.active[GENERAL] < |s.turns|
    ensures var i, r := s.active[GENERAL], Finish(s, GENERAL, out);
            && OnlyClosed(s, r, i) && r.inbox == s.inbox && r.bots == s.bots && r.clock == s.clock && r.spawned == s.spawned
            && GENERAL in r.closing && r.closing[GENERAL] == Closing(i, out, Closed) && i < |r.turns|
  {
  }

  lemma OnlyClosedSame(s: State, r: State, i: nat, out: Outcome)
    requires OnlyClosed(s, r, i) && r.inbox == s.inbox
    ensures HandoffSince(r.turns, i) == HandoffSince(s.turns, i) && LastOwnerRequest(r.turns, i) == LastOwnerRequest(s.turns, i)
    ensures Spawns(r, i, out) == GetsWorker(s, i, out.spawnFails)
  {
    hide HandoffSince, LastOwnerRequest, IsFollowUp, Text, HandedOff;
    assert r.turns == s.turns[i := r.turns[i]];
    ClosedSame(s.turns, i, r.turns[i]);
  }

  /** Whether a follow-up is due is decided after the hand-off. */
  lemma InjectsIff(s: State, s2: State, s3: State, i: nat, out: Outcome)
    requires OnlyClosed(s, s2, i) && s2.inbox == s.inbox && s3.turns == s2.turns
    requires Spawns(s2, i, out) == GetsWorker(s, i, out.spawnFails) && (!Spawns(s2, i, out) ==> s3.inbox == s2.inbox)
    ensures Injects(s3, i, Spawns(s2, i, out)) == GetsFollowUp(s, i)
  {
    OnlyClosedSame(s, s2, i, out);
    hide HandoffSince, LastOwnerRequest, IsFollowUp, Text, HandedOff, Spawns;
  }

  // ----- in every run -----

  /** Row `o` is an owner's row whose text may be a request. */
  predicate Asks(ts: seq<Turn>, o: nat)
    requires o < |ts|
  {
    ts[o].bot == GENERAL && ts[o].source == User && IsRequest(Text(ts[o].parts))
  }

  /** How many owner's rows there are from row `lo` up to row `n`. */
  function OwnerRows(ts: seq<Turn>, lo: nat, n: nat): nat
    requires n <= |ts|
  {
    if n <= lo then 0 else OwnerRows(ts, lo, n - 1) + if ts[n - 1].bot == GENERAL && ts[n - 1].source == User then 1 else 0
  }

  /** The request is looked for newest first, and found if it is among the rows that are read. */
  lemma {:induction false} NewestFirst(ts: seq<Turn>, n: nat, limit: nat, j: nat)
    requires j < n <= |ts| && Asks(ts, j)
    ensures var k := NewestRequest(ts, n, limit);
            if OwnerRows(ts, j + 1, n) < limit then j <= k < n else k == |ts| || j <= k
  {
    hide Text, IsRequest;
    if limit > 0 && j < n - 1 {
      NewestFirst(ts, n - 1, limit, j);
      NewestFirst(ts, n - 1, limit - 1, j);
    }
  }

  /** Step `n` comes to the hand-off of turn `i` where a worker is due. */
  ghost predicate WorkerDue(mid: seq<Step>, after: seq<Step>, n: nat, i: nat, spawnFails: bool) {
    && TakenAt(mid, after, n, i, HandOff)
    && var p := Run(mid + after[..n]); i < |p.turns| && GetsWorker(p, i, spawnFails)
  }

  /** Whether a follow-up is due when the end of turn `i` comes to it. */
  predicate FollowUpDue(s: State, i: nat, worker: bool)
    requires i < |s.turns|
  {
    !IsFollowUp(Text(s.turns[i].parts)) && (worker || (!Sent(s, i) && s.turns[i].source == User))
  }

  /** An owner's input is carried by a turn of General that times out, in any run, with anything coming
      before, between and after the steps of the end, crashes included. A worker is started if and only
      if the end comes to the hand-off and there General has sent no waking message in the window, the
      turn began as the owner's or holds a follow-up, some request is found (this input or a newer one
      is, if it is a request and among the last thirty), and the worker can be created; it then finds
      that request. A follow-up is queued if and only if the end comes to that, the turn holds none
      itself, and a worker was started or General has still sent nothing and the turn began as the
      owner's. When the end comes to the one and the other is `TakenOrLost`. */
  lemma OwnerTimesOut(before: seq<Step>, out: Outcome, after: seq<Step>, o: nat)
    requires var s := Run(before);
             && GENERAL in s.active && out.err == TimedOut && o < |s.turns| && s.turns[o].source == User
             && Carrier(s.turns, o) == s.active[GENERAL]
    ensures var mid := before + [DoFinish(GENERAL, out)];
            var s, i := Run(mid + after), Run(before).active[GENERAL];
            var worker := i in s.spawned;
            && (worker <==> exists n: nat :: WorkerDue(mid, after, n, i, out.spawnFails))
            && (forall n: nat :: WorkerDue(mid, after, n, i, out.spawnFails) ==> FindsPrompt(s, Run(mid + after[..n]), i))
            && (forall n: nat :: TakenAt(mid, after, n, i, HandOff) ==> RequestKnown(Run(mid + after[..n]), i, o))
            && (forall n: nat :: TakenAt(mid, after, n, i, FollowUp) ==>
                  FollowUpAdded(Run(mid + after[..n]), Run(mid + after[..n + 1]), i, worker, out.quoted))
  {
    var mid, i := before + [DoFinish(GENERAL, out)], Run(before).active[GENERAL];
    hide Run, EndedWith, Awaits, TakenAt, GetsWorker, HandsOff, FindsPrompt, RequestKnown, FollowUpAdded, Carrier, Finish;
    EndBegins(before, out);
    assert |Run(before).turns| == |Run(mid).turns|;
    SpawnedIff(mid, after, i);
    forall n: nat | TakenAt(mid, after, n, i, HandOff)
      ensures WorkerAt(mid, after, n, i) <==> WorkerDue(mid, after, n, i, out.spawnFails)
      ensures RequestKnown(Run(mid + after[..n]), i, o)
      ensures WorkerDue(mid, after, n, i, out.spawnFails) ==> FindsPrompt(Run(mid + after), Run(mid + after[..n]), i)
    {
      AtHandOff(mid, after, n, i, o, out);
    }
    forall n: nat | TakenAt(mid, after, n, i, FollowUp)
      ensures FollowUpAdded(Run(mid + after[..n]), Run(mid + after[..n + 1]), i, i in Run(mid + after).spawned, out.quoted)
    {
      AtFollowUp(mid, after, n, i, out);
    }
  }

  lemma HandOffDue(p: State, i: nat, out: Outcome)
    requires EndedWith(p, i, out) && IsNext(p, i, HandOff) && out.err == TimedOut
    ensures HandsOff(p, GENERAL) <==> GetsWorker(p, i, out.spawnFails)
    ensures var row := FirstPrompt(p, LastOwnerRequest(p.turns, i));
            GoOn(p, GENERAL).inbox == p.inbox + if GetsWorker(p, i, out.spawnFails) then [row] else []
  {
    hide HandoffSince, LastOwnerRequest, IsFollowUp, Text, HandedOff, GoOn, Handoff, FirstPrompt;
    TimedOutGoes(p, p.closing[GENERAL]);
    SpawnIs(p, i, out);
  }

  lemma AtHandOff(mid: seq<Step>, after: seq<Step>, n: nat, i: nat, o: nat, out: Outcome)
    requires EndedWith(Run(mid), i, out) && out.err == TimedOut && TakenAt(mid, after, n, i, HandOff) && o < |Run(mid).turns|
    ensures WorkerAt(mid, after, n, i) <==> WorkerDue(mid, after, n, i, out.spawnFails)
    ensures RequestKnown(Run(mid + after[..n]), i, o)
    ensures WorkerDue(mid, after, n, i, out.spawnFails) ==> FindsPrompt(Run(mid + after), Run(mid + after[..n]), i)
  {
    var p, r, s := Run(mid + after[..n]), Run(mid + after[..n + 1]), Run(mid + after);
    RunEndedWith(mid, after[..n], i, out);
    HandOffDue(p, i, out);
    assert o < |p.turns| && KeepsRows(r.inbox, s.inbox) && r == GoOn(p, GENERAL) by {
      RunOnStays(mid, after[..n]);
      StepOf(mid, after, n);
      NextIs(p, DoGoOn(GENERAL));
      RunOnStays(mid + after[..n + 1], after[n + 1..]);
      hide Run, Next, GoOn;
    }
    hide Run, GetsWorker, LastOwnerRequest, GoOn, HandsOff, Asks, OwnerRows;
    if Asks(p.turns, o) && OwnerRows(p.turns, o + 1, |p.turns|) < REQUESTS_READ {
      RequestFound(p.turns, i, o);
    }
  }

  lemma FollowUpIs(q: State, i: nat, out: Outcome)
    requires EndedWith(q, i, out) && IsNext(q, i, FollowUp) && out.err == TimedOut && Remembers(q, i)
    ensures FollowUpAdded(q, GoOn(q, GENERAL), i, i in q.spawned, out.quoted)
  {
    hide HandoffSince, IsFollowUp, Text, HandedOff, GoOn, FollowUpText, NewTurn;
    TimedOutGoes(q, q.closing[GENERAL]);
  }

  lemma AtFollowUp(mid: seq<Step>, after: seq<Step>, n: nat, i: nat, out: Outcome)
    requires EndedWith(Run(mid), i, out) && Awaits(Run(mid), i, HandOff) && i !in Run(mid).spawned && out.err == TimedOut
    requires TakenAt(mid, after, n, i, FollowUp)
    ensures FollowUpAdded(Run(mid + after[..n]), Run(mid + after[..n + 1]), i, i in Run(mid + after).spawned, out.quoted)
  {
    SettledAt(mid, after, n, i, out);
    RunEndedWith(mid, after[..n], i, out);
    RunRemembers(mid, after[..n], i, out);
    FollowUpIs(Run(mid + after[..n]), i, out);
    StepOf(mid, after, n);
    NextIs(Run(mid + after[..n]), DoGoOn(GENERAL));
    hide *;
  }

  /** The worker's first message is in the inbox, with the request as it was read at `p`. */
  ghost predicate FindsPrompt(s: State, p: State, i: nat) {
    && i < |p.turns| && |p.inbox| < |s.inbox|
    && var row, prompt := s.inbox[|p.inbox|], FirstPrompt(p, LastOwnerRequest(p.turns, i));
    row.to == prompt.to && row.from == prompt.from && row.text == prompt.text && row.wake == prompt.wake
  }

  /** If `o` asks for something and is among the last thirty, a request is found. */
  ghost predicate RequestKnown(p: State, i: nat, o: nat) {
    && i < |p.turns| && o < |p.turns|
    && (Asks(p.turns, o) && OwnerRows(p.turns, o + 1, |p.turns|) < 30 ==> LastOwnerRequest(p.turns, i) != "")
  }

  /** The end of turn `i` queues its follow-up exactly when it is due. */
  ghost predicate FollowUpAdded(q: State, r: State, i: nat, worker: bool, quoted: string) {
    && i < |q.turns|
    && r.turns == q.turns + if FollowUpDue(q, i, worker) then [NewTurn(q, GENERAL, System, FollowUpText(worker, quoted))] else []
  }

  lemma RequestFound(ts: seq<Turn>, i: nat, o: nat)
    requires i < |ts| && o < |ts| && Asks(ts, o) && OwnerRows(ts, o + 1, |ts|) < REQUESTS_READ
    ensures LastOwnerRequest(ts, i) != ""
  {
    hide Text, TrimSpace, Trimmed, OwnerRows;
    TrimSpaceTrims(Text(ts[i].held));
    TrimSpaceTrims(TrimSpace(Text(ts[i].held)));
    NewestFirst(ts, |ts|, REQUESTS_READ, o);
  }

  /** Which inputs the worker is given, as the end of a timed-out turn comes to the hand-off in any run: if
      the turn began with a request of the owner, those its first row held before others were merged into
      it; else those of the newest row of the owner that holds a request then, whether or not they belong
      to this turn. So a request that was merged into another reaches the worker only if the turn began
      with something else and no newer one was asked, not even after the turn was over. */
  lemma WorkerIsTold(steps: seq<Step>, o: nat)
    requires var s := Run(steps);
             && GENERAL in s.closing && s.closing[GENERAL].phase == Answered && s.closing[GENERAL].out.err == TimedOut
             && o < |s.turns| && Asks(s.turns, o)
    ensures var s, r := Run(steps), Run(steps + [DoGoOn(GENERAL)]);
            var i, fails := s.closing[GENERAL].turn, s.closing[GENERAL].out.spawnFails;
            && i < |s.turns|
            && var told := RequestParts(s.turns, i);
            && r.inbox == s.inbox + (if GetsWorker(s, i, fails) then [FirstPrompt(s, TrimSpace(Text(told)))] else [])
            && (HasOrigin(told, o) <==>
                  if HoldsRequest(s.turns[i]) then HasOrigin(s.turns[i].held, o)
                  else NewestRequest(s.turns, |s.turns|, REQUESTS_READ) == o)
  {
    var s := Run(steps);
    var i, out := s.closing[GENERAL].turn, s.closing[GENERAL].out;
    assert EndedWith(s, i, out) && IsNext(s, i, HandOff) by {
      RunClosing(steps);
      assert ClosingRow(s.turns, s.finished, GENERAL, s.closing[GENERAL]);
      hide Run, Inv;
    }
    assert HasOrigin(RequestParts(s.turns, i), o) <==>
      if HoldsRequest(s.turns[i]) then HasOrigin(s.turns[i].held, o)
      else NewestRequest(s.turns, |s.turns|, REQUESTS_READ) == o by {
      ToldIf(steps, i, o);
    }
    hide *;
    RunSnoc(steps, DoGoOn(GENERAL));
    NextIs(s, DoGoOn(GENERAL));
    HandOffDue(s, i, out);
    RequestIs(s.turns, i);
  }

  lemma RequestIs(ts: seq<Turn>, i: nat)
    requires i < |ts|
    ensures LastOwnerRequest(ts, i) == TrimSpace(Text(RequestParts(ts, i)))
  {
    hide TrimSpace, Text, RequestParts;
  }

  lemma ToldIf(steps: seq<Step>, i: nat, o: nat)
    requires var s := Run(steps); i < |s.turns| && o < |s.turns| && Asks(s.turns, o)
    ensures var ts := Run(steps).turns;
            HasOrigin(RequestParts(ts, i), o) <==>
              if HoldsRequest(ts[i]) then HasOrigin(ts[i].held, o) else NewestRequest(ts, |ts|, REQUESTS_READ) == o
  {
    assert !HasOrigin([], o);
    hide Run, HoldsRequest, NewestRequest, HasOrigin, Asks;
    var ts := Run(steps).turns;
    var k := NewestRequest(ts, |ts|, REQUESTS_READ);
    if k < |ts| {
      NewestFirst(ts, |ts|, REQUESTS_READ, o);
      RowHolds(steps, o, k);
    }
  }

  /** An owner's request that comes in when the turn is over and the hand-off is not, is the one the worker
      is told, unless the turn began with a request. */
  lemma LateRequestIsTold(steps: seq<Step>, i: nat, text: string)
    requires i < |Run(steps).turns| && !HoldsRequest(Run(steps).turns[i]) && IsRequest(text)
    ensures var s, r := Run(steps), Run(steps + [DoEnqueue(GENERAL, User, text)]);
            i < |r.turns| && RequestParts(r.turns, i) == [Part(|s.turns|, text)]
  {
    hide Run, HoldsRequest, IsRequest, Text;
    RunSnoc(steps, DoEnqueue(GENERAL, User, text));
    TextOfOne(|Run(steps).turns|, text);
  }

  /** A row no older than `o` holds the input of `o` only if it is `o`. */
  lemma RowHolds(steps: seq<Step>, o: nat, k: nat)
    requires o <= k < |Run(steps).turns|
    ensures HasOrigin(Run(steps).turns[k].parts, o) <==> k == o
  {
    var s := Run(steps);
    RunKeeps(steps);
    hide Run;
    OwnPart(s.turns, o);
    CarrierHolds(s, o);
    if Merged(s.turns[k]) {
      assert IsCarried(s.turns, k);
    }
    if Merged(s.turns[o]) {
      assert IsCarried(s.turns, o);
    }
    hide Inv;
  }

  // ----- requests that get nothing -----

  const TimedOutNow := Outcome(TimedOut, "", "", false, false, map[], {})
  const Replied := Outcome(Success, "ok", "", false, false, map[], {})

  lemma TextOfOne(o: nat, text: string)
    ensures Text([Part(o, text)]) == text
  {
    assert Texts([Part(o, text)]) == [text];
  }

  lemma ShortIsNoFollowUp(s: string)
    requires |s| <= |TOO_LONG| && (s != "" ==> s[0] != 't')
    ensures !IsFollowUp(s)
  {
    assert TOO_LONG[0] == 't' && TOO_LONG != "";
    if Contains(s, TOO_LONG) {
      var _ := ContainedOccurs(s, TOO_LONG);
    }
  }

  const Report := Row(GENERAL, Some(1), "r", true, true, 0, false, None)
  const Reported := Turn(GENERAL, FromBot, [Part(0, "Message from w:\nr")], [], Queued, Open, Success, 0, None)
  const Asked := Turn(GENERAL, User, [Part(1, "b")], [], Queued, Open, Success, 0, None)
  const Q1 := State([], [Report], {}, {}, map[], map[], 1, 0, [], [], [], {}, map[])
  const Q2 := State([Reported], [Report.(delivered := true, turn := Some(0))], {}, {}, map[], map[], 1, 0, [], [], [], {}, map[])
  const Q3 := State([Reported, Asked], [Report.(delivered := true, turn := Some(0))], {}, {}, map[], map[], 1, 0, [], [], [], {}, map[])

  lemma EmptyRun() returns (steps: seq<Step>)
    ensures Run(steps) == Empty
  {
    steps := [];
  }

  lemma ReportQueued() returns (steps: seq<Step>)
    ensures Run(steps) == Q3
  {
    hide Run, TrimSpace;
    steps := EmptyRun();
    TrimOne('r');
    RunSnoc(steps, DoReport(1, "r"));
    steps := steps + [DoReport(1, "r")];
    assert Run(steps) == Q1;
    assert Label("w", "r") == "Message from w:\nr";
    RunSnoc(steps, DoDeliver(0, "w"));
    steps := steps + [DoDeliver(0, "w")];
    assert Run(steps) == Q2;
    RunSnoc(steps, DoEnqueue(GENERAL, User, "b"));
    steps := steps + [DoEnqueue(GENERAL, User, "b")];
  }

  lemma MergedStarts()
    ensures var s := Start(Q3, GENERAL);
            && GENERAL in s.active && s.active[GENERAL] == 0 && |s.turns| == 2 && s.turns[1].reason == MergedInto(0)
            && s.turns[0].source == FromBot && s.turns[0].parts == Reported.parts + Asked.parts
            && s.turns[1].source == User && s.turns[1].bot == GENERAL && s.turns[1].parts == [Part(1, "b")]
            && |s.inbox| == 1 && s.inbox[0].from == Some(1) && s.spawned == []
  {
    var ts := Q3.turns;
    assert FirstQueued(ts, GENERAL) == 0;
    assert FoldParts(ts, GENERAL, 1) == Reported.parts;
    assert FoldParts(ts, GENERAL, 2) == Reported.parts + Asked.parts;
  }

  lemma MergedText()
    ensures Text(Reported.parts + Asked.parts) == "Message from w:\nr\n\nb"
    ensures !IsFollowUp("Message from w:\nr\n\nb")
  {
    assert Texts(Reported.parts + Asked.parts) == ["Message from w:\nr", "b"];
    hide IsFollowUp;
    assert Join(["Message from w:\nr", "b"], "\n\n") == "Message from w:\nr" + "\n\n" + "b" by {
      assert ["Message from w:\nr", "b"][1..] == ["b"];
      assert Join(["b"], "\n\n") == "b";
    }
    hide Join;
    assert "Message from w:\nr" + "\n\n" + "b" == "Message from w:\nr\n\nb";
    ShortIsNoFollowUp("Message from w:\nr\n\nb");
  }

  /** An owner's request that is merged into the turn of a worker's report gets nothing when that turn
      times out, although General never sent a message: the turn counts as the report's. */
  lemma MergedRequestGetsNothing() returns (steps: seq<Step>)
    ensures var s, f := Run(steps), Run(steps + EndOf(TimedOutNow));
            && GENERAL in s.active && |s.turns| == 2 && s.turns[1].source == User && Text(s.turns[1].parts) == "b"
            && Carrier(s.turns, 1) == s.active[GENERAL] == 0
            && (forall r :: 0 <= r < |s.inbox| ==> s.inbox[r].from != Some(GENERAL))
            && f.spawned == [] && f.inbox == s.inbox && |f.turns| == 2 && f.turns[1] == s.turns[1]
  {
    hide Run, Start, Ending, Text, IsFollowUp, LastOwnerRequest;
    steps := ReportQueued();
    RunSnoc(steps, DoStart(GENERAL));
    NextIs(Q3, DoStart(GENERAL));
    MergedStarts();
    steps := steps + [DoStart(GENERAL)];
    var s := Run(steps);
    MergedText();
    TextOfOne(1, "b");
    RunEnd(steps, TimedOutNow);
    TimeoutEnds(s, TimedOutNow);
  }

  // ----- what waits behind a follow-up -----

  /** When a worker was started for a timed-out request, then whatever the owner asked meanwhile and was
      merged into the turn that carries its follow-up gets neither a worker nor another follow-up, however
      that turn ends and whatever comes in between. */
  lemma BehindFollowUp(before: seq<Step>, after: seq<Step>)
    requires Injecting(Run(before)) && Run(before).closing[GENERAL].turn in Run(before).spawned
    ensures var mid := before + [DoGoOn(GENERAL)];
            var s, f := Run(mid + after), |Run(before).turns|;
            && f < |s.turns|
            && var c := Carrier(s.turns, f);
            && c < |s.turns| && c !in s.spawned
            && forall n: nat :: TakenAt(mid, after, n, c, FollowUp) ==>
                 Run(mid + after[..n + 1]).turns == Run(mid + after[..n]).turns
  {
    var mid, f, a := before + [DoGoOn(GENERAL)], |Run(before).turns|, Run(before).closing[GENERAL].turn;
    var s := Run(mid + after);
    hide Run, Injecting, IsFollowUp, Text, LastEnded, EndedNext;
    EpisodeRuns(before, after);
    EpisodePlaced(before, after);
    hide FollowUpPlaced;
    var c := Carrier(s.turns, f);
    assert a in s.spawned by {
      assert mid + after == before + ([DoGoOn(GENERAL)] + after);
      SpawnedStays(before, [DoGoOn(GENERAL)] + after, a);
    }
    if c in s.spawned {
      assert SpawnRecorded(s, c) by {
        RunSpawn(mid + after);
        assert SpawnsRecorded(s);
      }
    }
    forall n: nat | TakenAt(mid, after, n, c, FollowUp)
      ensures Run(mid + after[..n + 1]).turns == Run(mid + after[..n]).turns
    {
      NoOther(mid, after, n, c);
    }
  }

  /** The end of a follow-up queues no other. */
  lemma NoOther(mid: seq<Step>, after: seq<Step>, n: nat, c: nat)
    requires TakenAt(mid, after, n, c, FollowUp)
    requires c < |Run(mid + after).turns| && IsFollowUp(Text(Run(mid + after).turns[c].parts))
    ensures Run(mid + after[..n + 1]).turns == Run(mid + after[..n]).turns
  {
    hide Run, IsFollowUp, Text, Next, GoOn;
    var q, s := Run(mid + after[..n]), Run(mid + after);
    assert c < |q.turns| && q.turns[c] == s.turns[c] by {
      EndedStaysOn(mid + after[..n], after[n..]);
      assert mid + after == (mid + after[..n]) + after[n..];
    }
    assert GENERAL in q.closing && q.closing[GENERAL].phase.Handed? && q.closing[GENERAL].turn == c;
    hide *;
    StepOf(mid, after, n);
    NextIs(q, DoGoOn(GENERAL));
    FollowUpAddsNone(q);
  }

  /** The turn whose end is under way has ended, and stays so. */
  lemma EndedStaysOn(steps: seq<Step>, more: seq<Step>)
    requires GENERAL in Run(steps).closing
    ensures var i, ts, ts' := Run(steps).closing[GENERAL].turn, Run(steps).turns, Run(steps + more).turns;
            i < |ts| && i < |ts'| && ts'[i] == ts[i]
  {
    var s := Run(steps);
    assert ClosingRow(s.turns, s.finished, GENERAL, s.closing[GENERAL]) by {
      RunClosing(steps);
      hide ClosingRow;
    }
    hide Run, LastEnded;
    RunOnStays(steps, more);
  }

  lemma FollowUpAddsNone(q: State)
    requires GENERAL in q.closing && q.closing[GENERAL].phase.Handed? && q.closing[GENERAL].turn < |q.turns|
    requires IsFollowUp(Text(q.turns[q.closing[GENERAL].turn].parts))
    ensures GoOn(q, GENERAL).turns == q.turns
  {
    hide IsFollowUp, Text, HandedOff, HandoffSince;
  }

  // ----- a crash that loses a request -----

  /** When the process dies after General's turn was closed and before its hand-off, nothing that is due
      is ever done: whatever comes later, no worker and no follow-up of that turn. */
  lemma CrashDropsRequest(before: seq<Step>, out: Outcome, after: seq<Step>, later: seq<Step>)
    requires GENERAL in Run(before).active
    requires Awaits(Run(before + [DoFinish(GENERAL, out)] + after), Run(before).active[GENERAL], HandOff)
    ensures var mid, i := before + [DoFinish(GENERAL, out)], Run(before).active[GENERAL];
            var s, r, e := Run(mid + after), Run(mid + after + [DoRestart]), Run(mid + (after + [DoRestart] + later));
            && r.spawned == s.spawned && r.inbox == s.inbox && r.dm == s.dm && |r.turns| == |s.turns|
            && r.active == map[] && r.closing == map[]
            && i !in e.spawned && !Taken(mid, after + [DoRestart] + later, i, FollowUp)
  {
    var mid, i := before + [DoFinish(GENERAL, out)], Run(before).active[GENERAL];
    var all, k := after + [DoRestart] + later, |after|;
    assert all[..k] == after && all[k] == DoRestart;
    assert LostAt(mid, all, k, i, HandOff) && LostAt(mid, all, k, i, FollowUp);
    hide Run, EndedWith, Awaits, IsNext, HandsOff;
    EndBegins(before, out);
    JustOne(mid, all, i, out, HandOff);
    JustOne(mid, all, i, out, FollowUp);
    SpawnedIff(mid, all, i);
    assert forall n: nat :: WorkerAt(mid, all, n, i) ==> TakenAt(mid, all, n, i, HandOff);
    RunSnoc(mid + after, DoRestart);
    NextIs(Run(mid + after), DoRestart);
    RunKeeps(mid + after);
    assert StatusesOk(Run(mid + after).turns);
    hide Inv, Next;
    RecoverStays(Run(mid + after), |Run(mid + after).turns|);
  }

  /** The shortest such run: the owner's request times out, a worker and a follow-up are due, and a crash
      comes first. */
  lemma CrashLosesRequest()
    ensures var ended := [DoEnqueue(GENERAL, User, "b"), DoStart(GENERAL), DoFinish(GENERAL, TimedOutNow)];
            var s, r := Run(ended), Run(ended + [DoRestart]);
            && |s.turns| == 1 && Text(s.turns[0].parts) == "b" && GetsWorker(s, 0, false) && GetsFollowUp(s, 0)
            && |r.turns| == 1 && r.turns[0].reason == Ended && r.turns[0].err == TimedOut
            && r.spawned == [] && r.inbox == [] && r.dm == [] && r.active == map[] && r.closing == map[]
  {
    var begun := [DoEnqueue(GENERAL, User, "b"), DoStart(GENERAL)];
    assert begun + [DoFinish(GENERAL, TimedOutNow)] == [DoEnqueue(GENERAL, User, "b"), DoStart(GENERAL), DoFinish(GENERAL, TimedOutNow)];
    assert [] + [DoEnqueue(GENERAL, User, "b")] == [DoEnqueue(GENERAL, User, "b")];
    assert [DoEnqueue(GENERAL, User, "b")] + [DoStart(GENERAL)] == begun;
    hide *;
    RunSnoc([], DoEnqueue(GENERAL, User, "b"));
    RunSnoc([DoEnqueue(GENERAL, User, "b")], DoStart(GENERAL));
    RunSnoc(begun, DoFinish(GENERAL, TimedOutNow));
    RunSnoc(begun + [DoFinish(GENERAL, TimedOutNow)], DoRestart);
    AloneTimesOut();
    BothDue();
  }

  const Alone := Turn(GENERAL, User, [Part(0, "b")], [], Queued, Open, Success, 0, None)
  const AloneRunning := Turn(GENERAL, User, [Part(0, "b")], [Part(0, "b")], Running, Open, Success, 0, Some(0))
  const AloneDead := Turn(GENERAL, User, [Part(0, "b")], [Part(0, "b")], Failed, Ended, TimedOut, 0, Some(0))
  const A1 := State([Alone], [], {}, {}, map[], map[], 1, 0, [], [], [], {}, map[])
  const A2 := State([AloneRunning], [], {}, {}, map[GENERAL := 0], map[], 1, 0, [], [], [], {}, map[])
  const A3 := State([AloneDead], [], {}, {}, map[], map[GENERAL := Closing(0, TimedOutNow, Closed)], 1, 0, [], [0], [], {}, map[])

  lemma AloneTimesOut()
    ensures Run([]) == Empty && Next(Empty, DoEnqueue(GENERAL, User, "b")) == A1 && Next(A1, DoStart(GENERAL)) == A2
    ensures Next(A2, DoFinish(GENERAL, TimedOutNow)) == A3
    ensures Next(A3, DoRestart) == A3.(closing := map[], cut := {0})
  {
    assert FirstQueued(A1.turns, GENERAL) == 0;
    FoldAlone(A1.turns, GENERAL, 1);
    assert RecoverUpTo(A3, 1) == A3;
    assert A2.active - {GENERAL} == map[];
    assert Untold(A3.closing) == {0};
  }

  lemma BothDue()
    ensures Text(A3.turns[0].parts) == "b" && GetsWorker(A3, 0, false) && GetsFollowUp(A3, 0)
  {
    TextOfOne(0, "b");
    ShortIsNoFollowUp("b");
    TrimOne('b');
    hide Text, TrimSpace, IsFollowUp, HandoffSince;
  }

  // ----- the window opens when the row is created -----

  lemma QuietHandOver(s: State, c: Closing)
    requires GENERAL in s.closing && s.closing[GENERAL] == c && c.turn < |s.turns| && c.out.err == Success
    requires !IsFollowUp(Text(s.turns[c.turn].parts))
    ensures c.phase == Closed ==>
              GoOn(s, GENERAL) == s.(dm := s.dm + [Reply(c.turn, c.out.output)],
                                     closing := s.closing[GENERAL := Closing(c.turn, c.out, Answered)])
    ensures c.phase == Answered ==> GoOn(s, GENERAL) == s.(closing := s.closing[GENERAL := Closing(c.turn, c.out, Handed(false))])
    ensures c.phase == Handed(false) ==> GoOn(s, GENERAL) == s.(closing := s.closing[GENERAL := Closing(c.turn, c.out, FollowedUp)])
  {
    hide IsFollowUp, Text, Injects, Spawns, Handoff;
  }

  lemma QuietSettle(s: State, c: Closing)
    requires s.closing == map[GENERAL := c] && c.phase == FollowedUp && c.turn < |s.turns|
    requires c.out.err == Success && TrimSpace(c.out.output) != "" && !c.out.waiting
    ensures GoOn(s, GENERAL) == s.(closing := map[], waiting := s.waiting - {GENERAL})
  {
    hide TrimSpace, FallbackTexts;
    assert s.closing - {GENERAL} == map[];
  }

  /** A turn of General that is no follow-up and replies ends without more ado. */
  lemma QuietEnding(s: State, out: Outcome)
    requires s.active == map[GENERAL := 0] && s.closing == map[] && |s.turns| > 0 && out.err == Success && TrimSpace(out.output) != ""
    requires !IsFollowUp(Text(s.turns[0].parts)) && !out.waiting
    ensures Ending(s, GENERAL, out)
         == s.(turns := s.turns[0 := s.turns[0].(status := Done, reason := Ended, err := Success)], active := map[],
               finished := s.finished + [0], dm := s.dm + [Reply(0, out.output)], waiting := s.waiting - {GENERAL})
  {
    hide IsFollowUp, Text, TrimSpace, GoOn;
    var s1 := Finish(s, GENERAL, out);
    assert s.active - {GENERAL} == map[];
    var c := Closing(0, out, Closed);
    QuietHandOver(s1, c);
    var s2 := GoOn(s1, GENERAL);
    QuietHandOver(s2, c.(phase := Answered));
    var s3 := GoOn(s2, GENERAL);
    QuietHandOver(s3, c.(phase := Handed(false)));
    var s4 := GoOn(s3, GENERAL);
    QuietSettle(s4, c.(phase := FollowedUp));
  }

  const First := Turn(GENERAL, User, [Part(0, "a")], [], Queued, Open, Success, 0, None)
  const FirstRunning := Turn(GENERAL, User, [Part(0, "a")], [Part(0, "a")], Running, Open, Success, 0, Some(0))
  const FirstDone := Turn(GENERAL, User, [Part(0, "a")], [Part(0, "a")], Done, Ended, Success, 0, Some(0))
  const Second := Turn(GENERAL, User, [Part(1, "b")], [], Queued, Open, Success, 1, None)
  const SecondRunning := Turn(GENERAL, User, [Part(1, "b")], [Part(1, "b")], Running, Open, Success, 1, Some(2))
  const Handover := Row(1, Some(GENERAL), "x", true, false, 1, false, None)
  const S1 := State([First], [], {}, {}, map[], map[], 1, 0, [], [], [], {}, map[])
  const S3 := State([FirstRunning], [], {}, {}, map[GENERAL := 0], map[], 1, 1, [], [], [], {}, map[])
  const S5 := State([FirstRunning, Second], [Handover], {}, {}, map[GENERAL := 0], map[], 1, 1, [], [], [], {}, map[])
  const S6 := State([FirstDone, Second], [Handover], {}, {}, map[], map[], 1, 1, [Reply(0, "ok")], [0], [], {}, map[])
  const S7 := State([FirstDone, Second], [Handover], {}, {}, map[], map[], 1, 2, [Reply(0, "ok")], [0], [], {}, map[])

  lemma OverlapBegins() returns (steps: seq<Step>)
    ensures Run(steps) == S3
  {
    hide Start, Finish, GoOn, Restart, Stop, Archive, Send, Deliver;
    hide Run;
    steps := EmptyRun();
    RunSnoc(steps, DoEnqueue(GENERAL, User, "a"));
    steps := steps + [DoEnqueue(GENERAL, User, "a")];
    assert Run(steps) == S1;
    RunSnoc(steps, DoStart(GENERAL));
    steps := steps + [DoStart(GENERAL)];
    FirstStarts();
    RunSnoc(steps, DoTick);
    steps := steps + [DoTick];
  }

  lemma FirstStarts()
    ensures Next(S1, DoStart(GENERAL)).(clock := 1) == S3 && Next(S1, DoStart(GENERAL)).clock == 0
  {
    assert FirstQueued(S1.turns, GENERAL) == 0;
    FoldAlone(S1.turns, GENERAL, 1);
  }

  lemma OverlapContinues() returns (steps: seq<Step>)
    ensures Run(steps) == S5
  {
    hide Run, TrimSpace, Start, Finish, GoOn, Restart, Stop, Archive, Deliver;
    steps := OverlapBegins();
    TrimOne('x');
    RunSnoc(steps, DoEnqueue(GENERAL, User, "b"));
    steps := steps + [DoEnqueue(GENERAL, User, "b")];
    RunSnoc(steps, DoSend(GENERAL, 1, "x", true));
    steps := steps + [DoSend(GENERAL, 1, "x", true)];
  }

  lemma FirstEnds()
    ensures Ending(S5, GENERAL, Replied) == S6
  {
    hide Text, IsFollowUp, TrimSpace, Ending;
    TextOfOne(0, "a");
    ShortIsNoFollowUp("a");
    assert TrimSpace("ok") != "" by {
      hide TrimSpace;
      TrimSpaceTrims("ok");
      assert Trimmed("ok");
    }
    assert S5.turns[0].parts == [Part(0, "a")];
    QuietEnding(S5, Replied);
  }

  lemma SecondStarts()
    ensures var s := Next(S7, DoStart(GENERAL));
            && s.turns == [FirstDone, SecondRunning] && s.inbox == [Handover] && s.spawned == []
            && GENERAL in s.active && s.active[GENERAL] == 1
  {
    var ts := S7.turns;
    assert FirstQueued(ts, GENERAL) == FirstQueued(ts, GENERAL, 1) == 1;
    FoldAlone(ts, GENERAL, 2);
  }

  /** Two owner's requests; General hands the first one off while the second waits in the queue, then
      the second one starts. */
  lemma Overlap() returns (steps: seq<Step>)
    ensures var s := Run(steps);
            && s.turns == [FirstDone, SecondRunning] && s.inbox == [Handover] && s.spawned == []
            && GENERAL in s.active && s.active[GENERAL] == 1
  {
    hide Run, Ending, EndOf, Start, Finish, GoOn, Restart, Stop, Archive, Send, Deliver;
    steps := OverlapContinues();
    RunEnd(steps, Replied);
    FirstEnds();
    steps := steps + EndOf(Replied);
    RunSnoc(steps, DoTick);
    steps := steps + [DoTick];
    assert Run(steps) == S7;
    RunSnoc(steps, DoStart(GENERAL));
    SecondStarts();
    steps := steps + [DoStart(GENERAL)];
  }

  /** The window of a running turn opens when its row was created, not when it started, because the
      runner's copy of the row predates the start. So a reachable state has an owner's request that
      times out although General sent nothing since it started, and neither a worker nor a follow-up
      comes of it: what General handed off for the request before hides it. */
  lemma EarlierHandoffHidesRequest() returns (steps: seq<Step>)
    ensures var s, f := Run(steps), Run(steps + EndOf(TimedOutNow));
            && GENERAL in s.active && s.active[GENERAL] == 1 && |s.turns| == 2
            && s.turns[1].source == User && Text(s.turns[1].parts) == "b" && s.turns[1].started.Some?
            && !HandedOff(s.inbox, s.turns[1].started.value)
            && f.spawned == s.spawned && |f.turns| == |s.turns|
  {
    hide Run, Ending, EndOf, Text, IsFollowUp, LastOwnerRequest;
    steps := Overlap();
    var s := Run(steps);
    TextOfOne(1, "b");
    ShortIsNoFollowUp("b");
    RunEnd(steps, TimedOutNow);
    TimeoutEnds(s, TimedOutNow);
    assert s.inbox[0].from == Some(GENERAL);
    assert Sent(s, 1) by {
      assert HandoffSince(s.turns, 1) == 1;
    }
  }
}
