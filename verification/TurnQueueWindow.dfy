/** General's timeouts in the terms of the tables: what a follow-up and a request are, since when a hand-off
 * counts, and what the end of any turn of General starts. */
module TurnQueueWindow {
  import opened GoStrings
  import opened TurnQueue
  import opened TurnQueueSafety
  import opened TurnQueueRequests

  // ----- what is read -----

  /** A follow-up is an input in which the phrase occurs, wherever that is. */
  lemma FollowUpIff(input: string)
    ensures IsFollowUp(input) <==> exists k :: OccursAt(input, "too long for General", k)
  {
    hide Contains, OccursAt;
    if IsFollowUp(input) {
      var k := ContainedOccurs(input, TOO_LONG);
    }
    if k :| OccursAt(input, "too long for General", k) {
      OccurrenceContains(input, TOO_LONG, k);
    }
  }

  /** A follow-up about a worker names it. */
  lemma FollowUpNames(quoted: string)
    ensures exists k :: OccursAt(FollowUpText(true, quoted), quoted, k)
  {
    var n := |TimeoutPrefix + "CCC started session "|;
    var rest := FollowUpText(true, quoted)[n + |quoted|..];
    assert FollowUpText(true, quoted) == TimeoutPrefix + "CCC started session " + quoted + rest;
    assert OccursAt(FollowUpText(true, quoted), quoted, n);
  }

  /** The turn of General that timed out last before row `i`. */
  predicate TimedOutLast(ts: seq<Turn>, i: nat, k: nat) {
    && k < i <= |ts| && ts[k].bot == GENERAL && ts[k].err == TimedOut
    && forall j :: k < j < i ==> ts[j].bot != GENERAL || ts[j].err != TimedOut
  }

  lemma {:induction false} LastTimeoutIs(ts: seq<Turn>, i: nat)
    requires i <= |ts|
    ensures var k := LastTimeout(ts, i);
            if k < |ts| then TimedOutLast(ts, i, k) else forall j :: 0 <= j < i ==>
              ts[j].bot != GENERAL || ts[j].err != TimedOut
  {
    if i > 0 {
      LastTimeoutIs(ts, i - 1);
    }
  }

  /** Message `r` of General wakes a bot, and was sent since row `i` was created or, when that holds a
      follow-up, since the turn that timed out last began. */
  ghost predicate InWindow(s: State, i: nat, r: nat) {
    && i < |s.turns| && r < |s.inbox| && s.inbox[r].from == Some(GENERAL) && s.inbox[r].wake
    && (|| s.inbox[r].created >= s.turns[i].created
        || (&& IsFollowUp(Text(s.turns[i].parts))
            && exists k: nat :: TimedOutLast(s.turns, i, k) && s.inbox[r].created >= Began(s.turns[k])))
  }

  function Began(t: Turn): nat {
    match t.started
    case Some(at) => at
    case None => t.created
  }

  /** General has handed the work off itself if and only if there is such a message. */
  lemma SentIff(s: State, i: nat)
    requires i < |s.turns|
    ensures Sent(s, i) <==> exists r: nat :: InWindow(s, i, r)
  {
    hide IsFollowUp, Text;
    LastTimeoutIs(s.turns, i);
    var since, k := HandoffSince(s.turns, i), LastTimeout(s.turns, i);
    hide LastTimeout;
    if Sent(s, i) {
      var r :| 0 <= r < |s.inbox| && s.inbox[r].from == Some(GENERAL) && s.inbox[r].wake && s.inbox[r].created >= since;
      assert InWindow(s, i, r);
    }
    if r: nat :| InWindow(s, i, r) {
      assert s.inbox[r].created >= since;
    }
  }

  lemma {:induction false} NewestOf(ts: seq<Turn>, n: nat, limit: nat)
    requires n <= |ts|
    ensures var k := NewestRequest(ts, n, limit);
            if k < |ts| then k < n && Asks(ts, k) && OwnerRows(ts, k + 1, n) < limit && forall j :: k < j < n ==> !Asks(ts, j)
            else forall j :: 0 <= j < n && Asks(ts, j) ==> OwnerRows(ts, j + 1, n) >= limit
  {
    hide IsRequest, Text;
    if n > 0 && limit > 0 {
      NewestOf(ts, n - 1, limit);
      NewestOf(ts, n - 1, limit - 1);
    }
  }

  /** The row that is read for the request, when the turn does not begin with one: the newest of the owner's
      last thirty rows that asks for something; none if none of them does. */
  lemma NewestIs(ts: seq<Turn>)
    ensures var k := NewestRequest(ts, |ts|, REQUESTS_READ);
            if k < |ts| then Asks(ts, k) && OwnerRows(ts, k + 1, |ts|) < 30 && forall j :: k < j < |ts| ==> !Asks(ts, j)
            else forall j :: 0 <= j < |ts| && Asks(ts, j) ==> OwnerRows(ts, j + 1, |ts|) >= 30
  {
    hide IsRequest, Text;
    NewestOf(ts, |ts|, REQUESTS_READ);
  }

  /** A request is an input that is not blank and no follow-up. */
  lemma RequestIff(input: string)
    ensures IsRequest(input) <==> TrimSpace(input) != "" && !exists k :: OccursAt(input, "too long for General", k)
  {
    hide TrimSpace, OccursAt, IsFollowUp;
    FollowUpIff(input);
  }

  // ----- what is started -----

  /** The end of a turn of General comes to the hand-off: a worker is started if and only if the turn timed
      out, or ended well and held a follow-up, and a worker is due; nothing but that happens. */
  lemma HandOffIff(s: State, c: Closing)
    requires GENERAL in s.closing && s.closing[GENERAL] == c && c.turn < |s.turns| && c.phase == Answered
    ensures var r := GoOn(s, GENERAL);
            var ended := c.out.err == TimedOut || (c.out.err == Success && IsFollowUp(Text(s.turns[c.turn].parts)));
            var worker := ended && GetsWorker(s, c.turn, c.out.spawnFails);
            && r.spawned == s.spawned + (if worker then [c.turn] else [])
            && r.inbox == s.inbox + (if worker then [FirstPrompt(s, LastOwnerRequest(s.turns, c.turn))] else [])
            && r == s.(spawned := r.spawned, inbox := r.inbox, bots := s.bots + (if worker then 1 else 0),
                       closing := s.closing[GENERAL := c.(phase := Handed(worker))])
  {
    SpawnIs(s, c.turn, c.out);
    hide Handoff, IsFollowUp, Text, LastOwnerRequest, HandedOff, HandoffSince, FirstPrompt;
  }

  /** It comes to the follow-up: one is queued if and only if the turn timed out and a follow-up is due. */
  lemma FollowUpAtEnd(s: State, c: Closing, worker: bool)
    requires GENERAL in s.closing && s.closing[GENERAL] == c && c.turn < |s.turns| && c.phase == Handed(worker)
    ensures var r := GoOn(s, GENERAL);
            && r.turns == s.turns + (if c.out.err == TimedOut && FollowUpDue(s, c.turn, worker)
                                     then [NewTurn(s, GENERAL, System, FollowUpText(worker, c.out.quoted))] else [])
            && r == s.(turns := r.turns, closing := s.closing[GENERAL := c.(phase := FollowedUp)])
  {
    hide IsFollowUp, Text, LastOwnerRequest, HandedOff, HandoffSince, FollowUpText;
  }

  /** The end of a worker's turn starts and queues nothing. */
  lemma WorkersStartNothing(s: State, bot: nat)
    requires bot != GENERAL && bot in s.closing && s.closing[bot].turn < |s.turns| && !s.closing[bot].phase.FollowedUp?
    ensures GoOn(s, bot) == s.(closing := GoOn(s, bot).closing)
  {
  }
}
