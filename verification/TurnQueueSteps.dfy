/** What each operation on the queue does, row by row: which rows change, how, and that the rest stays. */
module TurnQueueSteps {
  import opened GoStrings
  import opened TurnQueue
  import opened TurnQueueSafety
  import opened TurnQueueHistory

  // ----- stop and archive -----

  ghost predicate Dropped(ts: seq<Turn>, ts': seq<Turn>, bot: nat, reason: Reason) {
    && |ts'| == |ts|
    && (forall i :: 0 <= i < |ts| && ts[i].bot == bot && ts[i].status == Queued ==>
          ts'[i] == ts[i].(status := Failed, reason := reason))
    && (forall i :: 0 <= i < |ts| && (ts[i].bot != bot || ts[i].status != Queued) ==> ts'[i] == ts[i])
  }

  /** After /stop no turn of the bot is queued; every one that was is failed as dropped, and nothing else
      has changed, the running turn least of all. */
  lemma StopDrops(s: State, bot: nat)
    ensures var r := Stop(s, bot);
            && Dropped(s.turns, r.turns, bot, DroppedByStop) && r == s.(turns := r.turns)
            && forall i :: 0 <= i < |r.turns| && r.turns[i].bot == bot ==> r.turns[i].status != Queued
  {
  }

  /** General is not archived. Any other bot is, waits for nothing any more, and has no queued turn; those
      it had are failed. */
  lemma ArchiveDrops(s: State, bot: nat)
    ensures Archive(s, GENERAL) == s
    ensures bot == GENERAL || (var r := Archive(s, bot);
              && Dropped(s.turns, r.turns, bot, SessionArchived)
              && r == s.(turns := r.turns, archived := s.archived + {bot}, waiting := s.waiting - {bot})
              && forall i :: 0 <= i < |r.turns| && r.turns[i].bot == bot ==> r.turns[i].status != Queued)
  {
  }

  // ----- fold and start -----

  /** What is folded is all that was queued, and nothing else. */
  lemma {:induction false} FoldedParts(ts: seq<Turn>, bot: nat, n: nat, p: Part)
    requires n <= |ts|
    ensures p in FoldParts(ts, bot, n) <==>
        exists k :: 0 <= k < n && ts[k].bot == bot && ts[k].status == Queued && p in ts[k].parts
  {
    if n > 0 {
      FoldedParts(ts, bot, n - 1, p);
    }
  }

  /** What a start does to row `m` of the inbox: it follows its turn into the head, and a quiet message to
      the bot is read with this turn. */
  function RowAfterStart(ts: seq<Turn>, m: Row, bot: nat, h: nat): Row {
    var turn := if m.turn.Some? && m.turn.value < |ts| && ts[m.turn.value].bot == bot && ts[m.turn.value].status == Queued
                then Some(h) else m.turn;
    var read := m.to == bot && !m.delivered && !m.wake;
    m.(delivered := m.delivered || read, turn := if read then Some(h) else turn)
  }

  /** A start runs the oldest queued turn, with all that was queued in it; the other queued turns are done
      and point to it, no other row changes, and the bot waits for nothing. It does nothing while the bot
      is inside `execute` or has nothing queued. */
  lemma StartRuns(s: State, bot: nat)
    ensures var r, h := Start(s, bot), FirstQueued(s.turns, bot);
            if bot in s.active || bot in s.closing
              || (forall k :: 0 <= k < |s.turns| ==> !IsQueued(s.turns[k], bot)) then r == s
            else
              && h < |s.turns| == |r.turns| && IsQueued(s.turns[h], bot)
              && (forall k :: 0 <= k < h ==> !IsQueued(s.turns[k], bot))
              && r.turns[h] == s.turns[h].(status := Running, started := Some(s.clock), held := s.turns[h].parts,
                                           parts := r.turns[h].parts)
              && (forall p :: p in r.turns[h].parts <==>
                    exists k :: 0 <= k < |s.turns| && IsQueued(s.turns[k], bot) && p in s.turns[k].parts)
              && (forall k :: h < k < |s.turns| && IsQueued(s.turns[k], bot) ==>
                    r.turns[k] == s.turns[k].(status := Done, reason := MergedInto(h)))
              && (forall k :: 0 <= k < |s.turns| && !IsQueued(s.turns[k], bot) ==> r.turns[k] == s.turns[k])
              && |r.inbox| == |s.inbox|
              && (forall m :: 0 <= m < |s.inbox| ==> r.inbox[m] == RowAfterStart(s.turns, s.inbox[m], bot, h))
              && r == s.(turns := r.turns, inbox := r.inbox, active := s.active[bot := h], waiting := s.waiting - {bot})
  {
    hide FoldParts, FirstQueued, Repointed;
    forall p ensures p in FoldParts(s.turns, bot, |s.turns|)
                     <==> exists k :: 0 <= k < |s.turns| && IsQueued(s.turns[k], bot) && p in s.turns[k].parts {
      FoldedParts(s.turns, bot, |s.turns|, p);
    }
    InboxAfterStart(s, bot);
  }

  lemma InboxAfterStart(s: State, bot: nat)
    ensures var box, h := Repointed(s.inbox, s.turns, bot), FirstQueued(s.turns, bot);
            |box| == |s.inbox| && forall m :: 0 <= m < |s.inbox| ==> box[m] == RowAfterStart(s.turns, s.inbox[m], bot, h)
  {
    hide FirstQueued;
  }

  // ----- the end of a turn -----

  /** Closing a row: done if and only if the turn succeeded, else failed with its error; the turn is logged
      as ended, the bot runs nothing, and the end of the turn is under way. */
  lemma FinishCloses(s: State, bot: nat, out: Outcome)
    requires bot in s.active && s.active[bot] < |s.turns| && (out.err == TimedOut ==> bot == GENERAL)
    ensures var r, i := Finish(s, bot, out), s.active[bot];
            && |r.turns| == |s.turns| && (forall k :: 0 <= k < |s.turns| && k != i ==> r.turns[k] == s.turns[k])
            && r.turns[i] == s.turns[i].(status := r.turns[i].status, reason := Ended, err := out.err)
            && (r.turns[i].status == Done <==> out.err == Success) && (r.turns[i].status == Failed <==> out.err != Success)
            && bot !in r.active
            && (forall b :: b != bot ==> (b in r.active <==> b in s.active) && (b in s.active ==> r.active[b] == s.active[b]))
            && r.finished == s.finished + [i] && bot in r.closing && r.closing[bot] == Closing(i, out, Closed)
            && r == s.(turns := r.turns, active := r.active, finished := r.finished, closing := r.closing)
  {
  }

  /** General's reply is posted when its turn succeeded, and only then; a worker's never is. */
  lemma ReplyIsPosted(s: State, bot: nat)
    requires bot in s.closing && s.closing[bot].turn < |s.turns| && s.closing[bot].phase == Closed
    ensures var c, r := s.closing[bot], GoOn(s, bot);
            && r.dm == s.dm + (if bot == GENERAL && c.out.err == Success then [Reply(c.turn, c.out.output)] else [])
            && r == s.(dm := r.dm, closing := s.closing[bot := c.(phase := Answered)])
  {
  }

  /** When the end is over, the bot waits for the owner if and only if it asked something; the other bots
      do as before. */
  lemma EndLeaves(s: State, bot: nat)
    requires bot in s.closing && s.closing[bot].turn < |s.turns| && s.closing[bot].phase == FollowedUp
    ensures var r := GoOn(s, bot);
            && bot !in r.closing && (bot in r.waiting <==> s.closing[bot].out.waiting)
            && (forall b :: b != bot ==> (b in r.waiting <==> b in s.waiting) && (b in r.closing <==> b in s.closing))
            && r.turns == s.turns && r.active == s.active
  {
    hide FallbackTexts, TrimSpace;
  }

  // ----- restart -----

  lemma {:induction false} RecoveredRows(s: State, n: nat)
    requires n <= |s.turns|
    ensures var r := RecoverUpTo(s, n);
            && r.archived == s.archived
            && forall i :: 0 <= i < |s.turns| ==> r.turns[i] == if i < n then Recovered(s, i) else s.turns[i]
  {
    if n > 0 {
      RecoveredRows(s, n - 1);
    }
  }

  /** An interrupted turn is queued again under its id, unless its bot is archived: then it has failed. */
  function Recovered(s: State, i: nat): Turn
    requires i < |s.turns|
  {
    var t := s.turns[i];
    if t.status != Running then t
    else if t.bot in s.archived then t.(status := Failed, reason := Ended, err := Fatal)
    else t.(status := Queued, started := None, err := Success)
  }

  /** After a restart every interrupted turn of a live session waits again with all its input, every one of
      an archived session has failed, no other row has changed, and nothing is running or ending. Bots that
      waited for the owner still do, and no message is touched. */
  lemma RestartRequeues(s: State)
    requires StatusesOk(s.turns)
    ensures var r := Restart(s);
            && |r.turns| == |s.turns| && (forall i :: 0 <= i < |s.turns| ==> r.turns[i] == Recovered(s, i))
            && r.active == map[] && r.closing == map[]
            && r.inbox == s.inbox && r.waiting == s.waiting && r.archived == s.archived && r.dm == s.dm && r.clock == s.clock
  {
    RecoveredRows(s, |s.turns|);
    RecoverStays(s, |s.turns|);
    hide RecoverUpTo, StatusesOk;
  }

  // ----- messages -----

  /** A message is refused if and only if it is blank or to oneself; else it is in the inbox, trimmed and
      undelivered, and nothing else changes. */
  lemma SendAdds(s: State, from: nat, to: nat, body: string, wake: bool, relay: bool)
    ensures var r := Send(s, from, to, body, wake, relay);
            if TrimSpace(body) == "" || from == to then r == s
            else
              && |r.inbox| == |s.inbox| + 1 && r.inbox[..|s.inbox|] == s.inbox && r == s.(inbox := r.inbox)
              && var m := r.inbox[|s.inbox|];
              && m.from == Some(from) && m.to == to && m.text == TrimSpace(body) && m.wake == wake && m.relay == relay
              && m.created == s.clock && !m.delivered && m.turn == None
  {
    hide TrimSpace;
  }

  /** A report goes to General, wakes it and is to be relayed; an ordinary message is not. */
  lemma ReportAdds(s: State, from: nat, to: nat, body: string, wake: bool)
    requires TrimSpace(body) != ""
    ensures from != GENERAL ==>
              var r := Next(s, DoReport(from, body));
              && |r.inbox| == |s.inbox| + 1
              && var m := r.inbox[|s.inbox|];
              m.from == Some(from) && m.to == GENERAL && m.wake && m.relay && m.text == TrimSpace(body)
    ensures from != to ==>
              var r := Next(s, DoSend(from, to, body, wake));
              |r.inbox| == |s.inbox| + 1 && r.inbox[|s.inbox|].wake == wake && !r.inbox[|s.inbox|].relay
  {
    hide TrimSpace;
    NextIs(s, DoReport(from, body));
    NextIs(s, DoSend(from, to, body, wake));
    SendAdds(s, from, GENERAL, body, true, true);
    SendAdds(s, from, to, body, wake, false);
  }

  /** Unarchiving a bot, a bot's getting its answer, and time touch no turn and no message. */
  lemma QuietSteps(s: State, bot: nat)
    ensures Next(s, DoUnarchive(bot)) == s.(archived := s.archived - {bot}, waiting := s.waiting - {bot})
    ensures Next(s, DoUnpark(bot)) == s.(waiting := s.waiting - {bot})
    ensures Next(s, DoTick) == s.(clock := s.clock + 1)
  {
    NextIs(s, DoUnarchive(bot));
    NextIs(s, DoUnpark(bot));
    NextIs(s, DoTick);
  }

  // ----- what the owner and General are told -----

  /** The owner reads a report to the end, or its first 1200 bytes. */
  lemma CutIs(report: string)
    ensures var t := TrimSpace(report);
            if |t| <= 1200 then Cut(report) == t
            else |Cut(report)| == 1203 && Cut(report)[..1200] == t[..1200] && HasSuffix(Cut(report), "...")
  {
    hide TrimSpace;
  }

  /** General is given a worker's answer to the end, or its first 4000 bytes. */
  lemma AnswerIs(out: Outcome)
    requires TrimSpace(out.output) != ""
    ensures var t := TrimSpace(out.output);
            if |t| <= 4000 then AnswerText(out) == t
            else |AnswerText(out)| == 4003 && AnswerText(out)[..4000] == t[..4000] && HasSuffix(AnswerText(out), "...")
  {
    TruncateKeeps(out.output, WORKER_RELAY_MAX);
    hide TrimSpace;
  }

  /** A fallback names the worker, unless its report does or it has no name. */
  lemma FallbackNames(name: string, report: string, named: bool)
    requires TrimSpace(report) != ""
    ensures var n, text := TrimSpace(name), OwnerRelayFallback(name, report, named);
            text == if n == "" || named then Cut(report) else n + ": " + Cut(report)
  {
    TruncateKeeps(report, RELAY_MAX);
    hide TrimSpace;
  }

  /** `t` is the fallback for one of the reports that turn `i` carries. */
  ghost predicate IsFallback(inbox: seq<Row>, n: nat, i: nat, out: Outcome, t: string)
    requires n <= |inbox|
  {
    t != "" && exists r :: 0 <= r < n && inbox[r].relay && inbox[r].turn == Some(i) && t == TextAt(inbox, r, out)
  }

  function TextAt(inbox: seq<Row>, r: nat, out: Outcome): string
    requires r < |inbox|
  {
    var from := inbox[r].from;
    var name := if from.Some? && from.value in out.names then out.names[from.value] else "session";
    OwnerRelayFallback(name, inbox[r].text, r in out.named)
  }

  /** The fallbacks at the end of a turn are those of the reports it carries. */
  lemma {:induction false} FallbackTextsAre(inbox: seq<Row>, n: nat, i: nat, out: Outcome)
    requires n <= |inbox|
    ensures forall t :: t in FallbackTexts(inbox, n, i, out) <==> IsFallback(inbox, n, i, out, t)
  {
    if n > 0 {
      FallbackTextsAre(inbox, n - 1, i, out);
      var row, text := inbox[n - 1], TextAt(inbox, n - 1, out);
      hide OwnerRelayFallback, SenderName;
      forall t ensures IsFallback(inbox, n, i, out, t) <==>
                         IsFallback(inbox, n - 1, i, out, t) || (t == text && t != "" && row.relay && row.turn == Some(i)) {
      }
    }
  }

  predicate Distinct(texts: seq<string>) {
    forall j, k :: 0 <= j < k < |texts| ==> texts[j] != texts[k]
  }

  lemma DistinctAppend(texts: seq<string>, text: string)
    requires Distinct(texts) && text !in texts
    ensures Distinct(texts + [text])
  {
  }

  /** Each text is posted once, though several reports have it. */
  lemma {:induction false} FallbacksOnce(inbox: seq<Row>, n: nat, i: nat, out: Outcome)
    requires n <= |inbox|
    ensures Distinct(FallbackTexts(inbox, n, i, out))
  {
    hide OwnerRelayFallback, Distinct;
    if n == 0 {
      DistinctNone();
    } else {
      FallbacksOnce(inbox, n - 1, i, out);
      var before, text := FallbackTexts(inbox, n - 1, i, out), TextAt(inbox, n - 1, out);
      if text !in before {
        DistinctAppend(before, text);
      }
    }
  }

  lemma DistinctNone()
    ensures Distinct([])
  {
  }

  /** After a reply that is not blank the owner is told nothing more; else the fallback of every report
      that the turn carries is posted. */
  lemma OwnerIsTold(s: State, i: nat, out: Outcome)
    ensures var r := FulfillOwnerRelay(s, i, out);
            && r == s.(dm := r.dm) && |s.dm| <= |r.dm| && r.dm[..|s.dm|] == s.dm
            && (out.err == Success && TrimSpace(out.output) != "" ==> r.dm == s.dm)
            && (!(out.err == Success && TrimSpace(out.output) != "") ==>
                  (forall t :: IsFallback(s.inbox, |s.inbox|, i, out, t) <==> Fallback(i, t) in r.dm[|s.dm|..])
                  && (forall k :: |s.dm| <= k < |r.dm| ==> r.dm[k].Fallback? && r.dm[k].turn == i)
                  && (forall j, k :: |s.dm| <= j < k < |r.dm| ==> r.dm[j] != r.dm[k]))
  {
    hide TrimSpace, FallbackTexts, IsFallback;
    var texts := FallbackTexts(s.inbox, |s.inbox|, i, out);
    FallbackTextsAre(s.inbox, |s.inbox|, i, out);
    FallbacksOnce(s.inbox, |s.inbox|, i, out);
    var r := FulfillOwnerRelay(s, i, out);
    if !(out.err == Success && TrimSpace(out.output) != "") {
      assert r.dm == s.dm + Fallbacks(i, texts) && r.dm[|s.dm|..] == Fallbacks(i, texts);
      assert forall k :: 0 <= k < |texts| ==> r.dm[|s.dm| + k] == Fallback(i, texts[k]);
      forall t ensures t in texts <==> Fallback(i, t) in Fallbacks(i, texts) {
        PostedIff(i, texts, t);
      }
      forall j, k | |s.dm| <= j < k < |r.dm| ensures r.dm[j] != r.dm[k] {
        assert texts[j - |s.dm|] != texts[k - |s.dm|];
      }
    }
  }

  lemma PostedIff(i: nat, texts: seq<string>, t: string)
    ensures t in texts <==> Fallback(i, t) in Fallbacks(i, texts)
  {
    if t in texts {
      var k :| 0 <= k < |texts| && texts[k] == t;
      assert Fallbacks(i, texts)[k] == Fallback(i, t);
    }
  }

  /** A report of the worker is pending if and only if there is an undelivered one. */
  lemma PendingIff(inbox: seq<Row>, from: nat)
    ensures PendingRelay(inbox, from) <==>
              exists r :: 0 <= r < |inbox| && inbox[r].from == Some(from) && inbox[r].to == GENERAL && inbox[r].relay
                && !inbox[r].delivered
  {
    NoneBehind(inbox, from, |inbox|);
  }

  lemma {:induction false} NoneBehind(inbox: seq<Row>, from: nat, n: nat)
    requires n <= |inbox|
    ensures PendingRow(inbox, from, n) == |inbox| ==>
              forall r :: 0 <= r < n ==> !(IsReport(inbox[r], from) && !inbox[r].delivered)
  {
    if n > 0 {
      NoneBehind(inbox, from, n - 1);
    }
  }
}
