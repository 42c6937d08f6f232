/** The runner's methods, row update by row update.
 *
 * Each is proved against a transition of `TurnQueue`, so what holds of every run of the turn queue holds of
 * the methods; where the program does several row updates in one method, the method here does the same ones in
 * the same order.
 */
module Runners {
  import opened GoStrings
  import opened TurnQueue
  import Loops = TurnQueueLoops
  import Safety = TurnQueueSafety

  // ----- joining inputs -----

  lemma {:induction false} JoinAppend(a: seq<string>, b: seq<string>, sep: string)
    requires a != [] && b != []
    ensures Join(a + b, sep) == Join(a, sep) + sep + Join(b, sep)
  {
    assert (a + b)[0] == a[0] && (a + b)[1..] == a[1..] + b;
    if |a| == 1 {
      assert a[1..] + b == b;
    } else {
      JoinAppend(a[1..], b, sep);
      assert a[0] + sep + (Join(a[1..], sep) + sep + Join(b, sep)) == a[0] + sep + Join(a[1..], sep) + sep + Join(b, sep);
    }
  }

  lemma JoinOne(s: string, sep: string)
    ensures Join([s], sep) == s
  {
  }

  /** Joining the inputs of two turns is the input of the joined pieces. */
  lemma TextAppend(a: seq<Part>, b: seq<Part>)
    requires a != [] && b != []
    ensures Text(a + b) == Text(a) + "\n\n" + Text(b)
  {
    assert Texts(a + b) == Texts(a) + Texts(b);
    JoinAppend(Texts(a), Texts(b), "\n\n");
  }

  /** How an inbox row changes while the rows before `i` are folded into `head`. */
  function Moved(row: Row, ts: seq<Turn>, bot: nat, head: nat, i: nat): Row {
    if row.turn.Some? && head < row.turn.value < |ts| && row.turn.value < i && IsQueued(ts[row.turn.value], bot)
    then row.(turn := Some(head)) else row
  }

  /** How a turn row changes while the rows before `i` are folded into `head`. */
  function MergedRow(ts: seq<Turn>, k: nat, bot: nat, head: nat, i: nat): Turn
    requires k < |ts|
  {
    if head < k < i && IsQueued(ts[k], bot) then ts[k].(status := Done, reason := MergedInto(head)) else ts[k]
  }

  function MoveRow(row: Row, head: nat, i: nat): Row {
    if row.turn == Some(i) then row.(turn := Some(head)) else row
  }

  lemma FoldPartsNone(ts: seq<Turn>, bot: nat)
    ensures FoldParts(ts, bot, 0) == []
  {
  }

  lemma FoldPartsMore(ts: seq<Turn>, bot: nat, i: nat)
    requires i < |ts|
    ensures FoldParts(ts, bot, i + 1) == if IsQueued(ts[i], bot) then FoldParts(ts, bot, i) + ts[i].parts else FoldParts(ts, bot, i)
    ensures FoldParts(ts, bot, i) == [] && IsQueued(ts[i], bot) ==> FoldParts(ts, bot, i + 1) == ts[i].parts
  {
    assert FoldParts(ts, bot, i) + [] == FoldParts(ts, bot, i);
  }

  lemma ClosedMore(ts: seq<Turn>, bot: nat, head: nat, i: nat)
    requires head < i < |ts|
    ensures forall k :: 0 <= k < |ts| && k != i ==> MergedRow(ts, k, bot, head, i + 1) == MergedRow(ts, k, bot, head, i)
    ensures MergedRow(ts, i, bot, head, i) == ts[i]
    ensures MergedRow(ts, i, bot, head, i + 1)
         == if IsQueued(ts[i], bot) then ts[i].(status := Done, reason := MergedInto(head)) else ts[i]
  {
  }

  lemma MovedMore(box: seq<Row>, ts: seq<Turn>, bot: nat, head: nat, i: nat)
    requires head < i < |ts|
    ensures forall r :: 0 <= r < |box| ==>
      Moved(box[r], ts, bot, head, i + 1)
      == if IsQueued(ts[i], bot) then MoveRow(Moved(box[r], ts, bot, head, i), head, i) else Moved(box[r], ts, bot, head, i)
  {
  }

  lemma NothingClosed(ts: seq<Turn>, bot: nat, head: nat, i: nat)
    requires i <= head + 1
    ensures forall k :: 0 <= k < |ts| ==> MergedRow(ts, k, bot, head, i) == ts[k]
  {
  }

  lemma NothingMoved(box: seq<Row>, ts: seq<Turn>, bot: nat, head: nat, i: nat)
    requires i <= head + 1
    ensures forall r :: 0 <= r < |box| ==> Moved(box[r], ts, bot, head, i) == box[r]
  {
  }

  lemma JoinMore(inputs: seq<string>, parts: seq<Part>, more: seq<Part>)
    requires inputs != []
    ensures parts != [] && more != [] && Join(inputs, "\n\n") == Text(parts)
        ==> Join(inputs + [Text(more)], "\n\n") == Text(parts + more)
  {
    hide Text, Join;
    JoinAppend(inputs, [Text(more)], "\n\n");
    JoinOne(Text(more), "\n\n");
    if parts != [] && more != [] {
      TextAppend(parts, more);
    }
  }

  // ----- delivery -----

  predicate Pending(row: Row, from: Option<nat>) {
    !row.delivered && row.wake && (from == None || row.from == from)
  }

  function SenderLabel(row: Row, names: map<nat, string>): string {
    if row.from == None then "the owner"
    else if row.from.value in names then names[row.from.value]
    else "another bot"
  }

  /** Delivering, in order, what is pending from `from` among the first `n` rows. */
  function DeliverUpTo(s: State, n: nat, from: Option<nat>, names: map<nat, string>): (r: State)
    requires n <= |s.inbox|
    ensures |r.inbox| == |s.inbox|
    ensures forall k :: n <= k < |s.inbox| ==> r.inbox[k] == s.inbox[k]
    ensures forall k :: 0 <= k < n ==> !Pending(r.inbox[k], from)
  {
    if n == 0 then s
    else
      var before := DeliverUpTo(s, n - 1, from, names);
      if Pending(s.inbox[n - 1], from) then Deliver(before, n - 1, SenderLabel(s.inbox[n - 1], names)) else before
  }

  /** How many of the first `n` messages are pending. */
  function CountPending(inbox: seq<Row>, n: nat, from: Option<nat>): nat
    requires n <= |inbox|
  {
    if n == 0 then 0 else CountPending(inbox, n - 1, from) + if Pending(inbox[n - 1], from) then 1 else 0
  }

  /** Each pending message gets a turn of its own, in the order of the inbox, with its whole text; the turns
      that are there, and all other messages, stay as they are. */
  lemma {:induction false} DeliveredInOrder(s: State, n: nat, from: Option<nat>, names: map<nat, string>)
    requires n <= |s.inbox|
    ensures var r := DeliverUpTo(s, n, from, names);
            && |r.turns| == |s.turns| + CountPending(s.inbox, n, from) && r.turns[..|s.turns|] == s.turns
            && r == s.(turns := r.turns, inbox := r.inbox)
            && (forall k :: 0 <= k < |s.inbox| && !(k < n && Pending(s.inbox[k], from)) ==> r.inbox[k] == s.inbox[k])
            && (forall k :: 0 <= k < n && Pending(s.inbox[k], from) ==> IsDelivered(s, r, k, from, names))
  {
    hide Label, HasSuffix, Deliver, Pending, SenderLabel, IsDelivered;
    if n > 0 {
      var m, r := DeliverUpTo(s, n - 1, from, names), DeliverUpTo(s, n, from, names);
      DeliveredInOrder(s, n - 1, from, names);
      if Pending(s.inbox[n - 1], from) {
        DeliverOne(m, n - 1, SenderLabel(s.inbox[n - 1], names), from);
        NowDelivered(s, m, n - 1, from, names);
        forall k | 0 <= k < n - 1 && Pending(s.inbox[k], from) ensures IsDelivered(s, r, k, from, names) {
          StaysDelivered(s, m, r, k, from, names);
        }
      }
    }
  }

  lemma NowDelivered(s: State, m: State, k: nat, from: Option<nat>, names: map<nat, string>)
    requires k < |s.inbox| == |m.inbox| && m.inbox[k] == s.inbox[k] && Pending(s.inbox[k], from)
    requires |m.turns| == |s.turns| + CountPending(s.inbox, k, from)
    ensures IsDelivered(s, Deliver(m, k, SenderLabel(s.inbox[k], names)), k, from, names)
  {
    hide Label, HasPrefix, HasSuffix, CountPending;
    LabelKeeps(SenderLabel(s.inbox[k], names), m.inbox[k].text);
  }

  lemma StaysDelivered(s: State, m: State, r: State, k: nat, from: Option<nat>, names: map<nat, string>)
    requires IsDelivered(s, m, k, from, names) && |m.turns| <= |r.turns| && r.turns[..|m.turns|] == m.turns
    requires |m.inbox| == |r.inbox| && r.inbox[k] == m.inbox[k]
    ensures IsDelivered(s, r, k, from, names)
  {
    hide HasPrefix, HasSuffix, CountPending;
  }

  /** Message `k` has become the next turn after those of the pending messages before it, under the name of
      its sender. */
  ghost predicate IsDelivered(s: State, r: State, k: nat, from: Option<nat>, names: map<nat, string>) {
    && k < |s.inbox| == |r.inbox|
    && var i := |s.turns| + CountPending(s.inbox, k, from);
    && i < |r.turns| && r.inbox[k] == s.inbox[k].(delivered := true, turn := Some(i))
    && var t := r.turns[i];
    && t.bot == s.inbox[k].to && t.source == FromBot && t.status == Queued && |t.parts| == 1
    && HasSuffix(t.parts[0].text, ":\n" + s.inbox[k].text)
    && var sender := s.inbox[k].from;
    HasPrefix(t.parts[0].text, "Message from " + if sender == None then "the owner"
                                                else if sender.value in names then names[sender.value] else "another bot")
  }

  lemma DeliverOne(m: State, k: nat, sender: string, from: Option<nat>)
    requires k < |m.inbox| && Pending(m.inbox[k], from)
    ensures var r, i := Deliver(m, k, sender), |m.turns|;
            && |r.turns| == i + 1 && r.turns[..i] == m.turns
            && r == m.(turns := r.turns, inbox := m.inbox[k := m.inbox[k].(delivered := true, turn := Some(i))])
  {
    hide Label;
  }

  /** `closing`, `finished`, `spawned`, `cut` and `answers` are no data of the program: where the goroutine that
      ends a turn is, and the history that the theorems speak of. */
  class Runner {
    var turns: seq<Turn>
    var inbox: seq<Row>
    var archived: set<nat>
    var waiting: set<nat>
    var active: map<nat, nat>
    var bots: nat
    var clock: nat
    var dm: seq<Post>
    var wake: map<nat, bool>
    var loops: seq<Loops.Loop>
    ghost var closing: map<nat, Closing>
    ghost var finished: seq<nat>
    ghost var spawned: seq<nat>
    ghost var cut: set<nat>
    ghost var answers: map<nat, Relayed>

    ghost function Snapshot(): State
      reads this
    {
      State(turns, inbox, archived, waiting, active, closing, bots, clock, dm, finished, spawned, cut, answers)
    }

    constructor ()
      ensures Snapshot() == Empty && wake == map[] && loops == []
    {
      turns, inbox, archived, waiting, active, bots, clock, dm := [], [], {}, {}, map[], 1, 0, [];
      wake, loops := map[], [];
      closing, finished, spawned, cut, answers := map[], [], [], {}, map[];
    }

    /** `kick`: check, create and start the loop under the lock, then send without blocking. */
    method Kick(bot: nat)
      modifies this`wake, this`loops
      ensures (wake, loops) == Loops.Kicked(old(wake), old(loops), bot)
    {
      if bot !in wake {
        wake := wake[bot := false];
        loops := loops + [Loops.Loop(bot, Loops.Idle)];
      }
      if !wake[bot] {
        wake := wake[bot := true];
      }
      assert old(bot in wake && wake[bot]) ==> old(wake)[bot := true] == wake;
    }

    /** A new row at the end of the table. */
    method Insert(bot: nat, source: Source, text: string) returns (id: nat)
      modifies this`turns
      ensures Snapshot() == TurnQueue.Enqueue(old(Snapshot()), bot, source, text)
      ensures id == |old(turns)| && Text(turns[id].parts) == text
    {
      id := |turns|;
      turns := turns + [Turn(bot, source, [Part(id, text)], [], Queued, Open, Success, clock, None)];
      assert Texts(turns[id].parts) == [text];
    }

    method Enqueue(bot: nat, source: Source, text: string) returns (id: nat)
      modifies this`turns, this`wake, this`loops
      ensures Snapshot() == TurnQueue.Enqueue(old(Snapshot()), bot, source, text)
      ensures id == |old(turns)| && Text(turns[id].parts) == text
      ensures (wake, loops) == Loops.Kicked(old(wake), old(loops), bot)
    {
      id := Insert(bot, source, text);
      Kick(bot);
    }

    method Stop(bot: nat)
      modifies this
      ensures Snapshot() == TurnQueue.Stop(old(Snapshot()), bot)
    {
      DropQueued(bot, DroppedByStop);
    }

    method Archive(bot: nat) returns (ok: bool)
      modifies this
      ensures ok <==> bot != GENERAL
      ensures Snapshot() == TurnQueue.Archive(old(Snapshot()), bot)
    {
      if bot == GENERAL {
        return false;
      }
      archived, waiting := archived + {bot}, waiting - {bot};
      DropQueued(bot, SessionArchived);
      return true;
    }

    /** `UPDATE turns SET status = failed WHERE bot_id = ? AND status = queued`. */
    method DropQueued(bot: nat, reason: Reason)
      modifies this`turns
      ensures turns == DropQueue(old(turns), bot, reason)
    {
      var i := 0;
      while i < |turns|
        invariant i <= |turns| == |old(turns)|
        invariant forall k :: 0 <= k < |turns| ==> turns[k] == if k < i then DropQueue(old(turns), bot, reason)[k] else old(turns)[k]
      {
        if IsQueued(turns[i], bot) {
          turns := turns[i := turns[i].(status := Failed, reason := reason)];
        }
        i := i + 1;
      }
    }

    /** The first row of the query for queued turns. */
    method OldestQueued(bot: nat) returns (head: nat)
      ensures head == FirstQueued(turns, bot) && FoldParts(turns, bot, head) == []
    {
      hide FoldParts;
      FoldPartsNone(turns, bot);
      head := 0;
      while head < |turns| && !IsQueued(turns[head], bot)
        invariant head <= |turns| && FirstQueued(turns, bot, head) == FirstQueued(turns, bot)
        invariant FoldParts(turns, bot, head) == []
      {
        FoldPartsMore(turns, bot, head);
        head := head + 1;
      }
    }

    /** `foldQueue`: everything queued for the bot is folded into the oldest queued turn. */
    method FoldQueue(bot: nat) returns (head: nat, parts: seq<Part>, input: string, ok: bool)
      modifies this`turns, this`inbox
      ensures head == FirstQueued(old(turns), bot) && ok == (head < |old(turns)|)
      ensures !ok ==> turns == old(turns) && inbox == old(inbox)
      ensures ok ==> parts == FoldParts(old(turns), bot, |old(turns)|)
      ensures ok && (forall k :: 0 <= k < |old(turns)| ==> old(turns)[k].parts != []) ==> input == Text(parts)
      ensures |turns| == |old(turns)| && |inbox| == |old(inbox)|
      ensures forall k :: 0 <= k < |turns| ==> turns[k] == MergedRow(old(turns), k, bot, head, |turns|)
      ensures forall r :: 0 <= r < |inbox| ==> inbox[r] == Moved(old(inbox)[r], old(turns), bot, head, |turns|)
    {
      hide Text, Join, MergedRow, Moved, MoveRow, FoldParts;
      ghost var ts, box := turns, inbox;
      parts, input, ok := [], "", false;
      head := OldestQueued(bot);
      hide *;
      if head == |turns| {
        NothingClosed(ts, bot, head, head);
        NothingMoved(box, ts, bot, head, head);
        return;
      }
      parts, ok := turns[head].parts, true;
      var inputs := [Text(parts)];
      assert Join(inputs, "\n\n") == Text(parts) by {
        JoinOne(Text(parts), "\n\n");
      }
      FoldPartsMore(ts, bot, head);
      var i := head + 1;
      NothingClosed(ts, bot, head, i);
      NothingMoved(box, ts, bot, head, i);
      while i < |turns|
        invariant head < i <= |turns| == |ts| && |inbox| == |box|
        invariant parts == FoldParts(ts, bot, i)
        invariant inputs != []
        invariant (forall k :: 0 <= k < |ts| ==> ts[k].parts != []) ==> parts != [] && Join(inputs, "\n\n") == Text(parts)
        invariant forall k :: 0 <= k < |turns| ==> turns[k] == MergedRow(ts, k, bot, head, i)
        invariant forall r :: 0 <= r < |inbox| ==> inbox[r] == Moved(box[r], ts, bot, head, i)
      {
        if IsQueued(turns[i], bot) {
          JoinMore(inputs, parts, turns[i].parts);
          parts, inputs := parts + turns[i].parts, inputs + [Text(turns[i].parts)];
          CloseMerged(head, i);
        }
        FoldPartsMore(ts, bot, i);
        ClosedMore(ts, bot, head, i);
        MovedMore(box, ts, bot, head, i);
        i := i + 1;
      }
      input := Join(inputs, "\n\n");
    }

    /** The two updates for one merged turn: its row is closed, and its inbox rows go to the head. */
    method CloseMerged(head: nat, i: nat)
      requires head < |turns| && i < |turns|
      modifies this`turns, this`inbox
      ensures turns == old(turns)[i := old(turns)[i].(status := Done, reason := MergedInto(head))]
      ensures |inbox| == |old(inbox)|
      ensures forall r :: 0 <= r < |inbox| ==> inbox[r] == MoveRow(old(inbox)[r], head, i)
    {
      turns := turns[i := turns[i].(status := Done, reason := MergedInto(head))];
      var rows := inbox;
      inbox := seq(|rows|, r requires 0 <= r < |rows| =>
        if rows[r].turn == Some(i) then rows[r].(turn := Some(head)) else rows[r]);
    }

    /** `runNext` up to the point where the engine is spawned: refused while the bot waits for the owner
        or is archived. Nothing here looks whether the bot is running a turn; that it is not follows from
        `TurnQueueLoops.OneLoopOneTurn`. */
    method StartNext(bot: nat) returns (started: bool, input: string)
      modifies this`turns, this`inbox, this`active, this`waiting
      ensures started == (bot !in old(waiting) && bot !in archived && FirstQueued(old(turns), bot) < |old(turns)|)
      ensures Snapshot() == if started then StartAny(old(Snapshot()), bot) else old(Snapshot())
      ensures started && (forall k :: 0 <= k < |old(turns)| ==> old(turns)[k].parts != []) ==> input == Text(turns[active[bot]].parts)
    {
      if bot in waiting || bot in archived {
        return false, "";
      }
      ghost var ts, box := turns, inbox;
      var head, parts, text, ok := FoldQueue(bot);
      if !ok {
        return false, "";
      }
      turns := turns[head := turns[head].(status := Running, started := Some(clock), parts := parts, held := turns[head].parts)];
      active := active[bot := head];
      waiting := waiting - {bot};
      var rows := inbox;
      inbox := seq(|rows|, r requires 0 <= r < |rows| =>
        if rows[r].to == bot && !rows[r].delivered && !rows[r].wake then rows[r].(delivered := true, turn := Some(head))
        else rows[r]);
      hide Text, FoldParts, FirstQueued;
      assert turns == Folded(ts, bot, clock);
      assert inbox == Repointed(box, ts, bot);
      return true, text;
    }

    /** The row update at the end of `execute`. */
    method EndTurn(bot: nat, out: Outcome) returns (i: nat)
      requires bot in active && active[bot] < |turns| && (out.err == TimedOut ==> bot == GENERAL)
      modifies this`turns, this`active, this`closing, this`finished
      ensures i == old(active[bot]) < |turns|
      ensures Snapshot() == Finish(old(Snapshot()), bot, out)
    {
      i := active[bot];
      turns := turns[i := turns[i].(status := if out.err == Success then Done else Failed, reason := Ended, err := out.err)];
      active := active - {bot};
      closing := closing[bot := Closing(i, out, Closed)];
      finished := finished + [i];
    }

    /** General's reply reaches the owner. */
    method PostReply(bot: nat, i: nat, out: Outcome)
      requires bot in closing && closing[bot] == Closing(i, out, Closed) && i < |turns|
      modifies this`dm, this`closing
      ensures Snapshot() == GoOn(old(Snapshot()), bot)
    {
      if bot == GENERAL && out.err == Success {
        dm := dm + [Reply(i, out.output)];
      }
      closing := closing[bot := Closing(i, out, Answered)];
    }

    /** `fulfillOwnerRelay`: unless General replied, each report of the turn is posted, each text once. */
    method FulfillOwnerRelay(i: nat, out: Outcome)
      modifies this`dm
      ensures Snapshot() == TurnQueue.FulfillOwnerRelay(old(Snapshot()), i, out)
    {
      hide TrimSpace;
      if out.err == Success && TrimSpace(out.output) != "" {
        return;
      }
      hide FallbackTexts;
      var texts := ReportTexts(i, out);
      PostAll(i, texts);
    }

    method PostAll(i: nat, texts: seq<string>)
      modifies this`dm
      ensures dm == old(dm) + Fallbacks(i, texts)
    {
      var k := 0;
      while k < |texts|
        invariant k <= |texts| && dm == old(dm) + Fallbacks(i, texts[..k])
      {
        assert Fallbacks(i, texts[..k + 1]) == Fallbacks(i, texts[..k]) + [Fallback(i, texts[k])];
        dm := dm + [Fallback(i, texts[k])];
        k := k + 1;
      }
      assert texts[..k] == texts;
    }

    /** The loop over the reports of turn `i`, with the texts already seen. */
    method ReportTexts(i: nat, out: Outcome) returns (texts: seq<string>)
      ensures texts == FallbackTexts(inbox, |inbox|, i, out)
    {
      hide OwnerRelayFallback;
      hide SenderName;
      texts := [];
      var seen: set<string> := {};
      var r := 0;
      while r < |inbox|
        invariant r <= |inbox|
        invariant texts == FallbackTexts(inbox, r, i, out)
        invariant forall x :: x in seen <==> x in texts
      {
        var row := inbox[r];
        if row.relay && row.turn == Some(i) {
          var text := OwnerRelayFallback(SenderName(row, out.names), row.text, r in out.named);
          if text != "" && text !in seen {
            seen, texts := seen + {text}, texts + [text];
          }
        }
        r := r + 1;
      }
    }

    /** `ensureChiefTimeoutHandoff`: a worker for the owner's request, unless one was handed off. */
    method EnsureHandoff(i: nat, out: Outcome) returns (started: bool)
      requires i < |turns|
      modifies this`inbox, this`bots, this`spawned
      ensures Snapshot() == Handoff(old(Snapshot()), i, out) && started == Spawns(old(Snapshot()), i, out)
    {
      hide LastOwnerRequest, WorkerPrompt, TrimSpace, Text, IsFollowUp;
      if HandedOff(inbox, HandoffSince(turns, i)) || !ShouldSpawn(turns[i], Text(turns[i].parts)) {
        return false;
      }
      var owner := LastOwnerRequest(turns, i);
      if owner == "" || out.spawnFails {
        return false;
      }
      inbox := inbox + [Row(bots, Some(GENERAL), TrimSpace(WorkerPrompt(owner)), true, false, clock, false, None)];
      bots := bots + 1;
      spawned := spawned + [i];
      return true;
    }

    /** `persistChiefTimeout`, after the row is closed: the hand-off, then the follow-up, which is queued
        without a kick, because the loop that runs this picks it up. */
    method PersistChiefTimeout(i: nat, out: Outcome)
      requires GENERAL in closing && closing[GENERAL] == Closing(i, out, Answered) && i < |turns| && out.err == TimedOut
      modifies this`turns, this`inbox, this`bots, this`spawned, this`closing
      ensures Snapshot() == GoOn(GoOn(old(Snapshot()), GENERAL), GENERAL)
    {
      hide Text, IsFollowUp, HandoffSince, Spawns, Handoff, TurnQueue.Enqueue;
      ghost var s := Snapshot();
      var started := EnsureHandoff(i, out);
      closing := closing[GENERAL := Closing(i, out, Handed(started))];
      assert Snapshot() == GoOn(s, GENERAL);
      ghost var h := Snapshot();
      var input := Text(turns[i].parts);
      if IsFollowUp(input) {
      } else if !started && HandedOff(inbox, HandoffSince(turns, i)) {
      } else if !started && !ShouldSpawn(turns[i], input) {
      } else {
        var _ := Insert(GENERAL, System, FollowUpText(started, out.quoted));
      }
      closing := closing[GENERAL := Closing(i, out, FollowedUp)];
      InsertedThenReached(h, i, out, started);
    }

    /** The branch for a turn that did not time out: General's follow-up turns look for a hand-off. */
    method HandOverUnlessTimeout(bot: nat, i: nat, out: Outcome)
      requires bot in closing && closing[bot] == Closing(i, out, Answered) && i < |turns| && out.err != TimedOut
      modifies this`inbox, this`bots, this`spawned, this`closing
      ensures Snapshot() == GoOn(GoOn(old(Snapshot()), bot), bot)
    {
      hide Text, IsFollowUp, Spawns, Handoff;
      var started := false;
      if bot == GENERAL && out.err == Success && IsFollowUp(Text(turns[i].parts)) {
        started := EnsureHandoff(i, out);
      }
      closing := closing[bot := Closing(i, out, Handed(started))];
      closing := closing[bot := Closing(i, out, FollowedUp)];
    }

    method QueueBotMessage(from: nat, to: nat, body: string, awaken: bool, relay: bool)
      modifies this`inbox
      ensures Snapshot() == Send(old(Snapshot()), from, to, body, awaken, relay)
    {
      hide TrimSpace;
      if TrimSpace(body) != "" && from != to {
        inbox := inbox + [Row(to, Some(from), TrimSpace(body), awaken, relay, clock, false, None)];
      }
    }

    /** `ensureWorkerRelayToGeneral`. */
    method EnsureWorkerRelay(bot: nat, out: Outcome)
      requires bot != GENERAL
      modifies this`inbox
      ensures Snapshot() == WorkerRelay(old(Snapshot()), bot, out)
    {
      hide Truncate, TrimSpace, PendingRow;
      if out.waiting || out.err == Stopped || out.err == TimedOut || PendingRelay(inbox, bot) {
        return;
      }
      var body := TrimSpace(out.output);
      if body == "" {
        return;
      }
      TruncateKeeps(out.output, WORKER_RELAY_MAX);
      QueueBotMessage(bot, GENERAL, Truncate(body, WORKER_RELAY_MAX), true, true);
    }

    /** The bot's status, then what the owner or General must still hear. */
    method SettleTurn(bot: nat, i: nat, out: Outcome)
      requires bot in closing && closing[bot] == Closing(i, out, FollowedUp) && i < |turns|
      modifies this`waiting, this`inbox, this`dm, this`closing, this`answers
      ensures Snapshot() == GoOn(old(Snapshot()), bot)
    {
      hide FallbackTexts, PendingRow, TrimSpace, Truncate;
      ghost var answer := AnswerOf(Snapshot(), bot, out);
      if bot == GENERAL {
        FulfillOwnerRelay(i, out);
      } else {
        EnsureWorkerRelay(bot, out);
        answers := answers[i := answer];
      }
      waiting := if out.waiting then waiting + {bot} else waiting - {bot};
      closing := closing - {bot};
    }

    /** The end of `execute`. Only General's turns are stopped by its time cap. Whatever the turn sent is
        delivered at the end. */
    method FinishTurn(bot: nat, out: Outcome)
      requires bot in active && active[bot] < |turns| && (out.err == TimedOut ==> bot == GENERAL)
      modifies this
      ensures var ended := Ending(old(Snapshot()), bot, out);
              Snapshot() == DeliverUpTo(ended, |ended.inbox|, Some(bot), out.names)
    {
      hide Finish, GoOn, DeliverUpTo;
      ghost var s := Snapshot();
      var i := EndTurn(bot, out);
      assert bot in closing && closing[bot] == Closing(i, out, Closed) by { EndsClosed(s, bot, out); }
      ghost var s1 := Snapshot();
      PostReply(bot, i, out);
      NextPhase(s1, bot);
      ghost var s2 := Snapshot();
      if out.err == TimedOut {
        PersistChiefTimeout(i, out);
      } else {
        HandOverUnlessTimeout(bot, i, out);
      }
      NextPhase(s2, bot);
      ghost var h := GoOn(s2, bot);
      NextPhase(h, bot);
      SettleTurn(bot, i, out);
      DeliverInbox(Some(bot), out.names);
    }

    /** One interrupted row, in a process that runs nothing yet. */
    method RecoverTurn(i: nat)
      requires i < |turns| && active == map[]
      modifies this`turns, this`finished
      ensures Snapshot() == RecoverRow(old(Snapshot()), i) && |turns| == |old(turns)|
    {
      ghost var bot := turns[i].bot;
      assert active - {bot} == active;
      if turns[i].status == Running {
        if turns[i].bot in archived {
          turns := turns[i := turns[i].(status := Failed, reason := Ended, err := Fatal)];
          finished := finished + [i];
        } else {
          turns := turns[i := turns[i].(status := Queued, started := None, err := Success)];
        }
      }
    }

    /** `recoverAfterRestart`, in a process that has just started: nothing is active. */
    method RecoverAfterRestart()
      modifies this`turns, this`active, this`closing, this`finished, this`cut
      ensures Snapshot() == Restart(old(Snapshot()))
    {
      hide Untold, RecoverRow, RecoverUpTo;
      ghost var s := Snapshot();
      active, closing := map[], map[];
      cut := s.cut + Untold(s.closing);
      ghost var newborn, marks := Snapshot(), cut;
      RecoverNone(newborn);
      var i := 0;
      while i < |turns|
        invariant i <= |turns| == |newborn.turns|
        invariant Snapshot() == RecoverUpTo(newborn, i)
        invariant active == map[]
      {
        RecoverMore(newborn, i);
        RecoverTurn(i);
        i := i + 1;
      }
      RecoverForgets(s, i, marks);
      RestartAfter(s, marks);
    }

    /** One row of `deliverInbox`. */
    method DeliverRow(r: nat, sender: string)
      requires r < |inbox| && !inbox[r].delivered && inbox[r].wake
      modifies this`turns, this`inbox, this`wake, this`loops
      ensures Snapshot() == Deliver(old(Snapshot()), r, sender) && |inbox| == |old(inbox)|
      ensures (wake, loops) == Loops.Kicked(old(wake), old(loops), old(inbox)[r].to)
    {
      hide Label;
      var id := Enqueue(inbox[r].to, FromBot, Label(sender, inbox[r].text));
      inbox := inbox[r := inbox[r].(delivered := true, turn := Some(id))];
    }

    /** `deliverInbox`: every pending waking message of a sender (None: of everyone) becomes a queued
        turn, and its bot is kicked. */
    method DeliverInbox(from: Option<nat>, names: map<nat, string>)
      modifies this`turns, this`inbox, this`wake, this`loops
      ensures Snapshot() == DeliverUpTo(old(Snapshot()), |old(inbox)|, from, names)
      ensures forall k :: 0 <= k < |inbox| ==> !Pending(inbox[k], from)
      ensures forall k :: 0 <= k < |old(inbox)| && Pending(old(inbox)[k], from) ==> HasToken(wake, old(inbox)[k].to)
    {
      hide SenderLabel, Deliver, HasToken, Loops.Kicked, DeliverUpTo;
      ghost var s := Snapshot();
      DeliverNone(s, from, names);
      var r := 0;
      while r < |inbox|
        invariant r <= |inbox| == |s.inbox|
        invariant Snapshot() == DeliverUpTo(s, r, from, names)
        invariant forall k :: 0 <= k < r && Pending(s.inbox[k], from) ==> HasToken(wake, s.inbox[k].to)
      {
        DeliverMore(s, r, from, names);
        if Pending(inbox[r], from) {
          KickedHasToken(wake, loops, inbox[r].to);
          DeliverRow(r, SenderLabel(inbox[r], names));
        }
        r := r + 1;
      }
      DeliveredAll(s, from, names);
    }
  }

  lemma DeliverNone(s: State, from: Option<nat>, names: map<nat, string>)
    ensures DeliverUpTo(s, 0, from, names) == s
  {
  }

  lemma DeliverMore(s: State, r: nat, from: Option<nat>, names: map<nat, string>)
    requires r < |s.inbox|
    ensures var b, d := DeliverUpTo(s, r, from, names), DeliverUpTo(s, r + 1, from, names);
            && |b.inbox| == |s.inbox| && b.inbox[r] == s.inbox[r]
            && d == if Pending(s.inbox[r], from) then Deliver(b, r, SenderLabel(s.inbox[r], names)) else b
  {
    hide Deliver, SenderLabel, Pending;
  }

  lemma DeliveredAll(s: State, from: Option<nat>, names: map<nat, string>)
    ensures var d := DeliverUpTo(s, |s.inbox|, from, names);
            |d.inbox| == |s.inbox| && forall k :: 0 <= k < |d.inbox| ==> !Pending(d.inbox[k], from)
  {
  }

  /** A token is in the bot's channel. */
  predicate HasToken(wake: map<nat, bool>, bot: nat) {
    bot in wake && wake[bot]
  }

  lemma KickedHasToken(wake: map<nat, bool>, loops: seq<Loops.Loop>, bot: nat)
    ensures HasToken(Loops.Kicked(wake, loops, bot).0, bot)
    ensures forall b :: HasToken(wake, b) ==> HasToken(Loops.Kicked(wake, loops, bot).0, b)
  {
  }

  lemma RecoverNone(s: State)
    ensures RecoverUpTo(s, 0) == s
  {
  }

  lemma RecoverMore(s: State, i: nat)
    requires i < |s.turns|
    ensures |RecoverUpTo(s, i).turns| == |s.turns| && RecoverUpTo(s, i + 1) == RecoverRow(RecoverUpTo(s, i), i)
  {
    hide RecoverRow;
  }

  lemma RestartAfter(s: State, cut: set<nat>)
    requires cut == s.cut + Untold(s.closing)
    ensures Restart(s) == RecoverUpTo(s, |s.turns|).(active := map[], closing := map[], cut := cut)
  {
    hide RecoverUpTo, Untold;
  }

  /** Recovery does not look at what died with the process. */
  lemma {:induction false} RecoverForgets(s: State, n: nat, cut: set<nat>)
    requires n <= |s.turns|
    ensures RecoverUpTo(s.(active := map[], closing := map[], cut := cut), n)
         == RecoverUpTo(s, n).(active := map[], closing := map[], cut := cut)
  {
    hide RecoverRow;
    if n > 0 {
      RecoverForgets(s, n - 1, cut);
      RecoverRowForgets(RecoverUpTo(s, n - 1), n - 1, cut);
    }
  }

  lemma RecoverRowForgets(s: State, i: nat, cut: set<nat>)
    requires i < |s.turns|
    ensures RecoverRow(s.(active := map[], closing := map[], cut := cut), i)
         == RecoverRow(s, i).(active := map[], closing := map[], cut := cut)
  {
    var none: map<nat, nat> := map[];
    assert none - {s.turns[i].bot} == none;
  }

  lemma InsertedThenReached(h: State, i: nat, out: Outcome, started: bool)
    requires GENERAL in h.closing && h.closing[GENERAL] == Closing(i, out, Handed(started)) && i < |h.turns| && out.err == TimedOut
    ensures var e := if Injects(h, i, started) then TurnQueue.Enqueue(h, GENERAL, System, FollowUpText(started, out.quoted)) else h;
            GoOn(h, GENERAL) == e.(closing := e.closing[GENERAL := Closing(i, out, FollowedUp)])
  {
    hide Injects, FollowUpText;
  }

  lemma EndsClosed(s: State, bot: nat, out: Outcome)
    requires bot in s.active && s.active[bot] < |s.turns| && (out.err == TimedOut ==> bot == GENERAL)
    ensures var r := Finish(s, bot, out); bot in r.closing && r.closing[bot] == Closing(s.active[bot], out, Closed)
  {
  }

  /** How far the end of a turn has come after one more thing. */
  lemma NextPhase(s: State, bot: nat)
    requires bot in s.closing && s.closing[bot].turn < |s.turns|
    ensures var c, r := s.closing[bot], GoOn(s, bot);
            && |s.turns| <= |r.turns| && Safety.NextPhase(s.closing, r.closing, bot)
            && (bot in r.closing ==> r.closing[bot].turn == c.turn && r.closing[bot].out == c.out)
  {
    hide GoOn, Safety.AddsRow, Safety.HandsOff, Safety.Injecting;
    Safety.GoOnGoes(s, bot);
  }
}
