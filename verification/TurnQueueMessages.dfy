/** Messages between bots: a delivered one is carried, whole, by one turn of the bot it was sent to. */
module TurnQueueMessages {
  import opened GoStrings
  import opened TurnQueue
  import opened TurnQueueSafety
  import opened TurnQueueHistory
  import opened TurnQueueReports

  /** A waking message that was delivered belongs to one unmerged turn of its target, which holds it. */
  ghost predicate Carried(ts: seq<Turn>, row: Row) {
    && row.turn.Some? && row.turn.value < |ts|
    && var t := ts[row.turn.value]; !Merged(t) && t.bot == row.to && HoldsMessage(t.parts, row.text)
  }

  ghost predicate MessagesOk(s: State) {
    forall r :: 0 <= r < |s.inbox| && s.inbox[r].wake && s.inbox[r].delivered ==> Carried(s.turns, s.inbox[r])
  }

  /** Delivering one message: its target gets one queued turn more, with the message's whole text behind a
      line that names the sender, and the row points to it; nothing else changes. */
  lemma DeliverAdds(s: State, r: nat, sender: string)
    requires r < |s.inbox| && s.inbox[r].wake && !s.inbox[r].delivered
    ensures var d, row, n := Deliver(s, r, sender), s.inbox[r], |s.turns|;
            && |d.turns| == n + 1 && d.turns[..n] == s.turns
            && d == s.(turns := d.turns, inbox := s.inbox[r := row.(delivered := true, turn := Some(n))])
            && var t := d.turns[n];
            && t.bot == row.to && t.source == FromBot && t.status == Queued && t.created == s.clock && |t.parts| == 1
            && HasPrefix(t.parts[0].text, "Message from " + sender) && HasSuffix(t.parts[0].text, ":\n" + row.text)
  {
    hide Label, HasPrefix, HasSuffix;
    LabelKeeps(sender, s.inbox[r].text);
  }

  // ----- one step -----

  /** No row of the table loses a text, and none is merged. */
  ghost predicate TextsStay(ts: seq<Turn>, ts': seq<Turn>) {
    && |ts| <= |ts'|
    && forall i :: 0 <= i < |ts| ==>
         ts'[i].bot == ts[i].bot && ts'[i].parts == ts[i].parts && (Merged(ts'[i]) ==> Merged(ts[i]))
  }

  lemma SameMessages(s: State, r: State)
    requires MessagesOk(s) && TextsStay(s.turns, r.turns) && AddsRow(s.inbox, r.inbox)
    ensures MessagesOk(r)
  {
    hide HoldsMessage, Trimmed;
    forall k | 0 <= k < |r.inbox| && r.inbox[k].wake && r.inbox[k].delivered ensures Carried(r.turns, r.inbox[k]) {
      assert k < |s.inbox| && Carried(s.turns, s.inbox[k]);
    }
  }

  lemma StartMessages(s: State, bot: nat)
    requires MessagesOk(s) && StatusesOk(s.turns)
    ensures MessagesOk(Start(s, bot))
  {
    var r := Start(s, bot);
    if r != s {
      FoldHolds(s.turns, bot, |s.turns|);
      assert StatusOk(s.turns[FirstQueued(s.turns, bot)]);
      hide FoldParts, HoldsMessage, FirstQueued, StatusesOk;
      forall k | 0 <= k < |r.inbox| && r.inbox[k].wake && r.inbox[k].delivered ensures Carried(r.turns, r.inbox[k]) {
        assert s.inbox[k].wake && s.inbox[k].delivered;
        assert Carried(s.turns, s.inbox[k]);
        StartCarried(s, bot, s.inbox[k], r.inbox[k]);
      }
    }
  }

  lemma StartCarried(s: State, bot: nat, row: Row, row': Row)
    requires Carried(s.turns, row) && FirstQueued(s.turns, bot) < |s.turns| && !Merged(s.turns[FirstQueued(s.turns, bot)])
    requires row' == if IsQueued(s.turns[row.turn.value], bot) then row.(turn := Some(FirstQueued(s.turns, bot))) else row
    requires forall e, text :: 0 <= e < |s.turns| && IsQueued(s.turns[e], bot) && HoldsMessage(s.turns[e].parts, text) ==>
              HoldsMessage(FoldParts(s.turns, bot, |s.turns|), text)
    ensures Carried(StartAny(s, bot).turns, row')
  {
    hide FoldParts, HoldsMessage, Repointed;
  }

  lemma DeliverMessages(s: State, r: nat, sender: string)
    requires MessagesOk(s)
    ensures MessagesOk(Deliver(s, r, sender))
  {
    var d := Deliver(s, r, sender);
    if d != s {
      DeliverAdds(s, r, sender);
      var t := d.turns[|s.turns|];
      assert HoldsMessage(t.parts, s.inbox[r].text);
      hide Deliver, HoldsMessage;
      assert Carried(d.turns, d.inbox[r]);
      forall k | 0 <= k < |d.inbox| && d.inbox[k].wake && d.inbox[k].delivered && k != r ensures Carried(d.turns, d.inbox[k]) {
        assert Carried(s.turns, s.inbox[k]);
      }
    }
  }

  lemma RestartTexts(s: State)
    requires StatusesOk(s.turns)
    ensures TextsStay(s.turns, Restart(s).turns)
  {
    RecoverKeepsInputs(s, |s.turns|);
    RecoverMerges(s, |s.turns|);
    hide RecoverUpTo;
  }

  lemma {:induction false} RecoverMerges(s: State, n: nat)
    requires n <= |s.turns|
    ensures forall i :: 0 <= i < |s.turns| && Merged(RecoverUpTo(s, n).turns[i]) ==> Merged(s.turns[i])
  {
    if n > 0 {
      RecoverMerges(s, n - 1);
    }
  }

  lemma OtherTexts(s: State, step: Step)
    requires !step.DoGoOn? && !step.DoRestart? && !step.DoStart? && !step.DoDeliver?
    ensures TextsStay(s.turns, Next(s, step).turns)
  {
    hide TrimSpace;
  }

  lemma OtherInbox(s: State, step: Step)
    requires !step.DoGoOn? && !step.DoRestart? && !step.DoStart? && !step.DoDeliver?
    ensures AddsRow(s.inbox, Next(s, step).inbox)
  {
    if step.DoFinish? {
      NextIs(s, step);
    } else {
      OtherRows(s, step);
    }
  }

  lemma StepMessages(s: State, step: Step)
    requires MessagesOk(s) && StatusesOk(s.turns)
    ensures MessagesOk(Next(s, step))
  {
    NextIs(s, step);
    assert step.DoDeliver? ==> Next(s, step) == Deliver(s, step.row, step.sender);
    hide StatusesOk, MessagesOk, TextsStay, AddsRow, Next, GoOn, Restart, Start, Deliver;
    match step
    case DoStart(bot) => StartMessages(s, bot);
    case DoDeliver(row, sender) => DeliverMessages(s, row, sender);
    case DoGoOn(bot) =>
      GoOnTexts(s, bot);
      SameMessages(s, Next(s, step));
    case DoRestart =>
      RestartTexts(s);
      RestartInbox(s);
      SameMessages(s, Next(s, step));
    case _ =>
      OtherTexts(s, step);
      OtherInbox(s, step);
      SameMessages(s, Next(s, step));
  }

  lemma GoOnTexts(s: State, bot: nat)
    ensures TextsStay(s.turns, GoOn(s, bot).turns) && AddsRow(s.inbox, GoOn(s, bot).inbox)
  {
    GoOnGoes(s, bot);
    hide GoOn, AddsRow;
  }

  lemma RestartInbox(s: State)
    requires StatusesOk(s.turns)
    ensures AddsRow(s.inbox, Restart(s).inbox)
  {
    RecoverStays(s, |s.turns|);
    hide RecoverUpTo, StatusesOk;
  }

  // ----- in every run -----

  lemma {:induction false} RunMessages(steps: seq<Step>)
    ensures MessagesOk(Run(steps))
  {
    if steps != [] {
      var rest := steps[..|steps| - 1];
      RunMessages(rest);
      assert StatusesOk(Run(rest).turns) by {
        RunKeeps(rest);
      }
      hide Run, MessagesOk, Next, StatusesOk;
      StepMessages(Run(rest), steps[|steps| - 1]);
    }
  }

  /** In every run a waking message that was delivered, a report or not, is from then on with exactly one
      turn of its target, through merges and restarts, and one text of that turn's input ends in the whole
      message. */
  lemma MessageIsCarried(before: seq<Step>, r: nat, after: seq<Step>)
    requires r < |Run(before).inbox| && Run(before).inbox[r].wake && Run(before).inbox[r].delivered
    ensures var was, s := Run(before).inbox[r], Run(before + after);
            && r < |s.inbox|
            && var row := s.inbox[r];
            && row.text == was.text && row.to == was.to && row.from == was.from && row.turn.Some? && row.turn.value < |s.turns|
            && var t := s.turns[row.turn.value];
            && !Merged(t) && t.bot == was.to
            && exists k :: 0 <= k < |t.parts| && HasSuffix(t.parts[k].text, ":\n" + was.text)
  {
    RunOnStays(before, after);
    RunMessages(before + after);
    hide Run, EndedStay;
    assert Carried(Run(before + after).turns, Run(before + after).inbox[r]);
  }
}
