/** The turn queue and inbox as a transition system over database rows.
 *
 * Row ids are positions in the tables, so "ORDER BY id" is table order. A turn's input is kept as
 * the list of texts it was joined from, each with the id of the turn row that first held it: that
 * is what lets the theorems say where every input went. `Text` gives back the joined string.
 */
module TurnQueue {
  import opened GoStrings

  /** The dispatcher bot. It cannot be archived. */
  const GENERAL: nat := 0

  datatype Source = User | FromBot | System | Automation

  datatype Status = Queued | Running | Done | Failed

  /** Why a turn is no longer waiting: `stop_reason`. */
  datatype Reason = Open | MergedInto(head: nat) | DroppedByStop | SessionArchived | Ended

  /** `error_class`; Success is the empty one. */
  datatype Class = Success | Stopped | TimedOut | Fatal

  datatype Part = Part(origin: nat, text: string)

  /** `held` is the input in the runner's copy of the row, which is read before the fold. */
  datatype Turn = Turn(bot: nat, source: Source, parts: seq<Part>, held: seq<Part>, status: Status, reason: Reason,
                       err: Class, created: nat, started: Option<nat>)

  datatype Row = Row(to: nat, from: Option<nat>, text: string, wake: bool, relay: bool, created: nat,
                     delivered: bool, turn: Option<nat>)

  /** What the owner reads in the DM, and at the end of which turn it was posted. */
  datatype Post = Reply(turn: nat, text: string) | Fallback(turn: nat, text: string)

  /** What the world decides when a turn ends: the result, the worker's quoted name, whether the
      worker could be started, whether a question to the owner is open, the senders' names, and which
      reports already start with their sender's name. */
  datatype Outcome = Outcome(err: Class, output: string, quoted: string, spawnFails: bool, waiting: bool,
                             names: map<nat, string>, named: set<nat>)

  /** What the end of `execute` has done so far: updated the row, posted the reply, handed the work
      off (with or without a new worker), queued a follow-up. */
  datatype Phase = Closed | Answered | Handed(worker: bool) | FollowedUp

  datatype Closing = Closing(turn: nat, out: Outcome, phase: Phase)

  /** What became of a worker's answer: inbox row `row` reports it, or reports something else and was
      pending already, or no report was due. */
  datatype Relayed = Reported(row: nat) | WasPending(row: nat) | NotDue

  /** `waiting` are the bots parked on a question to the owner. `active` are the running turns and
      `closing` the ends of turns still under way; both die with the process.
      `finished` and `spawned` record the turns that ended, and the turns at whose end a worker was
      started, in order; `cut` the turns whose end a crash cut short; `answers` what became of the answers of the
      workers' turns that came to their end. */
  datatype State = State(turns: seq<Turn>, inbox: seq<Row>, archived: set<nat>, waiting: set<nat>,
                         active: map<nat, nat>, closing: map<nat, Closing>, bots: nat, clock: nat, dm: seq<Post>,
                         finished: seq<nat>, spawned: seq<nat>, cut: set<nat>, answers: map<nat, Relayed>)

  const Empty := State([], [], {}, {}, map[], map[], 1, 0, [], [], [], {}, map[])

  function Texts(parts: seq<Part>): seq<string> {
    seq(|parts|, k requires 0 <= k < |parts| => parts[k].text)
  }

  /** The `input` column. */
  function Text(parts: seq<Part>): string {
    Join(Texts(parts), "\n\n")
  }

  predicate IsQueued(t: Turn, bot: nat) {
    t.status == Queued && t.bot == bot
  }

  // ----- enqueue, stop, archive -----

  function NewTurn(s: State, bot: nat, source: Source, text: string): Turn {
    Turn(bot, source, [Part(|s.turns|, text)], [], Queued, Open, Success, s.clock, None)
  }

  function Enqueue(s: State, bot: nat, source: Source, text: string): State {
    s.(turns := s.turns + [NewTurn(s, bot, source, text)])
  }

  /** Every queued turn of `bot` is closed unrun. */
  function DropQueue(turns: seq<Turn>, bot: nat, reason: Reason): seq<Turn> {
    seq(|turns|, i requires 0 <= i < |turns| =>
      if IsQueued(turns[i], bot) then turns[i].(status := Failed, reason := reason) else turns[i])
  }

  /** `Stop`: the queue is dropped; the running turn is signalled and ends by itself. */
  function Stop(s: State, bot: nat): State {
    s.(turns := DropQueue(s.turns, bot, DroppedByStop))
  }

  /** `archiveBotRow`. */
  function Archive(s: State, bot: nat): State {
    if bot == GENERAL then s
    else s.(archived := s.archived + {bot}, waiting := s.waiting - {bot}, turns := DropQueue(s.turns, bot, SessionArchived))
  }

  /** `unarchiveBotRow`. */
  function Unarchive(s: State, bot: nat): State {
    s.(archived := s.archived - {bot}, waiting := s.waiting - {bot})
  }

  // ----- fold and start -----

  /** The oldest queued turn of `bot` at or after `i`; |turns| if there is none. */
  function FirstQueued(turns: seq<Turn>, bot: nat, i: nat := 0): (h: nat)
    requires i <= |turns|
    ensures h == |turns| || (i <= h < |turns| && IsQueued(turns[h], bot))
    ensures forall k :: i <= k < h ==> !IsQueued(turns[k], bot)
    decreases |turns| - i
  {
    if i == |turns| || IsQueued(turns[i], bot) then i else FirstQueued(turns, bot, i + 1)
  }

  /** All that is queued for `bot` in the first `n` rows, in order. */
  function FoldParts(turns: seq<Turn>, bot: nat, n: nat): seq<Part>
    requires n <= |turns|
  {
    if n == 0 then []
    else FoldParts(turns, bot, n - 1) + (if IsQueued(turns[n - 1], bot) then turns[n - 1].parts else [])
  }

  function Folded(turns: seq<Turn>, bot: nat, now: nat): (r: seq<Turn>)
    ensures |r| == |turns|
  {
    var head := FirstQueued(turns, bot);
    seq(|turns|, i requires 0 <= i < |turns| =>
      if !IsQueued(turns[i], bot) then turns[i]
      else if i == head then
        turns[i].(status := Running, started := Some(now), parts := FoldParts(turns, bot, |turns|), held := turns[i].parts)
      else turns[i].(status := Done, reason := MergedInto(head)))
  }

  /** Inbox rows of merged turns move to the head; quiet rows are read with this turn. */
  function Repointed(inbox: seq<Row>, turns: seq<Turn>, bot: nat): (r: seq<Row>)
    ensures |r| == |inbox|
  {
    var head := FirstQueued(turns, bot);
    seq(|inbox|, r requires 0 <= r < |inbox| =>
      var m := inbox[r];
      var row := if m.turn.Some? && m.turn.value < |turns| && IsQueued(turns[m.turn.value], bot) then m.(turn := Some(head)) else m;
      if row.to == bot && !row.delivered && !row.wake then row.(delivered := true, turn := Some(head)) else row)
  }

  /** `foldQueue` and the start of `execute`, taken together: everything queued becomes one running
      turn. */
  function StartAny(s: State, bot: nat): State {
    var head := FirstQueued(s.turns, bot);
    if head == |s.turns| then s
    else s.(turns := Folded(s.turns, bot, s.clock), inbox := Repointed(s.inbox, s.turns, bot),
            active := s.active[bot := head], waiting := s.waiting - {bot})
  }

  /** The bot is inside `execute`. */
  predicate Busy(s: State, bot: nat) {
    bot in s.active || bot in s.closing
  }

  /** A start while the bot is not inside `execute`; `TurnQueueLoops` proves that there is no other. */
  function Start(s: State, bot: nat): State {
    if Busy(s, bot) then s else StartAny(s, bot)
  }

  // ----- messages -----

  /** `enqueueBotMessage`: a blank message, or one to oneself, is refused. */
  function Send(s: State, from: nat, to: nat, body: string, wake: bool, relay: bool): State {
    if TrimSpace(body) == "" || from == to then s
    else s.(inbox := s.inbox + [Row(to, Some(from), TrimSpace(body), wake, relay, s.clock, false, None)])
  }

  /** `inboxInput`. */
  function Label(sender: string, text: string): string {
    "Message from " + sender + ":\n" + text
  }

  /** A delivered message says who sent it, and keeps its whole text. */
  lemma LabelKeeps(sender: string, text: string)
    ensures HasPrefix(Label(sender, text), "Message from " + sender) && HasSuffix(Label(sender, text), ":\n" + text)
  {
    var head := "Message from " + sender;
    assert Label(sender, text) == head + (":\n" + text);
    assert Label(sender, text)[..|head|] == head;
  }

  /** One turn of the loop of `deliverInbox`: a waking row becomes a queued turn of its target. */
  function Deliver(s: State, r: nat, sender: string): State {
    if r >= |s.inbox| || s.inbox[r].delivered || !s.inbox[r].wake then s
    else
      var t := |s.turns|;
      var s' := Enqueue(s, s.inbox[r].to, FromBot, Label(sender, s.inbox[r].text));
      s'.(inbox := s.inbox[r := s.inbox[r].(delivered := true, turn := Some(t))])
  }

  // ----- the end of a turn -----

  const TOO_LONG := "too long for General"
  const TimeoutPrefix := "Error: this work is " + TOO_LONG + " (60s cap). "
  const TimeoutInput := TimeoutPrefix +
    "You MUST pass it to a session with spawn_session (new) or tell_session (existing). Do not continue the work yourself."

  /** `chiefTimeoutInputAfterSpawn`, with the session name already quoted. */
  function TimeoutInputAfterSpawn(quoted: string): string {
    TimeoutPrefix + "CCC started session " + quoted +
    " with the owner's request. Do not do the work yourself and do not spawn a duplicate. tell_session if you need to add context."
  }

  /** `isChiefTimeoutFollowUp`. */
  predicate IsFollowUp(input: string) {
    Contains(input, TOO_LONG)
  }

  /** `chiefTimeoutShouldSpawn`. */
  predicate ShouldSpawn(t: Turn, input: string) {
    t.source == User || IsFollowUp(input)
  }

  function WindowStart(t: Turn): nat {
    if t.started.Some? then t.started.value else t.created
  }

  /** The newest General turn before `i` that timed out; |turns| if there is none. */
  function LastTimeout(turns: seq<Turn>, i: nat): (k: nat)
    requires i <= |turns|
    ensures k == |turns| || (k < i && turns[k].bot == GENERAL && turns[k].err == TimedOut)
  {
    if i == 0 then |turns|
    else if turns[i - 1].bot == GENERAL && turns[i - 1].err == TimedOut then i - 1
    else LastTimeout(turns, i - 1)
  }

  /** `chiefHandoffSince`. The caller holds the row as it was read before the start, so for the
      current turn the window opens when the row was created. */
  function HandoffSince(turns: seq<Turn>, i: nat): nat
    requires i < |turns|
  {
    var since := turns[i].created;
    var k := LastTimeout(turns, i);
    if IsFollowUp(Text(turns[i].parts)) && k < |turns| && WindowStart(turns[k]) < since then WindowStart(turns[k]) else since
  }

  /** `chiefHandedOffSince`. */
  predicate HandedOff(inbox: seq<Row>, since: nat) {
    exists r :: 0 <= r < |inbox| && inbox[r].from == Some(GENERAL) && inbox[r].wake && inbox[r].created >= since
  }

  /** Whether this may be what the owner asked for. */
  predicate IsRequest(input: string) {
    TrimSpace(input) != "" && !IsFollowUp(input)
  }

  /** Newest first, the first of at most `limit` owner turns in the first `n` rows that holds a
      request; |turns| if there is none. */
  function NewestRequest(turns: seq<Turn>, n: nat, limit: nat): (k: nat)
    requires n <= |turns|
    ensures || k == |turns|
            || (k < n && turns[k].bot == GENERAL && turns[k].source == User && IsRequest(Text(turns[k].parts)))
  {
    if n == 0 || limit == 0 then |turns|
    else if turns[n - 1].bot != GENERAL || turns[n - 1].source != User then NewestRequest(turns, n - 1, limit)
    else if !IsRequest(Text(turns[n - 1].parts)) then NewestRequest(turns, n - 1, limit - 1)
    else n - 1
  }

  const REQUESTS_READ := 30

  /** The runner's copy of turn `t` holds a request of the owner. */
  predicate HoldsRequest(t: Turn) {
    t.source == User && IsRequest(TrimSpace(Text(t.held)))
  }

  /** `lastOwnerRequest`, and the inputs it consists of. */
  function RequestParts(turns: seq<Turn>, i: nat): seq<Part>
    requires i < |turns|
  {
    if HoldsRequest(turns[i]) then turns[i].held
    else
      var k := NewestRequest(turns, |turns|, REQUESTS_READ);
      if k < |turns| then turns[k].parts else []
  }

  function LastOwnerRequest(turns: seq<Turn>, i: nat): string
    requires i < |turns|
  {
    TrimSpace(Text(RequestParts(turns, i)))
  }

  /** In two pieces, because the verifier does not look fifty characters deep into a literal. */
  const WORKER_PROMPT := "General hit its 60s cap" + " and did not hand this off. Do the work."

  /** `chiefTimeoutWorkerPrompt`. */
  function WorkerPrompt(owner: string): string {
    if TrimSpace(owner) == "" then WORKER_PROMPT else WORKER_PROMPT + "\n\n" + TrimSpace(owner)
  }

  /** Whether ending turn `i` starts a worker: `ensureChiefTimeoutHandoff`. */
  predicate Spawns(s: State, i: nat, out: Outcome)
    requires i < |s.turns|
  {
    && !HandedOff(s.inbox, HandoffSince(s.turns, i))
    && ShouldSpawn(s.turns[i], Text(s.turns[i].parts))
    && LastOwnerRequest(s.turns, i) != ""
    && !out.spawnFails
  }

  /** `startBackendSession`: a fresh bot and a waking message to it. */
  function Spawn(s: State, i: nat, prompt: string): State {
    s.(bots := s.bots + 1, spawned := s.spawned + [i],
       inbox := s.inbox + [Row(s.bots, Some(GENERAL), TrimSpace(prompt), true, false, s.clock, false, None)])
  }

  function Handoff(s: State, i: nat, out: Outcome): State
    requires i < |s.turns|
  {
    if Spawns(s, i, out) then Spawn(s, i, WorkerPrompt(LastOwnerRequest(s.turns, i))) else s
  }

  /** Whether `persistChiefTimeout` queues a follow-up: not after a follow-up; when it started no
      worker, not when General handed the work off itself, and not for what was no owner work. */
  predicate Injects(s: State, i: nat, worker: bool)
    requires i < |s.turns|
  {
    var input := Text(s.turns[i].parts);
    if IsFollowUp(input) then false
    else if !worker && HandedOff(s.inbox, HandoffSince(s.turns, i)) then false
    else if !worker && !ShouldSpawn(s.turns[i], input) then false
    else true
  }

  function FollowUpText(worker: bool, quoted: string): string {
    if worker then TimeoutInputAfterSpawn(quoted) else TimeoutInput
  }

  const RELAY_MAX := 1200

  /** `truncate`. */
  function Truncate(s: string, n: nat): string {
    if |s| <= n then s else s[..n] + "..."
  }

  /** Truncating what is not blank leaves something that is not blank. */
  lemma TruncateKeeps(report: string, n: nat)
    requires TrimSpace(report) != "" && n > 0
    ensures var t := Truncate(TrimSpace(report), n); t != "" && Trimmed(t) && TrimSpace(t) == t
  {
    hide LeadingSpace, TrailingSpace;
    var t := TrimSpace(report);
    TrimSpaceTrims(report);
    hide TrimSpace;
    TrimSpaceTrims(Truncate(t, n));
    if |t| > n {
      LeadingSpacePrefix(t, n);
      LeadingSpaceAppend(t[..n], "...");
      assert !IsAsciiSpace('.');
      TrailingSpaceEnd(t[..n] + "...");
    }
  }

  /** The part of a report the owner is sure to read. */
  function Cut(report: string): string {
    Truncate(TrimSpace(report), RELAY_MAX)
  }

  /** `ownerRelayFallback`; `named` says whether the report starts with the sender's name. */
  function OwnerRelayFallback(name: string, report: string, named: bool): string {
    var n := TrimSpace(name);
    if Cut(report) == "" then (if n == "" then "" else n + " finished")
    else if n == "" || named then Cut(report)
    else n + ": " + Cut(report)
  }

  function SenderName(row: Row, names: map<nat, string>): string {
    if row.from.Some? && row.from.value in names then names[row.from.value] else "session"
  }

  /** The fallback texts for the reports that turn `i` carries, each text once. */
  function FallbackTexts(inbox: seq<Row>, n: nat, i: nat, out: Outcome): seq<string>
    requires n <= |inbox|
  {
    if n == 0 then []
    else
      var before := FallbackTexts(inbox, n - 1, i, out);
      var row := inbox[n - 1];
      var text := OwnerRelayFallback(SenderName(row, out.names), row.text, n - 1 in out.named);
      if row.relay && row.turn == Some(i) && text != "" && text !in before then before + [text] else before
  }

  function Fallbacks(i: nat, texts: seq<string>): seq<Post> {
    seq(|texts|, k requires 0 <= k < |texts| => Fallback(i, texts[k]))
  }

  /** `fulfillOwnerRelay`. */
  function FulfillOwnerRelay(s: State, i: nat, out: Outcome): State {
    if out.err == Success && TrimSpace(out.output) != "" then s
    else s.(dm := s.dm + Fallbacks(i, FallbackTexts(s.inbox, |s.inbox|, i, out)))
  }

  /** A report of `from` that General is to relay. */
  predicate IsReport(row: Row, from: nat) {
    row.from == Some(from) && row.to == GENERAL && row.relay
  }

  /** The newest report of `from` among the first `n` rows that is not delivered; |inbox| if there is none. */
  function PendingRow(inbox: seq<Row>, from: nat, n: nat): (r: nat)
    requires n <= |inbox|
    ensures r == |inbox| || (r < n && IsReport(inbox[r], from) && !inbox[r].delivered)
  {
    if n == 0 then |inbox|
    else if IsReport(inbox[n - 1], from) && !inbox[n - 1].delivered then n - 1
    else PendingRow(inbox, from, n - 1)
  }

  /** `hasPendingOwnerRelay`. */
  predicate PendingRelay(inbox: seq<Row>, from: nat) {
    PendingRow(inbox, from, |inbox|) < |inbox|
  }

  const WORKER_RELAY_MAX := 4000

  /** The end of a worker's turn asks for a report. */
  predicate AnswerDue(out: Outcome) {
    !out.waiting && out.err != Stopped && out.err != TimedOut && TrimSpace(out.output) != ""
  }

  function AnswerText(out: Outcome): string {
    TrimSpace(Truncate(TrimSpace(out.output), WORKER_RELAY_MAX))
  }

  /** `ensureWorkerRelayToGeneral`: an answer is reported unless a report of the worker is pending. */
  function WorkerRelay(s: State, bot: nat, out: Outcome): State {
    if !AnswerDue(out) || PendingRelay(s.inbox, bot) then s
    else s.(inbox := s.inbox + [Row(GENERAL, Some(bot), AnswerText(out), true, true, s.clock, false, None)])
  }

  function AnswerOf(s: State, bot: nat, out: Outcome): Relayed {
    if !AnswerDue(out) then NotDue
    else if PendingRelay(s.inbox, bot) then WasPending(PendingRow(s.inbox, bot, |s.inbox|))
    else Reported(|s.inbox|)
  }

  /** The first update at the end of `execute`: the row of the turn that `bot` is running is closed.
      Only General's turns time out. */
  function Finish(s: State, bot: nat, out: Outcome): State {
    if bot !in s.active || s.active[bot] >= |s.turns| || (out.err == TimedOut && bot != GENERAL) then s
    else EndRow(s, bot, s.active[bot], out)
  }

  function EndRow(s: State, bot: nat, i: nat, out: Outcome): State
    requires i < |s.turns|
  {
    s.(turns := s.turns[i := s.turns[i].(status := if out.err == Success then Done else Failed, reason := Ended, err := out.err)],
       active := s.active - {bot},
       closing := s.closing[bot := Closing(i, out, Closed)],
       finished := s.finished + [i])
  }

  function Reach(s: State, bot: nat, c: Closing, phase: Phase): State {
    s.(closing := s.closing[bot := c.(phase := phase)])
  }

  /** General's reply is posted. */
  function Answer(s: State, bot: nat, c: Closing): State {
    Reach(if bot == GENERAL && c.out.err == Success then s.(dm := s.dm + [Reply(c.turn, c.out.output)]) else s, bot, c, Answered)
  }

  /** Whether the end of this turn looks for a hand-off. */
  predicate MayHandOff(s: State, bot: nat, c: Closing)
    requires c.turn < |s.turns|
  {
    && bot == GENERAL
    && (c.out.err == TimedOut || (c.out.err == Success && IsFollowUp(Text(s.turns[c.turn].parts))))
  }

  function HandOver(s: State, bot: nat, c: Closing): State
    requires c.turn < |s.turns|
  {
    if MayHandOff(s, bot, c) then Reach(Handoff(s, c.turn, c.out), bot, c, Handed(Spawns(s, c.turn, c.out)))
    else Reach(s, bot, c, Handed(false))
  }

  function FollowUp(s: State, bot: nat, c: Closing, worker: bool): State
    requires c.turn < |s.turns|
  {
    if bot == GENERAL && c.out.err == TimedOut && Injects(s, c.turn, worker)
    then Reach(Enqueue(s, GENERAL, System, FollowUpText(worker, c.out.quoted)), bot, c, FollowedUp)
    else Reach(s, bot, c, FollowedUp)
  }

  /** The bot's status, and what the owner or General must still hear. */
  function Settle(s: State, bot: nat, c: Closing): State {
    var told := if bot == GENERAL then FulfillOwnerRelay(s, c.turn, c.out) else WorkerRelay(s, bot, c.out);
    told.(closing := told.closing - {bot},
          waiting := if c.out.waiting then told.waiting + {bot} else told.waiting - {bot},
          answers := if bot == GENERAL then told.answers else told.answers[c.turn := AnswerOf(s, bot, c.out)])
  }

  /** The goroutine that ended a turn of `bot` does the next thing. */
  function GoOn(s: State, bot: nat): State {
    if bot !in s.closing || s.closing[bot].turn >= |s.turns| then s
    else
      var c := s.closing[bot];
      match c.phase
      case Closed => Answer(s, bot, c)
      case Answered => HandOver(s, bot, c)
      case Handed(worker) => FollowUp(s, bot, c, worker)
      case FollowedUp => Settle(s, bot, c)
  }

  /** The whole end of `execute`, when nothing comes in between. */
  function Ending(s: State, bot: nat, out: Outcome): State {
    GoOn(GoOn(GoOn(GoOn(Finish(s, bot, out), bot), bot), bot), bot)
  }

  // ----- restart -----

  /** What recovery does with one interrupted row: an archived bot's turn fails, any other goes back
      to the queue under its own id. */
  function RecoverRow(s: State, i: nat): State
    requires i < |s.turns|
  {
    var t := s.turns[i];
    if t.status != Running then s
    else if t.bot in s.archived then
      s.(turns := s.turns[i := t.(status := Failed, reason := Ended, err := Fatal)],
         active := s.active - {t.bot}, finished := s.finished + [i])
    else s.(turns := s.turns[i := t.(status := Queued, started := None, err := Success)], active := s.active - {t.bot})
  }

  function RecoverUpTo(s: State, n: nat): (r: State)
    requires n <= |s.turns|
    ensures |r.turns| == |s.turns|
  {
    if n == 0 then s else RecoverRow(RecoverUpTo(s, n - 1), n - 1)
  }

  /** The owner has heard General's own reply. */
  predicate Told(bot: nat, c: Closing) {
    bot == GENERAL && c.phase != Closed && c.out.err == Success && TrimSpace(c.out.output) != ""
  }

  /** A crash now cuts turn `i` short: its end is under way, the owner has not heard a reply of General,
      and a worker's report is not queued. */
  predicate CutsShort(s: State, bot: nat, i: nat) {
    bot in s.closing && s.closing[bot].turn == i && !Told(bot, s.closing[bot])
  }

  function Untold(closing: map<nat, Closing>): set<nat> {
    set b | b in closing && !Told(b, closing[b]) :: closing[b].turn
  }

  /** The process dies and a new one runs `recoverAfterRestart` before any loop starts. */
  function Restart(s: State): State {
    RecoverUpTo(s, |s.turns|).(active := map[], closing := map[], cut := s.cut + Untold(s.closing))
  }

  // ----- runs -----

  datatype Step =
    | DoEnqueue(bot: nat, source: Source, text: string)
    | DoStart(bot: nat)
    | DoFinish(bot: nat, out: Outcome)
    | DoGoOn(bot: nat)
    | DoStop(bot: nat)
    | DoArchive(bot: nat)
    | DoUnarchive(bot: nat)
    | DoUnpark(bot: nat)
    | DoRestart
    | DoSend(from: nat, to: nat, body: string, wake: bool)
    | DoReport(from: nat, body: string)
    | DoDeliver(row: nat, sender: string)
    | DoTick

  /** One step. A report is `queueOwnerRelay`: to General, waking, to be relayed. A bot is unparked by
      an answer or by /stop. */
  function Next(s: State, step: Step): State {
    match step
    case DoEnqueue(bot, source, text) => Enqueue(s, bot, source, text)
    case DoStart(bot) => Start(s, bot)
    case DoFinish(bot, out) => Finish(s, bot, out)
    case DoGoOn(bot) => GoOn(s, bot)
    case DoStop(bot) => Stop(s, bot)
    case DoArchive(bot) => Archive(s, bot)
    case DoUnarchive(bot) => Unarchive(s, bot)
    case DoUnpark(bot) => s.(waiting := s.waiting - {bot})
    case DoRestart => Restart(s)
    case DoSend(from, to, body, wake) => Send(s, from, to, body, wake, false)
    case DoReport(from, body) => Send(s, from, GENERAL, body, true, true)
    case DoDeliver(row, sender) => Deliver(s, row, sender)
    case DoTick => s.(clock := s.clock + 1)
  }

  function Run(steps: seq<Step>): State {
    if steps == [] then Empty else Next(Run(steps[..|steps| - 1]), steps[|steps| - 1])
  }

  lemma RunSnoc(steps: seq<Step>, step: Step)
    ensures Run(steps + [step]) == Next(Run(steps), step)
  {
    hide Next;
    assert (steps + [step])[..|steps|] == steps;
  }

  lemma RunMore(before: seq<Step>, after: seq<Step>)
    ensures after == [] ==> Run(before + after) == Run(before)
    ensures after != [] ==> Run(before + after) == Next(Run(before + after[..|after| - 1]), after[|after| - 1])
  {
    hide *;
    if after == [] {
      assert before + after == before;
    } else {
      AppendLast(before, after);
      RunSnoc(before + after[..|after| - 1], after[|after| - 1]);
    }
  }
}
