/** The goroutines that drive the turn queue, and their wake-ups. */
module TurnQueueLoops {
  import opened GoStrings
  import opened TurnQueue
  import opened TurnQueueSafety
  import opened TurnQueueHistory

  /** Where a loop is: waiting for a token, or in `runNext` before it has read the bot's row, before the
      fold, or inside `execute`. */
  datatype Stage = Idle | Checking | Folding | Executing

  datatype Loop = Loop(bot: nat, stage: Stage)

  /** `wake` maps a bot to its channel: whether its one slot holds a token. `kicks` are the calls of
      `kick` that have not taken the lock yet, `sends` those that have and are about to send.
      `refused` are the bots that were waiting or archived when their loop last looked. */
  datatype World = World(q: State, wake: map<nat, bool>, loops: seq<Loop>, kicks: multiset<nat>, sends: multiset<nat>,
                         refused: set<nat>)

  const NewWorld := World(Empty, map[], [], multiset{}, multiset{}, {})

  datatype Move =
    | Input(bot: nat, source: Source, text: string)
    | Delivery(row: nat, sender: string)
    | Outside(step: Step)
    | KickLock(bot: nat)
    | KickSend(bot: nat)
    | Take(k: nat)
    | Check(k: nat)
    | Fold(k: nat)
    | End(k: nat, out: Outcome)
    | Go(k: nat)
    | Crash

  // ----- kick -----

  /** Under the lock: the channel and the loop are created if there is no channel. */
  function Locked(wake: map<nat, bool>, loops: seq<Loop>, bot: nat): (map<nat, bool>, seq<Loop>) {
    if bot in wake then (wake, loops) else (wake[bot := false], loops + [Loop(bot, Idle)])
  }

  /** The send that does not block: a token that is there already covers this input. */
  function Tokened(wake: map<nat, bool>, bot: nat): map<nat, bool> {
    wake[bot := true]
  }

  /** A whole `kick`. */
  function Kicked(wake: map<nat, bool>, loops: seq<Loop>, bot: nat): (map<nat, bool>, seq<Loop>) {
    var (made, all) := Locked(wake, loops, bot);
    (Tokened(made, bot), all)
  }

  function Locks(w: World, bot: nat): World {
    if bot !in w.kicks then w
    else
      var (wake, loops) := Locked(w.wake, w.loops, bot);
      w.(kicks := w.kicks - multiset{bot}, sends := w.sends + multiset{bot}, wake := wake, loops := loops)
  }

  function Sends(w: World, bot: nat): World {
    if bot !in w.sends then w else w.(sends := w.sends - multiset{bot}, wake := Tokened(w.wake, bot))
  }

  // ----- the loop -----

  function At(w: World, k: nat, stage: Stage): World
    requires k < |w.loops|
  {
    w.(loops := w.loops[k := w.loops[k].(stage := stage)])
  }

  function Takes(w: World, k: nat): World
    requires k < |w.loops|
  {
    var b := w.loops[k].bot;
    if w.loops[k].stage == Idle && b in w.wake && w.wake[b]
    then At(w, k, Checking).(wake := w.wake[b := false], refused := w.refused - {b})
    else w
  }

  /** The bot's row is read. Its status is "disabled" only while it is archived. */
  function Checks(w: World, k: nat): World
    requires k < |w.loops|
  {
    var b := w.loops[k].bot;
    if w.loops[k].stage != Checking then w
    else if b in w.q.waiting || b in w.q.archived then At(w, k, Idle).(refused := w.refused + {b})
    else At(w, k, Folding)
  }

  /** The fold and the start, whatever else the bot is doing. */
  function Folds(w: World, k: nat): World
    requires k < |w.loops|
  {
    var b := w.loops[k].bot;
    if w.loops[k].stage != Folding then w
    else if FirstQueued(w.q.turns, b) == |w.q.turns| then At(w, k, Idle)
    else At(w, k, Executing).(q := StartAny(w.q, b))
  }

  function Ends(w: World, k: nat, out: Outcome): World
    requires k < |w.loops|
  {
    if w.loops[k].stage != Executing then w else w.(q := Finish(w.q, w.loops[k].bot, out))
  }

  /** When `execute` is through, `runNext` returns and is called again. */
  function Goes(w: World, k: nat): World
    requires k < |w.loops|
  {
    var b := w.loops[k].bot;
    if w.loops[k].stage != Executing || b !in w.q.closing then w
    else
      var q := GoOn(w.q, b);
      (if b in q.closing then w else At(w, k, Checking)).(q := q)
  }

  // ----- the rest of the program -----

  /** The steps that other parts of the program take, without a kick. */
  predicate IsOutside(step: Step) {
    || step.DoStop? || step.DoArchive? || step.DoUnarchive? || step.DoUnpark? || step.DoSend? || step.DoReport? || step.DoTick?
  }

  function Delivers(w: World, row: nat, sender: string): World {
    var q := Deliver(w.q, row, sender);
    if q == w.q then w else w.(q := q, kicks := w.kicks + multiset{w.q.inbox[row].to})
  }

  /** Every bot that has turns and is not archived. */
  function ToKick(q: State): set<nat> {
    set i | 0 <= i < |q.turns| && q.turns[i].bot !in q.archived :: q.turns[i].bot
  }

  /** The process dies. The new one recovers the interrupted turns and kicks every live bot. */
  function Crashes(w: World): World {
    var q := Restart(w.q);
    World(q, map[], [], multiset(ToKick(q)), multiset{}, q.archived)
  }

  function Moved(w: World, m: Move): World {
    match m
    case Input(bot, source, text) => w.(q := Enqueue(w.q, bot, source, text), kicks := w.kicks + multiset{bot})
    case Delivery(row, sender) => Delivers(w, row, sender)
    case Outside(step) => if IsOutside(step) then w.(q := Next(w.q, step)) else w
    case KickLock(bot) => Locks(w, bot)
    case KickSend(bot) => Sends(w, bot)
    case Take(k) => if k < |w.loops| then Takes(w, k) else w
    case Check(k) => if k < |w.loops| then Checks(w, k) else w
    case Fold(k) => if k < |w.loops| then Folds(w, k) else w
    case End(k, out) => if k < |w.loops| then Ends(w, k, out) else w
    case Go(k) => if k < |w.loops| then Goes(w, k) else w
    case Crash => Crashes(w)
  }

  function Play(moves: seq<Move>): World {
    if moves == [] then NewWorld else Moved(Play(moves[..|moves| - 1]), moves[|moves| - 1])
  }

  lemma PlaySnoc(moves: seq<Move>, m: Move)
    ensures Play(moves + [m]) == Moved(Play(moves), m)
  {
    hide Moved;
    assert (moves + [m])[..|moves|] == moves;
  }

  /** What a move does to the queue, as steps of the queue. */
  function StepsOf(w: World, m: Move): seq<Step> {
    match m
    case Input(bot, source, text) => [DoEnqueue(bot, source, text)]
    case Delivery(row, sender) => [DoDeliver(row, sender)]
    case Outside(step) => if IsOutside(step) then [step] else []
    case Fold(k) => if k < |w.loops| && w.loops[k].stage == Folding then [DoStart(w.loops[k].bot)] else []
    case End(k, out) => if k < |w.loops| && w.loops[k].stage == Executing then [DoFinish(w.loops[k].bot, out)] else []
    case Go(k) => if k < |w.loops| && w.loops[k].stage == Executing then [DoGoOn(w.loops[k].bot)] else []
    case Crash => [DoRestart]
    case _ => []
  }

  ghost function QueueSteps(moves: seq<Move>): seq<Step> {
    if moves == [] then []
    else QueueSteps(moves[..|moves| - 1]) + StepsOf(Play(moves[..|moves| - 1]), moves[|moves| - 1])
  }

  // ----- one loop per bot, and it alone executes -----

  ghost predicate Distinct(loops: seq<Loop>) {
    forall j, k :: 0 <= j < k < |loops| ==> loops[j].bot != loops[k].bot
  }

  /** Every loop has a channel, and so has every bot about to be sent a token. */
  ghost predicate HaveChannels(w: World) {
    && (forall k :: 0 <= k < |w.loops| ==> w.loops[k].bot in w.wake)
    && (forall b :: b in w.sends ==> b in w.wake)
  }

  /** A loop is inside `execute` exactly while its bot is running a turn or ending one. */
  ghost predicate Executors(loops: seq<Loop>, q: State) {
    && (forall k :: 0 <= k < |loops| ==> (loops[k].stage == Executing <==> Busy(q, loops[k].bot)))
    && (forall b :: Busy(q, b) ==> exists k :: 0 <= k < |loops| && loops[k].bot == b)
  }

  ghost predicate LoopsOk(w: World) {
    Distinct(w.loops) && HaveChannels(w) && Executors(w.loops, w.q)
  }

  ghost predicate LoopInv(w: World) {
    Inv(w.q) && ClosingOk(w.q) && LoopsOk(w)
  }

  /** A move that leaves the loops and the busy bots alone. */
  lemma NoLoopMoves(w: World, v: World)
    requires LoopsOk(w) && v.loops == w.loops && w.wake.Keys <= v.wake.Keys && v.sends <= w.sends
    requires forall b :: Busy(v.q, b) <==> Busy(w.q, b)
    ensures LoopsOk(v)
  {
    hide Busy;
  }

  /** A loop moves on and its bot becomes busy, or stops being so, with it. */
  lemma LoopMoves(w: World, v: World, k: nat, stage: Stage)
    requires LoopsOk(w) && k < |w.loops| && v.loops == w.loops[k := w.loops[k].(stage := stage)] && HaveChannels(v)
    requires forall b :: b != w.loops[k].bot ==> (Busy(v.q, b) <==> Busy(w.q, b))
    requires Busy(v.q, w.loops[k].bot) <==> stage == Executing
    ensures LoopsOk(v)
  {
    hide Busy, HaveChannels;
    forall j | 0 <= j < |v.loops| ensures v.loops[j].stage == Executing <==> Busy(v.q, v.loops[j].bot) {
      assert j != k ==> w.loops[j].bot != w.loops[k].bot;
    }
    forall b | Busy(v.q, b) ensures exists j :: 0 <= j < |v.loops| && v.loops[j].bot == b {
      if b == w.loops[k].bot {
        assert v.loops[k].bot == b;
      } else {
        var j :| 0 <= j < |w.loops| && w.loops[j].bot == b;
        assert v.loops[j].bot == b;
      }
    }
  }

  /** A bot without a channel has no loop, so it is not executing, and a new loop is its only one. */
  lemma LockKeeps(w: World, bot: nat)
    requires LoopsOk(w)
    ensures LoopsOk(Locks(w, bot))
  {
    hide Busy;
    var v := Locks(w, bot);
    if bot in w.kicks && bot !in w.wake {
      assert forall k :: 0 <= k < |w.loops| ==> w.loops[k].bot != bot && v.loops[k] == w.loops[k];
      assert v.loops[|w.loops|].bot == bot;
      forall b | Busy(v.q, b) ensures exists k :: 0 <= k < |v.loops| && v.loops[k].bot == b {
        var k :| 0 <= k < |w.loops| && w.loops[k].bot == b;
        assert v.loops[k].bot == b;
      }
    }
  }

  /** The loop that folds finds its bot free: the guard of the step `Start` never refuses. */
  lemma FoldIsStart(w: World, k: nat)
    requires LoopsOk(w) && k < |w.loops| && w.loops[k].stage == Folding
    ensures !Busy(w.q, w.loops[k].bot) && Folds(w, k).q == Start(w.q, w.loops[k].bot)
  {
    hide Folded, Repointed, FirstQueued;
  }

  /** A move takes the queue one step on, or leaves it alone. */
  lemma MoveIsStep(w: World, m: Move)
    requires LoopsOk(w)
    ensures |StepsOf(w, m)| <= 1
    ensures Moved(w, m).q == if StepsOf(w, m) == [] then w.q else Next(w.q, StepsOf(w, m)[0])
  {
    if m.Fold? && m.k < |w.loops| && w.loops[m.k].stage == Folding {
      FoldIsStart(w, m.k);
    }
    hide LoopsOk, Finish, GoOn, Start, StartAny, FirstQueued, Deliver, Restart, Enqueue, Locked, Tokened, ToKick;
    if StepsOf(w, m) != [] {
      NextIs(w.q, StepsOf(w, m)[0]);
    }
    if m.Go? && m.k < |w.loops| {
      GoOnGoes(w.q, w.loops[m.k].bot);
    }
  }

  lemma FoldKeeps(w: World, k: nat)
    requires LoopsOk(w) && k < |w.loops|
    ensures LoopsOk(Folds(w, k))
  {
    hide Folded, Repointed, FirstQueued;
    var v, b := Folds(w, k), w.loops[k].bot;
    assert HaveChannels(v) && (w.loops[k].stage != Executing ==> !Busy(w.q, b));
    assert forall c :: c != b ==> (Busy(v.q, c) <==> Busy(w.q, c));
    if w.loops[k].stage == Folding {
      assert Busy(v.q, b) <==> v.loops[k].stage == Executing;
      hide LoopsOk, HaveChannels, Busy, Folds;
      LoopMoves(w, v, k, v.loops[k].stage);
    }
  }

  lemma LookKeeps(w: World, k: nat)
    requires LoopsOk(w) && k < |w.loops|
    ensures LoopsOk(Takes(w, k)) && LoopsOk(Checks(w, k))
  {
    var t, c := Takes(w, k), Checks(w, k);
    assert HaveChannels(t) && HaveChannels(c) && (w.loops[k].stage != Executing ==> !Busy(w.q, w.loops[k].bot));
    hide HaveChannels, LoopsOk, Busy;
    if t != w {
      LoopMoves(w, t, k, Checking);
    }
    if c != w {
      LoopMoves(w, c, k, c.loops[k].stage);
    }
  }

  lemma GoKeeps(w: World, k: nat)
    requires LoopsOk(w) && k < |w.loops| && (w.loops[k].bot in w.q.closing ==> w.loops[k].bot !in w.q.active)
    ensures LoopsOk(Goes(w, k))
  {
    var v, b := Goes(w, k), w.loops[k].bot;
    assert HaveChannels(v);
    if w.loops[k].stage == Executing && b in w.q.closing {
      hide GoOn, HaveChannels, LoopsOk, AddsTurn, AddsRow, NextPhase, HandsOff;
      GoOnGoes(w.q, b);
      assert w.loops[k := w.loops[k].(stage := Executing)] == w.loops;
      LoopMoves(w, v, k, v.loops[k].stage);
    }
  }

  lemma MoveKeeps(w: World, m: Move)
    requires LoopInv(w)
    ensures LoopInv(Moved(w, m))
  {
    var v := Moved(w, m);
    assert Inv(v.q) && ClosingOk(v.q) by {
      hide Inv, ClosingOk, LoopsOk, Moved, Next, StepsOf;
      MoveIsStep(w, m);
      if StepsOf(w, m) != [] {
        StepKeeps(w.q, StepsOf(w, m)[0]);
        StepClosing(w.q, StepsOf(w, m)[0]);
      }
    }
    assert forall b :: b in w.q.closing ==> b !in w.q.active;
    hide Inv, ClosingOk;
    assert LoopsOk(v) by {
      LoopsStay(w, m);
    }
  }

  lemma LoopsStay(w: World, m: Move)
    requires LoopsOk(w) && forall b :: b in w.q.closing ==> b !in w.q.active
    ensures LoopsOk(Moved(w, m))
  {
    hide Next, Enqueue, Deliver, Finish, Locks, Sends, Takes, Checks, Folds, Ends, Goes, Delivers, Crashes, LoopsOk;
    match m
    case KickLock(bot) => LockKeeps(w, bot);
    case Take(k) =>
      if k < |w.loops| {
        LookKeeps(w, k);
      }
    case Check(k) =>
      if k < |w.loops| {
        LookKeeps(w, k);
      }
    case Fold(k) =>
      if k < |w.loops| {
        FoldKeeps(w, k);
      }
    case Go(k) =>
      if k < |w.loops| {
        GoKeeps(w, k);
      }
    case Crash => CrashKeeps(w);
    case _ => OthersKeep(w, m);
  }

  lemma CrashKeeps(w: World)
    ensures LoopsOk(Crashes(w))
  {
    hide RecoverUpTo, ToKick;
  }

  lemma OthersKeep(w: World, m: Move)
    requires LoopsOk(w) && (m.KickSend? || m.Input? || m.Delivery? || m.Outside? || m.End?)
    ensures LoopsOk(Moved(w, m))
  {
    hide Moved, Busy;
    OthersBusy(w, m);
    OthersLoops(w, m);
    NoLoopMoves(w, Moved(w, m));
  }

  lemma OthersBusy(w: World, m: Move)
    requires m.KickSend? || m.Input? || m.Delivery? || m.Outside? || m.End?
    ensures forall b :: Busy(Moved(w, m).q, b) <==> Busy(w.q, b)
  {
    hide Next, NewTurn, Label;
    if m.Outside? {
      NextIs(w.q, m.step);
    }
  }

  lemma OthersLoops(w: World, m: Move)
    requires m.KickSend? || m.Input? || m.Delivery? || m.Outside? || m.End?
    ensures var v := Moved(w, m); v.loops == w.loops && w.wake.Keys <= v.wake.Keys && v.sends <= w.sends
  {
    hide Next, Enqueue, Deliver, Finish;
  }

  lemma {:induction false} PlayKeeps(moves: seq<Move>)
    ensures LoopInv(Play(moves))
  {
    assert ClosingOk(Empty) && LoopsOk(NewWorld);
    hide Moved, Inv, ClosingOk, LoopsOk;
    if moves == [] {
      EmptyInv();
    } else {
      PlayKeeps(moves[..|moves| - 1]);
      MoveKeeps(Play(moves[..|moves| - 1]), moves[|moves| - 1]);
    }
  }

  /** The goroutines only take steps of the queue: every play is a run, so all that holds of runs holds
      of it. No step of it needs the guard of `Start`. */
  lemma {:induction false} PlaysAreRuns(moves: seq<Move>)
    ensures Play(moves).q == Run(QueueSteps(moves))
  {
    hide Moved, Next, StepsOf, Inv, ClosingOk, LoopsOk;
    if moves != [] {
      var before, m := moves[..|moves| - 1], moves[|moves| - 1];
      PlaysAreRuns(before);
      PlayKeeps(before);
      MoveIsStep(Play(before), m);
      var steps := StepsOf(Play(before), m);
      if steps == [] {
        assert QueueSteps(before) + steps == QueueSteps(before);
      } else {
        assert steps == [steps[0]];
        RunSnoc(QueueSteps(before), steps[0]);
      }
    }
  }

  /** However kicks, loops and crashes interleave, a bot has at most one loop, and at most one turn of
      it is running, inside that loop's `execute`: `kick` creates a loop only where the map has no
      channel, and only loops start turns. */
  lemma OneLoopOneTurn(moves: seq<Move>)
    ensures Distinct(Play(moves).loops) && OnePerBot(Play(moves).q.turns)
    ensures forall i :: 0 <= i < |Play(moves).q.turns| && Play(moves).q.turns[i].status == Running
              ==> Loop(Play(moves).q.turns[i].bot, Executing) in Play(moves).loops
  {
    var w := Play(moves);
    PlayKeeps(moves);
    hide Play;
    forall i | 0 <= i < |w.q.turns| && w.q.turns[i].status == Running ensures Loop(w.q.turns[i].bot, Executing) in w.loops {
      var b := w.q.turns[i].bot;
      assert b in w.q.active;
      assert Busy(w.q, b);
      hide Inv, ClosingOk, Distinct, HaveChannels;
      var k :| 0 <= k < |w.loops| && w.loops[k].bot == b;
      assert w.loops[k] == Loop(b, Executing);
    }
  }

  ghost predicate OnePerBot(ts: seq<Turn>) {
    forall i, j :: 0 <= i < |ts| && 0 <= j < |ts| && ts[i].status == Running && ts[j].status == Running && ts[i].bot == ts[j].bot
      ==> i == j
  }

  // ----- no wake-up is lost -----

  ghost predicate InRun(loops: seq<Loop>, b: nat) {
    exists k :: 0 <= k < |loops| && loops[k].bot == b && loops[k].stage != Idle
  }

  /** Somebody is going to look at the bot's queue. */
  ghost predicate Watched(w: World, b: nat) {
    b in w.kicks || b in w.sends || (b in w.wake && w.wake[b]) || InRun(w.loops, b)
  }

  /** Somebody is going to look at the bot's queue, or has looked and refused. */
  ghost predicate Heeded(w: World, b: nat) {
    Watched(w, b) || b in w.refused
  }

  ghost predicate NoneLost(w: World) {
    forall i :: 0 <= i < |w.q.turns| && w.q.turns[i].status == Queued ==> Heeded(w, w.q.turns[i].bot)
  }

  /** Every turn queued afterwards was queued before, or is one of a bot of `bots`. */
  ghost predicate QueuesOnly(q: State, r: State, bots: set<nat>) {
    && |q.turns| <= |r.turns|
    && forall i :: 0 <= i < |r.turns| && r.turns[i].status == Queued ==>
         r.turns[i].bot in bots || (i < |q.turns| && q.turns[i].status == Queued && q.turns[i].bot == r.turns[i].bot)
  }

  /** The bots that a move may queue a turn for. */
  function Fed(w: World, m: Move): set<nat> {
    match m
    case Input(bot, _, _) => {bot}
    case Delivery(row, sender) => if Deliver(w.q, row, sender) != w.q then {w.q.inbox[row].to} else {}
    case Go(k) => if k < |w.loops| && w.loops[k].stage == Executing && w.loops[k].bot in w.q.closing then {w.loops[k].bot} else {}
    case _ => {}
  }

  lemma OutsideQueues(q: State, step: Step)
    requires IsOutside(step)
    ensures QueuesOnly(q, Next(q, step), {})
  {
    hide TrimSpace;
  }

  lemma InputQueues(w: World, m: Move)
    requires m.Input? || m.Delivery? || m.Outside? || m.End?
    ensures QueuesOnly(w.q, Moved(w, m).q, Fed(w, m))
  {
    hide Label, Next;
    if m.Outside? && IsOutside(m.step) {
      OutsideQueues(w.q, m.step);
    }
  }

  lemma MoveQueues(w: World, m: Move)
    requires !m.Crash?
    ensures QueuesOnly(w.q, Moved(w, m).q, Fed(w, m))
  {
    if m.Input? || m.Delivery? || m.Outside? || m.End? {
      InputQueues(w, m);
      hide Moved, QueuesOnly, Fed;
    } else {
      hide FoldParts, FirstQueued, GoOn, Injecting, FollowUpText, AddsRow, SameEnds, NextPhase, HandsOff;
      if m.Go? && m.k < |w.loops| {
        GoOnGoes(w.q, w.loops[m.k].bot);
      }
      assert QueuesOnly(w.q, Moved(w, m).q, Fed(w, m));
    }
    hide Moved, QueuesOnly, Fed;
  }

  /** A loop moves on: it is inside `runNext` unless it goes back to waiting, and the others stay. */
  lemma RunsOn(loops: seq<Loop>, k: nat, stage: Stage)
    requires Distinct(loops) && k < |loops|
    ensures var loops' := loops[k := loops[k].(stage := stage)];
            && (stage != Idle ==> InRun(loops', loops[k].bot))
            && forall b :: InRun(loops, b) && b != loops[k].bot ==> InRun(loops', b)
  {
    var loops' := loops[k := loops[k].(stage := stage)];
    assert loops'[k].bot == loops[k].bot;
    forall b | InRun(loops, b) && b != loops[k].bot ensures InRun(loops', b) {
      var j :| 0 <= j < |loops| && loops[j].bot == b && loops[j].stage != Idle;
      assert loops'[j].bot == b && loops'[j].stage != Idle;
    }
  }

  /** A loop that found nothing queued goes back to waiting. */
  predicate FindsNone(w: World, m: Move) {
    m.Fold? && m.k < |w.loops| && w.loops[m.k].stage == Folding && FirstQueued(w.q.turns, w.loops[m.k].bot) == |w.q.turns|
  }

  /** A loop whose bot is waiting or archived goes back to waiting. */
  predicate Refuses(w: World, m: Move) {
    && m.Check? && m.k < |w.loops| && w.loops[m.k].stage == Checking
    && (w.loops[m.k].bot in w.q.waiting || w.loops[m.k].bot in w.q.archived)
  }

  lemma LoopHeeds(w: World, m: Move)
    requires Distinct(w.loops) && (m.Take? || m.Check? || m.Fold? || m.End? || m.Go?) && m.k < |w.loops|
    ensures var v, c := Moved(w, m), w.loops[m.k].bot;
            && (forall b :: (Watched(w, b) && (b == c ==> !FindsNone(w, m) && !Refuses(w, m))) || b in Fed(w, m) ==> Watched(v, b))
            && (forall b :: b in w.refused ==> b in v.refused || Watched(v, b))
            && (Refuses(w, m) ==> c in v.refused)
  {
    hide InRun, Distinct, StartAny, Finish, GoOn, FirstQueued;
    var v := Moved(w, m);
    RunsOn(w.loops, m.k, v.loops[m.k].stage);
    assert v.loops == w.loops[m.k := w.loops[m.k].(stage := v.loops[m.k].stage)];
  }

  lemma LockHeeds(w: World, bot: nat)
    ensures Locks(w, bot).refused == w.refused && forall b :: Watched(w, b) ==> Watched(Locks(w, bot), b)
  {
    var v := Locks(w, bot);
    forall b | Watched(w, b) ensures Watched(v, b) {
      if InRun(w.loops, b) {
        var j :| 0 <= j < |w.loops| && w.loops[j].bot == b && w.loops[j].stage != Idle;
        assert v.loops[j] == w.loops[j];
      }
    }
  }

  lemma SendHeeds(w: World, bot: nat)
    ensures Sends(w, bot).refused == w.refused && forall b :: Watched(w, b) ==> Watched(Sends(w, bot), b)
  {
    hide InRun;
  }

  lemma InputHeeds(w: World, m: Move)
    requires m.KickLock? || m.KickSend? || m.Input? || m.Delivery? || m.Outside?
    ensures Moved(w, m).refused == w.refused
    ensures forall b :: Watched(w, b) || b in Fed(w, m) ==> Watched(Moved(w, m), b)
  {
    hide Next, Enqueue, Deliver, InRun, Locks, Sends;
    if m.KickLock? || m.KickSend? {
      LockHeeds(w, m.bot);
      SendHeeds(w, m.bot);
    }
  }

  lemma CrashHeeds(w: World)
    ensures NoneLost(Crashes(w))
  {
    hide Restart, InRun;
    var v := Crashes(w);
    forall i | 0 <= i < |v.q.turns| && v.q.turns[i].status == Queued ensures Heeded(v, v.q.turns[i].bot) {
      if v.q.turns[i].bot !in v.q.archived {
        assert v.q.turns[i].bot in ToKick(v.q);
      }
    }
  }

  lemma MoveHeeds(w: World, m: Move)
    requires Distinct(w.loops) && NoneLost(w)
    ensures NoneLost(Moved(w, m))
  {
    var v := Moved(w, m);
    if m.Crash? {
      CrashHeeds(w);
    } else {
      assert FindsNone(w, m) ==> forall i :: 0 <= i < |w.q.turns| ==> !IsQueued(w.q.turns[i], w.loops[m.k].bot) by {
        hide Moved;
      }
      hide Moved, Watched, Distinct, Fed, FindsNone, Refuses;
      MoveQueues(w, m);
      if (m.Take? || m.Check? || m.Fold? || m.End? || m.Go?) && m.k < |w.loops| {
        LoopHeeds(w, m);
      } else if m.KickLock? || m.KickSend? || m.Input? || m.Delivery? || m.Outside? {
        InputHeeds(w, m);
      }
    }
  }

  /** No wake-up is lost: at every moment of every play, a bot with a queued turn has a kick under way, a
      token in its channel, or its loop inside `runNext`; or it was waiting for the owner or archived
      when its loop last looked. */
  lemma {:induction false} NoWakeUpLost(moves: seq<Move>)
    ensures NoneLost(Play(moves))
  {
    assert NoneLost(NewWorld);
    hide Moved, NoneLost, Inv, ClosingOk, Distinct, HaveChannels, Executors;
    if moves != [] {
      NoWakeUpLost(moves[..|moves| - 1]);
      PlayKeeps(moves[..|moves| - 1]);
      MoveHeeds(Play(moves[..|moves| - 1]), moves[|moves| - 1]);
    }
  }

  // ----- a wake-up that was refused is not repeated -----

  ghost predicate HasQueued(q: State, b: nat) {
    exists i :: 0 <= i < |q.turns| && IsQueued(q.turns[i], b)
  }

  predicate Free(q: State, b: nat) {
    b !in q.waiting && b !in q.archived
  }

  /** Bot `b` is free to run and has a queued turn, but nobody is going to look at it. */
  ghost predicate Stranded(w: World, b: nat) {
    Free(w.q, b) && HasQueued(w.q, b) && Unheeded(w, b)
  }

  ghost predicate Unheeded(w: World, b: nat) {
    && b !in w.kicks && b !in w.sends && !(b in w.wake && w.wake[b])
    && forall k :: 0 <= k < |w.loops| && w.loops[k].bot == b ==> w.loops[k].stage == Idle
  }

  /** The move brings `b` back from the archive, or from waiting while it is not archived. */
  predicate Frees(w: World, m: Move, b: nat) {
    m == Outside(DoUnarchive(b)) || (m == Outside(DoUnpark(b)) && b !in w.q.archived)
  }

  /** Bringing a bot back strands it exactly when a turn of it is queued and nobody is going to look. */
  lemma FreeingStrands(w: World, m: Move, b: nat)
    requires Frees(w, m, b)
    ensures Stranded(Moved(w, m), b) <==> HasQueued(w.q, b) && Unheeded(w, b)
  {
    var q := Moved(w, m).q;
    assert q.turns == w.q.turns && Free(q, b);
    assert HasQueued(q, b) <==> HasQueued(w.q, b);
    hide HasQueued, Moved;
  }

  /** Any other move leaves a bot served that was served. */
  lemma StaysServed(w: World, m: Move, b: nat)
    requires Distinct(w.loops) && !Stranded(w, b) && !Frees(w, m, b)
    ensures !Stranded(Moved(w, m), b)
  {
    var v := Moved(w, m);
    if m.Crash? {
      CrashServes(w, b);
    } else {
      assert Watched(w, b) <==> !Unheeded(w, b);
      assert Watched(v, b) <==> !Unheeded(v, b);
      if !Watched(w, b) && !Free(w.q, b) {
        StaysRefused(w, m, b);
      }
      assert FindsNone(w, m) && b == w.loops[m.k].bot ==> !HasQueued(v.q, b);
      assert Refuses(w, m) && b == w.loops[m.k].bot ==> !Free(v.q, b);
      hide Moved, Watched, Unheeded, Distinct, Fed, FindsNone, Refuses, Free;
      MoveQueues(w, m);
      assert HasQueued(v.q, b) ==> HasQueued(w.q, b) || b in Fed(w, m);
      hide HasQueued, QueuesOnly;
      if (m.Take? || m.Check? || m.Fold? || m.End? || m.Go?) && m.k < |w.loops| {
        LoopHeeds(w, m);
      } else if m.KickLock? || m.KickSend? || m.Input? || m.Delivery? || m.Outside? {
        InputHeeds(w, m);
      }
    }
  }

  lemma CrashServes(w: World, b: nat)
    ensures !Stranded(Crashes(w), b)
  {
    hide Restart;
    var v := Crashes(w);
    if Free(v.q, b) && HasQueued(v.q, b) {
      var i :| 0 <= i < |v.q.turns| && IsQueued(v.q.turns[i], b);
      assert b in ToKick(v.q);
    }
  }

  lemma StaysRefused(w: World, m: Move, b: nat)
    requires !m.Crash? && Unheeded(w, b) && !Free(w.q, b) && !Frees(w, m, b)
    ensures !Free(Moved(w, m).q, b)
  {
    hide GoOn, Folded, Repointed, FirstQueued, DropQueue, NewTurn, Label, TrimSpace, ToKick, AddsTurn, AddsRow,
         NextPhase, SameEnds, HandsOff;
    if m.Go? && m.k < |w.loops| {
      GoOnGoes(w.q, w.loops[m.k].bot);
    }
  }

  /** In every play, a bot that is not stranded becomes so by a move if and only if the move brings it
      back from the archive or from waiting, a turn of it is queued, and nobody is going to look at it. */
  lemma BecomesStranded(moves: seq<Move>, m: Move, b: nat)
    requires !Stranded(Play(moves), b)
    ensures Stranded(Play(moves + [m]), b) <==> Frees(Play(moves), m, b) && HasQueued(Play(moves).q, b) && Unheeded(Play(moves), b)
  {
    PlaySnoc(moves, m);
    assert Distinct(Play(moves).loops) by {
      PlayKeeps(moves);
    }
    hide Play, Moved, Stranded, Frees, HasQueued, Unheeded, Distinct;
    if Frees(Play(moves), m, b) {
      FreeingStrands(Play(moves), m, b);
    } else {
      StaysServed(Play(moves), m, b);
    }
  }

  /** By `NoWakeUpLost`, a stranded bot is one whose loop was refused. */
  lemma StrandedWasRefused(moves: seq<Move>, b: nat)
    requires Stranded(Play(moves), b)
    ensures b in Play(moves).refused
  {
    NoWakeUpLost(moves);
    hide Play;
  }

  /** It stays that way until new input for the bot arrives or the process is restarted. */
  lemma UnheededStays(w: World, m: Move, b: nat)
    requires Unheeded(w, b) && !m.Crash? && !(m.Input? && m.bot == b)
    requires !(m.Delivery? && m.row < |w.q.inbox| && w.q.inbox[m.row].to == b)
    ensures Unheeded(Moved(w, m), b)
  {
    hide Next, Enqueue, Deliver, StartAny, FirstQueued, Finish, GoOn, Restart, ToKick, Locks, Sends;
    if m.KickLock? || m.KickSend? {
      KickUnheeded(w, m.bot, b);
    } else if m.Delivery? && m.row >= |w.q.inbox| {
      DeliverNothing(w.q, m.row, m.sender);
    }
  }

  lemma KickUnheeded(w: World, bot: nat, b: nat)
    requires Unheeded(w, b)
    ensures Unheeded(Locks(w, bot), b) && Unheeded(Sends(w, bot), b)
  {
  }

  lemma DeliverNothing(q: State, row: nat, sender: string)
    requires row >= |q.inbox|
    ensures Deliver(q, row, sender) == q
  {
  }

  const Letter := Row(1, Some(GENERAL), "x", true, false, 0, false, None)
  const Delivered := Row(1, Some(GENERAL), "x", true, false, 0, true, Some(0))
  const Waits := Turn(1, FromBot, [Part(0, "Message from w:\nx")], [], Queued, Open, Success, 0, None)
  const L1 := State([], [Letter], {}, {}, map[], map[], 1, 0, [], [], [], {}, map[])
  const L2 := State([], [Letter], {1}, {}, map[], map[], 1, 0, [], [], [], {}, map[])
  const L3 := State([Waits], [Delivered], {1}, {}, map[], map[], 1, 0, [], [], [], {}, map[])
  const L4 := State([Waits], [Delivered], {}, {}, map[], map[], 1, 0, [], [], [], {}, map[])

  lemma LetterSent()
    ensures Next(Empty, DoSend(GENERAL, 1, "x", true)) == L1
  {
    hide TrimSpace, Enqueue, Start, Finish, GoOn, Restart, Stop, Archive, Unarchive, Deliver;
    TrimOne('x');
  }

  lemma SessionArchives()
    ensures Next(L1, DoArchive(1)) == L2
  {
    hide Enqueue, Start, Finish, GoOn, Restart, Stop, Send, Unarchive, Deliver;
    assert DropQueue([], 1, SessionArchived) == [];
    assert L1.archived + {1} == {1} && L1.waiting - {1} == {};
  }

  lemma LetterDelivered()
    ensures Deliver(L2, 0, "w") == L3
  {
    assert Label("w", "x") == "Message from w:\nx";
  }

  lemma SessionReturns()
    ensures Next(L3, DoUnarchive(1)) == L4
  {
    hide Enqueue, Start, Finish, GoOn, Restart, Stop, Send, Archive, Deliver;
    assert L3.archived - {1} == {} && L3.waiting - {1} == {};
  }

  /** A message is delivered to a session that was archived in the meantime; its loop is woken, refuses,
      and waits again. When the session is brought back nobody wakes the loop, so the turn stays in the
      queue. */
  lemma UnarchiveStrands() returns (moves: seq<Move>)
    ensures Stranded(Play(moves), 1)
  {
    hide Next, Deliver, Play, FirstQueued, StartAny, Finish, GoOn, Restart, Enqueue;
    LetterSent();
    SessionArchives();
    LetterDelivered();
    SessionReturns();
    EmptyPlay();
    moves := [];
    PlaySnoc(moves, Outside(DoSend(GENERAL, 1, "x", true)));
    moves := moves + [Outside(DoSend(GENERAL, 1, "x", true))];
    PlaySnoc(moves, Outside(DoArchive(1)));
    moves := moves + [Outside(DoArchive(1))];
    assert Play(moves) == NewWorld.(q := L2);
    PlaySnoc(moves, Delivery(0, "w"));
    moves := moves + [Delivery(0, "w")];
    assert Play(moves) == NewWorld.(q := L3, kicks := multiset{1});
    Refused(moves);
    moves := moves + [KickLock(1)] + [KickSend(1)] + [Take(0)] + [Check(0)];
    PlaySnoc(moves, Outside(DoUnarchive(1)));
    moves := moves + [Outside(DoUnarchive(1))];
    assert Play(moves) == World(L4, map[1 := false], [Loop(1, Idle)], multiset{}, multiset{}, {1});
    assert IsQueued(L4.turns[0], 1);
  }

  lemma EmptyPlay()
    ensures Play([]) == NewWorld
  {
  }

  lemma Refused(moves: seq<Move>)
    requires Play(moves) == NewWorld.(q := L3, kicks := multiset{1})
    ensures Play(moves + [KickLock(1)] + [KickSend(1)] + [Take(0)] + [Check(0)])
         == World(L3, map[1 := false], [Loop(1, Idle)], multiset{}, multiset{}, {1})
  {
    hide Play;
    var a := moves + [KickLock(1)];
    PlaySnoc(moves, KickLock(1));
    assert Locks(Play(moves), 1) == World(L3, map[1 := false], [Loop(1, Idle)], multiset{}, multiset{1}, {});
    var b := a + [KickSend(1)];
    PlaySnoc(a, KickSend(1));
    assert Sends(Play(a), 1) == World(L3, map[1 := true], [Loop(1, Idle)], multiset{}, multiset{}, {});
    var c := b + [Take(0)];
    PlaySnoc(b, Take(0));
    assert Takes(Play(b), 0) == World(L3, map[1 := false], [Loop(1, Checking)], multiset{}, multiset{}, {});
    PlaySnoc(c, Check(0));
  }
}
