/** What becomes of background jobs over whole runs: which of them wake their bot, that no running job is
 * forgotten, and every way in which a job's status changes.
 *
 * A run is any interleaving of the steps of `Background`, so each of these holds whatever the scheduler, the
 * goroutines of the jobs, the MCP process, an archive and a crash do in between. */
module BackgroundWakes {
  import opened GoStrings
  import opened Background

  lemma RunNext(steps: seq<Step>, step: Step)
    ensures Run(steps + [step]) == Next(Run(steps), step)
  {
    assert (steps + [step])[..|steps|] == steps;
  }

  // ----- one step -----

  /** A wake that is due enqueues one turn for its bot, unless that is archived; no other job is touched, and
      the wake is due no more. */
  lemma WakeRaises(s: State, id: nat, supervised: bool)
    requires Waking(id, supervised) in s.tasks && id < |s.jobs|
    ensures var r, job := Next(s, Wake(id, supervised)), s.jobs[id];
            && |r.jobs| == |s.jobs| && r.jobs[id] == job.(wakes := job.wakes + if job.bot in s.archived then 0 else 1)
            && (forall k :: 0 <= k < |s.jobs| && k != id ==> r.jobs[k] == s.jobs[k])
            && r.tasks[Waking(id, supervised)] == s.tasks[Waking(id, supervised)] - 1
            && r.archived == s.archived
  {
    hide RunningOf, WithStatus;
  }

  /** The step ends job `id` and makes its goroutine owe a wake. */
  predicate EndsWaking(s: State, step: Step, id: nat, supervised: bool) {
    && id < |s.jobs| && s.jobs[id].status == Running
    && if supervised then step.FinishUpdate? && step.id == id && Watching(id) in s.tasks
         && (step.cancelled ==> s.jobs[id].cancelRequested)
       else step == LaunchFails(id) && Launching(id) in s.tasks
  }

  /** Cancelling a queued job fails it; any other job it leaves alone. */
  lemma CancelFails(s: State, id: nat)
    ensures var r := Next(s, CancelQueued(id));
            && |r.jobs| == |s.jobs| && r == s.(jobs := r.jobs)
            && forall k :: 0 <= k < |s.jobs| ==>
                 r.jobs[k] == if k == id && s.jobs[k].status == Queued then s.jobs[k].(status := Failed) else s.jobs[k]
  {
    hide RunningOf, WithStatus, Classify, Move, FailAll;
  }

  /** Asking to cancel sets the flag of that job and changes nothing else. */
  lemma FlagAsks(s: State, id: nat)
    ensures var r := Next(s, FlagCancel(id));
            && |r.jobs| == |s.jobs| && r == s.(jobs := r.jobs)
            && forall k :: 0 <= k < |s.jobs| ==> r.jobs[k] == if k == id then s.jobs[k].(cancelRequested := true) else s.jobs[k]
  {
    hide RunningOf, WithStatus, Classify, Move, FailAll;
  }

  /** Archiving a bot leaves none of its jobs queued or running: those that were have failed and are flagged.
      What had ended, and every other bot's job, stays as it is. */
  lemma ArchiveFails(s: State, bot: nat)
    ensures var r := Next(s, FailBotJobs(bot));
            && |r.jobs| == |s.jobs| && r == s.(jobs := r.jobs)
            && (forall k :: 0 <= k < |s.jobs| && s.jobs[k].bot == bot ==> Ended(r.jobs[k].status))
            && (forall k :: 0 <= k < |s.jobs| && s.jobs[k].bot == bot && !Ended(s.jobs[k].status) ==>
                  r.jobs[k] == s.jobs[k].(status := Failed, cancelRequested := true))
            && (forall k :: 0 <= k < |s.jobs| && (s.jobs[k].bot != bot || Ended(s.jobs[k].status)) ==> r.jobs[k] == s.jobs[k])
  {
    FailBotStep(s, bot);
    hide Next;
  }

  /** Every way in which a job's status changes. A queued job starts only by the claim of the scheduler that
      found room for it, and fails when it is cancelled or its bot archived or gone; a running one is done
      when its process wrote exit status 0 and it was not cancelled, and fails when its process ended
      otherwise, could not be started, or its bot was archived; nothing else changes it. */
  lemma StatusMoves(s: State, step: Step, id: nat)
    requires Inv(s) && id < |s.jobs|
    ensures var r := Next(s, step);
            id < |r.jobs| &&
            match s.jobs[id].status
            case Queued => FromQueued(s, step, id, r.jobs[id].status)
            case Running => FromRunning(s, step, id, r.jobs[id].status)
            case _ => r.jobs[id].status == s.jobs[id].status
  {
    StepKeeps(s, step);
    NotGone(s, id);
    hide Inv, Next, FromQueued, FromRunning;
    if s.jobs[id].status == Queued {
      QueuedMoves(s, step, id);
    } else if s.jobs[id].status == Running {
      RunningMoves(s, step, id);
    }
  }

  predicate FromQueued(s: State, step: Step, id: nat, now: Status)
    requires id < |s.jobs|
  {
    && (now == Running <==> step.Claim? && s.sched.BelowCap? && s.sched.id == id)
    && (now == Failed <==> (step.CancelQueued? && step.id == id) || (step.FailBotJobs? && step.bot == s.jobs[id].bot)
                           || (step.FailGone? && s.sched.BotGone? && s.sched.id == id))
    && now != Done
  }

  predicate FromRunning(s: State, step: Step, id: nat, now: Status)
    requires id < |s.jobs|
  {
    && (now == Done <==> EndsWaking(s, step, id, true) && step.code == Some(0) && !step.cancelled)
    && (now == Failed <==> EndsWaking(s, step, id, false) || (step.FailBotJobs? && step.bot == s.jobs[id].bot)
                           || (EndsWaking(s, step, id, true) && !(step.code == Some(0) && !step.cancelled)))
    && now != Queued
  }

  lemma QueuedMoves(s: State, step: Step, id: nat)
    requires id < |s.jobs| && s.jobs[id].status == Queued
    ensures id < |Next(s, step).jobs| && FromQueued(s, step, id, Next(s, step).jobs[id].status)
  {
    StatusIs(s, step, id);
    NotEnding(s, step, id);
    hide Next, EndsWaking, Classify;
  }

  lemma NotEnding(s: State, step: Step, id: nat)
    requires id < |s.jobs| && s.jobs[id].status == Queued
    ensures !EndsWaking(s, step, id, true) && !EndsWaking(s, step, id, false)
  {
  }

  lemma RunningMoves(s: State, step: Step, id: nat)
    requires id < |s.jobs| && s.jobs[id].status == Running && (s.sched.BotGone? ==> s.sched.id != id)
    ensures id < |Next(s, step).jobs| && FromRunning(s, step, id, Next(s, step).jobs[id].status)
  {
    StatusIs(s, step, id);
    EndsKinds(s, step, id);
    hide Next, EndsWaking;
  }

  lemma EndsKinds(s: State, step: Step, id: nat)
    ensures EndsWaking(s, step, id, true) ==> step.FinishUpdate? && step.id == id
    ensures EndsWaking(s, step, id, false) ==> step == LaunchFails(id)
  {
  }

  /** The new status, step by step. */
  function NewStatus(s: State, step: Step, id: nat): Status
    requires id < |s.jobs|
  {
    var was := s.jobs[id].status;
    match step
    case CancelQueued(x) => if x == id && was == Queued then Failed else was
    case FailBotJobs(bot) => if s.jobs[id].bot == bot && !Ended(was) then Failed else was
    case FailGone => if s.sched.BotGone? && s.sched.id == id then Failed else was
    case Claim => if s.sched.BelowCap? && s.sched.id == id && was == Queued then Running else was
    case LaunchFails(x) => if EndsWaking(s, step, id, false) then Failed else was
    case FinishUpdate(x, cancelled, code, late) => if EndsWaking(s, step, id, true) then Classify(cancelled, code, late) else was
    case _ => was
  }

  lemma StatusIs(s: State, step: Step, id: nat)
    requires id < |s.jobs|
    ensures id < |Next(s, step).jobs| && Next(s, step).jobs[id].status == NewStatus(s, step, id)
  {
    hide RunningOf, WithStatus, Move, Classify;
    if step.FailBotJobs? {
      ArchiveFails(s, step.bot);
      hide Next;
    } else if step.FinishUpdate? || step.LaunchFails? {
      EndStatus(s, step, id);
      hide Next;
    } else if step.Insert? || step.FlagCancel? || step.Wake? {
      RowWakes(s, step, id);
      hide FailAll, EndsWaking;
    } else {
      RowStatus(s, step, id);
      hide Next;
    }
  }

  lemma RowStatus(s: State, step: Step, id: nat)
    requires id < |s.jobs| && !step.FailBotJobs? && !step.FinishUpdate? && !step.LaunchFails? && !step.Insert?
        && !step.FlagCancel? && !step.Wake?
    ensures id < |Next(s, step).jobs| && Next(s, step).jobs[id].status == NewStatus(s, step, id)
  {
    hide RunningOf, WithStatus, Move, Classify, FailAll, EndsWaking;
  }

  lemma EndStatus(s: State, step: Step, id: nat)
    requires id < |s.jobs| && (step.FinishUpdate? || step.LaunchFails?)
    ensures id < |Next(s, step).jobs| && Next(s, step).jobs[id].status == NewStatus(s, step, id)
  {
    hide RunningOf, WithStatus, Move, Classify, FailAll;
  }

  /** The scheduler does not hold a running job for one whose bot is gone. */
  lemma NotGone(s: State, id: nat)
    requires Inv(s) && id < |s.jobs|
    ensures s.sched.BotGone? && s.sched.id == id ==> s.jobs[id].status == Queued || s.jobs[id].status == Failed
  {
    hide RunningOf;
    assert s.sched.BotGone? ==> Listed(s.sched)[0] == s.sched.id;
  }

  // ----- what a step does to the wakes of a job -----

  lemma MoveCounts(s: State, from: Task, to: Task, t: Task)
    requires from in s.tasks
    ensures Move(s, from, to)[t] == s.tasks[t] - (if t == from then 1 else 0) + (if t == to then 1 else 0)
  {
  }

  /** Enqueued wakes: one more if the wake is due and the bot is not archived. */
  lemma RowWakes(s: State, step: Step, id: nat)
    requires id < |s.jobs|
    ensures var r := Next(s, step);
            && id < |r.jobs| && r.jobs[id].bot == s.jobs[id].bot
            && r.jobs[id].wakes == s.jobs[id].wakes + (if step.Wake? && step.id == id && Waking(id, step.supervised) in s.tasks
                                                        && s.jobs[id].bot !in s.archived then 1 else 0)
  {
    hide RunningOf, WithStatus, Classify, Move;
    if step.FailBotJobs? {
      hide Next;
      FailBotStep(s, step.bot);
    } else if step.Wake? {
    } else {
      hide FailAll;
    }
  }

  lemma FailBotStep(s: State, bot: nat)
    ensures Next(s, FailBotJobs(bot)) == s.(jobs := FailAll(s.jobs, bot))
  {
    hide RunningOf, WithStatus, Classify, Move, FailAll;
  }

  function Due(s: State, step: Step, id: nat, b: bool): int {
    if step == Crash then 0
    else if step == Wake(id, b) && Waking(id, b) in s.tasks then s.tasks[Waking(id, b)] - 1
    else s.tasks[Waking(id, b)] + if EndsWaking(s, step, id, b) then 1 else 0
  }

  /** Owed wakes: one more when the job ends with its goroutine there, one less when it is enqueued, none
      after a crash. */
  lemma DueWakes(s: State, step: Step, id: nat, b: bool)
    requires id < |s.jobs|
    ensures Next(s, step).tasks[Waking(id, b)] == Due(s, step, id, b)
  {
    hide RunningOf, WithStatus, Classify, SetStatus, FailAll, UpdateWhere, Move;
    if step.FinishUpdate? {
      FinishTasks(s, step, id, b);
    } else if step.LaunchFails? {
      LaunchTasks(s, step.id, id, b);
    } else if step.Wake? {
      WakeTasks(s, step.id, step.supervised, id, b);
    } else {
      OtherTasks(s, step, Waking(id, b));
    }
  }

  lemma FinishTasks(s: State, step: Step, id: nat, b: bool)
    requires step.FinishUpdate? && id < |s.jobs|
    ensures Next(s, step).tasks[Waking(id, b)] == Due(s, step, id, b)
  {
    hide RunningOf, WithStatus, Classify, SetStatus, FailAll, UpdateWhere, Move;
    var x := step.id;
    if Watching(x) in s.tasks {
      MoveCounts(s, Watching(x), Waking(x, true), Waking(id, b));
      MoveCounts(s, Watching(x), Leaving(x), Waking(id, b));
    }
  }

  lemma LaunchTasks(s: State, x: nat, id: nat, b: bool)
    requires id < |s.jobs|
    ensures Next(s, LaunchFails(x)).tasks[Waking(id, b)] == Due(s, LaunchFails(x), id, b)
  {
    hide RunningOf, WithStatus, Classify, SetStatus, FailAll, UpdateWhere, Move;
    if Launching(x) in s.tasks {
      MoveCounts(s, Launching(x), Waking(x, false), Waking(id, b));
    }
  }

  lemma WakeTasks(s: State, x: nat, c: bool, id: nat, b: bool)
    requires id < |s.jobs|
    ensures Next(s, Wake(x, c)).tasks[Waking(id, b)] == Due(s, Wake(x, c), id, b)
  {
    hide RunningOf, WithStatus, Classify, SetStatus, FailAll, UpdateWhere, Move;
    if Waking(x, c) in s.tasks {
      MoveCounts(s, Waking(x, c), Leaving(x), Waking(id, b));
    }
  }

  lemma OtherTasks(s: State, step: Step, t: Task)
    requires !step.FinishUpdate? && !step.LaunchFails? && !step.Wake? && t.Waking?
    ensures Next(s, step).tasks[t] == if step == Crash then 0 else s.tasks[t]
  {
    hide RunningOf, WithStatus, Classify, SetStatus, FailAll, UpdateWhere;
  }

  // ----- over whole runs -----

  /** The step enqueues the wake that is due, or loses it. */
  predicate Settles(step: Step, id: nat, b: bool) {
    step == Crash || step == Wake(id, b)
  }

  /** `k` is the first of these steps to do so; the length of the list if none does. */
  predicate FirstSettled(after: seq<Step>, id: nat, b: bool, k: nat) {
    k <= |after| && (forall j :: 0 <= j < k ==> !Settles(after[j], id, b)) && (k < |after| ==> Settles(after[k], id, b))
  }

  lemma EndDue(s: State, end: Step, id: nat, b: bool)
    requires Inv(s) && EndsWaking(s, end, id, b)
    ensures var r := Next(s, end);
            && id < |r.jobs| && Ended(r.jobs[id].status) && r.jobs[id].wakes == 0
            && r.tasks[Waking(id, b)] == 1 && r.tasks[Waking(id, !b)] == 0
  {
    RowWakes(s, end, id);
    DueWakes(s, end, id, b);
    DueWakes(s, end, id, !b);
    assert WakesOwed(s, id) <= 0;
    hide RunningOf, WithStatus, Inv, Move, FailAll;
  }

  /** One more step after the end. */
  lemma AfterEnd(s: State, step: Step, id: nat, b: bool)
    requires Inv(s) && id < |s.jobs| && Ended(s.jobs[id].status) && s.tasks[Waking(id, !b)] == 0
    ensures var r := Next(s, step);
            && id < |r.jobs| && Ended(r.jobs[id].status) && r.jobs[id].bot == s.jobs[id].bot && r.tasks[Waking(id, !b)] == 0
            && r.tasks[Waking(id, b)] == (if Settles(step, id, b) && s.tasks[Waking(id, b)] > 0
                                          then (if step == Crash then 0 else s.tasks[Waking(id, b)] - 1) else s.tasks[Waking(id, b)])
            && r.jobs[id].wakes == s.jobs[id].wakes +
                                   (if step == Wake(id, b) && s.tasks[Waking(id, b)] > 0 && s.jobs[id].bot !in s.archived then 1 else 0)
  {
    RowWakes(s, step, id);
    DueWakes(s, step, id, b);
    DueWakes(s, step, id, !b);
    StepKeeps(s, step);
    hide Next, Inv;
  }

  /** A job whose goroutine ended it enqueues exactly one turn for its bot, and none more, unless the
      process dies first or the bot is archived when the turn is to be enqueued; until then the turn is
      owed. */
  lemma {:induction false} WakeComes(before: seq<Step>, end: Step, after: seq<Step>, id: nat, b: bool, k: nat)
    requires EndsWaking(Run(before), end, id, b) && FirstSettled(after, id, b, k)
    ensures var s := Run(before + [end] + after);
            && id < |s.jobs| && Ended(s.jobs[id].status)
            && s.tasks[Waking(id, b)] == (if k < |after| then 0 else 1) && s.tasks[Waking(id, !b)] == 0
            && var woke := k < |after| && after[k] != Crash && s.jobs[id].bot !in Run(before + [end] + after[..k]).archived;
            s.jobs[id].wakes == if woke then 1 else 0
    decreases |after|
  {
    hide Run, Next, Inv, EndsWaking;
    if after == [] {
      RunKeeps(before);
      EndDue(Run(before), end, id, b);
      RunNext(before, end);
      assert before + [end] + after == before + [end];
    } else {
      var n := |after| - 1;
      var mid := before + [end] + after[..n];
      WakeComes(before, end, after[..n], id, b, if k <= n then k else n);
      RunKeeps(mid);
      AfterEnd(Run(mid), after[n], id, b);
      RunNext(mid, after[n]);
      assert before + [end] + after == mid + [after[n]];
      assert k <= n ==> after[..n][..k] == after[..k];
    }
  }

  /** So wakes and owed wakes together are exactly one ever after if and only if no crash came before the wake,
      and the bot was not archived then; else they are none. */
  lemma OneWakeIff(before: seq<Step>, end: Step, after: seq<Step>, id: nat, b: bool, k: nat)
    requires EndsWaking(Run(before), end, id, b) && FirstSettled(after, id, b, k)
    ensures var s := Run(before + [end] + after);
            && id < |s.jobs|
            && var lost := k < |after| && (after[k] == Crash || s.jobs[id].bot in Run(before + [end] + after[..k]).archived);
            s.jobs[id].wakes + s.tasks[Waking(id, true)] + s.tasks[Waking(id, false)] == if lost then 0 else 1
  {
    WakeComes(before, end, after, id, b, k);
    hide Run, EndsWaking;
  }

  /** A wake that is owed is owed by an end that nothing has settled since. */
  lemma {:induction false} DueCameFrom(steps: seq<Step>, id: nat, b: bool) returns (i: nat)
    requires id < |Run(steps).jobs| && Run(steps).tasks[Waking(id, b)] > 0
    ensures i < |steps| && EndsWaking(Run(steps[..i]), steps[i], id, b)
    ensures forall j :: i < j < |steps| ==> !Settles(steps[j], id, b)
  {
    hide Next, Inv, EndsWaking;
    var n := |steps| - 1;
    assert steps != [];
    var s := Run(steps[..n]);
    RunKeeps(steps[..n]);
    NoWakeYet(s, steps[n], id, b);
    DueWakes(s, steps[n], id, b);
    if EndsWaking(s, steps[n], id, b) {
      i := n;
    } else {
      hide Run;
      i := DueCameFrom(steps[..n], id, b);
      assert steps[..n][..i] == steps[..i];
    }
  }

  /** A job has no wake of a kind twice, and a new job has none. */
  lemma NoWakeYet(s: State, step: Step, id: nat, b: bool)
    requires Inv(s)
    ensures if id < |s.jobs| then s.tasks[Waking(id, b)] <= 1
            else Next(s, step).tasks[Waking(id, b)] == 0 && (id < |Next(s, step).jobs| ==> Next(s, step).jobs[id].wakes == 0)
  {
    StepKeeps(s, step);
    RowAdded(s, step);
    if id < |s.jobs| {
      assert WakesOwed(s, id) <= 1;
    } else {
      assert s.tasks[Waking(id, b)] == 0;
      hide Next;
    }
  }

  /** Only an insert adds a row, and the job in it is queued. */
  lemma RowAdded(s: State, step: Step)
    ensures if step.Insert? then Next(s, step) == s.(jobs := s.jobs + [Job(step.bot, Queued, false, 0)])
            else |Next(s, step).jobs| == |s.jobs|
  {
    hide RunningOf, WithStatus, Classify, Move, FailAll;
  }

  /** A wake that was enqueued was owed by an end of the job, and nothing came in between: no crash, and the
      bot was not archived. */
  lemma {:induction false} WakeCameFrom(steps: seq<Step>, id: nat) returns (i: nat, k: nat, b: bool)
    requires id < |Run(steps).jobs| && Run(steps).jobs[id].wakes > 0
    ensures i < k < |steps| && EndsWaking(Run(steps[..i]), steps[i], id, b)
    ensures (forall j :: i < j < k ==> !Settles(steps[j], id, b)) && steps[k] == Wake(id, b)
    ensures Run(steps).jobs[id].bot !in Run(steps[..k]).archived
  {
    hide Next, Inv, EndsWaking;
    assert steps != [];
    var n := |steps| - 1;
    var s, step := Run(steps[..n]), steps[n];
    RunKeeps(steps[..n]);
    NoWakeYet(s, step, id, step.Wake? && step.supervised);
    RowWakes(s, step, id);
    hide Run;
    if s.jobs[id].wakes > 0 {
      i, k, b := WakeCameFrom(steps[..n], id);
      assert steps[..n][..i] == steps[..i] && steps[..n][..k] == steps[..k];
    } else {
      k, b := n, step.supervised;
      i := DueCameFrom(steps[..n], id, b);
      assert steps[..n][..i] == steps[..i];
    }
  }

  /** A job enqueued a wake if and only if its goroutine ended it and then, before any crash, came to the
      wake at a time when the bot was not archived. */
  ghost predicate WokeBot(steps: seq<Step>, id: nat, i: nat, k: nat, b: bool) {
    && i < k < |steps| && EndsWaking(Run(steps[..i]), steps[i], id, b) && steps[k] == Wake(id, b)
    && (forall j :: i < j < k ==> !Settles(steps[j], id, b))
    && id < |Run(steps).jobs| && Run(steps).jobs[id].bot !in Run(steps[..k]).archived
  }

  lemma WakesIff(steps: seq<Step>, id: nat)
    requires id < |Run(steps).jobs|
    ensures Run(steps).jobs[id].wakes == if exists i: nat, k: nat, b :: WokeBot(steps, id, i, k, b) then 1 else 0
  {
    hide Run, EndsWaking, FirstSettled;
    OneWakePerJob(steps, id);
    if Run(steps).jobs[id].wakes > 0 {
      var i, k, b := WakeCameFrom(steps, id);
      assert WokeBot(steps, id, i, k, b);
    }
    if i: nat, k: nat, b :| WokeBot(steps, id, i, k, b) {
      WokeOnce(steps, id, i, k, b);
    }
  }

  lemma WokeOnce(steps: seq<Step>, id: nat, i: nat, k: nat, b: bool)
    requires WokeBot(steps, id, i, k, b)
    ensures Run(steps).jobs[id].wakes == 1
  {
    hide Run, EndsWaking;
    var after := steps[i + 1..];
    assert steps[..i] + [steps[i]] + after == steps;
    assert after[k - i - 1] == steps[k];
    assert steps[..i] + [steps[i]] + after[..k - i - 1] == steps[..k];
    WakeComes(steps[..i], steps[i], after, id, b, k - i - 1);
  }

  // ----- no running job is forgotten -----

  /** The job's watcher has stopped since the process started: it was told to shut down. */
  function Stopped(steps: seq<Step>, id: nat): bool {
    if steps == [] then false else StillStopped(Stopped(steps[..|steps| - 1], id), steps[|steps| - 1], id)
  }

  function StillStopped(before: bool, step: Step, id: nat): bool {
    step == StopWatching(id) || (step != Crash && before)
  }

  predicate ToReattach(sched: Sched, id: nat) {
    sched.Reattaching? && id in sched.ids
  }

  predicate NoTask(s: State, id: nat) {
    Launching(id) !in s.tasks && Watching(id) !in s.tasks && Leaving(id) !in s.tasks && !ToReattach(s.sched, id)
  }

  predicate InHand(s: State, id: nat) {
    Leaving(id) !in s.tasks && (Launching(id) in s.tasks || Watching(id) in s.tasks || ToReattach(s.sched, id))
  }

  /** Nobody has to do with a job that has not run, and somebody with one that runs. */
  ghost predicate Attended(s: State, id: nat, stopped: bool) {
    && (id >= |s.jobs| || s.jobs[id].status == Queued ==> NoTask(s, id))
    && (id < |s.jobs| && s.jobs[id].status == Running && !stopped ==> InHand(s, id))
  }

  lemma CrashAttended(s: State, id: nat)
    ensures Attended(Next(s, Crash), id, false)
  {
    hide RunningOf, Move, FailAll, Classify;
  }

  lemma ReattachAttended(s: State, id: nat, stopped: bool)
    requires Inv(s) && Attended(s, id, stopped)
    ensures Attended(Next(s, Reattach), id, stopped)
  {
    HolderWatches(s, id);
    hide RunningOf, WithStatus, Move, FailAll, Classify, Inv;
    if s.sched.Reattaching? && s.sched.ids != [] {
      assert s.sched.ids == [s.sched.ids[0]] + s.sched.ids[1..];
    }
  }

  /** The handle of a running job is its watcher's, or that of one who leaves. */
  lemma HolderWatches(s: State, id: nat)
    requires Inv(s)
    ensures id < |s.jobs| && s.jobs[id].status == Running && id in s.handles ==>
        Watching(id) in s.tasks || Leaving(id) in s.tasks
  {
    hide RunningOf;
    if id < |s.jobs| && s.jobs[id].status == Running && id in s.handles {
      assert Supervisors(s.tasks, id) == 1 && WakesOwed(s, id) <= 0;
    }
  }

  lemma AdoptAttended(s: State, x: nat, id: nat, stopped: bool)
    requires Inv(s) && Attended(s, id, stopped)
    ensures Attended(Next(s, Adopt(x)), id, stopped)
  {
    HolderWatches(s, id);
    hide RunningOf, WithStatus, FailAll, Classify, Inv;
  }

  lemma StopAttended(s: State, x: nat, id: nat, stopped: bool)
    requires Attended(s, id, stopped)
    ensures Attended(Next(s, StopWatching(x)), id, stopped || x == id)
  {
    hide RunningOf, WithStatus, FailAll, Classify;
  }

  lemma FinishAttended(s: State, step: Step, id: nat, stopped: bool)
    requires Attended(s, id, stopped) && step.FinishUpdate?
    ensures Attended(Next(s, step), id, stopped)
  {
    hide RunningOf, WithStatus, FailAll;
    assert Classify(step.cancelled, step.code, step.late) != Running
        && Classify(step.cancelled, step.code, step.late) != Queued;
    hide Classify;
  }

  lemma LaunchAttended(s: State, x: nat, id: nat, stopped: bool)
    requires Attended(s, id, stopped)
    ensures Attended(Next(s, LaunchFails(x)), id, stopped)
  {
    hide RunningOf, WithStatus, FailAll, Classify;
  }

  lemma WakeAttended(s: State, step: Step, id: nat, stopped: bool)
    requires Inv(s) && Attended(s, id, stopped) && step.Wake?
    ensures Attended(Next(s, step), id, stopped)
  {
    assert id < |s.jobs| ==> WakesOwed(s, id) <= if Ended(s.jobs[id].status) then 1 else 0;
    hide RunningOf, WithStatus, FailAll, Classify, Inv;
  }

  lemma ClaimAttended(s: State, id: nat, stopped: bool)
    requires Inv(s) && Attended(s, id, stopped)
    ensures Attended(Next(s, Claim), id, stopped)
  {
    hide RunningOf, WithStatus, FailAll, Classify, Inv, Move;
  }

  lemma RestAttended(s: State, step: Step, id: nat, stopped: bool)
    requires Inv(s) && Attended(s, id, stopped)
    requires !step.Crash? && !step.Reattach? && !step.Adopt? && !step.StopWatching? && !step.FinishUpdate?
        && !step.LaunchFails? && !step.Wake? && !step.Claim?
    ensures Attended(Next(s, step), id, stopped)
  {
    hide RunningOf, WithStatus, Classify, Inv, Move;
    if step.FailBotJobs? {
      ArchiveFails(s, step.bot);
      hide Next;
    } else {
      hide FailAll;
    }
  }

  lemma StepAttended(s: State, step: Step, id: nat, stopped: bool)
    requires Inv(s) && Attended(s, id, stopped)
    ensures Attended(Next(s, step), id, StillStopped(stopped, step, id))
  {
    hide Inv, Next, Attended;
    match step
    case Crash => CrashAttended(s, id);
    case Reattach => ReattachAttended(s, id, stopped);
    case Adopt(x) => AdoptAttended(s, x, id, stopped);
    case StopWatching(x) => StopAttended(s, x, id, stopped);
    case FinishUpdate(_, _, _, _) => FinishAttended(s, step, id, stopped);
    case LaunchFails(x) => LaunchAttended(s, x, id, stopped);
    case Wake(_, _) => WakeAttended(s, step, id, stopped);
    case Claim => ClaimAttended(s, id, stopped);
    case _ => RestAttended(s, step, id, stopped);
  }

  lemma {:induction false} RunAttended(steps: seq<Step>, id: nat)
    ensures Attended(Run(steps), id, Stopped(steps, id))
  {
    if steps != [] {
      var n := |steps| - 1;
      RunAttended(steps[..n], id);
      RunKeeps(steps[..n]);
      hide Run, Inv, Next, Attended;
      StepAttended(Run(steps[..n]), steps[n], id, Stopped(steps[..n], id));
      RunNext(steps[..n], steps[n]);
      assert steps[..n] + [steps[n]] == steps;
    }
  }

  /** Under every interleaving, restarts included, a running job is being started, or watched, or on the list
      of jobs that are yet to be watched, unless its watcher was told to stop since the process started; and
      no goroutine has to do with a job that has not been started. */
  lemma NoJobForgotten(steps: seq<Step>, id: nat)
    requires id < |Run(steps).jobs|
    ensures var s := Run(steps);
            && (s.jobs[id].status == Running && !Stopped(steps, id) ==>
                  Launching(id) in s.tasks || Watching(id) in s.tasks || (s.sched.Reattaching? && id in s.sched.ids))
            && (s.jobs[id].status == Queued ==> Launching(id) !in s.tasks && Watching(id) !in s.tasks)
  {
    RunAttended(steps, id);
    hide Run, Stopped;
  }
}
