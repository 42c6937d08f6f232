/** Background jobs under every interleaving of single statements. */
module Background {
  import opened GoStrings

  const MAX_PER_BOT: nat := 8

  datatype Status = Queued | Running | Done | Failed

  /** A row of background_jobs; `wakes` counts the turns its end enqueued. */
  datatype Job = Job(bot: nat, status: Status, cancelRequested: bool, wakes: nat)

  /** A goroutine of a job: starting the process, watching it, about to wake the bot (with or without
      a handle), about to give its handle back. */
  datatype Task = Launching(id: nat) | Watching(id: nat) | Waking(id: nat, supervised: bool) | Leaving(id: nat)

  /** Where the scheduler goroutine stands: reattaching after a start, between ticks, or inside
      `startQueuedBackground` with the ids it listed and has not dealt with. */
  datatype Sched =
    | Reattaching(ids: seq<nat>)
    | Resting
    | Scanning(ids: seq<nat>)
    | BotGone(id: nat, ids: seq<nat>)
    | BotLive(id: nat, ids: seq<nat>)
    | BelowCap(id: nat, ids: seq<nat>)

  datatype State = State(jobs: seq<Job>, archived: set<nat>, handles: set<nat>, tasks: multiset<Task>, sched: Sched)

  const Fresh := State([], {}, {}, multiset{}, Resting)

  /** Ids of the jobs with a status, in id order, below `n`. */
  function WithStatus(jobs: seq<Job>, status: Status, n: nat): (ids: seq<nat>)
    requires n <= |jobs|
    ensures forall k :: 0 <= k < |ids| ==> ids[k] < n && jobs[ids[k]].status == status
    ensures forall j, k :: 0 <= j < k < |ids| ==> ids[j] < ids[k]
    ensures forall i :: 0 <= i < n && jobs[i].status == status ==> i in ids
  {
    if n == 0 then []
    else
      var before := WithStatus(jobs, status, n - 1);
      if jobs[n - 1].status == status then
        assert forall i :: i in before ==> i in before + [n - 1];
        assert (before + [n - 1])[|before|] == n - 1;
        before + [n - 1]
      else before
  }

  function RunningOf(jobs: seq<Job>, bot: nat): nat {
    if jobs == [] then 0
    else
      var last := jobs[|jobs| - 1];
      RunningOf(jobs[..|jobs| - 1], bot) + if last.bot == bot && last.status == Running then 1 else 0
  }

  /** Status and error flag of a finished process: `classifyBackgroundFinish`. `code` is None when no
      exit status was written. */
  function Classify(cancelled: bool, code: Option<int>, late: bool): Status {
    if cancelled then Failed
    else if code == Some(0) then Done
    else if late then Failed
    else if code == None then Failed
    else Failed
  }

  /** A job is done exactly when it wrote exit status 0 and nobody asked to cancel it; being past the
      deadline does not matter. */
  lemma DoneIffExitZero(cancelled: bool, code: Option<int>, late: bool)
    ensures Classify(cancelled, code, late) == Done <==> code == Some(0) && !cancelled
  {
  }

  datatype Step =
    | Insert(bot: nat)
    | CancelQueued(id: nat)
    | FlagCancel(id: nat)
    | MarkArchived(bot: nat)
    | FailBotJobs(bot: nat)
    | Unarchive(bot: nat)
    | ListQueued
    | ReadBot
    | FailGone
    | CountRunning
    | Claim
    | LaunchFails(id: nat)
    | Adopt(id: nat)
    | FinishUpdate(id: nat, cancelled: bool, code: Option<int>, late: bool)
    | Wake(id: nat, supervised: bool)
    | StopWatching(id: nat)
    | Drop(id: nat)
    | Crash
    | Reattach

  function SetStatus(jobs: seq<Job>, id: nat, status: Status): seq<Job>
    requires id < |jobs|
  {
    jobs[id := jobs[id].(status := status)]
  }

  /** `UPDATE background_jobs SET status = ? WHERE id = ? AND status = ?`. */
  function UpdateWhere(jobs: seq<Job>, id: nat, from: Status, to: Status): seq<Job> {
    if id < |jobs| && jobs[id].status == from then SetStatus(jobs, id, to) else jobs
  }

  /** `archiveBotRow`: what is queued or running fails. */
  function FailAll(jobs: seq<Job>, bot: nat): (r: seq<Job>)
    ensures |r| == |jobs|
  {
    seq(|jobs|, i requires 0 <= i < |jobs| =>
      if jobs[i].bot == bot && (jobs[i].status == Queued || jobs[i].status == Running)
      then jobs[i].(status := Failed, cancelRequested := true) else jobs[i])
  }

  function Move(s: State, from: Task, to: Task): multiset<Task> {
    s.tasks - multiset{from} + multiset{to}
  }

  /** One step: one SQL statement or one locked map operation, between any two of which every process that
      touches the jobs may take others. A step that is not enabled changes nothing. */
  function Next(s: State, step: Step): State {
    match step
    // the MCP process
    case Insert(bot) => s.(jobs := s.jobs + [Job(bot, Queued, false, 0)])
    case CancelQueued(id) => s.(jobs := UpdateWhere(s.jobs, id, Queued, Failed))
    case FlagCancel(id) => if id < |s.jobs| then s.(jobs := s.jobs[id := s.jobs[id].(cancelRequested := true)]) else s
    // archive
    case MarkArchived(bot) => s.(archived := s.archived + {bot})
    case FailBotJobs(bot) => s.(jobs := FailAll(s.jobs, bot))
    case Unarchive(bot) => s.(archived := s.archived - {bot})
    // the scheduler's tick
    case ListQueued => if s.sched == Resting then s.(sched := Scanning(WithStatus(s.jobs, Queued, |s.jobs|))) else s
    case ReadBot =>
      if !s.sched.Scanning? then s
      else if s.sched.ids == [] then s.(sched := Resting)
      else
        var id, rest := s.sched.ids[0], s.sched.ids[1..];
        if id < |s.jobs| && s.jobs[id].bot in s.archived then s.(sched := BotGone(id, rest)) else s.(sched := BotLive(id, rest))
    case FailGone =>
      if !s.sched.BotGone? || s.sched.id >= |s.jobs| then s
      else s.(jobs := SetStatus(s.jobs, s.sched.id, Failed), sched := Scanning(s.sched.ids))
    case CountRunning =>
      if !s.sched.BotLive? || s.sched.id >= |s.jobs| then s
      else if RunningOf(s.jobs, s.jobs[s.sched.id].bot) >= MAX_PER_BOT then s.(sched := Scanning(s.sched.ids))
      else s.(sched := BelowCap(s.sched.id, s.sched.ids))
    case Claim =>
      if !s.sched.BelowCap? || s.sched.id >= |s.jobs| then s
      else if s.jobs[s.sched.id].status != Queued then s.(sched := Scanning(s.sched.ids))
      else s.(jobs := SetStatus(s.jobs, s.sched.id, Running), sched := Scanning(s.sched.ids),
              tasks := s.tasks + multiset{Launching(s.sched.id)})
    // the goroutine of a job
    case LaunchFails(id) =>
      if Launching(id) !in s.tasks || id >= |s.jobs| then s
      else if s.jobs[id].status == Running then
        s.(jobs := SetStatus(s.jobs, id, Failed), tasks := Move(s, Launching(id), Waking(id, false)))
      else s.(tasks := s.tasks - multiset{Launching(id)})
    case Adopt(id) =>
      if Launching(id) !in s.tasks then s
      else if id in s.handles then s.(tasks := s.tasks - multiset{Launching(id)})
      else s.(handles := s.handles + {id}, tasks := Move(s, Launching(id), Watching(id)))
    case FinishUpdate(id, cancelled, code, late) =>
      if Watching(id) !in s.tasks || id >= |s.jobs| || (cancelled && !s.jobs[id].cancelRequested) then s
      else if s.jobs[id].status == Running then
        s.(jobs := SetStatus(s.jobs, id, Classify(cancelled, code, late)), tasks := Move(s, Watching(id), Waking(id, true)))
      else s.(tasks := Move(s, Watching(id), Leaving(id)))
    case Wake(id, supervised) =>
      if Waking(id, supervised) !in s.tasks || id >= |s.jobs| then s
      else
        var jobs := if s.jobs[id].bot in s.archived then s.jobs else s.jobs[id := s.jobs[id].(wakes := s.jobs[id].wakes + 1)];
        s.(jobs := jobs,
           tasks := if supervised then Move(s, Waking(id, true), Leaving(id)) else s.tasks - multiset{Waking(id, false)})
    case StopWatching(id) => if Watching(id) in s.tasks then s.(tasks := Move(s, Watching(id), Leaving(id))) else s
    case Drop(id) =>
      if Leaving(id) in s.tasks then s.(handles := s.handles - {id}, tasks := s.tasks - multiset{Leaving(id)}) else s
    // a restart
    case Crash => s.(handles := {}, tasks := multiset{}, sched := Reattaching(WithStatus(s.jobs, Running, |s.jobs|)))
    case Reattach =>
      if !s.sched.Reattaching? then s
      else if s.sched.ids == [] then s.(sched := Resting)
      else
        var id, rest := s.sched.ids[0], s.sched.ids[1..];
        if id in s.handles then s.(sched := Reattaching(rest))
        else s.(handles := s.handles + {id}, tasks := s.tasks + multiset{Watching(id)}, sched := Reattaching(rest))
  }

  function Run(steps: seq<Step>): State {
    if steps == [] then Fresh else Next(Run(steps[..|steps| - 1]), steps[|steps| - 1])
  }

  // ----- the invariant -----

  predicate Ended(s: Status) {
    s == Done || s == Failed
  }

  /** How many goroutines of this process hold the handle of job `id`. */
  function Supervisors(tasks: multiset<Task>, id: nat): nat {
    tasks[Watching(id)] + tasks[Waking(id, true)] + tasks[Leaving(id)]
  }

  /** Wakes enqueued or still owed. */
  function WakesOwed(s: State, id: nat): nat
    requires id < |s.jobs|
  {
    s.jobs[id].wakes + s.tasks[Waking(id, true)] + s.tasks[Waking(id, false)]
  }

  ghost predicate CapOk(s: State) {
    forall bot :: RunningOf(s.jobs, bot) <= MAX_PER_BOT
  }

  ghost predicate SupervisionOk(s: State) {
    forall id :: Supervisors(s.tasks, id) == if id in s.handles then 1 else 0
  }

  ghost predicate WakesOk(s: State) {
    && (forall id :: 0 <= id < |s.jobs| ==> WakesOwed(s, id) <= if Ended(s.jobs[id].status) then 1 else 0)
    && (forall id :: |s.jobs| <= id ==> s.tasks[Waking(id, true)] == 0 && s.tasks[Waking(id, false)] == 0)
  }

  /** The ids the scheduler still has to deal with, the current one first. */
  function Listed(sched: Sched): seq<nat> {
    match sched
    case Scanning(ids) => ids
    case BotGone(id, ids) => [id] + ids
    case BotLive(id, ids) => [id] + ids
    case BelowCap(id, ids) => [id] + ids
    case _ => []
  }

  /** Nothing but the scheduler starts jobs: what it listed is still queued, or has failed. */
  ghost predicate ListedOk(jobs: seq<Job>, ids: seq<nat>) {
    && (forall k :: 0 <= k < |ids| ==> ids[k] < |jobs| && (jobs[ids[k]].status == Queued || jobs[ids[k]].status == Failed))
    && (forall j, k :: 0 <= j < k < |ids| ==> ids[j] < ids[k])
  }

  ghost predicate RoomOk(jobs: seq<Job>, sched: Sched) {
    !sched.BelowCap? || (sched.id < |jobs| && RunningOf(jobs, jobs[sched.id].bot) < MAX_PER_BOT)
  }

  ghost predicate ListOk(s: State) {
    ListedOk(s.jobs, Listed(s.sched)) && RoomOk(s.jobs, s.sched)
  }

  ghost predicate Inv(s: State) {
    CapOk(s) && SupervisionOk(s) && WakesOk(s) && ListOk(s)
  }

  /** What one step may do to a job: an ended one keeps its status, bots and rows stay. */
  ghost predicate Absorbing(s: State, r: State) {
    && |s.jobs| <= |r.jobs|
    && forall id :: 0 <= id < |s.jobs| ==>
         r.jobs[id].bot == s.jobs[id].bot && (Ended(s.jobs[id].status) ==> r.jobs[id].status == s.jobs[id].status)
  }

  lemma {:induction false} RunningUpdate(jobs: seq<Job>, id: nat, job: Job, bot: nat)
    requires id < |jobs| && job.bot == jobs[id].bot
    ensures RunningOf(jobs[id := job], bot) ==
              RunningOf(jobs, bot) - (if jobs[id].bot == bot && jobs[id].status == Running then 1 else 0)
                                   + (if job.bot == bot && job.status == Running then 1 else 0)
  {
    var n := |jobs| - 1;
    if id == n {
      assert jobs[id := job][..n] == jobs[..n];
    } else {
      assert jobs[id := job][..n] == jobs[..n][id := job];
      RunningUpdate(jobs[..n], id, job, bot);
    }
  }

  lemma {:induction false} RunningBelow(jobs: seq<Job>, jobs': seq<Job>, bot: nat)
    requires |jobs| == |jobs'|
    requires forall i :: 0 <= i < |jobs| ==> jobs'[i].bot == jobs[i].bot && (jobs'[i].status == Running ==> jobs[i].status == Running)
    ensures RunningOf(jobs', bot) <= RunningOf(jobs, bot)
  {
    if jobs != [] {
      RunningBelow(jobs[..|jobs| - 1], jobs'[..|jobs'| - 1], bot);
    }
  }

  /** Rows may change as long as nothing starts running and what ended stays ended as it was. */
  ghost predicate Quieter(jobs: seq<Job>, jobs': seq<Job>) {
    && |jobs| == |jobs'|
    && forall i :: 0 <= i < |jobs| ==>
         && jobs'[i].bot == jobs[i].bot && jobs'[i].wakes == jobs[i].wakes
         && (jobs'[i].status == jobs[i].status || (jobs'[i].status == Failed && !Ended(jobs[i].status)))
  }

  lemma QuieterKeeps(s: State, jobs': seq<Job>)
    requires Inv(s) && Quieter(s.jobs, jobs')
    ensures Inv(s.(jobs := jobs')) && Absorbing(s, s.(jobs := jobs'))
  {
    var r := s.(jobs := jobs');
    forall bot ensures RunningOf(jobs', bot) <= RunningOf(s.jobs, bot) {
      RunningBelow(s.jobs, jobs', bot);
    }
    assert CapOk(r);
    assert RoomOk(r.jobs, r.sched) by {
      if r.sched.BelowCap? {
        RunningBelow(s.jobs, jobs', s.jobs[r.sched.id].bot);
      }
    }
    hide RunningOf;
    assert WakesOk(r) by {
      forall id | 0 <= id < |r.jobs| ensures WakesOwed(r, id) <= if Ended(r.jobs[id].status) then 1 else 0 {
        assert WakesOwed(r, id) == WakesOwed(s, id);
      }
    }
    assert ListedOk(r.jobs, Listed(r.sched));
  }

  /** A goroutine moves on without touching a row or an owed wake. */
  lemma TasksKeep(s: State, r: State)
    requires Inv(s) && r.jobs == s.jobs && r.sched == s.sched
    requires forall id :: Supervisors(r.tasks, id) == if id in r.handles then 1 else 0
    requires forall id, b :: r.tasks[Waking(id, b)] <= s.tasks[Waking(id, b)]
    ensures Inv(r)
  {
    hide RunningOf;
    assert CapOk(r);
    forall id | 0 <= id < |r.jobs| ensures WakesOwed(r, id) <= WakesOwed(s, id) {
    }
  }

  /** A running job ends by a conditional update, and its goroutine owes the one wake. */
  lemma EndKeeps(s: State, id: nat, status: Status, from: Task, supervised: bool)
    requires Inv(s) && id < |s.jobs| && s.jobs[id].status == Running && Ended(status)
    requires from in s.tasks && from == (if supervised then Watching(id) else Launching(id))
    ensures var r := s.(jobs := SetStatus(s.jobs, id, status), tasks := Move(s, from, Waking(id, supervised)));
            Inv(r) && Absorbing(s, r)
  {
    var job := s.jobs[id].(status := status);
    var r := s.(jobs := SetStatus(s.jobs, id, status), tasks := Move(s, from, Waking(id, supervised)));
    forall bot ensures RunningOf(r.jobs, bot) <= RunningOf(s.jobs, bot) {
      RunningUpdate(s.jobs, id, job, bot);
    }
    assert CapOk(r);
    assert RoomOk(r.jobs, r.sched) by {
      if r.sched.BelowCap? {
        RunningUpdate(s.jobs, id, job, s.jobs[r.sched.id].bot);
      }
    }
    hide RunningOf;
    assert SupervisionOk(r);
    assert WakesOk(r) by {
      assert WakesOwed(s, id) == 0;
      forall x | 0 <= x < |r.jobs| ensures WakesOwed(r, x) <= if Ended(r.jobs[x].status) then 1 else 0 {
        if x != id {
          assert WakesOwed(r, x) == WakesOwed(s, x);
        }
      }
    }
    assert ListedOk(r.jobs, Listed(r.sched)) by {
      var ids := Listed(s.sched);
      forall k | 0 <= k < |ids| ensures ids[k] != id {
      }
    }
  }

  lemma ClaimKeeps(s: State)
    requires Inv(s)
    ensures Inv(Next(s, Claim)) && Absorbing(s, Next(s, Claim))
  {
    if s.sched.BelowCap? && s.sched.id < |s.jobs| {
      var id, rest := s.sched.id, s.sched.ids;
      assert id < |s.jobs| && ListedOk(s.jobs, rest) && forall k :: 0 <= k < |rest| ==> id < rest[k] by {
        assert ListedOk(s.jobs, [id] + rest);
        var ids := [id] + rest;
        assert ids[0] == id;
        forall k | 0 <= k < |rest| ensures rest[k] == ids[k + 1] && id < rest[k] {
          assert ids[0] < ids[k + 1];
        }
      }
      if s.jobs[id].status == Queued {
        StartKeeps(s, id, rest);
      } else {
        hide RunningOf;
        assert WakesOk(Next(s, Claim));
      }
    }
  }

  lemma StartKeeps(s: State, id: nat, rest: seq<nat>)
    requires Inv(s) && id < |s.jobs| && s.jobs[id].status == Queued && ListedOk(s.jobs, rest)
    requires RunningOf(s.jobs, s.jobs[id].bot) < MAX_PER_BOT && forall k :: 0 <= k < |rest| ==> id < rest[k]
    ensures var r := s.(jobs := SetStatus(s.jobs, id, Running), sched := Scanning(rest), tasks := s.tasks + multiset{Launching(id)});
            Inv(r) && Absorbing(s, r)
  {
    var r := s.(jobs := SetStatus(s.jobs, id, Running), sched := Scanning(rest), tasks := s.tasks + multiset{Launching(id)});
    forall bot ensures RunningOf(r.jobs, bot) <= MAX_PER_BOT {
      RunningUpdate(s.jobs, id, s.jobs[id].(status := Running), bot);
    }
    hide RunningOf;
    assert WakesOk(r) by {
      forall x | 0 <= x < |r.jobs| ensures WakesOwed(r, x) <= if Ended(r.jobs[x].status) then 1 else 0 {
        assert WakesOwed(r, x) == WakesOwed(s, x);
      }
    }
    assert SupervisionOk(r) by {
      forall x ensures Supervisors(r.tasks, x) == Supervisors(s.tasks, x) {
      }
    }
  }

  /** Going on with the rest of the list, or with nothing. */
  lemma ListTail(s: State, sched: Sched)
    requires Inv(s) && !sched.BelowCap?
    requires Listed(sched) == Listed(s.sched) || Listed(sched) == []
             || (Listed(s.sched) != [] && Listed(sched) == Listed(s.sched)[1..])
    ensures Inv(s.(sched := sched))
  {
    hide RunningOf;
    var r := s.(sched := sched);
    assert CapOk(r) && SupervisionOk(r);
    assert WakesOk(r) by {
      forall id | 0 <= id < |r.jobs| ensures WakesOwed(r, id) == WakesOwed(s, id) {
      }
    }
  }

  lemma GiveUpKeeps(s: State, id: nat)
    requires Inv(s) && Launching(id) in s.tasks
    ensures Inv(s.(tasks := s.tasks - multiset{Launching(id)}))
  {
    TasksKeep(s, s.(tasks := s.tasks - multiset{Launching(id)}));
  }

  lemma LeaveKeeps(s: State, id: nat)
    requires Inv(s) && Watching(id) in s.tasks
    ensures Inv(s.(tasks := Move(s, Watching(id), Leaving(id))))
  {
    TasksKeep(s, s.(tasks := Move(s, Watching(id), Leaving(id))));
  }

  lemma WakeKeeps(s: State, id: nat, supervised: bool)
    requires Inv(s)
    ensures Inv(Next(s, Wake(id, supervised))) && Absorbing(s, Next(s, Wake(id, supervised)))
  {
    hide RunningOf, WithStatus;
    var r := Next(s, Wake(id, supervised));
    if Waking(id, supervised) in s.tasks && id < |s.jobs| {
      forall bot ensures RunningOf(r.jobs, bot) == RunningOf(s.jobs, bot) {
        RunningUpdate(s.jobs, id, r.jobs[id], bot);
      }
      hide ListedOk;
      assert r.jobs == s.jobs[id := r.jobs[id]] && r.sched == s.sched && r.handles == s.handles;
      assert CapOk(r);
      assert RoomOk(r.jobs, r.sched);
      assert SupervisionOk(r);
      assert WakesOk(r) by {
        forall x | 0 <= x < |r.jobs| ensures WakesOwed(r, x) <= WakesOwed(s, x) && r.jobs[x].status == s.jobs[x].status {
        }
      }
    }
  }

  /** A step of the MCP process or of an archive. */
  lemma OutsideStepKeeps(s: State, step: Step)
    requires Inv(s)
    requires step.Insert? || step.CancelQueued? || step.FlagCancel? || step.MarkArchived? || step.FailBotJobs? || step.Unarchive?
    ensures Inv(Next(s, step)) && Absorbing(s, Next(s, step))
  {
    hide RunningOf, Supervisors, WithStatus, Inv;
    var r := Next(s, step);
    match step
    case Insert(bot) => InsertKeeps(s, bot);
    case CancelQueued(id) => QuieterKeeps(s, UpdateWhere(s.jobs, id, Queued, Failed));
    case FlagCancel(id) => QuieterKeeps(s, r.jobs);
    case MarkArchived(bot) => SameButArchived(s, r);
    case FailBotJobs(bot) => QuieterKeeps(s, FailAll(s.jobs, bot));
    case Unarchive(bot) => SameButArchived(s, r);
  }

  /** A step of the scheduler. */
  lemma SchedulerStepKeeps(s: State, step: Step)
    requires Inv(s) && (step.ListQueued? || step.ReadBot? || step.FailGone? || step.CountRunning? || step.Claim?)
    ensures Inv(Next(s, step)) && Absorbing(s, Next(s, step))
  {
    hide RunningOf, Supervisors, WithStatus;
    var r := Next(s, step);
    match step
    case ListQueued => 
    case ReadBot =>
      if s.sched.Scanning? {
        if s.sched.ids != [] {
          assert s.sched.ids == [s.sched.ids[0]] + s.sched.ids[1..];
        }
        ListTail(s, r.sched);
      }
    case FailGone =>
      // the update is unguarded, but its job is still queued or has failed
      if s.sched.BotGone? && s.sched.id < |s.jobs| {
        assert Listed(s.sched)[0] == s.sched.id;
        var mid := s.(jobs := SetStatus(s.jobs, s.sched.id, Failed));
        QuieterKeeps(s, mid.jobs);
        ListTail(mid, Scanning(s.sched.ids));
      }
    case CountRunning =>
      if s.sched.BotLive? && s.sched.id < |s.jobs| {
        if r.sched.BelowCap? {
          forall id | 0 <= id < |r.jobs| ensures WakesOwed(r, id) == WakesOwed(s, id) {
          }
        } else {
          assert Listed(r.sched) == Listed(s.sched)[1..];
          ListTail(s, r.sched);
        }
      }
    case Claim => ClaimKeeps(s);
  }

  /** A step of a job's goroutine. */
  lemma JobStepKeeps(s: State, step: Step)
    requires Inv(s)
    requires step.LaunchFails? || step.Adopt? || step.FinishUpdate? || step.Wake? || step.StopWatching? || step.Drop?
    ensures Inv(Next(s, step)) && Absorbing(s, Next(s, step))
  {
    hide RunningOf, Supervisors, WithStatus, Inv;
    match step
    case LaunchFails(id) =>
      if Launching(id) in s.tasks && id < |s.jobs| {
        if s.jobs[id].status == Running {
          EndKeeps(s, id, Failed, Launching(id), false);
        } else {
          GiveUpKeeps(s, id);
        }
      }
    case Adopt(id) => AdoptKeeps(s, id);
    case FinishUpdate(id, cancelled, code, late) =>
      if Watching(id) in s.tasks && id < |s.jobs| && !(cancelled && !s.jobs[id].cancelRequested) {
        if s.jobs[id].status == Running {
          EndKeeps(s, id, Classify(cancelled, code, late), Watching(id), true);
        } else {
          LeaveKeeps(s, id);
        }
      }
    case Wake(id, supervised) => WakeKeeps(s, id, supervised);
    case StopWatching(id) =>
      if Watching(id) in s.tasks {
        LeaveKeeps(s, id);
      }
    case Drop(id) => DropKeeps(s, id);
  }

  lemma StepKeeps(s: State, step: Step)
    requires Inv(s)
    ensures Inv(Next(s, step)) && Absorbing(s, Next(s, step))
  {
    assert Inv(Next(s, Reattach)) && Absorbing(s, Next(s, Reattach)) by {
      hide RunningOf, WithStatus;
      var r := Next(s, Reattach);
      if s.sched.Reattaching? {
        var mid := s.(handles := r.handles, tasks := r.tasks);
        TasksKeep(s, mid);
        ListTail(mid, r.sched);
      }
    }
    hide *;
    if step.Crash? {
      RestartKeeps(s);
    } else if step.Reattach? {
    } else if step.ListQueued? || step.ReadBot? || step.FailGone? || step.CountRunning? || step.Claim? {
      SchedulerStepKeeps(s, step);
    } else if step.LaunchFails? || step.Adopt? || step.FinishUpdate? || step.Wake? || step.StopWatching? || step.Drop? {
      JobStepKeeps(s, step);
    } else {
      OutsideStepKeeps(s, step);
    }
  }

  lemma RestartKeeps(s: State)
    requires Inv(s)
    ensures Inv(Next(s, Crash)) && Absorbing(s, Next(s, Crash))
  {
    assert Inv(Next(s, Crash)) by {
      hide RunningOf;
      hide WithStatus;
      forall id | 0 <= id < |Next(s, Crash).jobs| ensures WakesOwed(Next(s, Crash), id) <= WakesOwed(s, id) {
      }
    }
    hide RunningOf, Supervisors, WithStatus, Inv;
  }

  lemma InsertKeeps(s: State, bot: nat)
    requires Inv(s)
    ensures Inv(Next(s, Insert(bot))) && Absorbing(s, Next(s, Insert(bot)))
  {
    var r := Next(s, Insert(bot));
    assert forall bot' :: RunningOf(s.jobs + [Job(bot, Queued, false, 0)], bot') == RunningOf(s.jobs, bot');
    assert CapOk(r);
    hide RunningOf;
    assert WakesOk(r) by {
      forall id | 0 <= id < |r.jobs| ensures WakesOwed(r, id) <= if Ended(r.jobs[id].status) then 1 else 0 {
        if id < |s.jobs| {
          assert WakesOwed(r, id) == WakesOwed(s, id);
        }
      }
    }
  }

  lemma SameButArchived(s: State, r: State)
    requires Inv(s) && r == s.(archived := r.archived)
    ensures Inv(r)
  {
    hide RunningOf;
    forall id | 0 <= id < |r.jobs| ensures WakesOwed(r, id) == WakesOwed(s, id) {
    }
  }

  lemma AdoptKeeps(s: State, id: nat)
    requires Inv(s)
    ensures Inv(Next(s, Adopt(id)))
  {
    if Launching(id) in s.tasks {
      TasksKeep(s, Next(s, Adopt(id)));
    }
  }

  lemma DropKeeps(s: State, id: nat)
    requires Inv(s)
    ensures Inv(Next(s, Drop(id)))
  {
    if Leaving(id) in s.tasks {
      assert Supervisors(s.tasks, id) == 1;
      TasksKeep(s, Next(s, Drop(id)));
    }
  }

  lemma {:induction false} RunKeeps(steps: seq<Step>)
    ensures Inv(Run(steps))
  {
    if steps != [] {
      RunKeeps(steps[..|steps| - 1]);
      StepKeeps(Run(steps[..|steps| - 1]), steps[|steps| - 1]);
    }
  }

  lemma {:induction false} RunAbsorbs(before: seq<Step>, after: seq<Step>)
    ensures Absorbing(Run(before), Run(before + after))
  {
    hide Inv;
    hide Next;
    if after == [] {
      assert before + after == before;
    } else {
      var n := |after| - 1;
      RunAbsorbs(before, after[..n]);
      RunKeeps(before + after[..n]);
      StepKeeps(Run(before + after[..n]), after[n]);
      assert (before + after)[..|before| + n] == before + after[..n];
    }
  }

  // ----- over whole runs -----

  /** The number of running jobs of the bot. */
  lemma {:induction false} RunningIs(jobs: seq<Job>, bot: nat)
    ensures RunningOf(jobs, bot) == |set k | 0 <= k < |jobs| && jobs[k].bot == bot && jobs[k].status == Running|
  {
    if jobs != [] {
      var n := |jobs| - 1;
      var front := jobs[..n];
      RunningIs(front, bot);
      var before := set k | 0 <= k < |front| && front[k].bot == bot && front[k].status == Running;
      var all := set k | 0 <= k < |jobs| && jobs[k].bot == bot && jobs[k].status == Running;
      assert all == before + (if jobs[n].bot == bot && jobs[n].status == Running then {n} else {}) && n !in before by {
        hide RunningOf;
      }
    }
  }

  /** Under every interleaving at most eight jobs of a bot run. */
  lemma AtMostEightRun(steps: seq<Step>, bot: nat)
    ensures |set k | 0 <= k < |Run(steps).jobs| && Run(steps).jobs[k].bot == bot && Run(steps).jobs[k].status == Running| <= 8
  {
    RunKeeps(steps);
    hide Run;
    assert RunningOf(Run(steps).jobs, bot) <= MAX_PER_BOT;
    RunningIs(Run(steps).jobs, bot);
  }

  /** A job that is done or has failed stays so, whatever happens after. */
  lemma EndedIsAbsorbing(before: seq<Step>, after: seq<Step>, id: nat)
    requires id < |Run(before).jobs| && Ended(Run(before).jobs[id].status)
    ensures id < |Run(before + after).jobs| && Run(before + after).jobs[id].status == Run(before).jobs[id].status
  {
    RunAbsorbs(before, after);
  }

  /** No job enqueues two wakes, and one that has not ended enqueued none. */
  lemma OneWakePerJob(steps: seq<Step>, id: nat)
    requires id < |Run(steps).jobs|
    ensures Run(steps).jobs[id].wakes <= if Ended(Run(steps).jobs[id].status) then 1 else 0
  {
    RunKeeps(steps);
    hide Run;
    assert WakesOwed(Run(steps), id) <= if Ended(Run(steps).jobs[id].status) then 1 else 0;
  }

  /** No two goroutines of a process hold the same job. */
  lemma OneSupervisor(steps: seq<Step>, id: nat)
    ensures Run(steps).tasks[Watching(id)] <= 1 && Supervisors(Run(steps).tasks, id) <= 1
  {
    RunKeeps(steps);
  }

  /** The unguarded "bot is gone" update keeps ended jobs as they are and fails no running job if and
      only if its job is still queued or has failed; that it is, is `ListOk`, which holds because the
      scheduler is the only one that starts jobs. */
  lemma UnguardedUpdateIsSafeIff(s: State)
    requires s.sched.BotGone? && s.sched.id < |s.jobs|
    ensures var id := s.sched.id;
            (&& Absorbing(s, Next(s, FailGone))
             && (forall k :: 0 <= k < |s.jobs| && s.jobs[k].status == Running ==> Next(s, FailGone).jobs[k].status == Running))
            <==> (s.jobs[id].status == Queued || s.jobs[id].status == Failed)
  {
    var r, id := Next(s, FailGone), s.sched.id;
    assert r.jobs[id].status == Failed;
  }

  /** In every run it is safe. */
  lemma UnguardedUpdateIsSafe(steps: seq<Step>)
    requires Run(steps).sched.BotGone?
    ensures var (s, r) := (Run(steps), Next(Run(steps), FailGone));
            Absorbing(s, r) && forall k :: 0 <= k < |s.jobs| && s.jobs[k].status == Running ==> r.jobs[k].status == Running
  {
    RunKeeps(steps);
    var s := Run(steps);
    hide Run;
    assert s.sched.id in Listed(s.sched);
    UnguardedUpdateIsSafeIff(s);
  }
}
