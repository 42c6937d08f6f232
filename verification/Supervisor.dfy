/** The supervisor's methods as they run with nobody in between.
 *
 * Each is one of the interleavings of `Background`, so what holds of all runs holds of it: a method's
 * contract names the steps it takes, in the order it takes them, and the loops over listed jobs are the
 * scheduler's steps for one job after the other.
 */
module Supervisors {
  import opened GoStrings
  import opened Background

  /** The loop body of `startQueuedBackground` for the first listed id. */
  function HandleNext(s: State): (r: State)
    requires s.sched.Scanning? && s.sched.ids != [] && s.sched.ids[0] < |s.jobs|
    ensures r.sched == Scanning(s.sched.ids[1..]) && |r.jobs| == |s.jobs|
  {
    var a := Next(s, ReadBot);
    if a.sched.BotGone? then Next(a, FailGone)
    else
      var b := Next(a, CountRunning);
      if b.sched.BelowCap? then Next(b, Claim) else b
  }

  lemma HandleNextIs(s: State)
    requires s.sched.Scanning? && s.sched.ids != [] && s.sched.ids[0] < |s.jobs|
    ensures var id := s.sched.ids[0];
            var rest := s.(sched := Scanning(s.sched.ids[1..]));
            HandleNext(s) ==
            if s.jobs[id].bot in s.archived then rest.(jobs := SetStatus(s.jobs, id, Failed))
            else if RunningOf(s.jobs, s.jobs[id].bot) >= MAX_PER_BOT || s.jobs[id].status != Queued then rest
            else rest.(jobs := SetStatus(s.jobs, id, Running), tasks := s.tasks + multiset{Launching(id)})
  {
    hide RunningOf, WithStatus, SetStatus, FailAll, UpdateWhere, Move, Classify;
  }

  function ScanAll(s: State): (r: State)
    requires s.sched.Scanning? && forall k :: 0 <= k < |s.sched.ids| ==> s.sched.ids[k] < |s.jobs|
    decreases |s.sched.ids|
  {
    if s.sched.ids == [] then Next(s, ReadBot) else ScanAll(HandleNext(s))
  }

  lemma ListedIs(s: State)
    requires s.sched == Resting
    ensures Next(s, ListQueued) == s.(sched := Scanning(WithStatus(s.jobs, Queued, |s.jobs|)))
  {
    hide RunningOf, WithStatus, SetStatus, FailAll, UpdateWhere, Move, Classify;
  }

  lemma ScanEnd(s: State)
    requires s.sched == Scanning([])
    ensures ScanAll(s) == s.(sched := Resting)
  {
    hide RunningOf, WithStatus, SetStatus, FailAll, UpdateWhere, Move, Classify, HandleNext;
  }

  /** One undisturbed tick is a run of steps. */
  lemma {:induction false} ScanIsRun(before: seq<Step>, s: State) returns (after: seq<Step>)
    requires Run(before) == s && s.sched.Scanning? && forall k :: 0 <= k < |s.sched.ids| ==> s.sched.ids[k] < |s.jobs|
    ensures Run(before + after) == ScanAll(s)
    decreases |s.sched.ids|
  {
    hide Run;
    hide Next;
    if s.sched.ids == [] {
      after := [ReadBot];
      RunSnoc(before, ReadBot);
    } else {
      var a := Next(s, ReadBot);
      RunSnoc(before, ReadBot);
      var done := before + [ReadBot];
      if a.sched.BotGone? {
        RunSnoc(done, FailGone);
        done := done + [FailGone];
      } else {
        RunSnoc(done, CountRunning);
        done := done + [CountRunning];
        if Run(done).sched.BelowCap? {
          RunSnoc(done, Claim);
          done := done + [Claim];
        }
      }
      var more := ScanIsRun(done, HandleNext(s));
      after := done[|before|..] + more;
      assert before + after == done + more;
    }
  }

  /** What the scan does to the rows: it starts or fails jobs that it listed, and leaves the others. */
  ghost predicate Scanned(s: State, r: State, ids: seq<nat>) {
    && |r.jobs| == |s.jobs| && r.archived == s.archived
    && forall k :: 0 <= k < |s.jobs| ==>
         || r.jobs[k] == s.jobs[k]
         || (k in ids && s.jobs[k].bot in s.archived && r.jobs[k] == s.jobs[k].(status := Failed))
         || (k in ids && s.jobs[k].bot !in s.archived && r.jobs[k] == s.jobs[k].(status := Running))
  }

  /** More jobs of a bot run when jobs that were queued do. */
  lemma {:induction false} RunningMore(jobs: seq<Job>, jobs': seq<Job>, bot: nat)
    requires |jobs| == |jobs'|
    requires forall i :: 0 <= i < |jobs| ==>
        jobs'[i].bot == jobs[i].bot && (jobs[i].status == Running ==> jobs'[i].status == Running)
    ensures RunningOf(jobs', bot) >= RunningOf(jobs, bot)
  {
    if jobs != [] {
      RunningMore(jobs[..|jobs| - 1], jobs'[..|jobs'| - 1], bot);
    }
  }

  ghost predicate Listing(s: State) {
    && s.sched.Scanning?
    && (forall k :: 0 <= k < |s.sched.ids| ==> s.sched.ids[k] < |s.jobs| && s.jobs[s.sched.ids[k]].status == Queued)
    && (forall j, k :: 0 <= j < k < |s.sched.ids| ==> s.sched.ids[j] < s.sched.ids[k])
  }

  /** A listed job has failed if its bot is archived, and is left queued only if eight others run. */
  ghost predicate DealtWith(s: State, r: State, id: nat) {
    && id < |s.jobs| == |r.jobs|
    && (s.jobs[id].bot in s.archived ==> r.jobs[id].status == Failed)
    && (r.jobs[id].status == Queued ==> RunningOf(r.jobs, s.jobs[id].bot) >= MAX_PER_BOT)
  }

  lemma HandleDeals(s: State)
    requires Listing(s) && s.sched.ids != []
    ensures var m := HandleNext(s);
            Scanned(s, m, s.sched.ids[..1]) && DealtWith(s, m, s.sched.ids[0]) && Listing(m) && m.sched.ids == s.sched.ids[1..]
  {
    hide RunningOf, Next, HandleNext;
    HandleNextIs(s);
  }

  /** What was dealt with stays so: jobs are only added to those that run. */
  lemma StaysDealtWith(s: State, m: State, r: State, id: nat, ids: seq<nat>)
    requires DealtWith(s, m, id) && Scanned(m, r, ids) && id !in ids
    requires forall k :: 0 <= k < |ids| ==> ids[k] < |m.jobs| && m.jobs[ids[k]].status == Queued
    ensures DealtWith(s, r, id)
  {
    hide RunningOf;
    RunningMore(m.jobs, r.jobs, s.jobs[id].bot);
  }

  /** An undisturbed tick deals with every job that was queued: afterwards those of archived bots have
      failed, and one that is still queued waits because eight jobs of its bot run. It changes no others. */
  lemma {:induction false} ScanStarts(s: State)
    requires Listing(s)
    ensures Scanned(s, ScanAll(s), s.sched.ids)
    ensures forall k :: 0 <= k < |s.sched.ids| ==> DealtWith(s, ScanAll(s), s.sched.ids[k])
    decreases |s.sched.ids|
  {
    hide RunningOf, Next, DealtWith;
    if s.sched.ids == [] {
      ScanEnd(s);
    } else {
      var ids, m, r := s.sched.ids, HandleNext(s), ScanAll(s);
      HandleDeals(s);
      ScanStarts(m);
      StaysDealtWith(s, m, r, ids[0], ids[1..]);
      ScannedTwice(s, m, r, ids);
      forall k | 0 < k < |ids| ensures DealtWith(s, r, ids[k]) {
        assert ids[k] == m.sched.ids[k - 1];
        DealtWithLater(s, m, r, ids[k], ids[0]);
      }
    }
  }

  /** The tick from start to end. */
  lemma TickDealsWithAll(s: State)
    requires s.sched == Resting
    ensures var r := ScanAll(Next(s, ListQueued));
            && |r.jobs| == |s.jobs|
            && forall id :: 0 <= id < |s.jobs| ==>
                 if s.jobs[id].status == Queued then
                   && DealtWith(s, r, id)
                   && (r.jobs[id].status == Queued || r.jobs[id].status == if s.jobs[id].bot in s.archived then Failed else Running)
                 else r.jobs[id] == s.jobs[id]
  {
    hide RunningOf, WithStatus, Next;
    ListedIs(s);
    var m, ids := Next(s, ListQueued), WithStatus(s.jobs, Queued, |s.jobs|);
    ScanStarts(m);
    hide ScanAll;
    forall id: nat | id < |s.jobs| && s.jobs[id].status == Queued ensures DealtWith(s, ScanAll(m), id) {
      assert id in ids;
      var k :| 0 <= k < |ids| && ids[k] == id;
      assert DealtWith(m, ScanAll(m), ids[k]);
    }
  }

  lemma ScannedTwice(s: State, m: State, r: State, ids: seq<nat>)
    requires ids != [] && Scanned(s, m, ids[..1]) && Scanned(m, r, ids[1..])
    requires forall k :: 0 < k < |ids| ==> ids[0] != ids[k]
    ensures Scanned(s, r, ids)
  {
  }

  lemma DealtWithLater(s: State, m: State, r: State, id: nat, first: nat)
    requires Scanned(s, m, [first]) && DealtWith(m, r, id) && id != first && m.archived == s.archived
    ensures DealtWith(s, r, id)
  {
    hide RunningOf;
  }

  lemma RunSnoc(steps: seq<Step>, step: Step)
    ensures Run(steps + [step]) == Next(Run(steps), step)
  {
    assert (steps + [step])[..|steps|] == steps;
  }

  /** `resolveSecretEnv` finds a secret for every variable. */
  predicate Resolves(env: map<string, string>, properName: string -> bool, vault: set<string>) {
    forall e :: e in env ==> properName(TrimSpace(e)) && TrimSpace(env[e]) in vault
  }

  datatype CancelReply = Unknown | Cancelled | NoLongerQueued | CancelRequested | AlreadyEnded(status: Status)

  class Supervisor {
    var jobs: seq<Job>
    var archived: set<nat>
    var handles: set<nat>
    ghost var tasks: multiset<Task>

    ghost function Snapshot(sched: Sched): State
      reads this
    {
      State(jobs, archived, handles, tasks, sched)
    }

    /** `bgRuntime.adopt`: the handle of a job goes to one goroutine. */
    method AdoptHandle(id: nat) returns (ok: bool)
      modifies this`handles
      ensures ok == (id !in old(handles)) && handles == old(handles) + {id}
    {
      if id in handles {
        return false;
      }
      handles := handles + {id};
      return true;
    }

    /** `queueBackgroundJob`: refused without a command, or when a variable it asks for has no proper
        name or a secret is not in the vault. */
    method QueueJob(bot: nat, command: string, env: map<string, string>, stdinSecret: string,
                    properName: string -> bool, vault: set<string>) returns (id: Option<nat>)
      modifies this`jobs
      ensures id.None? <==> TrimSpace(command) == ""
                            || (exists e :: e in env && !(properName(TrimSpace(e)) && TrimSpace(env[e]) in vault))
                            || (TrimSpace(stdinSecret) != "" && TrimSpace(stdinSecret) !in vault)
      ensures id.None? ==> jobs == old(jobs)
      ensures id.Some? ==> id.value == |old(jobs)| && jobs == old(jobs) + [Job(bot, Queued, false, 0)]
      ensures id.Some? ==> Snapshot(Resting) == Next(old(Snapshot(Resting)), Insert(bot))
    {
      hide TrimSpace;
      if TrimSpace(command) == "" || !Resolves(env, properName, vault) {
        return None;
      }
      if TrimSpace(stdinSecret) != "" && TrimSpace(stdinSecret) !in vault {
        return None;
      }
      id := Some(|jobs|);
      jobs := jobs + [Job(bot, Queued, false, 0)];
    }

    /** `cancelBackgroundJob`. */
    method CancelJob(bot: nat, id: nat) returns (reply: CancelReply)
      modifies this`jobs
      ensures reply == Unknown <==> id >= |old(jobs)| || old(jobs)[id].bot != bot
      ensures reply == Unknown ==> jobs == old(jobs)
      ensures reply == Cancelled ==>
                old(jobs)[id].status == Queued && jobs == old(jobs)[id := old(jobs)[id].(status := Failed)]
                && Snapshot(Resting) == Next(old(Snapshot(Resting)), CancelQueued(id))
      ensures reply == CancelRequested ==>
                old(jobs)[id].status == Running && jobs == old(jobs)[id := old(jobs)[id].(cancelRequested := true)]
                && Snapshot(Resting) == Next(old(Snapshot(Resting)), FlagCancel(id))
      ensures reply.AlreadyEnded? ==> Ended(reply.status) && old(jobs)[id].status == reply.status && jobs == old(jobs)
      ensures reply != NoLongerQueued
    {
      if id >= |jobs| || jobs[id].bot != bot {
        return Unknown;
      }
      match jobs[id].status
      case Queued =>
        var n := Update(id, Queued, Failed);
        return if n then Cancelled else NoLongerQueued;
      case Running =>
        jobs := jobs[id := jobs[id].(cancelRequested := true)];
        return CancelRequested;
      case Done => return AlreadyEnded(Done);
      case Failed => return AlreadyEnded(Failed);
    }

    /** A conditional update; tells whether it took effect. */
    method Update(id: nat, from: Status, to: Status) returns (affected: bool)
      modifies this`jobs
      ensures jobs == UpdateWhere(old(jobs), id, from, to)
      ensures affected == (id < |old(jobs)| && old(jobs)[id].status == from)
    {
      affected := id < |jobs| && jobs[id].status == from;
      if affected {
        jobs := jobs[id := jobs[id].(status := to)];
      }
    }

    method CountRunning(bot: nat) returns (n: nat)
      ensures n == RunningOf(jobs, bot)
    {
      n := 0;
      for i := 0 to |jobs|
        invariant n == RunningOf(jobs[..i], bot)
      {
        assert jobs[..i + 1][..i] == jobs[..i];
        if jobs[i].bot == bot && jobs[i].status == Running {
          n := n + 1;
        }
      }
      assert jobs[..|jobs|] == jobs;
    }

    /** The loop body of `startQueuedBackground`. */
    method HandleJob(id: nat, ghost rest: seq<nat>)
      requires id < |jobs|
      modifies this`jobs, this`tasks
      ensures Snapshot(Scanning(rest)) == HandleNext(old(Snapshot(Scanning([id] + rest))))
    {
      hide RunningOf, HandleNext;
      HandleNextIs(Snapshot(Scanning([id] + rest)));
      assert ([id] + rest)[1..] == rest;
      if jobs[id].bot in archived {
        jobs := jobs[id := jobs[id].(status := Failed)];
      } else {
        var n := CountRunning(jobs[id].bot);
        if n < MAX_PER_BOT {
          var affected := Update(id, Queued, Running);
          if affected {
            tasks := tasks + multiset{Launching(id)};
          }
        }
      }
    }

    /** `startQueuedBackground`, undisturbed. */
    method StartQueuedBackground()
      modifies this`jobs, this`tasks
      ensures var listed := Next(old(Snapshot(Resting)), ListQueued);
              Snapshot(Resting) == ScanAll(listed)
    {
      hide RunningOf;
      ListedIs(Snapshot(Resting));
      ghost var listed := Next(Snapshot(Resting), ListQueued);
      var ids := WithStatus(jobs, Queued, |jobs|);
      var k := 0;
      assert ids[0..] == ids;
      while k < |ids|
        invariant k <= |ids| && |jobs| == |listed.jobs|
        invariant ScanAll(Snapshot(Scanning(ids[k..]))) == ScanAll(listed)
      {
        assert ids[k..] == [ids[k]] + ids[k + 1..];
        HandleJob(ids[k], ids[k + 1..]);
        k := k + 1;
      }
      assert ids[k..] == [];
      ScanEnd(Snapshot(Scanning([])));
    }

    /** `finishBackgroundJob`: only the update that found the job running goes on to wake the bot. */
    method FinishJob(id: nat, cancelled: bool, code: Option<int>, late: bool) returns (won: bool)
      requires Watching(id) in tasks && id < |jobs| && (cancelled ==> jobs[id].cancelRequested)
      modifies this`jobs, this`tasks
      ensures Snapshot(Resting) == Next(old(Snapshot(Resting)), FinishUpdate(id, cancelled, code, late))
      ensures won == (old(jobs)[id].status == Running)
    {
      hide RunningOf, WithStatus, FailAll, Classify;
      ghost var s, status := Snapshot(Resting), Classify(cancelled, code, late);
      assert Next(s, FinishUpdate(id, cancelled, code, late)) ==
        if jobs[id].status == Running then
          s.(jobs := SetStatus(jobs, id, status), tasks := tasks - multiset{Watching(id)} + multiset{Waking(id, true)})
        else s.(tasks := tasks - multiset{Watching(id)} + multiset{Leaving(id)});
      hide Next, Move;
      won := Update(id, Running, Classify(cancelled, code, late));
      tasks := tasks - multiset{Watching(id)} + multiset{if won then Waking(id, true) else Leaving(id)};
    }

    /** `reattachBackgroundJobs` in a new process: each job left running gets one watcher. */
    method ReattachBackgroundJobs()
      requires handles == {} && tasks == multiset{}
      modifies this`handles, this`tasks
      ensures forall id: nat :: id in handles <==> (id < |jobs| && jobs[id].status == Running)
      ensures forall id :: tasks[Watching(id)] == Background.Supervisors(tasks, id) == if id in handles then 1 else 0
    {
      hide RunningOf, WithStatus, Next, HandleNext, ScanAll;
      var ids := WithStatus(jobs, Running, |jobs|);
      var k := 0;
      while k < |ids|
        invariant k <= |ids|
        invariant forall id :: id in handles <==> id in ids[..k]
        invariant forall id :: tasks[Watching(id)] == Background.Supervisors(tasks, id) == if id in handles then 1 else 0
      {
        var ok := AdoptHandle(ids[k]);
        if ok {
          tasks := tasks + multiset{Watching(ids[k])};
        }
        k := k + 1;
      }
      assert ids[..k] == ids;
    }
  }
}
