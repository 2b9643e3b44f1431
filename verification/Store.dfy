/**
 The coordinator's store: its tables, and the transactions that update rows one at a
 time. Each method is proved to make exactly the change that module Queue describes,
 so every theorem about histories of Queue's transactions holds of this object.
 */
module Store {
  import opened Basics
  import opened Queue
  import opened QueueInvariant

  // ------------------------------------------------- refreshing run by run

  /** _refresh(db, r) after the runs in scope were refreshed, in any order. */
  lemma RefreshOneMore(db: Db, scope: set<nat>, r: nat)
    requires Linked(db)
    ensures Refresh(Refresh(db, scope), {r}) == Refresh(db, scope + {r})
  {
    var d := Refresh(db, scope);
    var e := Refresh(d, {r});
    var all := Refresh(db, scope + {r});
    forall j | 0 <= j < |db.jobs| ensures e.jobs[j] == all.jobs[j] {
    }
    assert e.jobs == all.jobs;
    forall q | 0 <= q < |db.runs| ensures e.runs[q] == all.runs[q] {
      RefreshOneRun(db, scope, r, q);
    }
    assert e.runs == all.runs;
  }

  lemma RefreshOneRun(db: Db, scope: set<nat>, r: nat, q: nat)
    requires Linked(db) && q < |db.runs|
    ensures Refresh(Refresh(db, scope), {r}).runs[q] == Refresh(db, scope + {r}).runs[q]
  {
    var d := Refresh(db, scope);
    var all := Refresh(db, scope + {r});
    if q in scope {
      SameLive(d.jobs, all.jobs, q);
    }
    if q == r {
      SameLive(Refresh(d, {r}).jobs, all.jobs, q);
    }
  }

  lemma SameLive(jobs: seq<Job>, others: seq<Job>, r: nat)
    requires |jobs| == |others|
    requires forall j | 0 <= j < |jobs| :: jobs[j].run == others[j].run && (jobs[j].run == r ==> jobs[j] == others[j])
    ensures HasLive(jobs, r) <==> HasLive(others, r)
  {
    if HasLive(jobs, r) {
      var j :| 0 <= j < |jobs| && jobs[j].run == r && jobs[j].Live();
      assert others[j].run == r && others[j].Live();
    }
    if HasLive(others, r) {
      var j :| 0 <= j < |others| && others[j].run == r && others[j].Live();
      assert jobs[j].run == r && jobs[j].Live();
    }
  }

  lemma RefreshNone(db: Db)
    requires Linked(db)
    ensures Refresh(db, {}) == db
  {
    assert CancelQueued(db, {}) == db.jobs && Exhaust(db.runs, db.jobs, {}) == db.runs;
  }

  function RunsUpTo(db: Db, k: nat, now: int): set<nat>
    requires Linked(db) && k <= |db.leases|
  {
    set a | 0 <= a < k && Overdue(db.leases[a], now) :: db.jobs[db.leases[a].job].run
  }

  lemma EndsNext(db: Db, k: nat, now: int)
    requires Linked(db) && k < |db.leases|
    ensures var d := ExpireUpTo(db, k, now);
            && |d.leases| == |db.leases| && d.leases[k] == db.leases[k]
            && |d.jobs| == |db.jobs| && d.jobs[db.leases[k].job].run == db.jobs[db.leases[k].job].run
            && ExpireUpTo(db, k + 1, now) == ExpireOne(d, k, now)
    ensures RunsUpTo(db, k + 1, now)
         == RunsUpTo(db, k, now) + if Overdue(db.leases[k], now) then {db.jobs[db.leases[k].job].run} else {}
  {
    ExpireUpToShape(db, k, now);
  }

  // ------------------------------------------------------ expanding a request

  lemma {:induction false} ChainsBefore(groups: seq<InitialGroup>, i: nat)
    requires i < |groups|
    decreases |groups| - i
    ensures InitialCount(groups[..i]) + groups[i].count == InitialCount(groups[..i + 1]) <= InitialCount(groups)
  {
    assert groups[..i + 1][..i] == groups[..i];
    if i + 1 < |groups| {
      ChainsBefore(groups, i + 1);
    } else {
      assert groups[..i + 1] == groups;
    }
  }

  lemma {:induction false} ChainModelOf(groups: seq<InitialGroup>, i: nat, chain: nat)
    requires i < |groups| && InitialCount(groups[..i]) <= chain < InitialCount(groups[..i + 1])
    ensures chain < InitialCount(groups) && ChainModel(groups, chain) == groups[i].model
  {
    ChainsBefore(groups, i);
    if i + 1 == |groups| {
      assert groups[..i + 1] == groups;
    } else {
      var before := groups[..|groups| - 1];
      assert before[..i] == groups[..i] && before[..i + 1] == groups[..i + 1];
      ChainModelOf(before, i, chain);
    }
  }

  /** A looping group that wants to dispatch is stopped, or buys the job. */
  lemma DispatchOutcome(db: Db, g: nat, o: Order, now: int)
    requires Linked(db) && g < |db.groups| && db.groups[g].loop.Looping? && ParentTask(db, g, o.parent)
    requires o.unit > 0 && o.planning != Some(0)
    ensures Dispatch(db, g, o, now)
         == if (db.groups[g].run.Some? && Terminal(db.runs[db.groups[g].run.value].status))
               || now >= db.groups[g].loop.deadline || 2 * o.unit > db.groups[g].remaining - o.held
               || OverTaskLimit(db, g, o) || ChildDepth(db, o.parent) > MAX_DEPTH
            then StopGroup(db, g) else Buy(db, g, o, ChildDepth(db, o.parent))
  {
  }

  class Store {
    var runs: seq<Run>
    var jobs: seq<Job>
    var leases: seq<Lease>
    var groups: seq<Group>
    var tasks: seq<Task>

    function View(): Db
      reads this
    {
      Db(runs, jobs, leases, groups, tasks)
    }

    ghost predicate Valid()
      reads this
    {
      Linked(View())
    }

    constructor ()
      ensures View() == EMPTY && Valid()
    {
      runs, jobs, leases, groups, tasks := [], [], [], [], [];
    }

    // -------------------------------------------------------------- helpers

    method SetJobStatus(j: nat, status: JobStatus)
      requires Valid() && j < |jobs|
      modifies this`jobs
      ensures Valid() && View() == SetJob(old(View()), j, status)
    {
      jobs := jobs[j := jobs[j].(status := status)];
      assert View() == SetJob(old(View()), j, status);
    }

    /** _retry */
    method RetryJob(j: nat)
      requires Valid() && j < |jobs|
      modifies this
      ensures Valid() && View() == Retry(old(View()), j)
    {
      var count := Count(leases, j, Budgeted);
      var link := jobs[j].link;
      if link.Some? && groups[link.value.group].loop.Stopped? {
        SetJobStatus(j, Cancelled);
      } else if count < jobs[j].maxAssignments {
        SetJobStatus(j, Queued);
      } else {
        SetJobStatus(j, JobStatus.Failed);
      }
    }

    /** The first statement of _refresh, row by row: queued jobs of a run that is over are cancelled. */
    method CancelOfTerminal(scope: set<nat>)
      requires Valid()
      modifies this`jobs
      ensures Valid() && jobs == CancelQueued(old(View()), scope)
    {
      ghost var before := View();
      for j := 0 to |jobs|
        invariant |jobs| == |before.jobs|
        invariant forall i | 0 <= i < j :: jobs[i] == CancelQueued(before, scope)[i]
        invariant forall i | j <= i < |jobs| :: jobs[i] == before.jobs[i]
      {
        var job := jobs[j];
        assert JobLinked(before, before.jobs[j]);
        if job.run in scope && job.status.Queued? && (runs[job.run].status.Solved? || runs[job.run].status.Errored?) {
          jobs := jobs[j := job.(status := Cancelled)];
        }
      }
      assert jobs == CancelQueued(before, scope);
      assert View() == before.(jobs := CancelQueued(before, scope));
    }

    /** NOT EXISTS (SELECT 1 FROM jobs ...), negated. */
    method SomeLive(r: nat) returns (live: bool)
      ensures live == HasLive(jobs, r)
    {
      live := false;
      for j := 0 to |jobs|
        invariant live == exists i | 0 <= i < j :: jobs[i].run == r && jobs[i].Live()
      {
        if jobs[j].run == r && (jobs[j].status.Queued? || jobs[j].status.Assigned? || jobs[j].status.Verifying?) {
          live := true;
        }
      }
    }

    /** The second statement of _refresh, row by row: a running run without live jobs is exhausted. */
    method ExhaustIdle(scope: set<nat>)
      modifies this`runs
      ensures runs == Exhaust(old(runs), jobs, scope)
    {
      ghost var before := runs;
      for r := 0 to |runs|
        invariant |runs| == |before|
        invariant forall i | 0 <= i < r :: runs[i] == Exhaust(before, jobs, scope)[i]
        invariant forall i | r <= i < |runs| :: runs[i] == before[i]
      {
        if r in scope && runs[r].status.Running? {
          var live := SomeLive(r);
          if !live {
            runs := runs[r := runs[r].(status := Exhausted)];
          }
        }
      }
    }

    /** _refresh, for one run or for all of them. */
    method RefreshRuns(scope: set<nat>)
      requires Valid()
      modifies this`jobs, this`runs
      ensures Valid() && View() == Refresh(old(View()), scope)
    {
      CancelOfTerminal(scope);
      ExhaustIdle(scope);
      assert View() == Refresh(old(View()), scope);
    }

    // --------------------------------------------------------------- leases

    /** The first loop of _expire: every overdue lease ends and its job is retried. */
    method EndOverdue(now: int) returns (ended: set<nat>)
      requires Valid()
      modifies this
      ensures Valid() && View() == ExpireUpTo(old(View()), |old(leases)|, now)
      ensures ended == OverdueRuns(old(View()), now)
    {
      ghost var before := View();
      var rows := leases;
      ended := {};
      for k := 0 to |rows|
        invariant rows == before.leases && Linked(before) && View() == ExpireUpTo(before, k, now)
        invariant ended == RunsUpTo(before, k, now)
      {
        EndsNext(before, k, now);
        ended := EndIfOverdue(k, now, ended);
      }
    }

    /** The body of that loop. */
    method EndIfOverdue(k: nat, now: int, runsBefore: set<nat>) returns (ended: set<nat>)
      requires Valid() && k < |leases|
      modifies this
      ensures Valid() && View() == ExpireOne(old(View()), k, now)
      ensures ended == runsBefore + if Overdue(old(leases)[k], now) then {old(jobs)[old(leases)[k].job].run} else {}
    {
      ended := runsBefore;
      if leases[k].status.Active? && leases[k].expires <= now {
        ended := ended + {jobs[leases[k].job].run};
        EndLease(k);
      }
    }

    method EndLease(a: nat)
      requires Valid() && a < |leases| && leases[a].status.Active?
      modifies this
      ensures Valid() && View() == Retry(SetLease(old(View()), a, old(leases)[a].(status := Expired)), old(leases)[a].job)
    {
      leases := leases[a := leases[a].(status := Expired)];
      assert View() == SetLease(old(View()), a, old(leases)[a].(status := Expired));
      RetryJob(leases[a].job);
    }

    /** The second loop of _expire refreshes the runs one at a time, in no given order. */
    method RefreshEach(scope: set<nat>)
      requires Valid()
      modifies this
      ensures Valid() && View() == Refresh(old(View()), scope)
    {
      ghost var before, done := View(), {};
      var rest := scope;
      RefreshNone(before);
      while rest != {}
        invariant Linked(before) && Valid() && View() == Refresh(before, done)
        invariant done + rest == scope
        decreases |rest|
      {
        var r :| r in rest;
        RefreshOneMore(before, done, r);
        RefreshRuns({r});
        rest, done := rest - {r}, done + {r};
      }
      assert done == scope;
    }

    /** _expire */
    method ExpireLeases(now: int)
      requires Valid()
      modifies this
      ensures Valid() && View() == Expire(old(View()), now)
    {
      var ended := EndOverdue(now);
      RefreshEach(ended);
    }

    /** claim: sweep, pick the oldest eligible job, and lease it. */
    method ClaimJob(cap: Capabilities, token: nat, now: int, term: int) returns (lease: Option<nat>)
      requires Valid()
      modifies this
      ensures Valid() && View() == Claim(old(View()), cap, token, now, term)
      ensures Granted(lease, token, now + term)
    {
      ExpireLeases(now);
      lease := AssignJob(cap, token, now, term);
    }

    /** The lease that claim hands out is live, and its job is assigned to it. */
    ghost predicate Granted(lease: Option<nat>, token: nat, expires: int)
      reads this
    {
      lease.Some? ==>
        && lease.value < |leases| && leases[lease.value].job < |jobs|
        && leases[lease.value] == Lease(leases[lease.value].job, token, expires, Active, None, None)
        && jobs[leases[lease.value].job].status.Assigned?
    }

    method AssignJob(cap: Capabilities, token: nat, now: int, term: int) returns (lease: Option<nat>)
      requires Valid()
      modifies this
      ensures Valid() && View() == Assign(old(View()), cap, token, now, term)
      ensures Granted(lease, token, now + term)
    {
      if cap.unavailable || cap.models == {} {
        return None;
      }
      var found := FirstClaimable(Db(runs, jobs, leases, groups, tasks), 0, cap, now);
      if found.None? {
        return None;
      }
      var j := found.value;
      SetJobStatus(j, Assigned);
      leases := leases + [Lease(j, token, now + term, Active, None, None)];
      assert View() == Grant(old(View()), j, token, now + term);
      lease := Some(|leases| - 1);
    }

    method ExtendLease(a: nat, token: nat, now: int, term: int) returns (reply: Reply)
      requires Valid()
      modifies this
      ensures Valid() && (View(), reply) == Heartbeat(old(View()), a, token, now, term)
    {
      if a >= |leases| || leases[a].token != token {
        return Conflict;
      }
      if !leases[a].status.Active? || leases[a].expires <= now {
        return Conflict;
      }
      leases := leases[a := leases[a].(expires := now + term)];
      reply := Accepted;
    }

    /** result: the first valid report on a live lease counts; later copies of it are acknowledged. */
    method AcceptResult(a: nat, token: nat, raw: Payload, now: int) returns (reply: Reply)
      requires Valid()
      modifies this
      ensures Valid() && (View(), reply) == Deliver(old(View()), a, token, raw, now)
    {
      var payload := raw;
      if payload.Failure? && payload.severity.None? {
        payload := Failure(Some(Transient));
      }
      if a >= |leases| || leases[a].token != token {
        return Conflict;
      }
      var j := leases[a].job;
      if payload.Finished? && !ValidOutput(jobs[j].kind, payload.output) {
        return Invalid;
      }
      if leases[a].result.Some? {
        return if leases[a].result.value == payload then Accepted else Conflict;
      }
      if !leases[a].status.Active? || leases[a].expires <= now {
        return Conflict;
      }
      ApplyResult(a, payload);
      RefreshRuns(Below(|runs|));
      reply := Accepted;
    }

    /** The row updates of a first result. */
    method ApplyResult(a: nat, payload: Payload)
      requires Valid() && a < |leases|
      requires payload.Finished? && jobs[leases[a].job].kind.Generate? ==> !payload.output.Malformed?
      modifies this
      ensures Valid() && View() == FirstResult(old(View()), a, payload)
    {
      var j := leases[a].job;
      var status := if payload.Refusal? then Rejected else Completed;
      leases := leases[a := leases[a].(status := status, result := Some(payload))];
      if payload.Finished? && jobs[j].kind.Generate? {
        leases := leases[a := leases[a].(attempt := Some(Attempt(payload.output.text, None)))];
        SetJobStatus(j, Verifying);
      } else if payload.Finished? {
        SetJobStatus(j, Done);
      } else if payload.Failure? {
        if payload.severity == Some(Permanent) {
          SetJobStatus(j, JobStatus.Failed);
        } else {
          RetryJob(j);
        }
      } else {
        RetryJob(j);
      }
    }

    /** verified: one verdict per attempt; a late one still counts. */
    method RecordVerdict(a: nat, verdict: Verdict)
      requires Valid()
      modifies this
      ensures Valid() && View() == Judge(old(View()), a, verdict)
    {
      if a >= |leases| || leases[a].attempt.None? || leases[a].attempt.value.verdict.Some? {
        return;
      }
      SettleAttempt(a, verdict);
      RefreshRuns(Below(|runs|));
    }

    /** The verdict's row, and what it means for the job, its run and its group. */
    method SettleAttempt(a: nat, verdict: Verdict)
      requires Valid() && Open(View(), a)
      modifies this
      ensures Valid() && View() == Settle(old(View()), a, verdict)
    {
      leases := leases[a := leases[a].(attempt := Some(leases[a].attempt.value.(verdict := Some(verdict))))];
      var job := jobs[leases[a].job];
      jobs := jobs[leases[a].job := job.(status := Done)];
      if verdict.Verified? {
        if !runs[job.run].status.Solved? {
          runs := runs[job.run := runs[job.run].(status := Solved)];
        }
        if job.link.Some? {
          tasks := CloseTask(tasks, job.link.value.task);
        }
        groups := StopLoopsOf(groups, job.run);
      } else if verdict.VerifierError? {
        if runs[job.run].status.Running? {
          runs := runs[job.run := runs[job.run].(status := Errored)];
        }
      } else if verdict.LeanRejected? {
        if runs[job.run].status.Running? && job.depth < runs[job.run].maxRepairs {
          jobs := jobs + [Job(job.run, Queued, job.model, Generate, job.settings, job.maxAssignments,
                              Some(a), job.depth + 1, None)];
        }
      }
      assert View() == Settle(old(View()), a, verdict);
    }

    // ----------------------------------------------------------- submission

    /** submit and _insert_run: the request's groups are expanded into one job per chain. */
    method SubmitRun(initial: seq<InitialGroup>, maxRepairs: nat, maxAssignments: nat, settings: Settings)
      returns (reply: Reply)
      requires Valid()
      modifies this
      ensures Valid() && (View(), reply) == Submit(old(View()), initial, maxRepairs, maxAssignments, settings)
    {
      if !ValidSubmission(initial, maxRepairs, maxAssignments) {
        return Invalid;
      }
      var r := |runs|;
      runs := runs + [Run(Running, maxRepairs, maxAssignments)];
      ghost var target := InitialJobs(r, initial, settings, maxAssignments);
      var chain := 0;
      assert target[..0] == [];
      for g := 0 to |initial|
        invariant chain == InitialCount(initial[..g]) <= |target|
        invariant jobs == old(jobs) + target[..chain]
        invariant runs == old(runs) + [Run(Running, maxRepairs, maxAssignments)]
        invariant leases == old(leases) && groups == old(groups) && tasks == old(tasks)
      {
        ChainsBefore(initial, g);
        for c := 0 to initial[g].count
          invariant chain == InitialCount(initial[..g]) + c <= |target|
          invariant jobs == old(jobs) + target[..chain]
          invariant runs == old(runs) + [Run(Running, maxRepairs, maxAssignments)]
          invariant leases == old(leases) && groups == old(groups) && tasks == old(tasks)
        {
          ChainModelOf(initial, g, chain);
          TakeNext(target, chain);
          InsertChain(r, initial[g].model, settings, chain, maxAssignments);
          chain := chain + 1;
        }
      }
      assert initial[..|initial|] == initial && target[..chain] == target;
      reply := Accepted;
    }

    /** Chain i of a seeded run samples with seed + i. */
    method InsertChain(r: nat, model: string, settings: Settings, chain: nat, maxAssignments: nat)
      modifies this`jobs
      ensures jobs == old(jobs) + [InitialJob(r, model, settings, chain, maxAssignments)]
    {
      var seeded := settings;
      if seeded.seed.Some? {
        seeded := seeded.(seed := Some(seeded.seed.value + chain));
      }
      jobs := jobs + [Job(r, Queued, model, Generate, seeded, maxAssignments, None, 0, None)];
    }

    method EnqueueRunTask(r: nat, model: string, task: TaskType) returns (reply: Reply)
      requires Valid()
      modifies this
      ensures Valid() && (View(), reply) == EnqueueTask(old(View()), r, model, task)
    {
      if OwnedByGroup(Db(runs, jobs, leases, groups, tasks), r) || r >= |runs| || !runs[r].status.Running? {
        return Conflict;
      }
      jobs := jobs + [Job(r, Queued, model, Respond(task), Settings(false, None), runs[r].maxAssignments, None, 0, None)];
      reply := Accepted;
    }

    // --------------------------------------------------------------- groups

    method AddGroupTask(g: nat, parent: Option<nat>, budget: nat) returns (reply: Reply)
      requires Valid()
      modifies this
      ensures Valid() && (View(), reply) == AddTask(old(View()), g, parent, budget)
    {
      if !(1 <= budget <= MAX_UNIT) {
        return Invalid;
      }
      if g >= |groups| {
        return Conflict;
      }
      var depth := 0;
      if parent.Some? {
        if parent.value >= |tasks| || tasks[parent.value].group != g {
          return Conflict;
        }
        depth := tasks[parent.value].depth + 1;
        if depth > MAX_DEPTH || !tasks[parent.value].open {
          return Conflict;
        }
      }
      if TaskCount(tasks, g) >= groups[g].maxTasks || budget > groups[g].remaining {
        return Conflict;
      }
      tasks := tasks + [Task(g, budget, budget, true, depth)];
      groups := groups[g := groups[g].(remaining := groups[g].remaining - budget)];
      reply := Accepted;
    }

    /** create_group_run on first use; an exhausted group run runs again. */
    method EnsureGroupRun(g: nat) returns (r: nat)
      requires Valid() && g < |groups|
      modifies this
      ensures Valid() && View() == GroupRun(old(View()), g) && groups[g].run == Some(r)
    {
      if groups[g].run.None? {
        r := |runs|;
        runs := runs + [Run(Running, 0, 3)];
        groups := groups[g := groups[g].(run := Some(r))];
      } else {
        r := groups[g].run.value;
        if runs[r].status.Exhausted? {
          runs := runs[r := runs[r].(status := Running)];
        }
      }
    }

    method InsertJob(g: nat, t: nat, cost: nat, maxAssignments: nat, model: string, kind: Kind)
      requires Valid() && g < |groups| && t < |tasks|
      modifies this
      ensures Valid() && View() == InsertGroupJob(old(View()), g, t, cost, maxAssignments, model, kind)
    {
      var r := EnsureGroupRun(g);
      jobs := jobs + [Job(r, Queued, model, kind, Settings(false, None), maxAssignments, None, 0,
                          Some(GroupLink(g, t, cost)))];
    }

    method EnqueueJob(t: nat, cost: nat, model: string, kind: Kind) returns (reply: Reply)
      requires Valid()
      modifies this
      ensures Valid() && (View(), reply) == EnqueueGroupJob(old(View()), t, cost, model, kind)
    {
      if !(1 <= cost <= MAX_UNIT) {
        return Invalid;
      }
      if t >= |tasks| || groups[tasks[t].group].loop.Stopped? || !tasks[t].open || cost > tasks[t].remaining {
        return Conflict;
      }
      var g := tasks[t].group;
      var run := groups[g].run;
      if run.Some? && (runs[run.value].status.Solved? || runs[run.value].status.Errored?) {
        return Conflict;
      }
      tasks := tasks[t := tasks[t].(remaining := tasks[t].remaining - cost)];
      InsertJob(g, t, cost, cost, model, kind);
      reply := Accepted;
    }

    /** stop: the loop ends, its queued jobs are cancelled and its tasks closed. */
    method Stop(g: nat)
      requires Valid()
      modifies this
      ensures Valid() && View() == StopGroup(old(View()), g)
    {
      if g < |groups| {
        CancelWork(g);
        RefreshRuns(Below(|runs|));
      }
    }

    /** stop_group_jobs: the group's queued jobs are cancelled, row by row. */
    method CancelJobs(g: nat)
      modifies this`jobs
      ensures jobs == CancelGroup(old(jobs), g)
    {
      ghost var before := jobs;
      for j := 0 to |jobs|
        invariant |jobs| == |before|
        invariant forall i | 0 <= i < j :: jobs[i] == CancelGroup(before, g)[i]
        invariant forall i | j <= i < |jobs| :: jobs[i] == before[i]
      {
        if jobs[j].status.Queued? && jobs[j].link.Some? && jobs[j].link.value.group == g {
          jobs := jobs[j := jobs[j].(status := Cancelled)];
        }
      }
    }

    /** The group's open tasks are closed, row by row. */
    method CloseOpenTasks(g: nat)
      modifies this`tasks
      ensures tasks == CloseTasks(old(tasks), g)
    {
      ghost var before := tasks;
      for t := 0 to |tasks|
        invariant |tasks| == |before|
        invariant forall i | 0 <= i < t :: tasks[i] == CloseTasks(before, g)[i]
        invariant forall i | t <= i < |tasks| :: tasks[i] == before[i]
      {
        if tasks[t].group == g && tasks[t].open {
          tasks := tasks[t := tasks[t].(open := false)];
        }
      }
    }

    method CancelWork(g: nat)
      requires Valid() && g < |groups|
      modifies this`groups, this`jobs, this`tasks
      ensures Valid()
      ensures View() == old(View()).(groups := old(groups)[g := StopLoop(old(groups)[g])], jobs := CancelGroup(old(jobs), g),
                                     tasks := CloseTasks(old(tasks), g))
    {
      if groups[g].loop.Looping? {
        groups := groups[g := groups[g].(loop := Stopped)];
      }
      CancelJobs(g);
      CloseOpenTasks(g);
    }

    /** dispatch, in the fixed loop and in the frontier. */
    method DispatchJob(g: nat, o: Order, now: int)
      requires Valid()
      modifies this
      ensures Valid() && View() == Dispatch(old(View()), g, o, now)
    {
      if g >= |groups| || !groups[g].loop.Looping? || o.unit == 0 || o.planning == Some(0)
         || (o.parent.Some? && (o.parent.value >= |tasks| || tasks[o.parent.value].group != g)) {
        return;
      }
      var cost := 2 * o.unit;
      var depth := if o.parent.Some? then tasks[o.parent.value].depth + 1 else 0;
      var count := if o.dispatched.Some? then o.dispatched.value else TaskCount(tasks, g);
      var run := groups[g].run;
      DispatchOutcome(View(), g, o, now);
      if (run.Some? && (runs[run.value].status.Solved? || runs[run.value].status.Errored?))
         || now >= groups[g].loop.deadline || cost > groups[g].remaining - o.held
         || count >= groups[g].maxTasks || depth > MAX_DEPTH {
        Stop(g);
        return;
      }
      BuyJob(g, o, depth);
    }

    method InsertTask(g: nat, cost: nat, depth: nat)
      requires Valid() && g < |groups|
      modifies this`tasks, this`groups
      ensures Valid() && View() == ChargeTask(old(View()), g, cost, depth)
    {
      tasks := tasks + [Task(g, cost, 0, true, depth)];
      groups := groups[g := groups[g].(remaining := groups[g].remaining - cost)];
    }

    method BuyJob(g: nat, o: Order, depth: nat)
      requires Valid() && g < |groups|
      modifies this
      ensures Valid() && View() == Buy(old(View()), g, o, depth)
    {
      var t, run := |tasks|, groups[g].run;
      InsertTask(g, 2 * o.unit, depth);
      if run.Some? && (runs[run.value].status.Solved? || runs[run.value].status.Errored?) {
        Stop(g);
      } else {
        InsertJob(g, t, 2 * o.unit, if o.planning.Some? then Min(2, o.planning.value) else 2, o.model, o.kind);
      }
    }

    method StopUncheckedTarget(a: nat)
      requires Valid()
      modifies this
      ensures Valid() && View() == StopUnchecked(old(View()), a)
    {
      if a < |leases| && leases[a].attempt.Some? && leases[a].attempt.value.verdict.None? {
        var j := leases[a].job;
        var link := jobs[j].link;
        if link.Some? {
          CancelUnchecked(a);
          Stop(link.value.group);
        }
      }
    }

    method CancelUnchecked(a: nat)
      requires Valid() && Open(View(), a)
      modifies this
      ensures Valid() && View() == Unchecked(old(View()), a)
    {
      var j := leases[a].job;
      if jobs[j].status.Verifying? {
        SetJobStatus(j, Cancelled);
      }
    }
  }
}
