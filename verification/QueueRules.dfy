/**
 What each transaction of the job queue does, row by row, in every reachable state: which rows it
 changes, to what, and that it changes no other.
 */
module QueueRules {
  import opened Basics
  import opened Queue
  import opened QueueInvariant
  import opened QueueHistory
  import opened QueueRecords

  // ---------------------------------------------------------------- rows

  /** The assignments of job j that count against its budget. */
  ghost function Charged(leases: seq<Lease>, j: nat): set<nat> {
    Where(leases, (lease: Lease) => lease.job == j && !lease.status.Rejected?)
  }

  lemma {:induction false} ChargedCount(leases: seq<Lease>, j: nat)
    ensures |Charged(leases, j)| == Count(leases, j, Budgeted)
  {
    if leases != [] {
      ChargedCount(leases[..|leases| - 1], j);
      WhereLast(leases, (lease: Lease) => lease.job == j && !lease.status.Rejected?);
    }
  }

  ghost predicate StoppedGroup(db: Db, job: Job)
    requires job.link.Some? ==> job.link.value.group < |db.groups|
  {
    job.link.Some? && db.groups[job.link.value.group].loop.Stopped?
  }

  ghost predicate RunOver(db: Db, job: Job)
    requires job.run < |db.runs|
  {
    db.runs[job.run].status.Solved? || db.runs[job.run].status.Errored?
  }

  ghost predicate LiveIn(jobs: seq<Job>, r: nat) {
    exists job | job in jobs :: job.run == r && (job.status.Queued? || job.status.Assigned? || job.status.Verifying?)
  }

  lemma LiveRows(jobs: seq<Job>, r: nat)
    ensures LiveIn(jobs, r) <==> HasLive(jobs, r)
  {
    if LiveIn(jobs, r) {
      var job :| job in jobs && job.run == r && job.Live();
      var j :| 0 <= j < |jobs| && jobs[j] == job;
    }
  }

  /** d is mid once every run is refreshed: queued jobs of runs that are over are cancelled, and running
      runs without a live job are exhausted. */
  ghost predicate Refreshed(mid: Db, d: Db)
    requires Linked(mid)
  {
    && d.leases == mid.leases && d.groups == mid.groups && d.tasks == mid.tasks
    && |d.jobs| == |mid.jobs| && |d.runs| == |mid.runs|
    && (forall j | 0 <= j < |mid.jobs| ::
          d.jobs[j] == if mid.jobs[j].status.Queued? && RunOver(mid, mid.jobs[j]) then mid.jobs[j].(status := Cancelled) else mid.jobs[j])
    && (forall r | 0 <= r < |mid.runs| ::
          d.runs[r] == if mid.runs[r].status.Running? && !LiveIn(d.jobs, r) then mid.runs[r].(status := Exhausted) else mid.runs[r])
  }

  lemma RefreshRule(db: Db)
    requires Linked(db)
    ensures Refreshed(db, RefreshAll(db))
  {
    var d := RefreshAll(db);
    forall r | 0 <= r < |db.runs|
      ensures d.runs[r] == if db.runs[r].status.Running? && !LiveIn(d.jobs, r) then db.runs[r].(status := Exhausted) else db.runs[r]
    {
      LiveRows(d.jobs, r);
    }
  }

  // -------------------------------------------------------------- verdicts

  /** The rows that a verdict writes before runs are refreshed. */
  ghost predicate VerdictWritten(db: Db, mid: Db, a: nat, v: Verdict)
    requires Linked(db) && Open(db, a)
  {
    var j := db.leases[a].job;
    var r := db.jobs[j].run;
    var repairs := v.LeanRejected? && db.runs[r].status.Running? && db.jobs[j].depth < db.runs[r].maxRepairs;
    && mid.leases == db.leases[a := db.leases[a].(attempt := Some(db.leases[a].attempt.value.(verdict := Some(v))))]
    && mid.jobs == db.jobs[j := db.jobs[j].(status := Done)]
                   + (if repairs
                      then [Job(r, Queued, db.jobs[j].model, Generate, db.jobs[j].settings, db.jobs[j].maxAssignments,
                                Some(a), db.jobs[j].depth + 1, None)]
                      else [])
    && mid.runs == (if v.Verified? then db.runs[r := db.runs[r].(status := Solved)]
                    else if v.VerifierError? && db.runs[r].status.Running? then db.runs[r := db.runs[r].(status := Errored)]
                    else db.runs)
    && |mid.groups| == |db.groups|
    && (forall g | 0 <= g < |db.groups| ::
          mid.groups[g] == if v.Verified? && db.groups[g].run == Some(r) && db.groups[g].loop.Looping?
                           then db.groups[g].(loop := Stopped) else db.groups[g])
    && |mid.tasks| == |db.tasks|
    && (forall t | 0 <= t < |db.tasks| ::
          mid.tasks[t] == if v.Verified? && db.jobs[j].link.Some? && db.jobs[j].link.value.task == t
                          then db.tasks[t].(open := false) else db.tasks[t])
  }

  lemma SettledLeases(db: Db, a: nat, v: Verdict)
    requires Linked(db) && Open(db, a)
    ensures Settle(db, a, v).leases
         == db.leases[a := db.leases[a].(attempt := Some(db.leases[a].attempt.value.(verdict := Some(v))))]
  {
  }

  lemma SettledRuns(db: Db, a: nat, v: Verdict)
    requires Linked(db) && Open(db, a)
    ensures var r := db.jobs[db.leases[a].job].run;
            Settle(db, a, v).runs
            == (if v.Verified? then db.runs[r := db.runs[r].(status := Solved)]
                else if v.VerifierError? && db.runs[r].status.Running? then db.runs[r := db.runs[r].(status := Errored)]
                else db.runs)
  {
    var r := db.jobs[db.leases[a].job].run;
    assert db.runs[r].(status := db.runs[r].status) == db.runs[r] && db.runs[r := db.runs[r]] == db.runs;
  }

  lemma SettledGroups(db: Db, a: nat, v: Verdict)
    requires Linked(db) && Open(db, a)
    ensures var d, r := Settle(db, a, v), db.jobs[db.leases[a].job].run;
            && |d.groups| == |db.groups|
            && (forall g | 0 <= g < |db.groups| ::
                  d.groups[g] == if v.Verified? && db.groups[g].run == Some(r) && db.groups[g].loop.Looping?
                                 then db.groups[g].(loop := Stopped) else db.groups[g])
  {
  }

  lemma SettledJobs(db: Db, a: nat, v: Verdict)
    requires Linked(db) && Open(db, a)
    ensures var j := db.leases[a].job; var r := db.jobs[j].run;
            var repairs := v.LeanRejected? && db.runs[r].status.Running? && db.jobs[j].depth < db.runs[r].maxRepairs;
            Settle(db, a, v).jobs
            == db.jobs[j := db.jobs[j].(status := Done)]
               + (if repairs
                  then [Job(r, Queued, db.jobs[j].model, Generate, db.jobs[j].settings, db.jobs[j].maxAssignments,
                            Some(a), db.jobs[j].depth + 1, None)]
                  else [])
  {
    PlusNothing(db.jobs[db.leases[a].job := db.jobs[db.leases[a].job].(status := Done)]);
  }

  lemma SettledTasks(db: Db, a: nat, v: Verdict)
    requires Linked(db) && Open(db, a)
    ensures var d, j := Settle(db, a, v), db.leases[a].job;
            && |d.tasks| == |db.tasks|
            && (forall t | 0 <= t < |db.tasks| ::
                  d.tasks[t] == if v.Verified? && db.jobs[j].link.Some? && db.jobs[j].link.value.task == t
                                then db.tasks[t].(open := false) else db.tasks[t])
  {
  }

  lemma VerdictTables(db: Db, a: nat, v: Verdict, mid: Db)
    requires Linked(db) && Open(db, a) && mid == Settle(db, a, v)
    ensures VerdictWritten(db, mid, a, v)
  {
    SettledLeases(db, a, v);
    SettledJobs(db, a, v);
    SettledRuns(db, a, v);
    SettledGroups(db, a, v);
    SettledTasks(db, a, v);
  }

  lemma VerdictRows(db: Db, a: nat, v: Verdict)
    requires Linked(db) && Open(db, a)
    ensures VerdictWritten(db, Settle(db, a, v), a, v) && Refreshed(Settle(db, a, v), Judge(db, a, v))
  {
    VerdictTables(db, a, v, Settle(db, a, v));
    RefreshRule(Settle(db, a, v));
  }

  /** The first verdict on an attempt: its own rows, its run and its group, its one repair, and nothing
      else, for each of the four verdicts. */
  lemma VerdictRule(events: seq<Event>, a: nat, v: Verdict) returns (mid: Db)
    requires Open(After(events), a)
    ensures Linked(mid) && VerdictWritten(After(events), mid, a, v) && Refreshed(mid, Judge(After(events), a, v))
  {
    mid := Settle(After(events), a, v);
    VerdictRows(After(events), a, v);
  }

  ghost predicate QueuedIn(jobs: seq<Job>, r: nat) {
    exists job | job in jobs :: job.run == r && job.status.Queued?
  }

  /** What a verdict means for its run. Only a verifier error ends a running run as an error, and then
      nothing of it is left to claim; a timeout or a rejection never does. */
  lemma VerdictMeans(events: seq<Event>, a: nat, v: Verdict)
    requires Open(After(events), a)
    ensures var db := After(events); var d := Judge(db, a, v); var r := db.jobs[db.leases[a].job].run;
            && r < |d.runs|
            && (v.Verified? ==> d.runs[r].status.Solved? && !QueuedIn(d.jobs, r))
            && (v.VerifierError? && db.runs[r].status.Running? ==> d.runs[r].status.Errored? && !QueuedIn(d.jobs, r))
            && (v.Timeout? || v.LeanRejected? ==>
                  && (db.runs[r].status.Running? ==> d.runs[r].status.Running? || d.runs[r].status.Exhausted?)
                  && (!db.runs[r].status.Running? ==> d.runs[r].status == db.runs[r].status))
  {
    var db := After(events);
    var d, r := Judge(db, a, v), db.jobs[db.leases[a].job].run;
    var mid := VerdictRule(events, a, v);
    AlwaysInv(events);
    JudgeKeeps(db, a, v);
    assert RunOk(d, r);
    if QueuedIn(d.jobs, r) {
      QueuedRow(d, r);
    }
  }

  /** A rejection in a running run below the repair limit adds one queued repair, and keeps the run
      running; no other verdict adds a job. */
  lemma OneRepair(events: seq<Event>, a: nat, v: Verdict)
    requires Open(After(events), a)
    ensures var db := After(events); var d := Judge(db, a, v); var j := db.leases[a].job; var r := db.jobs[j].run;
            && r < |d.runs| && |db.jobs| <= |d.jobs|
            && (if v.LeanRejected? && db.runs[r].status.Running? && db.jobs[j].depth < db.runs[r].maxRepairs
                then |d.jobs| == |db.jobs| + 1 && d.runs[r].status.Running?
                     && d.jobs[|db.jobs|] == Job(r, Queued, db.jobs[j].model, Generate, db.jobs[j].settings,
                                                 db.jobs[j].maxAssignments, Some(a), db.jobs[j].depth + 1, None)
                else |d.jobs| == |db.jobs|)
  {
    var db := After(events);
    var d := Judge(db, a, v);
    var mid := VerdictRule(events, a, v);
    RepairJob(db, mid, d, a, v);
  }

  lemma RepairJob(db: Db, mid: Db, d: Db, a: nat, v: Verdict)
    requires Linked(db) && Open(db, a) && Linked(mid) && VerdictWritten(db, mid, a, v) && Refreshed(mid, d)
    ensures var j := db.leases[a].job; var r := db.jobs[j].run;
            && |db.jobs| <= |d.jobs|
            && (if v.LeanRejected? && db.runs[r].status.Running? && db.jobs[j].depth < db.runs[r].maxRepairs
                then |d.jobs| == |db.jobs| + 1 && d.runs[r].status.Running?
                     && d.jobs[|db.jobs|] == Job(r, Queued, db.jobs[j].model, Generate, db.jobs[j].settings,
                                                 db.jobs[j].maxAssignments, Some(a), db.jobs[j].depth + 1, None)
                else |d.jobs| == |db.jobs|)
  {
    if |d.jobs| > |db.jobs| {
      assert d.jobs[|db.jobs|] == mid.jobs[|db.jobs|];
      assert d.jobs[|db.jobs|] in d.jobs;
    }
  }

  lemma QueuedRow(d: Db, r: nat)
    requires QueuedIn(d.jobs, r)
    ensures HasQueued(d, r)
  {
    var job :| job in d.jobs && job.run == r && job.status.Queued?;
    var j :| 0 <= j < |d.jobs| && d.jobs[j] == job;
  }

  // ---------------------------------------------------------- errors of runs

  /** Some attempt of the run has a verifier error for its verdict. */
  ghost predicate VerifierFailed(db: Db, r: nat) {
    exists a: nat :: a < |db.leases| && db.leases[a].job < |db.jobs|
      && db.jobs[db.leases[a].job].run == r && db.leases[a].Verdict() == Some(VerifierError)
  }

  /** No run of d is errored that was not errored in db. */
  ghost predicate NoNewError(db: Db, d: Db) {
    forall r | 0 <= r < |d.runs| && d.runs[r].status.Errored? :: r < |db.runs| && db.runs[r].status.Errored?
  }

  lemma SweepNoError(db: Db, now: int)
    requires Linked(db)
    ensures NoNewError(db, Expire(db, now))
  {
    ExpireUpToShape(db, |db.leases|, now);
  }

  lemma ClaimNoError(db: Db, cap: Capabilities, token: nat, now: int, term: int)
    requires Linked(db)
    ensures NoNewError(db, Claim(db, cap, token, now, term))
  {
    SweepNoError(db, now);
  }

  lemma DeliverNoError(db: Db, a: nat, token: nat, raw: Payload, now: int)
    requires Linked(db)
    ensures NoNewError(db, Deliver(db, a, token, raw, now).0)
  {
    DeliverCases(db, a, token, raw, now);
    if Deliver(db, a, token, raw, now).0 != db {
      FirstResultShape(db, a, Canonical(raw));
    }
  }

  lemma StopNoError(db: Db, g: nat)
    requires Linked(db)
    ensures NoNewError(db, StopGroup(db, g))
  {
  }

  lemma DispatchNoError(db: Db, g: nat, o: Order, now: int)
    requires Linked(db)
    ensures NoNewError(db, Dispatch(db, g, o, now))
  {
    DispatchCases(db, g, o, now);
    if !Buys(db, g, o, now) && Dispatch(db, g, o, now) != db {
      StopNoError(db, g);
    }
  }

  lemma StopUncheckedNoError(db: Db, a: nat)
    requires Linked(db)
    ensures NoNewError(db, StopUnchecked(db, a))
  {
    if Open(db, a) && db.jobs[db.leases[a].job].link.Some? {
      StopNoError(Unchecked(db, a), db.jobs[db.leases[a].job].link.value.group);
    }
  }

  lemma SmallNoError(db: Db, e: Event)
    requires Linked(db)
    requires e.ESubmit? || e.EEnqueueTask? || e.EHeartbeat? || e.ECreateGroup? || e.EStartLoop? || e.EAddTask? || e.ESetTaskStatus?
    ensures NoNewError(db, Step(db, e))
  {
  }

  lemma EnqueueNoError(db: Db, t: nat, cost: nat, model: string, kind: Kind)
    requires Linked(db)
    ensures NoNewError(db, EnqueueGroupJob(db, t, cost, model, kind).0)
  {
  }

  /** Nothing but a verdict makes a run errored. */
  lemma OnlyVerdictsErr(db: Db, e: Event)
    requires Linked(db) && !e.EJudge?
    ensures NoNewError(db, Step(db, e))
  {
    match e
    case EExpire(now) =>
      ExpireStep(db, now);
      SweepNoError(db, now);
    case EClaim(cap, token, now, term) =>
      ClaimStep(db, cap, token, now, term);
      ClaimNoError(db, cap, token, now, term);
    case EDeliver(a, token, p, now) =>
      DeliverStep(db, a, token, p, now);
      DeliverNoError(db, a, token, p, now);
    case EEnqueueGroupJob(t, cost, model, kind) =>
      EnqueueGroupJobStep(db, t, cost, model, kind);
      EnqueueNoError(db, t, cost, model, kind);
    case EDispatch(g, o, now) =>
      DispatchStep(db, g, o, now);
      DispatchNoError(db, g, o, now);
    case EStop(g) =>
      StopStep(db, g);
      StopNoError(db, g);
    case EStopUnchecked(a) =>
      StopUncheckedStep(db, a);
      StopUncheckedNoError(db, a);
    case _ => SmallNoError(db, e);
  }

  lemma VerdictErrs(db: Db, a: nat, v: Verdict, r: nat)
    requires Linked(db) && r < |Judge(db, a, v).runs| && Judge(db, a, v).runs[r].status.Errored?
    ensures r < |db.runs|
    ensures db.runs[r].status.Errored? || (Open(db, a) && v.VerifierError? && VerifierFailed(Judge(db, a, v), r))
  {
    if Open(db, a) {
      VerdictRows(db, a, v);
      var d := Judge(db, a, v);
      assert d.leases[a].Verdict() == Some(v) && d.jobs[d.leases[a].job].run == db.jobs[db.leases[a].job].run;
    }
  }

  lemma FailureStays(db: Db, d: Db, r: nat)
    requires Linked(db) && Grows(db, d) && VerifierFailed(db, r)
    ensures VerifierFailed(d, r)
  {
    var a: nat :| a < |db.leases| && db.leases[a].job < |db.jobs|
      && db.jobs[db.leases[a].job].run == r && db.leases[a].Verdict() == Some(VerifierError);
    assert LeaseGrows(db.leases[a], d.leases[a]) && JobGrows(db.jobs[db.leases[a].job], d.jobs[db.leases[a].job]);
  }

  /** A run is errored only if the verifier failed on some attempt of it, in every history. */
  lemma {:induction false} ErrorsHaveCause(events: seq<Event>, r: nat)
    requires r < |After(events).runs| && After(events).runs[r].status.Errored?
    ensures VerifierFailed(After(events), r)
  {
    var front, e := events[..|events| - 1], events[|events| - 1];
    var db := After(front);
    AlwaysInv(front);
    StepGrows(db, e);
    if e.EJudge? {
      JudgeStep(db, e.lease, e.verdict);
      VerdictErrs(db, e.lease, e.verdict, r);
    } else {
      OnlyVerdictsErr(db, e);
    }
    if r < |db.runs| && db.runs[r].status.Errored? {
      ErrorsHaveCause(front, r);
      FailureStays(db, After(events), r);
    }
  }

  // ---------------------------------------------------------------- results

  /** Where a job goes that has to be tried again: nowhere in a stopped group, back into the queue while
      assignments are left, and otherwise it has failed. */
  ghost function TriedAgain(db: Db, leases: seq<Lease>, j: nat): JobStatus
    requires Linked(db) && j < |db.jobs|
  {
    if StoppedGroup(db, db.jobs[j]) then Cancelled
    else if |Charged(leases, j)| < db.jobs[j].maxAssignments then Queued
    else JobStatus.Failed
  }

  lemma RetryRule(db: Db, j: nat)
    requires Linked(db) && j < |db.jobs|
    ensures RetryStatus(db, j) == TriedAgain(db, db.leases, j)
  {
    ChargedCount(db.leases, j);
  }

  /** The rows that a first result writes before runs are refreshed. */
  ghost predicate ResultWritten(db: Db, mid: Db, a: nat, raw: Payload)
    requires Linked(db) && a < |db.leases|
  {
    var lease, j := db.leases[a], db.leases[a].job;
    var proof := raw.Finished? && db.jobs[j].kind.Generate?;
    && mid.runs == db.runs && mid.groups == db.groups && mid.tasks == db.tasks
    && |mid.leases| == |db.leases| && |mid.jobs| == |db.jobs|
    && mid.leases == db.leases[a := mid.leases[a]] && mid.jobs == db.jobs[j := db.jobs[j].(status := mid.jobs[j].status)]
    && mid.leases[a].job == j && mid.leases[a].token == lease.token && mid.leases[a].expires == lease.expires
    && mid.leases[a].result == Some(if raw == Failure(None) then Failure(Some(Transient)) else raw)
    && (raw.Refusal? ==> mid.leases[a].status.Rejected?) && (!raw.Refusal? ==> mid.leases[a].status.Completed?)
    && (if proof then !raw.output.Malformed? && mid.leases[a].attempt == Some(Attempt(raw.output.text, None))
        else mid.leases[a].attempt == lease.attempt)
    && (proof ==> mid.jobs[j].status.Verifying?)
    && (raw.Finished? && !proof ==> mid.jobs[j].status.Done?)
    && (raw == Failure(Some(Permanent)) ==> mid.jobs[j].status.Failed?)
    && ((raw.Failure? && raw != Failure(Some(Permanent))) || raw.Refusal? ==> mid.jobs[j].status == TriedAgain(db, mid.leases, j))
  }

  lemma ResultRows(db: Db, a: nat, raw: Payload)
    requires Linked(db) && a < |db.leases|
    requires raw.Finished? && db.jobs[db.leases[a].job].kind.Generate? ==> !raw.output.Malformed?
    ensures ResultWritten(db, FirstResult(db, a, Canonical(raw)), a, raw)
  {
    var lease, j := db.leases[a], db.leases[a].job;
    var p := Canonical(raw);
    if p.Failure? && p.severity != Some(Permanent) {
      RetryRule(SetLease(db, a, lease.(status := Completed, result := Some(p))), j);
    }
    if p.Refusal? {
      RetryRule(SetLease(db, a, lease.(status := Rejected, result := Some(p))), j);
    }
  }

  ghost predicate Malformed(job: Job, raw: Payload) {
    && raw.Finished?
    && match job.kind
       case Generate => raw.output.Malformed?
       case Respond(task) =>
         !raw.output.Typed? || raw.output.task != task || Utf8Bytes(raw.output.text) > 8192
         || forall c | c in raw.output.text :: WhiteSpace(c) || 0x1C <= c as int <= 0x1F
  }

  lemma MalformedRule(job: Job, raw: Payload)
    ensures Malformed(job, raw) <==> raw.Finished? && !ValidOutput(job.kind, raw.output)
  {
    if raw.Finished? && raw.output.Typed? {
      var text := raw.output.text;
      if Blank(text) {
        forall c | c in text ensures Stripped(c) {
        }
      }
      if forall c | c in text :: Stripped(c) {
        forall i | 0 <= i < |text| ensures Stripped(text[i]) {
          assert text[i] in text;
        }
      }
    }
  }

  /** Every delivery, in every reachable state: which of the five answers it gets, and that only a first
      result of a live lease changes anything, by the rows above. */
  lemma ResultRule(events: seq<Event>, a: nat, token: nat, raw: Payload, now: int) returns (mid: Db)
    ensures var db := After(events); var (d, reply) := Deliver(db, a, token, raw, now);
            if a >= |db.leases| || db.leases[a].token != token then d == db && reply.Conflict?
            else if Malformed(db.jobs[db.leases[a].job], raw) then d == db && reply.Invalid?
            else if db.leases[a].result.Some? then
              d == db && (reply.Accepted? <==> db.leases[a].result == Some(if raw == Failure(None) then Failure(Some(Transient)) else raw))
                      && (!reply.Accepted? ==> reply.Conflict?)
            else if !db.leases[a].status.Active? || db.leases[a].expires <= now then d == db && reply.Conflict?
            else reply.Accepted? && Linked(mid) && ResultWritten(db, mid, a, raw) && Refreshed(mid, d)
  {
    var db := After(events);
    mid := db;
    if a < |db.leases| {
      MalformedRule(db.jobs[db.leases[a].job], raw);
      if Deliver(db, a, token, raw, now).0 != db || (db.leases[a].result.None? && Deliver(db, a, token, raw, now).1.Accepted?) {
        mid := FirstResult(db, a, Canonical(raw));
        ResultRows(db, a, raw);
        RefreshRule(mid);
      }
    }
  }

  // ------------------------------------------------------- claims and sweeps

  /** Does job i have an overdue lease among the first k? */
  ghost predicate Swung(db: Db, k: nat, now: int, i: nat)
    requires k <= |db.leases|
  {
    exists b: nat :: b < k && db.leases[b].job == i && db.leases[b].status.Active? && db.leases[b].expires <= now
  }

  ghost predicate SameBudgets(before: seq<Lease>, after: seq<Lease>) {
    forall i: nat :: Count(after, i, Budgeted) == Count(before, i, Budgeted)
  }

  /** Expiry does not give an assignment back. */
  lemma ExpiredBudgets(leases: seq<Lease>, k: nat)
    requires k < |leases| && leases[k].status.Active?
    ensures SameBudgets(leases, leases[k := leases[k].(status := Expired)])
  {
    forall i: nat
      ensures Count(leases[k := leases[k].(status := Expired)], i, Budgeted) == Count(leases, i, Budgeted)
    {
      CountSet(leases, k, leases[k].(status := Expired), i, Budgeted);
    }
  }

  ghost predicate SweptJobs(db: Db, d: Db, k: nat, now: int)
    requires Linked(db)
  {
    && Linked(d) && SweptUpTo(db, d, k, now)
    && SameBudgets(db.leases, d.leases)
    && (forall i | 0 <= i < |db.jobs| ::
          d.jobs[i] == if Swung(db, k, now, i) then db.jobs[i].(status := RetryStatus(db, i)) else db.jobs[i])
  }

  lemma SwungNext(db: Db, k: nat, now: int, i: nat)
    requires 0 < k <= |db.leases|
    ensures Swung(db, k, now, i)
       <==> Swung(db, k - 1, now, i) || (db.leases[k - 1].job == i && Overdue(db.leases[k - 1], now))
  {
  }

  /** What trying a job again depends on. */
  lemma RetrySame(db: Db, d: Db, j: nat, status: JobStatus)
    requires Linked(db) && Linked(d) && j < |db.jobs| == |d.jobs| && d.groups == db.groups
    requires SameBudgets(db.leases, d.leases) && d.jobs[j] == db.jobs[j].(status := status)
    ensures RetryStatus(d, j) == RetryStatus(db, j)
  {
  }

  /** An overdue lease expires, its job is tried again, and the other jobs stay. */
  lemma ExpiredJobs(d: Db, a: nat, now: int)
    requires Linked(d) && a < |d.leases| && Overdue(d.leases[a], now)
    ensures var e := ExpireOne(d, a, now); var j := d.leases[a].job;
            e.jobs == d.jobs[j := d.jobs[j].(status := RetryStatus(d, j))] && SameBudgets(d.leases, e.leases)
  {
    var lease := d.leases[a].(status := Expired);
    ExpiredBudgets(d.leases, a);
    RetrySame(d, SetLease(d, a, lease), lease.job, d.jobs[lease.job].status);
  }

  lemma SweptJobsNext(db: Db, d: Db, e: Db, k: nat, now: int)
    requires Linked(db) && 0 < k <= |db.leases| && SweptJobs(db, d, k - 1, now) && e == ExpireOne(d, k - 1, now)
    ensures SweptJobs(db, e, k, now)
  {
    SweptNext(db, d, k - 1, now);
    var lease := db.leases[k - 1];
    assert d.leases[k - 1] == lease;
    if Overdue(lease, now) {
      ExpiredJobs(d, k - 1, now);
      RetrySame(db, d, lease.job, d.jobs[lease.job].status);
    }
    forall i | 0 <= i < |db.jobs|
      ensures e.jobs[i] == if Swung(db, k, now, i) then db.jobs[i].(status := RetryStatus(db, i)) else db.jobs[i]
    {
      SwungNext(db, k, now, i);
    }
  }

  lemma SweptNone(db: Db, now: int)
    requires Linked(db)
    ensures SweptJobs(db, db, 0, now)
  {
    assert forall i: nat :: !Swung(db, 0, now, i);
  }

  lemma {:induction false} SweepRows(db: Db, k: nat, now: int)
    requires Linked(db) && k <= |db.leases|
    ensures SweptJobs(db, ExpireUpTo(db, k, now), k, now)
  {
    if k == 0 {
      SweptNone(db, now);
    } else {
      SweepRows(db, k - 1, now);
      SweptJobsNext(db, ExpireUpTo(db, k - 1, now), ExpireUpTo(db, k, now), k, now);
    }
  }

  /** The rows that a sweep writes before runs are refreshed: overdue leases expire, and their jobs are
      tried again; the budget counts the expired lease too. */
  ghost predicate SweepWritten(db: Db, mid: Db, now: int)
    requires Linked(db)
  {
    && mid.runs == db.runs && mid.groups == db.groups && mid.tasks == db.tasks
    && |mid.leases| == |db.leases| && |mid.jobs| == |db.jobs|
    && (forall b | 0 <= b < |db.leases| ::
          mid.leases[b] == if db.leases[b].status.Active? && db.leases[b].expires <= now
                           then db.leases[b].(status := Expired) else db.leases[b])
    && (forall i | 0 <= i < |db.jobs| ::
          mid.jobs[i] == if Swung(db, |db.leases|, now, i) then db.jobs[i].(status := TriedAgain(db, db.leases, i)) else db.jobs[i])
  }

  /** The sweep refreshes only the runs whose leases it ends, and that settles all of them. */
  lemma SweepRule(events: seq<Event>, now: int) returns (mid: Db)
    ensures Linked(mid) && SweepWritten(After(events), mid, now) && Refreshed(mid, Expire(After(events), now))
  {
    var db := After(events);
    AlwaysInv(events);
    mid := ExpireUpTo(db, |db.leases|, now);
    SweepRows(db, |db.leases|, now);
    forall i | 0 <= i < |db.jobs| ensures RetryStatus(db, i) == TriedAgain(db, db.leases, i) {
      RetryRule(db, i);
    }
    SweepSettlesAll(db, now);
    RefreshRule(mid);
  }

  lemma SweepSettlesAll(db: Db, now: int)
    requires Inv(db)
    ensures Expire(db, now) == RefreshAll(ExpireUpTo(db, |db.leases|, now))
  {
    var mid := ExpireUpTo(db, |db.leases|, now);
    var d, all := Expire(db, now), RefreshAll(mid);
    ExpireUpToShape(db, |db.leases|, now);
    forall r: nat | r < |db.runs| && r !in OverdueRuns(db, now) ensures RunOk(mid, r) {
      assert RunOk(db, r);
      forall j | 0 <= j < |db.jobs| && db.jobs[j].run == r ensures mid.jobs[j] == db.jobs[j] {
        ExpireUpToElsewhere(db, |db.leases|, now, j);
      }
      UntouchedRun(db, mid, r);
    }
    RefreshTwice(mid, OverdueRuns(db, now));
  }

  /** Runs that are settled already need no refresh. */
  lemma RefreshTwice(mid: Db, scope: set<nat>)
    requires Linked(mid) && forall r: nat | r < |mid.runs| && r !in scope :: RunOk(mid, r)
    ensures Refresh(mid, scope) == RefreshAll(mid)
  {
    var d, all := Refresh(mid, scope), RefreshAll(mid);
    forall j | 0 <= j < |mid.jobs| ensures d.jobs[j] == all.jobs[j] {
      var r := mid.jobs[j].run;
      if r !in scope {
        assert RunOk(mid, r);
      }
    }
    assert d.jobs == all.jobs;
    forall r | 0 <= r < |mid.runs| ensures d.runs[r] == all.runs[r] {
      if r !in scope {
        assert RunOk(mid, r);
        RefreshOutside(mid, scope, r);
      }
    }
    assert d.runs == all.runs;
  }

  /** A worker may be given this job: it is queued in a running run and its group's loop has time left,
      and the worker offers its model, its sampling settings and its kind of task. */
  ghost predicate Offered(db: Db, j: nat, cap: Capabilities, now: int)
    requires Linked(db) && j < |db.jobs|
  {
    var job := db.jobs[j];
    && job.status.Queued? && db.runs[job.run].status.Running?
    && job.model in cap.models
    && (job.settings.temperature || job.settings.seed.Some? ==> cap.settings)
    && (job.kind.Respond? ==> cap.respond)
    && (job.link.Some? ==>
          var loop := db.groups[job.link.value.group].loop; !loop.Stopped? && (loop.Looping? ==> now < loop.deadline))
  }

  lemma OfferedRule(db: Db, j: nat, cap: Capabilities, now: int)
    requires Linked(db) && j < |db.jobs|
    ensures Offered(db, j, cap, now) <==> Claimable(db, j, cap, now)
  {
  }

  /** d is mid with job j leased: the oldest one that the worker may be given, if there is one. */
  ghost predicate Given(mid: Db, d: Db, cap: Capabilities, token: nat, now: int, term: int, j: Option<nat>)
    requires Linked(mid)
  {
    if j.None? then
      d == mid && (cap.unavailable || cap.models == {} || forall i | 0 <= i < |mid.jobs| :: !Offered(mid, i, cap, now))
    else
      && !cap.unavailable && j.value < |mid.jobs| && Offered(mid, j.value, cap, now)
      && (forall i | 0 <= i < j.value :: !Offered(mid, i, cap, now))
      && d == mid.(jobs := mid.jobs[j.value := mid.jobs[j.value].(status := Assigned)],
                   leases := mid.leases + [Lease(j.value, token, now + term, Active, None, None)])
  }

  lemma AssignRule(mid: Db, cap: Capabilities, token: nat, now: int, term: int) returns (j: Option<nat>)
    requires Linked(mid)
    ensures Given(mid, Assign(mid, cap, token, now, term), cap, token, now, term, j)
  {
    forall i | 0 <= i < |mid.jobs| ensures Offered(mid, i, cap, now) <==> Claimable(mid, i, cap, now) {
      OfferedRule(mid, i, cap, now);
    }
    j := if cap.unavailable || cap.models == {} then None else FirstClaimable(mid, 0, cap, now);
  }

  /** A claim sweeps, and then leases the oldest job that the worker may be given, and no other row
      changes; it leases nothing only to a worker that is unavailable, or offers no model, or may be
      given no job. */
  lemma ClaimRule(events: seq<Event>, cap: Capabilities, token: nat, now: int, term: int) returns (j: Option<nat>)
    ensures Given(Expire(After(events), now), Claim(After(events), cap, token, now, term), cap, token, now, term, j)
  {
    j := AssignRule(Expire(After(events), now), cap, token, now, term);
  }
}
