/**
 README bounds: A initial jobs, R repairs and M assignment retries allow at most
 A(1+R) jobs and A(1+R)M budgeted assignments.
 */
module QueueBounds {
  import opened Basics
  import opened Queue
  import opened QueueInvariant
  import opened QueueHistory
  import opened QueueRecords
  import opened QueueGroups

  // ----------------------------------------------------------------- shares

  /** What job j leaves of its chain's allowance of 1 + R jobs: a chain's root brings 1 + R,
      every job uses one, and a live job may still use the repairs below it. */
  function Share(job: Job, repairs: nat): int {
    (if job.depth == 0 then 1 + repairs else 0) - 1 - (if job.Live() then repairs - job.depth else 0)
  }

  function Shares(jobs: seq<Job>, r: nat, repairs: nat): nat -> int {
    (j: nat) => if j < |jobs| && jobs[j].run == r then Share(jobs[j], repairs) else 0
  }

  ghost predicate Affordable(db: Db, r: nat)
    requires r < |db.runs|
  {
    Sum(|db.jobs|, Shares(db.jobs, r, db.runs[r].maxRepairs)) >= 0
  }

  /** Outside groups every job of a run has the run's own retry limit. */
  ghost predicate Uniform(db: Db, j: nat)
    requires Linked(db) && j < |db.jobs|
  {
    db.jobs[j].link.None? ==> db.jobs[j].maxAssignments == db.runs[db.jobs[j].run].maxAssignments
  }

  ghost predicate Bounded(db: Db) {
    && Linked(db)
    && (forall r {:trigger Affordable(db, r)} | 0 <= r < |db.runs| :: Affordable(db, r))
    && (forall j {:trigger Uniform(db, j)} | 0 <= j < |db.jobs| :: Uniform(db, j))
  }

  // ---------------------------------------------------------------- fading

  /** Jobs only change status, and none comes back to life. */
  ghost predicate Fades(db: Db, d: Db) {
    && |d.runs| == |db.runs| && |d.jobs| == |db.jobs|
    && (forall r {:trigger d.runs[r]} | 0 <= r < |db.runs| :: d.runs[r] == db.runs[r].(status := d.runs[r].status))
    && (forall j {:trigger d.jobs[j]} | 0 <= j < |db.jobs| ::
          d.jobs[j] == db.jobs[j].(status := d.jobs[j].status) && (d.jobs[j].Live() ==> db.jobs[j].Live()))
  }

  lemma FadesTransitive(db: Db, d: Db, e: Db)
    requires Fades(db, d) && Fades(d, e)
    ensures Fades(db, e)
  {
  }

  lemma FadesBounded(db: Db, d: Db)
    requires Bounded(db) && Linked(d) && Fades(db, d)
    requires forall j | 0 <= j < |db.jobs| :: db.jobs[j].depth <= db.runs[db.jobs[j].run].maxRepairs
    ensures Bounded(d)
  {
    forall r | 0 <= r < |d.runs| ensures Affordable(d, r) {
      assert Affordable(db, r) && d.runs[r].maxRepairs == db.runs[r].maxRepairs;
      SumMonotone(|db.jobs|, Shares(db.jobs, r, db.runs[r].maxRepairs), Shares(d.jobs, r, db.runs[r].maxRepairs));
    }
    forall j | 0 <= j < |d.jobs| ensures Uniform(d, j) {
      assert Uniform(db, j) && d.runs[d.jobs[j].run].maxAssignments == db.runs[d.jobs[j].run].maxAssignments;
    }
  }

  lemma DepthWithin(db: Db)
    requires Core(db)
    ensures forall j | 0 <= j < |db.jobs| :: db.jobs[j].depth <= db.runs[db.jobs[j].run].maxRepairs
  {
    forall j | 0 <= j < |db.jobs| ensures db.jobs[j].depth <= db.runs[db.jobs[j].run].maxRepairs {
      assert Lineage(db, j);
    }
  }

  lemma RefreshFades(db: Db, scope: set<nat>)
    requires Linked(db)
    ensures Fades(db, Refresh(db, scope))
  {
  }

  lemma ExpireOneFades(db: Db, a: nat, now: int)
    requires Core(db) && a < |db.leases|
    ensures Fades(db, ExpireOne(db, a, now))
  {
    if Overdue(db.leases[a], now) {
      ExpireOneMoves(db, a, now);
    }
  }

  lemma ExpireUpToFades(db: Db, k: nat, now: int)
    requires Mid(db) && k <= |db.leases|
    ensures Fades(db, ExpireUpTo(db, k, now))
  {
    forall d: Db, a: nat | Linked(d) && a < |d.leases| && a < |db.leases| && Mid(d) && Fades(db, d)
      ensures Mid(ExpireOne(d, a, now)) && Fades(db, ExpireOne(d, a, now))
    {
      ExpireOneKeeps(d, a, now);
      ExpireOneFades(d, a, now);
      FadesTransitive(db, d, ExpireOne(d, a, now));
    }
    ExpireInduction(db, k, now, (d: Db, a: nat) => Mid(d) && Fades(db, d));
  }

  lemma ExpireFades(db: Db, now: int)
    requires Inv(db)
    ensures Fades(db, Expire(db, now))
  {
    InvIsMid(db);
    ExpireUpToFades(db, |db.leases|, now);
    RefreshFades(ExpireUpTo(db, |db.leases|, now), OverdueRuns(db, now));
    FadesTransitive(db, ExpireUpTo(db, |db.leases|, now), Expire(db, now));
  }

  lemma AssignFades(db: Db, cap: Capabilities, token: nat, now: int, term: int)
    requires Linked(db)
    ensures Fades(db, Assign(db, cap, token, now, term))
  {
  }

  lemma ClaimFades(db: Db, cap: Capabilities, token: nat, now: int, term: int)
    requires Inv(db)
    ensures Fades(db, Claim(db, cap, token, now, term))
  {
    ExpireFades(db, now);
    AssignFades(Expire(db, now), cap, token, now, term);
    FadesTransitive(db, Expire(db, now), Claim(db, cap, token, now, term));
  }

  lemma DeliverFades(db: Db, a: nat, token: nat, raw: Payload, now: int)
    requires Inv(db)
    ensures Fades(db, Deliver(db, a, token, raw, now).0)
  {
    DeliverCases(db, a, token, raw, now);
    if Deliver(db, a, token, raw, now).0 != db {
      var d := FirstResult(db, a, Canonical(raw));
      FirstResultMoves(db, a, Canonical(raw));
      RefreshFades(d, Below(|d.runs|));
      FadesTransitive(db, d, RefreshAll(d));
    }
  }

  lemma StopGroupFades(db: Db, g: nat)
    requires Linked(db)
    ensures Fades(db, StopGroup(db, g))
  {
    if g < |db.groups| {
      var d := db.(groups := db.groups[g := StopLoop(db.groups[g])], jobs := CancelGroup(db.jobs, g), tasks := CloseTasks(db.tasks, g));
      assert Fades(db, d);
      RefreshFades(d, Below(|d.runs|));
      FadesTransitive(db, d, RefreshAll(d));
    }
  }

  lemma StopUncheckedFades(db: Db, a: nat)
    requires Linked(db)
    ensures Fades(db, StopUnchecked(db, a))
  {
    if Open(db, a) && db.jobs[db.leases[a].job].link.Some? {
      assert Fades(db, Unchecked(db, a));
      StopGroupFades(Unchecked(db, a), db.jobs[db.leases[a].job].link.value.group);
      FadesTransitive(db, Unchecked(db, a), StopUnchecked(db, a));
    }
  }

  // --------------------------------------------------------------- repairs

  lemma RecordFades(db: Db, a: nat, v: Verdict)
    requires Linked(db) && Open(db, a)
    ensures Fades(db, Record(db, a, v))
  {
  }

  /** The parent gives up exactly the repairs that its child takes over. */
  lemma RepairJobs(db: Db, a: nat, v: Verdict)
    requires Linked(db) && Open(db, a) && Repairs(db, a, v)
    ensures var d := Settle(db, a, v); var j := db.leases[a].job;
            && d.jobs == db.jobs[j := db.jobs[j].(status := Done)] + [RepairJob(db.jobs[j], a)]
            && d.runs == db.runs
  {
  }

  lemma RepairAffordable(db: Db, a: nat, v: Verdict, r: nat)
    requires Core(db) && Bounded(db) && Open(db, a) && Repairs(db, a, v) && r < |db.runs|
    requires db.jobs[db.leases[a].job].Live()
    ensures Settle(db, a, v).runs == db.runs && Affordable(Settle(db, a, v), r)
  {
    var j := db.leases[a].job;
    RepairJobs(db, a, v);
    assert Affordable(db, r) && Lineage(db, j);
    RepairShares(db.jobs, j, RepairJob(db.jobs[j], a), r, db.runs[r].maxRepairs);
  }

  /** A finished job passes its unspent share on to its repair. */
  lemma RepairShares(jobs: seq<Job>, j: nat, child: Job, r: nat, repairs: nat)
    requires j < |jobs| && jobs[j].Live() && jobs[j].depth + 1 == child.depth && child.run == jobs[j].run && child.Live()
    ensures var more := jobs[j := jobs[j].(status := Done)] + [child];
            Sum(|more|, Shares(more, r, repairs)) == Sum(|jobs|, Shares(jobs, r, repairs))
  {
    var more := jobs[j := jobs[j].(status := Done)] + [child];
    SumChange(|jobs|, j, Shares(jobs, r, repairs), Shares(more, r, repairs));
  }

  lemma SettleBounded(db: Db, a: nat, v: Verdict)
    requires Core(db) && Bounded(db) && Open(db, a)
    requires Repairs(db, a, v) ==> db.jobs[db.leases[a].job].Live() && db.jobs[db.leases[a].job].link.None?
    ensures Bounded(Settle(db, a, v))
  {
    RecordFades(db, a, v);
    DepthWithin(db);
    FadesBounded(db, Record(db, a, v));
    if Repairs(db, a, v) {
      var d := Settle(db, a, v);
      forall r | 0 <= r < |d.runs| ensures Affordable(d, r) {
        RepairAffordable(db, a, v, r);
      }
      forall j | 0 <= j < |d.jobs| ensures Uniform(d, j) {
        assert Uniform(Record(db, a, v), if j < |db.jobs| then j else db.leases[a].job);
      }
    }
  }

  lemma GroupRunsDoNotRepair(db: Db, j: nat)
    requires GroupInv(db) && j < |db.jobs| && db.jobs[j].link.Some?
    ensures db.runs[db.jobs[j].run].maxRepairs == 0
  {
    assert LinkOk(db, j) && OwnerOk(db, db.jobs[j].link.value.group);
  }

  /** Only a running, ungrouped run repairs, and then the judged job was being verified. */
  lemma RepairParent(db: Db, a: nat, v: Verdict)
    requires Inv(db) && GroupInv(db) && Open(db, a) && Repairs(db, a, v)
    ensures db.jobs[db.leases[a].job].Live() && db.jobs[db.leases[a].job].link.None?
  {
    var j := db.leases[a].job;
    assert JobOk(db.leases, db.jobs[j], j);
    CountMember(db.leases, a, j, Undecided);
    CountOrder(db.leases, j);
    if db.jobs[j].link.Some? {
      GroupRunsDoNotRepair(db, j);
    }
  }

  lemma JudgeBounded(db: Db, a: nat, v: Verdict)
    requires Inv(db) && GroupInv(db) && Bounded(db)
    ensures Bounded(Judge(db, a, v))
  {
    if Open(db, a) {
      if Repairs(db, a, v) {
        RepairParent(db, a, v);
      }
      InvIsMid(db);
      SettleBounded(db, a, v);
      SettleKeeps(db, a, v);
      var d := Settle(db, a, v);
      DepthWithin(d);
      RefreshFades(d, Below(|d.runs|));
      FadesBounded(d, RefreshAll(d));
    }
  }

  // -------------------------------------------------------------- insertion

  /** New jobs at depth 0 pay for themselves. */
  lemma RootsBounded(db: Db, d: Db, r: nat)
    requires Bounded(db) && Linked(d) && r < |d.runs| && |db.runs| <= |d.runs| && |db.jobs| <= |d.jobs|
    requires forall q | 0 <= q < |db.runs| :: d.runs[q].maxRepairs == db.runs[q].maxRepairs && d.runs[q].maxAssignments == db.runs[q].maxAssignments
    requires forall j | 0 <= j < |db.jobs| :: d.jobs[j] == db.jobs[j]
    requires forall j | |db.jobs| <= j < |d.jobs| ::
               d.jobs[j].depth == 0 && d.jobs[j].Live()
               && (d.jobs[j].link.None? ==> d.jobs[j].maxAssignments == d.runs[d.jobs[j].run].maxAssignments)
    ensures Bounded(d)
  {
    forall q | 0 <= q < |d.runs| ensures Affordable(d, q) {
      var shares := Shares(d.jobs, q, d.runs[q].maxRepairs);
      if q < |db.runs| {
        assert Affordable(db, q);
        SumExtend(|db.jobs|, |d.jobs|, Shares(db.jobs, q, db.runs[q].maxRepairs), shares);
      } else {
        SumZero(|d.jobs|, shares);
      }
    }
    forall j | 0 <= j < |d.jobs| ensures Uniform(d, j) {
      assert j < |db.jobs| ==> Uniform(db, j);
    }
  }

  lemma GroupJobBounded(db: Db, g: nat, t: nat, cost: nat, maxAssignments: nat, model: string, kind: Kind)
    requires Bounded(db) && g < |db.groups| && t < |db.tasks|
    ensures Bounded(InsertGroupJob(db, g, t, cost, maxAssignments, model, kind))
  {
    RootsBounded(db, InsertGroupJob(db, g, t, cost, maxAssignments, model, kind), GroupRun(db, g).groups[g].run.value);
  }

  lemma SameJobsBounded(db: Db, d: Db)
    requires Bounded(db) && Linked(d) && d.runs == db.runs && d.jobs == db.jobs
    ensures Bounded(d)
  {
    forall r | 0 <= r < |d.runs| ensures Affordable(d, r) {
      assert Affordable(db, r);
    }
    forall j | 0 <= j < |d.jobs| ensures Uniform(d, j) {
      assert Uniform(db, j);
    }
  }

  lemma EnqueueGroupJobBounded(db: Db, t: nat, cost: nat, model: string, kind: Kind)
    requires Bounded(db)
    ensures Bounded(EnqueueGroupJob(db, t, cost, model, kind).0)
  {
    if EnqueueGroupJob(db, t, cost, model, kind).1.Accepted? {
      var d := Spend(db, t, cost);
      SameJobsBounded(db, d);
      GroupJobBounded(d, db.tasks[t].group, t, cost, cost, model, kind);
    }
  }

  lemma DispatchBounded(db: Db, g: nat, o: Order, now: int)
    requires Core(db) && Bounded(db)
    ensures Bounded(Dispatch(db, g, o, now))
  {
    DispatchCases(db, g, o, now);
    if Buys(db, g, o, now) {
      SameJobsBounded(db, Charged(db, g, o, now));
      GroupJobBounded(Charged(db, g, o, now), g, |db.tasks|, 2 * o.unit, LeaseLimit(o), o.model, o.kind);
    } else if Dispatch(db, g, o, now) != db {
      DepthWithin(db);
      StopGroupFades(db, g);
      FadesBounded(db, StopGroup(db, g));
    }
  }

  lemma SubmitBounded(db: Db, groups: seq<InitialGroup>, maxRepairs: nat, maxAssignments: nat, s: Settings)
    requires Inv(db) && Bounded(db)
    ensures Bounded(Submit(db, groups, maxRepairs, maxAssignments, s).0)
  {
    if ValidSubmission(groups, maxRepairs, maxAssignments) {
      RootsBounded(db, Submit(db, groups, maxRepairs, maxAssignments, s).0, |db.runs|);
    }
  }

  lemma EnqueueTaskBounded(db: Db, r: nat, model: string, task: TaskType)
    requires Inv(db) && Bounded(db)
    ensures Bounded(EnqueueTask(db, r, model, task).0)
  {
    if EnqueueTask(db, r, model, task).1.Accepted? {
      RootsBounded(db, EnqueueTask(db, r, model, task).0, r);
    }
  }

  lemma AddingBounded(db: Db, e: Event)
    requires Inv(db) && GroupInv(db) && Bounded(db) && AddsJobs(e)
    ensures Bounded(Step(db, e))
  {
    match e
    case ESubmit(groups, maxRepairs, maxAssignments, s) =>
      SubmitStep(db, groups, maxRepairs, maxAssignments, s);
      SubmitBounded(db, groups, maxRepairs, maxAssignments, s);
    case EEnqueueTask(r, model, task) =>
      EnqueueTaskStep(db, r, model, task);
      EnqueueTaskBounded(db, r, model, task);
    case EJudge(a, v) =>
      JudgeStep(db, a, v);
      JudgeBounded(db, a, v);
    case EEnqueueGroupJob(t, cost, model, kind) =>
      EnqueueGroupJobStep(db, t, cost, model, kind);
      EnqueueGroupJobBounded(db, t, cost, model, kind);
    case EDispatch(g, o, now) =>
      DispatchStep(db, g, o, now);
      DispatchBounded(db, g, o, now);
  }

  lemma FadingStep(db: Db, e: Event)
    requires Inv(db) && !AddsJobs(e)
    ensures Fades(db, Step(db, e))
  {
    match e
    case EExpire(now) =>
      ExpireStep(db, now);
      ExpireFades(db, now);
    case EClaim(cap, token, now, term) =>
      ClaimStep(db, cap, token, now, term);
      ClaimFades(db, cap, token, now, term);
    case EDeliver(a, token, p, now) =>
      DeliverStep(db, a, token, p, now);
      DeliverFades(db, a, token, p, now);
    case EStop(g) =>
      StopStep(db, g);
      StopGroupFades(db, g);
    case EStopUnchecked(a) =>
      StopUncheckedStep(db, a);
      StopUncheckedFades(db, a);
    case _ =>
  }

  lemma StepBounded(db: Db, e: Event)
    requires Inv(db) && GroupInv(db) && Bounded(db)
    ensures Bounded(Step(db, e))
  {
    if AddsJobs(e) {
      AddingBounded(db, e);
    } else {
      FadingStep(db, e);
      DepthWithin(db);
      FadesBounded(db, Step(db, e));
    }
  }

  lemma {:induction false} AlwaysBounded(events: seq<Event>)
    ensures Bounded(After(events))
  {
    if events != [] {
      var front := events[..|events| - 1];
      AlwaysBounded(front);
      AlwaysInv(front);
      AlwaysGrouped(front);
      StepBounded(After(front), events[|events| - 1]);
    }
  }

  // ----------------------------------------------------------------- theorems

  function InRun(jobs: seq<Job>, r: nat): nat -> int {
    (j: nat) => One(j < |jobs| && jobs[j].run == r)
  }

  function RootIn(jobs: seq<Job>, r: nat): nat -> int {
    (j: nat) => One(j < |jobs| && jobs[j].run == r && jobs[j].depth == 0)
  }

  function JobsOf(db: Db, r: nat): int {
    Sum(|db.jobs|, InRun(db.jobs, r))
  }

  /** A, the chains of the run: its initial jobs and any tasks enqueued on it. */
  function Roots(db: Db, r: nat): int {
    Sum(|db.jobs|, RootIn(db.jobs, r))
  }

  /** Repairs that the live jobs of the run may still spawn. */
  function Pending(jobs: seq<Job>, r: nat, repairs: nat): nat -> int {
    (j: nat) => if j < |jobs| && jobs[j].run == r && jobs[j].Live() then repairs - jobs[j].depth else 0
  }

  lemma SharesSum(db: Db, r: nat, repairs: nat)
    ensures Sum(|db.jobs|, Shares(db.jobs, r, repairs))
         == (1 + repairs) * Roots(db, r) - JobsOf(db, r) - Sum(|db.jobs|, Pending(db.jobs, r, repairs))
  {
    SharesSumUpTo(db.jobs, |db.jobs|, r, repairs);
  }

  lemma {:induction false} SharesSumUpTo(jobs: seq<Job>, n: nat, r: nat, repairs: nat)
    requires n <= |jobs|
    ensures Sum(n, Shares(jobs, r, repairs))
         == (1 + repairs) * Sum(n, RootIn(jobs, r)) - Sum(n, InRun(jobs, r)) - Sum(n, Pending(jobs, r, repairs))
  {
    if n > 0 {
      SharesSumUpTo(jobs, n - 1, r, repairs);
      Distribute(1 + repairs, Sum(n - 1, RootIn(jobs, r)), RootIn(jobs, r)(n - 1));
    }
  }

  lemma Distribute(a: int, b: int, c: int)
    ensures a * (b + c) == a * b + a * c
    ensures a * 0 == 0 && a * 1 == a
  {
  }

  lemma JobsWithin(db: Db, r: nat)
    requires Core(db) && Bounded(db) && r < |db.runs|
    ensures JobsOf(db, r) + Sum(|db.jobs|, Pending(db.jobs, r, db.runs[r].maxRepairs)) <= (1 + db.runs[r].maxRepairs) * Roots(db, r)
    ensures Sum(|db.jobs|, Pending(db.jobs, r, db.runs[r].maxRepairs)) >= 0
  {
    assert Affordable(db, r);
    SharesSum(db, r, db.runs[r].maxRepairs);
    DepthWithin(db);
    SumNonNegative(|db.jobs|, Pending(db.jobs, r, db.runs[r].maxRepairs));
  }

  function JobsIn(jobs: seq<Job>, r: nat): nat -> bool {
    (j: nat) => j < |jobs| && jobs[j].run == r
  }

  lemma JobWithinLimit(db: Db, r: nat, j: nat)
    requires Core(db) && GroupInv(db) && Bounded(db) && r < |db.runs| && !OwnedByGroup(db, r)
    requires j < |db.jobs| && db.jobs[j].run == r
    ensures db.jobs[j].link.None? && Count(db.leases, j, Budgeted) <= db.runs[r].maxAssignments
  {
    assert JobOk(db.leases, db.jobs[j], j) && LinkOk(db, j) && Uniform(db, j);
  }

  lemma LeasesWithin(db: Db, r: nat)
    requires Core(db) && GroupInv(db) && Bounded(db) && r < |db.runs| && !OwnedByGroup(db, r)
    ensures Spent(db.leases, JobsIn(db.jobs, r)) <= db.runs[r].maxAssignments * JobsOf(db, r)
  {
    var who := JobsIn(db.jobs, r);
    var m := db.runs[r].maxAssignments;
    var caps := (j: nat) => m * InRun(db.jobs, r)(j);
    SpentByJob(db.leases, |db.jobs|, who);
    forall j: nat | j < |db.jobs| ensures SpentOf(db.leases, who)(j) <= caps(j) {
      if db.jobs[j].run == r {
        JobWithinLimit(db, r, j);
        assert InRun(db.jobs, r)(j) == 1 && m * 1 == m;
      } else {
        assert InRun(db.jobs, r)(j) == 0 && m * 0 == 0;
      }
    }
    SumMonotone(|db.jobs|, SpentOf(db.leases, who), caps);
    SumScale(|db.jobs|, m, InRun(db.jobs, r), caps);
  }

  /** With A submitted chains, R repairs and M assignment retries there are never more than
      A(1+R) jobs and A(1+R)M budgeted assignments. */
  predicate Meets(db: Db, r: nat, chains: nat, repairs: nat, retries: nat) {
    && r < |db.runs|
    && JobsOf(db, r) <= chains * (1 + repairs)
    && Spent(db.leases, JobsIn(db.jobs, r)) <= chains * (1 + repairs) * retries
  }

  /** At most A(1+R) jobs and A(1+R)M budgeted assignments, where A counts the run's chains. */
  lemma RunWithinBounds(db: Db, r: nat)
    requires Core(db) && GroupInv(db) && Bounded(db) && r < |db.runs| && !OwnedByGroup(db, r)
    ensures Roots(db, r) >= 0
    ensures Meets(db, r, Roots(db, r), db.runs[r].maxRepairs, db.runs[r].maxAssignments)
  {
    SumNonNegative(|db.jobs|, RootIn(db.jobs, r));
    JobsWithin(db, r);
    LeasesWithin(db, r);
    Scale(db.runs[r].maxAssignments, JobsOf(db, r), (1 + db.runs[r].maxRepairs) * Roots(db, r));
    Commute(Roots(db, r), 1 + db.runs[r].maxRepairs, db.runs[r].maxAssignments);
  }

  lemma Scale(m: nat, a: int, b: int)
    requires a <= b
    ensures m * a <= m * b
  {
  }

  lemma Commute(a: int, b: int, c: int)
    ensures b * a == a * b && c * (b * a) == a * b * c
  {
  }

  // ------------------------------------------------------- submitted runs

  lemma NewJobsElsewhere(db: Db, e: Event, r: nat, j: nat)
    requires Linked(db) && r < |db.runs| && !OwnedByGroup(db, r) && !(e.EEnqueueTask? && e.run == r)
    requires |db.jobs| <= j < |Step(db, e).jobs|
    ensures Step(db, e).jobs[j].run != r || Step(db, e).jobs[j].depth > 0
  {
    if !AddsJobs(e) {
      SameJobCount(db, e);
    } else if e.EJudge? {
      JudgeAdds(db, e.lease, e.verdict, j);
    } else if e.EDispatch? {
      DispatchRun(db, e.group, e.order, e.now, j);
    } else if e.EEnqueueGroupJob? {
      EnqueuedRun(db, e.taskId, e.cost, e.model, e.kind, j);
    }
  }

  /** A group job is put in the group's own run: the one it had, or a new one. */
  lemma GroupJobRun(db: Db, g: nat, t: nat, cost: nat, maxAssignments: nat, model: string, kind: Kind, j: nat)
    requires Linked(db) && g < |db.groups| && t < |db.tasks|
    requires |db.jobs| <= j < |InsertGroupJob(db, g, t, cost, maxAssignments, model, kind).jobs|
    ensures var r := InsertGroupJob(db, g, t, cost, maxAssignments, model, kind).jobs[j].run;
            r == |db.runs| || OwnedByGroup(db, r)
  {
  }

  lemma DispatchRun(db: Db, g: nat, o: Order, now: int, j: nat)
    requires Linked(db) && |db.jobs| <= j < |Dispatch(db, g, o, now).jobs|
    ensures var r := Dispatch(db, g, o, now).jobs[j].run; r == |db.runs| || OwnedByGroup(db, r)
  {
    DispatchCases(db, g, o, now);
    if Buys(db, g, o, now) {
      var d := Charged(db, g, o, now);
      GroupJobRun(d, g, |db.tasks|, 2 * o.unit, LeaseLimit(o), o.model, o.kind, j);
      SameOwners(db, d, Dispatch(db, g, o, now).jobs[j].run);
    }
  }

  lemma EnqueuedRun(db: Db, t: nat, cost: nat, model: string, kind: Kind, j: nat)
    requires Linked(db) && |db.jobs| <= j < |EnqueueGroupJob(db, t, cost, model, kind).0.jobs|
    ensures var r := EnqueueGroupJob(db, t, cost, model, kind).0.jobs[j].run; r == |db.runs| || OwnedByGroup(db, r)
  {
    if EnqueueGroupJob(db, t, cost, model, kind).1.Accepted? {
      var d := Spend(db, t, cost);
      GroupJobRun(d, db.tasks[t].group, t, cost, cost, model, kind, j);
      SameOwners(db, d, EnqueueGroupJob(db, t, cost, model, kind).0.jobs[j].run);
    }
  }

  lemma SameOwners(db: Db, d: Db, r: nat)
    requires |d.groups| == |db.groups| && forall g | 0 <= g < |db.groups| :: d.groups[g].run == db.groups[g].run
    ensures OwnedByGroup(d, r) <==> OwnedByGroup(db, r)
  {
    if OwnedByGroup(d, r) {
      var g :| 0 <= g < |d.groups| && d.groups[g].run == Some(r);
      assert db.groups[g].run == Some(r);
    }
    if OwnedByGroup(db, r) {
      var g :| 0 <= g < |db.groups| && db.groups[g].run == Some(r);
      assert d.groups[g].run == Some(r);
    }
  }

  /** A group only ever takes a run that it creates. */
  lemma StaysUngrouped(db: Db, e: Event, r: nat)
    requires Linked(db) && r < |db.runs| && !OwnedByGroup(db, r)
    ensures !OwnedByGroup(Step(db, e), r)
  {
    forall g | 0 <= g < |Step(db, e).groups| ensures Step(db, e).groups[g].run != Some(r) {
      GroupRunStays(db, e, g);
    }
  }

  lemma GroupRunStays(db: Db, e: Event, g: nat)
    requires Linked(db) && g < |Step(db, e).groups|
    ensures var run := Step(db, e).groups[g].run;
            run.None? || run.value >= |db.runs| || (g < |db.groups| && run == db.groups[g].run)
  {
    match e
    case EExpire(now) =>
      ExpireStep(db, now);
      ExpireUpToShape(db, |db.leases|, now);
    case EClaim(cap, token, now, term) =>
      ClaimStep(db, cap, token, now, term);
      ClaimGroupRows(db, cap, token, now, term);
    case EDeliver(a, token, raw, now) =>
      DeliverStep(db, a, token, raw, now);
      DeliverGroupRows(db, a, token, raw, now);
    case EDispatch(h, o, now) =>
      DispatchStep(db, h, o, now);
      DispatchGroupRows(db, h, o, now, g);
    case EEnqueueGroupJob(t, cost, model, kind) =>
      EnqueueGroupJobStep(db, t, cost, model, kind);
      EnqueueGroupRows(db, t, cost, model, kind, g);
    case EStop(h) =>
      StopStep(db, h);
      StopGroupRows(db, h, g);
    case EStopUnchecked(a) =>
      StopUncheckedStep(db, a);
      if Open(db, a) && db.jobs[db.leases[a].job].link.Some? {
        StopGroupRows(Unchecked(db, a), db.jobs[db.leases[a].job].link.value.group, g);
      }
    case EJudge(a, v) =>
      JudgeStep(db, a, v);
      JudgeGroupRows(db, a, v, g);
    case _ => SmallGroupRunStays(db, e, g);
  }

  lemma SmallGroupRunStays(db: Db, e: Event, g: nat)
    requires Linked(db) && g < |Step(db, e).groups|
    requires e.ESubmit? || e.EEnqueueTask? || e.EHeartbeat? || e.ECreateGroup? || e.EStartLoop? || e.EAddTask? || e.ESetTaskStatus?
    ensures Step(db, e).groups[g].run == if g < |db.groups| then db.groups[g].run else None
  {
  }

  lemma StopGroupRows(db: Db, h: nat, g: nat)
    requires Linked(db) && g < |StopGroup(db, h).groups|
    ensures g < |db.groups| && StopGroup(db, h).groups[g].run == db.groups[g].run
  {
  }

  lemma JudgeGroupRows(db: Db, a: nat, v: Verdict, g: nat)
    requires Linked(db) && g < |Judge(db, a, v).groups|
    ensures g < |db.groups| && Judge(db, a, v).groups[g].run == db.groups[g].run
  {
  }

  lemma ClaimGroupRows(db: Db, cap: Capabilities, token: nat, now: int, term: int)
    requires Linked(db)
    ensures Claim(db, cap, token, now, term).groups == db.groups
  {
    ExpireUpToShape(db, |db.leases|, now);
  }

  lemma DeliverGroupRows(db: Db, a: nat, token: nat, raw: Payload, now: int)
    requires Linked(db)
    ensures Deliver(db, a, token, raw, now).0.groups == db.groups
  {
    if Deliver(db, a, token, raw, now).0 != db {
      FirstResultShape(db, a, Canonical(raw));
    }
  }

  lemma DispatchGroupRows(db: Db, h: nat, o: Order, now: int, g: nat)
    requires Linked(db) && g < |Dispatch(db, h, o, now).groups|
    ensures var run := Dispatch(db, h, o, now).groups[g].run;
            run.None? || run.value >= |db.runs| || (g < |db.groups| && run == db.groups[g].run)
  {
    DispatchCases(db, h, o, now);
  }

  lemma EnqueueGroupRows(db: Db, t: nat, cost: nat, model: string, kind: Kind, g: nat)
    requires Linked(db) && g < |EnqueueGroupJob(db, t, cost, model, kind).0.groups|
    ensures var run := EnqueueGroupJob(db, t, cost, model, kind).0.groups[g].run;
            run.None? || run.value >= |db.runs| || (g < |db.groups| && run == db.groups[g].run)
  {
  }

  lemma RootsStay(db: Db, e: Event, r: nat)
    requires Inv(db) && r < |db.runs| && !OwnedByGroup(db, r) && !(e.EEnqueueTask? && e.run == r)
    ensures Roots(Step(db, e), r) == Roots(db, r)
  {
    var d := Step(db, e);
    StepGrows(db, e);
    forall j: nat | j < |db.jobs| ensures RootIn(d.jobs, r)(j) == RootIn(db.jobs, r)(j) {
      assert JobGrows(db.jobs[j], d.jobs[j]);
    }
    forall j: nat | |db.jobs| <= j < |d.jobs| ensures RootIn(d.jobs, r)(j) == 0 {
      NewJobsElsewhere(db, e, r, j);
    }
    SumExtend(|db.jobs|, |d.jobs|, RootIn(db.jobs, r), RootIn(d.jobs, r));
  }

  lemma SubmittedRoots(db: Db, groups: seq<InitialGroup>, maxRepairs: nat, maxAssignments: nat, s: Settings)
    requires Linked(db) && ValidSubmission(groups, maxRepairs, maxAssignments)
    ensures Roots(Submit(db, groups, maxRepairs, maxAssignments, s).0, |db.runs|) == InitialCount(groups)
  {
    var d := Submit(db, groups, maxRepairs, maxAssignments, s).0;
    SumOnes(|db.jobs|, |d.jobs|, RootIn(d.jobs, |db.runs|));
  }

  lemma {:induction false} SumOnes(n: nat, m: nat, f: nat -> int)
    requires n <= m
    requires forall i: nat | i < n :: f(i) == 0
    requires forall i: nat | n <= i < m :: f(i) == 1
    ensures Sum(m, f) == m - n
  {
    if m == n {
      SumZero(n, f);
    } else {
      SumOnes(n, m - 1, f);
    }
  }

  /** A submitted run to which no task is added keeps the chains it was submitted with. */
  lemma {:induction false} ChainsFixed(before: seq<Event>, e: Event, later: seq<Event>)
    requires e.ESubmit? && ValidSubmission(e.groups, e.maxRepairs, e.maxAssignments)
    requires forall k | 0 <= k < |later| :: !(later[k].EEnqueueTask? && later[k].run == |After(before).runs|)
    ensures var r := |After(before).runs|; var db := After(before + [e] + later);
            && r < |db.runs| && !OwnedByGroup(db, r)
            && db.runs[r].maxRepairs == e.maxRepairs && db.runs[r].maxAssignments == e.maxAssignments
            && Roots(db, r) == InitialCount(e.groups)
  {
    var r := |After(before).runs|;
    if later == [] {
      PlusNothing(before + [e]);
      AppendParts(before, e);
      SubmittedRoots(After(before), e.groups, e.maxRepairs, e.maxAssignments, e.settings);
    } else {
      var front := later[..|later| - 1];
      var db := After(before + [e] + front);
      ChainsFixed(before, e, front);
      AlwaysInv(before + [e] + front);
      AfterLater(before + [e], later);
      RootsStay(db, later[|later| - 1], r);
      StaysUngrouped(db, later[|later| - 1], r);
      StepGrows(db, later[|later| - 1]);
      assert RunGrows(db.runs[r], Step(db, later[|later| - 1]).runs[r]);
    }
  }

  /** The README bounds, at every moment of a submitted run to which no task is added. */
  lemma SubmissionBounds(before: seq<Event>, e: Event, later: seq<Event>)
    requires e.ESubmit? && ValidSubmission(e.groups, e.maxRepairs, e.maxAssignments)
    requires forall k | 0 <= k < |later| :: !(later[k].EEnqueueTask? && later[k].run == |After(before).runs|)
    ensures Meets(After(before + [e] + later), |After(before).runs|,
                  InitialCount(e.groups), e.maxRepairs, e.maxAssignments)
  {
    var events := before + [e] + later;
    ChainsFixed(before, e, later);
    UngroupedMeets(events, |After(before).runs|);
  }

  lemma UngroupedMeets(events: seq<Event>, r: nat)
    requires r < |After(events).runs| && !OwnedByGroup(After(events), r)
    ensures var db := After(events); Roots(db, r) >= 0 && Meets(db, r, Roots(db, r), db.runs[r].maxRepairs, db.runs[r].maxAssignments)
  {
    AlwaysInv(events);
    AlwaysGrouped(events);
    AlwaysBounded(events);
    RunWithinBounds(After(events), r);
  }
}
