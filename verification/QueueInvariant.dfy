/**
 The lease queue invariant, and what a run's status means, after every transaction.
 */
module QueueInvariant {
  import opened Basics
  import opened Queue

  // -------------------------------------------------------------- counting

  lemma {:induction false} CountAppend(ls: seq<Lease>, l: Lease, j: nat, t: Tally)
    ensures Count(ls + [l], j, t) == Count(ls, j, t) + One(l.job == j && Counts(l, t))
  {
    assert (ls + [l])[..|ls|] == ls;
  }

  lemma {:induction false} CountSet(ls: seq<Lease>, a: nat, l: Lease, j: nat, t: Tally)
    requires a < |ls|
    ensures Count(ls[a := l], j, t)
         == Count(ls, j, t) - One(ls[a].job == j && Counts(ls[a], t)) + One(l.job == j && Counts(l, t))
  {
    var front := ls[..|ls| - 1];
    if a == |ls| - 1 {
      assert ls[a := l][..|ls| - 1] == front;
    } else {
      CountSet(front, a, l, j, t);
      assert ls[a := l][..|ls| - 1] == front[a := l];
    }
  }

  lemma {:induction false} CountMember(ls: seq<Lease>, a: nat, j: nat, t: Tally)
    requires a < |ls| && ls[a].job == j && Counts(ls[a], t)
    ensures Count(ls, j, t) >= 1
  {
    if a < |ls| - 1 {
      CountMember(ls[..|ls| - 1], a, j, t);
    }
  }

  lemma {:induction false} CountTwo(ls: seq<Lease>, a: nat, b: nat, j: nat, t: Tally)
    requires a < b < |ls| && ls[a].job == j && ls[b].job == j && Counts(ls[a], t) && Counts(ls[b], t)
    ensures Count(ls, j, t) >= 2
  {
    if b == |ls| - 1 {
      CountMember(ls[..|ls| - 1], a, j, t);
    } else {
      CountTwo(ls[..|ls| - 1], a, b, j, t);
    }
  }

  lemma {:induction false} CountNone(ls: seq<Lease>, j: nat, t: Tally)
    requires forall a | 0 <= a < |ls| :: ls[a].job != j
    ensures Count(ls, j, t) == 0
  {
    if ls != [] {
      CountNone(ls[..|ls| - 1], j, t);
    }
  }

  lemma {:induction false} CountWitness(ls: seq<Lease>, j: nat, t: Tally) returns (a: nat)
    requires Count(ls, j, t) > 0
    ensures a < |ls| && ls[a].job == j && Counts(ls[a], t)
  {
    var last := ls[|ls| - 1];
    if last.job == j && Counts(last, t) {
      a := |ls| - 1;
    } else {
      a := CountWitness(ls[..|ls| - 1], j, t);
    }
  }

  /** An undecided attempt is an attempt, and an attempt or a live lease is budgeted. */
  lemma {:induction false} CountOrder(ls: seq<Lease>, j: nat)
    requires forall a | 0 <= a < |ls| :: LeaseOk(ls[a])
    ensures Count(ls, j, Undecided) <= Count(ls, j, Attempted) <= Count(ls, j, Budgeted)
    ensures Count(ls, j, Attempted) + Count(ls, j, OnLease) <= Count(ls, j, Budgeted)
  {
    if ls != [] {
      assert LeaseOk(ls[|ls| - 1]);
      CountOrder(ls[..|ls| - 1], j);
    }
  }

  /** Budgeted assignments of all the jobs that satisfy who. */
  function Spent(ls: seq<Lease>, who: nat -> bool): nat {
    if ls == [] then 0
    else
      var last := ls[|ls| - 1];
      Spent(ls[..|ls| - 1], who) + One(who(last.job) && Counts(last, Budgeted))
  }

  function SpentOf(ls: seq<Lease>, who: nat -> bool): nat -> int {
    (j: nat) => if who(j) then Count(ls, j, Budgeted) else 0
  }

  lemma {:induction false} SpentByJob(ls: seq<Lease>, n: nat, who: nat -> bool)
    requires forall a | 0 <= a < |ls| :: ls[a].job < n
    ensures Spent(ls, who) == Sum(n, SpentOf(ls, who))
  {
    if ls == [] {
      forall j: nat ensures SpentOf(ls, who)(j) == 0 {
        assert Count(ls, j, Budgeted) == 0;
      }
      SumZero(n, SpentOf(ls, who));
    } else {
      var front := ls[..|ls| - 1];
      var last := ls[|ls| - 1];
      SpentByJob(front, n, who);
      forall j: nat ensures SpentOf(ls, who)(j) ==
        SpentOf(front, who)(j) + One(j == last.job && who(j) && Counts(last, Budgeted))
      {
        assert Count(ls, j, Budgeted) == Count(front, j, Budgeted) + One(last.job == j && Counts(last, Budgeted));
      }
      SumChange(n, last.job, SpentOf(front, who), SpentOf(ls, who));
    }
  }

  // ------------------------------------------------------------- invariant

  ghost predicate LeaseOk(l: Lease) {
    && (l.result.None? <==> l.status.Active? || l.status.Expired?)
    && (l.status.Rejected? <==> l.result.Some? && l.result.value.Refusal?)
    && (l.attempt.Some? ==> l.status.Completed?)
  }

  /** The lease queue invariant for job j. */
  ghost predicate JobOk(ls: seq<Lease>, job: Job, j: nat) {
    && Count(ls, j, OnLease) <= 1
    && (job.status.Assigned? <==> Count(ls, j, OnLease) == 1)
    && Count(ls, j, Budgeted) <= job.maxAssignments
    && (job.status.Queued? ==> Count(ls, j, Budgeted) < job.maxAssignments)
    && Count(ls, j, Attempted) <= 1
    && (Count(ls, j, Attempted) == 1 ==>
          job.kind.Generate? && (job.status.Verifying? || job.status.Done? || job.status.Cancelled?))
    && (job.status.Verifying? ==> Count(ls, j, Undecided) == 1)
    && (Count(ls, j, Undecided) == 1 ==> job.status.Verifying? || (job.status.Cancelled? && job.link.Some?))
  }

  /** A repair job answers one Lean rejection in its own run, one level deeper. */
  ghost predicate Lineage(db: Db, j: nat)
    requires Linked(db) && j < |db.jobs|
  {
    var job := db.jobs[j];
    && (job.depth == 0 <==> job.parent.None?)
    && job.depth <= db.runs[job.run].maxRepairs
    && (job.parent.Some? ==>
          var parent := db.leases[job.parent.value];
          && parent.Verdict() == Some(LeanRejected)
          && db.jobs[parent.job].run == job.run
          && db.jobs[parent.job].depth + 1 == job.depth
          && Inherits(db.jobs[parent.job], job))
  }

  /** A repair is generated like the job that it repairs, and outside any group. */
  ghost predicate Inherits(parent: Job, job: Job) {
    && job.model == parent.model && job.settings == parent.settings && job.maxAssignments == parent.maxAssignments
    && job.kind.Generate? && job.link.None?
  }

  ghost predicate OneChild(db: Db) {
    forall i, j | 0 <= i < j < |db.jobs| && db.jobs[i].parent.Some? :: db.jobs[i].parent != db.jobs[j].parent
  }

  ghost predicate HasProof(db: Db, r: nat)
    requires Linked(db)
  {
    exists a | 0 <= a < |db.leases| :: db.jobs[db.leases[a].job].run == r && db.leases[a].Verdict() == Some(Verified)
  }

  ghost predicate HasQueued(db: Db, r: nat) {
    exists j | 0 <= j < |db.jobs| :: db.jobs[j].run == r && db.jobs[j].status.Queued?
  }

  /** Holds inside a transaction too, before _refresh. */
  ghost predicate RunMid(db: Db, r: nat)
    requires Linked(db) && r < |db.runs|
  {
    && (db.runs[r].status.Exhausted? ==> !HasLive(db.jobs, r))
    && (db.runs[r].status.Solved? <==> HasProof(db, r))
    && db.runs[r].maxAssignments >= 1
  }

  /** What the status of run r means at a transaction boundary. */
  ghost predicate RunOk(db: Db, r: nat)
    requires Linked(db) && r < |db.runs|
  {
    && RunMid(db, r)
    && (db.runs[r].status.Running? ==> HasLive(db.jobs, r))
    && (Terminal(db.runs[r].status) ==> !HasQueued(db, r))
  }

  ghost predicate Core(db: Db) {
    && Linked(db)
    && (forall a {:trigger LeaseOk(db.leases[a])} | 0 <= a < |db.leases| :: LeaseOk(db.leases[a]))
    && (forall j {:trigger JobOk(db.leases, db.jobs[j], j)} | 0 <= j < |db.jobs| :: JobOk(db.leases, db.jobs[j], j))
    && (forall j | 0 <= j < |db.jobs| :: Lineage(db, j))
    && OneChild(db)
  }

  ghost predicate Mid(db: Db) {
    && Core(db)
    && (forall r | 0 <= r < |db.runs| :: RunMid(db, r))
  }

  ghost predicate Inv(db: Db) {
    && Core(db)
    && (forall r | 0 <= r < |db.runs| :: RunOk(db, r))
  }

  // --------------------------------------------------------------- refresh

  /** A run outside the scope must already be settled. */
  lemma RefreshSettles(db: Db, scope: set<nat>)
    requires Mid(db)
    requires forall r | 0 <= r < |db.runs| && r !in scope :: RunOk(db, r)
    ensures Inv(Refresh(db, scope))
  {
    var d := Refresh(db, scope);
    forall j | 0 <= j < |d.jobs| ensures JobOk(d.leases, d.jobs[j], j) && Lineage(d, j) {
      assert JobOk(db.leases, db.jobs[j], j) && Lineage(db, j);
      CountOrder(db.leases, j);
    }
    assert OneChild(d);
    forall r | 0 <= r < |d.runs| ensures RunOk(d, r) {
      assert RunMid(db, r);
      RefreshRun(db, scope, r);
    }
  }

  lemma RefreshRun(db: Db, scope: set<nat>, r: nat)
    requires Linked(db) && r < |db.runs| && RunMid(db, r)
    requires r !in scope ==> RunOk(db, r)
    ensures RunOk(Refresh(db, scope), r)
  {
    var d := Refresh(db, scope);
    RefreshProofs(db, scope, r);
    if HasLive(d.jobs, r) {
      var j :| 0 <= j < |d.jobs| && d.jobs[j].run == r && d.jobs[j].Live();
      assert db.jobs[j].run == r && db.jobs[j].Live();
    }
    if r !in scope {
      RefreshOutside(db, scope, r);
    }
  }

  lemma RefreshProofs(db: Db, scope: set<nat>, r: nat)
    requires Linked(db)
    ensures HasProof(Refresh(db, scope), r) <==> HasProof(db, r)
  {
    var d := Refresh(db, scope);
    assert forall a | 0 <= a < |db.leases| :: d.jobs[d.leases[a].job].run == db.jobs[db.leases[a].job].run;
  }

  lemma RefreshOutside(db: Db, scope: set<nat>, r: nat)
    requires Linked(db) && r !in scope
    ensures HasLive(Refresh(db, scope).jobs, r) <==> HasLive(db.jobs, r)
    ensures HasQueued(Refresh(db, scope), r) <==> HasQueued(db, r)
  {
    var d := Refresh(db, scope);
    forall j | 0 <= j < |db.jobs| && db.jobs[j].run == r ensures d.jobs[j] == db.jobs[j] {
    }
    if HasLive(db.jobs, r) {
      var j :| 0 <= j < |db.jobs| && db.jobs[j].run == r && db.jobs[j].Live();
      assert d.jobs[j].Live();
    }
    if HasQueued(db, r) {
      var j :| 0 <= j < |db.jobs| && db.jobs[j].run == r && db.jobs[j].status.Queued?;
      assert d.jobs[j].status.Queued?;
    }
  }

  // ----------------------------------------------------- one job's progress

  /** d differs from db in job j's status, in its assignments, and in nothing that was decided. */
  ghost predicate OneJob(db: Db, d: Db, j: nat) {
    && Linked(db) && Linked(d) && j < |db.jobs|
    && d.runs == db.runs && d.groups == db.groups
    && |d.jobs| == |db.jobs| && |d.leases| >= |db.leases|
    && d.jobs == db.jobs[j := db.jobs[j].(status := d.jobs[j].status)]
    && (d.jobs[j].Live() ==> db.jobs[j].Live())
    && (forall a | 0 <= a < |db.leases| :: d.leases[a].job == db.leases[a].job && d.leases[a].Verdict() == db.leases[a].Verdict())
    && (forall a | |db.leases| <= a < |d.leases| :: d.leases[a].Verdict() == None)
    && (forall i: nat, t: Tally | i != j :: Count(d.leases, i, t) == Count(db.leases, i, t))
  }

  lemma OneJobKeeps(db: Db, d: Db, j: nat)
    requires Mid(db) && OneJob(db, d, j)
    requires forall a | 0 <= a < |d.leases| :: LeaseOk(d.leases[a])
    requires JobOk(d.leases, d.jobs[j], j)
    ensures Mid(d)
  {
    forall i | 0 <= i < |d.jobs| ensures JobOk(d.leases, d.jobs[i], i) {
      if i != j {
        assert JobOk(db.leases, db.jobs[i], i);
        SameCounts(db, d, j, i);
      }
    }
    forall i | 0 <= i < |d.jobs| ensures Lineage(d, i) {
      assert Lineage(db, i);
    }
    assert OneChild(d);
    forall r | 0 <= r < |d.runs| ensures RunMid(d, r) {
      assert RunMid(db, r);
      OneJobRunMid(db, d, j, r);
    }
  }

  lemma OneJobRunMid(db: Db, d: Db, j: nat, r: nat)
    requires OneJob(db, d, j) && r < |db.runs| && RunMid(db, r)
    ensures RunMid(d, r)
  {
    SameProofs(db, d, j, r);
    if HasLive(d.jobs, r) {
      var i :| 0 <= i < |d.jobs| && d.jobs[i].run == r && d.jobs[i].Live();
      assert db.jobs[i].run == r && db.jobs[i].Live();
    }
  }

  /** Runs that do not own job j stay settled. */
  lemma OneJobElsewhere(db: Db, d: Db, j: nat, r: nat)
    requires OneJob(db, d, j) && r < |db.runs| && r != db.jobs[j].run && RunOk(db, r)
    ensures RunOk(d, r)
  {
    OneJobRunMid(db, d, j, r);
    if HasLive(db.jobs, r) {
      var i :| 0 <= i < |db.jobs| && db.jobs[i].run == r && db.jobs[i].Live();
      assert d.jobs[i].run == r && d.jobs[i].Live();
    }
    if HasQueued(d, r) {
      var i :| 0 <= i < |d.jobs| && d.jobs[i].run == r && d.jobs[i].status.Queued?;
      assert db.jobs[i].run == r && db.jobs[i].status.Queued?;
    }
  }

  lemma InvIsMid(db: Db)
    requires Inv(db)
    ensures Mid(db)
  {
    forall r | 0 <= r < |db.runs| ensures RunMid(db, r) {
      assert RunOk(db, r);
    }
  }

  lemma SameCounts(db: Db, d: Db, j: nat, i: nat)
    requires OneJob(db, d, j) && i != j
    ensures Count(d.leases, i, OnLease) == Count(db.leases, i, OnLease)
    ensures Count(d.leases, i, Budgeted) == Count(db.leases, i, Budgeted)
    ensures Count(d.leases, i, Attempted) == Count(db.leases, i, Attempted)
    ensures Count(d.leases, i, Undecided) == Count(db.leases, i, Undecided)
  {
  }

  lemma SameProofs(db: Db, d: Db, j: nat, r: nat)
    requires OneJob(db, d, j)
    ensures HasProof(d, r) <==> HasProof(db, r)
  {
    if HasProof(db, r) {
      var a :| 0 <= a < |db.leases| && db.jobs[db.leases[a].job].run == r && db.leases[a].Verdict() == Some(Verified);
      assert d.jobs[d.leases[a].job].run == r && d.leases[a].Verdict() == Some(Verified);
    }
    if HasProof(d, r) {
      var a :| 0 <= a < |d.leases| && d.jobs[d.leases[a].job].run == r && d.leases[a].Verdict() == Some(Verified);
      assert db.jobs[db.leases[a].job].run == r && db.leases[a].Verdict() == Some(Verified);
    }
  }

  /** Rewriting one assignment of job j moves only job j's counts. */
  lemma RewriteLease(db: Db, a: nat, lease: Lease, status: JobStatus)
    requires Linked(db) && a < |db.leases| && lease.job == db.leases[a].job
    requires lease.Verdict() == db.leases[a].Verdict()
    requires db.jobs[lease.job].Live() || db.jobs[lease.job].(status := status) == db.jobs[lease.job]
    ensures OneJob(db, SetJob(SetLease(db, a, lease), lease.job, status), lease.job)
    ensures forall t: Tally :: Count(db.leases[a := lease], lease.job, t)
              == Count(db.leases, lease.job, t) - One(Counts(db.leases[a], t)) + One(Counts(lease, t))
  {
    forall i: nat, t: Tally
      ensures Count(db.leases[a := lease], i, t) == Count(db.leases, i, t)
                - One(db.leases[a].job == i && Counts(db.leases[a], t)) + One(lease.job == i && Counts(lease, t))
    {
      CountSet(db.leases, a, lease, i, t);
    }
  }

  // ----------------------------------------------------------------- expiry

  lemma ExpireOneMoves(db: Db, a: nat, now: int)
    requires Core(db) && a < |db.leases| && Overdue(db.leases[a], now)
    ensures var j := db.leases[a].job; var d := ExpireOne(db, a, now);
            OneJob(db, d, j) && JobOk(d.leases, d.jobs[j], j) && LeaseOk(d.leases[a])
            && d.leases == db.leases[a := d.leases[a]]
  {
    var lease := db.leases[a];
    var j := lease.job;
    var expired := lease.(status := Expired);
    assert LeaseOk(lease) && JobOk(db.leases, db.jobs[j], j);
    CountMember(db.leases, a, j, OnLease);
    CountOrder(db.leases, j);
    var d := ExpireOne(db, a, now);
    RewriteLease(db, a, expired, d.jobs[j].status);
    assert d == SetJob(SetLease(db, a, expired), j, d.jobs[j].status);
    assert Count(d.leases, j, Budgeted) == Count(db.leases, j, Budgeted);
    assert Count(d.leases, j, Attempted) == Count(db.leases, j, Attempted) == 0;
    assert Count(d.leases, j, Undecided) == Count(db.leases, j, Undecided) == 0;
  }

  lemma ExpireOneKeeps(db: Db, a: nat, now: int)
    requires Mid(db) && a < |db.leases|
    ensures Mid(ExpireOne(db, a, now))
  {
    if Overdue(db.leases[a], now) {
      var d := ExpireOne(db, a, now);
      ExpireOneMoves(db, a, now);
      forall i | 0 <= i < |d.leases| ensures LeaseOk(d.leases[i]) {
        assert LeaseOk(db.leases[i]);
      }
      OneJobKeeps(db, d, db.leases[a].job);
    }
  }

  ghost predicate SameShape(db: Db, d: Db) {
    && d.runs == db.runs && d.groups == db.groups && d.tasks == db.tasks
    && |d.jobs| == |db.jobs| && |d.leases| == |db.leases|
    && (forall j | 0 <= j < |db.jobs| :: d.jobs[j].run == db.jobs[j].run)
    && (forall a | 0 <= a < |db.leases| :: d.leases[a].job == db.leases[a].job)
  }

  function Swept(lease: Lease, now: int): Lease {
    if Overdue(lease, now) then lease.(status := Expired) else lease
  }

  lemma ExpireOneShape(db: Db, a: nat, now: int)
    requires Linked(db) && a < |db.leases|
    ensures SameShape(db, ExpireOne(db, a, now))
    ensures ExpireOne(db, a, now).leases == db.leases[a := Swept(db.leases[a], now)]
  {
  }

  /** What holds at the start of the sweep and is kept by every iteration holds after it. */
  lemma {:induction false} ExpireInduction(db: Db, k: nat, now: int, holds: (Db, nat) -> bool)
    requires Linked(db) && k <= |db.leases| && holds(db, 0)
    requires forall d: Db, a: nat {:trigger ExpireOne(d, a, now)} |
               Linked(d) && a < |d.leases| && a < |db.leases| && holds(d, a) :: holds(ExpireOne(d, a, now), a + 1)
    ensures holds(ExpireUpTo(db, k, now), k)
  {
    if k > 0 {
      ExpireInduction(db, k - 1, now, holds);
    }
  }

  ghost predicate SweptUpTo(db: Db, d: Db, k: nat, now: int) {
    && SameShape(db, d) && k <= |db.leases|
    && (forall a | k <= a < |db.leases| :: d.leases[a] == db.leases[a])
    && (forall a | 0 <= a < k :: d.leases[a] == Swept(db.leases[a], now))
  }

  lemma SweptNext(db: Db, d: Db, a: nat, now: int)
    requires Linked(db) && Linked(d) && a < |db.leases| && SweptUpTo(db, d, a, now)
    ensures SweptUpTo(db, ExpireOne(d, a, now), a + 1, now)
  {
    ExpireOneShape(d, a, now);
    ShapeTransitive(db, d, ExpireOne(d, a, now));
  }

  lemma ExpireUpToShape(db: Db, k: nat, now: int)
    requires Linked(db) && k <= |db.leases|
    ensures SweptUpTo(db, ExpireUpTo(db, k, now), k, now)
  {
    forall d: Db, a: nat | Linked(d) && a < |d.leases| && a < |db.leases| && SweptUpTo(db, d, a, now)
      ensures SweptUpTo(db, ExpireOne(d, a, now), a + 1, now)
    {
      SweptNext(db, d, a, now);
    }
    ExpireInduction(db, k, now, (d: Db, a: nat) => SweptUpTo(db, d, a, now));
  }

  lemma ShapeTransitive(db: Db, d: Db, e: Db)
    requires Linked(db) && Linked(d) && Linked(e) && SameShape(db, d) && SameShape(d, e)
    ensures SameShape(db, e)
  {
  }

  lemma ExpireUpToKeeps(db: Db, k: nat, now: int)
    requires Mid(db) && k <= |db.leases|
    ensures Mid(ExpireUpTo(db, k, now))
  {
    forall d: Db, a: nat | Linked(d) && a < |d.leases| && a < |db.leases| && Mid(d) ensures Mid(ExpireOne(d, a, now)) {
      ExpireOneKeeps(d, a, now);
    }
    ExpireInduction(db, k, now, (d: Db, a: nat) => Mid(d));
  }

  /** Jobs of a run without an overdue lease are not touched. */
  lemma ExpireUpToElsewhere(db: Db, k: nat, now: int, j: nat)
    requires Linked(db) && k <= |db.leases| && j < |db.jobs| && db.jobs[j].run !in OverdueRuns(db, now)
    ensures ExpireUpTo(db, k, now).jobs[j] == db.jobs[j]
  {
    forall d: Db, a: nat |
      Linked(d) && a < |d.leases| && a < |db.leases| && SweptUpTo(db, d, a, now) && d.jobs[j] == db.jobs[j]
      ensures SweptUpTo(db, ExpireOne(d, a, now), a + 1, now) && ExpireOne(d, a, now).jobs[j] == db.jobs[j]
    {
      SweptNext(db, d, a, now);
      NotOverdue(db, a, now, j);
      ExpireOneElsewhere(d, a, now, j);
    }
    ExpireInduction(db, k, now, (d: Db, a: nat) => SweptUpTo(db, d, a, now) && d.jobs[j] == db.jobs[j]);
  }

  lemma NotOverdue(db: Db, a: nat, now: int, j: nat)
    requires Linked(db) && a < |db.leases| && j < |db.jobs| && db.jobs[j].run !in OverdueRuns(db, now)
    ensures Overdue(db.leases[a], now) ==> db.leases[a].job != j
  {
    if Overdue(db.leases[a], now) {
      assert db.jobs[db.leases[a].job].run in OverdueRuns(db, now);
    }
  }

  lemma ExpireOneElsewhere(db: Db, a: nat, now: int, j: nat)
    requires Linked(db) && a < |db.leases| && j < |db.jobs|
    requires Overdue(db.leases[a], now) ==> db.leases[a].job != j
    ensures ExpireOne(db, a, now).jobs[j] == db.jobs[j]
  {
  }

  lemma UntouchedRun(db: Db, d: Db, r: nat)
    requires Linked(db) && Linked(d) && SameShape(db, d) && r < |db.runs| && RunOk(db, r)
    requires forall j | 0 <= j < |db.jobs| && db.jobs[j].run == r :: d.jobs[j] == db.jobs[j]
    requires forall a | 0 <= a < |db.leases| :: d.leases[a].Verdict() == db.leases[a].Verdict()
    ensures RunOk(d, r)
  {
    assert HasProof(d, r) <==> HasProof(db, r);
    if HasLive(db.jobs, r) {
      var i :| 0 <= i < |db.jobs| && db.jobs[i].run == r && db.jobs[i].Live();
      assert d.jobs[i].run == r && d.jobs[i].Live();
    }
    if HasLive(d.jobs, r) {
      var i :| 0 <= i < |d.jobs| && d.jobs[i].run == r && d.jobs[i].Live();
      assert db.jobs[i].run == r && db.jobs[i].Live();
    }
    if HasQueued(d, r) {
      var i :| 0 <= i < |d.jobs| && d.jobs[i].run == r && d.jobs[i].status.Queued?;
      assert db.jobs[i].run == r && db.jobs[i].status.Queued?;
    }
  }

  lemma ExpireKeeps(db: Db, now: int)
    requires Inv(db)
    ensures Inv(Expire(db, now))
  {
    InvIsMid(db);
    ExpireUpToKeeps(db, |db.leases|, now);
    ExpireUpToShape(db, |db.leases|, now);
    forall r | 0 <= r < |db.runs| && r !in OverdueRuns(db, now) ensures RunOk(ExpireUpTo(db, |db.leases|, now), r) {
      assert RunOk(db, r);
      forall j | 0 <= j < |db.jobs| && db.jobs[j].run == r
        ensures ExpireUpTo(db, |db.leases|, now).jobs[j] == db.jobs[j]
      {
        ExpireUpToElsewhere(db, |db.leases|, now, j);
      }
      UntouchedRun(db, ExpireUpTo(db, |db.leases|, now), r);
    }
    RefreshSettles(ExpireUpTo(db, |db.leases|, now), OverdueRuns(db, now));
  }

  /** No lease outlives its deadline past a sweep. */
  lemma ExpireSweeps(db: Db, now: int, a: nat)
    requires Linked(db) && a < |db.leases|
    ensures Expire(db, now).leases[a] == Swept(db.leases[a], now)
    ensures !Overdue(Expire(db, now).leases[a], now)
  {
    ExpireUpToShape(db, |db.leases|, now);
  }

  // ------------------------------------------------------- claim, heartbeat

  lemma GrantMoves(db: Db, j: nat, token: nat, expires: int)
    requires Core(db) && j < |db.jobs| && db.jobs[j].status.Queued?
    ensures var d := Grant(db, j, token, expires); OneJob(db, d, j) && JobOk(d.leases, d.jobs[j], j)
  {
    var d := Grant(db, j, token, expires);
    var lease := Lease(j, token, expires, Active, None, None);
    forall i: nat, t: Tally
      ensures Count(d.leases, i, t) == Count(db.leases, i, t) + One(i == j && Counts(lease, t))
    {
      CountAppend(db.leases, lease, i, t);
    }
    assert JobOk(db.leases, db.jobs[j], j);
    CountOrder(db.leases, j);
    assert Count(db.leases, j, OnLease) == 0;
  }

  lemma GrantKeeps(db: Db, j: nat, token: nat, expires: int)
    requires Inv(db) && j < |db.jobs| && db.jobs[j].status.Queued? && db.runs[db.jobs[j].run].status.Running?
    ensures Inv(Grant(db, j, token, expires))
  {
    var d := Grant(db, j, token, expires);
    InvIsMid(db);
    GrantMoves(db, j, token, expires);
    OneJobKeeps(db, d, j);
    forall r | 0 <= r < |d.runs| ensures RunOk(d, r) {
      assert RunOk(db, r) && RunMid(d, r);
      if r == db.jobs[j].run {
        assert d.jobs[j].run == r && d.jobs[j].Live();
      } else {
        OneJobElsewhere(db, d, j, r);
      }
    }
  }

  lemma AssignKeeps(db: Db, cap: Capabilities, token: nat, now: int, term: int)
    requires Inv(db)
    ensures Inv(Assign(db, cap, token, now, term))
  {
    var pick := FirstClaimable(db, 0, cap, now);
    if pick.Some? {
      GrantKeeps(db, pick.value, token, now + term);
    }
  }

  lemma ClaimKeeps(db: Db, cap: Capabilities, token: nat, now: int, term: int)
    requires Inv(db)
    ensures Inv(Claim(db, cap, token, now, term))
  {
    ExpireKeeps(db, now);
    AssignKeeps(Expire(db, now), cap, token, now, term);
  }

  lemma HeartbeatKeeps(db: Db, a: nat, token: nat, now: int, term: int)
    requires Inv(db)
    ensures Inv(Heartbeat(db, a, token, now, term).0)
  {
    var d := Heartbeat(db, a, token, now, term).0;
    if Heartbeat(db, a, token, now, term).1.Accepted? {
      var lease := db.leases[a].(expires := now + term);
      var j := lease.job;
      InvIsMid(db);
      RewriteLease(db, a, lease, db.jobs[j].status);
      assert d == SetJob(SetLease(db, a, lease), j, db.jobs[j].status);
      assert JobOk(db.leases, db.jobs[j], j) && LeaseOk(db.leases[a]);
      OneJobKeeps(db, d, j);
      forall r | 0 <= r < |d.runs| ensures RunOk(d, r) {
        assert RunOk(db, r) && RunMid(d, r) && d.jobs == db.jobs;
      }
    }
  }

  // ---------------------------------------------------------------- results

  /** A delivery that changes anything is a first valid result on a live lease. */
  lemma DeliverCases(db: Db, a: nat, token: nat, raw: Payload, now: int)
    requires Linked(db)
    ensures var d := Deliver(db, a, token, raw, now).0; var p := Canonical(raw);
            d == db || (&& a < |db.leases| && db.leases[a].status.Active? && db.leases[a].result.None?
                        && (p.Finished? ==> ValidOutput(db.jobs[db.leases[a].job].kind, p.output))
                        && d == RefreshAll(FirstResult(db, a, p)))
  {
  }

  /** What a first result does to its lease and its job. */
  ghost predicate Ended(db: Db, d: Db, a: nat, p: Payload)
    requires Linked(db) && a < |db.leases| && |d.leases| == |db.leases| && |d.jobs| == |db.jobs|
    requires d.leases[a].job == db.leases[a].job
    requires p.Finished? && db.jobs[db.leases[a].job].kind.Generate? ==> !p.output.Malformed?
  {
    var job := db.jobs[db.leases[a].job];
    var s := d.jobs[db.leases[a].job].status;
    && d == SetJob(SetLease(db, a, d.leases[a]), db.leases[a].job, s)
    && d.leases[a].result == Some(p)
    && d.leases[a].status == (if p.Refusal? then Rejected else Completed)
    && (if p.Finished? && job.kind.Generate?
        then s.Verifying? && d.leases[a].attempt == Some(Attempt(p.output.text, None))
        else d.leases[a].attempt == db.leases[a].attempt)
    && (p.Finished? && !job.kind.Generate? ==> s.Done?)
    && (!p.Finished? ==> s.Queued? || s.Failed? || s.Cancelled?)
    && (s.Queued? ==> Count(d.leases, db.leases[a].job, Budgeted) < job.maxAssignments)
  }

  lemma FirstResultShape(db: Db, a: nat, p: Payload)
    requires Linked(db) && a < |db.leases|
    requires p.Finished? && db.jobs[db.leases[a].job].kind.Generate? ==> !p.output.Malformed?
    ensures var d := FirstResult(db, a, p);
            && |d.leases| == |db.leases| && |d.jobs| == |db.jobs| && d.leases[a].job == db.leases[a].job
            && Ended(db, d, a, p)
  {
  }

  lemma EndedMoves(db: Db, d: Db, a: nat, p: Payload)
    requires Core(db) && Linked(d) && a < |db.leases| && db.leases[a].status.Active?
    requires |d.leases| == |db.leases| && |d.jobs| == |db.jobs| && d.leases[a].job == db.leases[a].job
    requires (p.Finished? && db.jobs[db.leases[a].job].kind.Generate? ==> !p.output.Malformed?) && Ended(db, d, a, p)
    ensures var j := db.leases[a].job;
            OneJob(db, d, j) && JobOk(d.leases, d.jobs[j], j) && LeaseOk(d.leases[a])
            && d.leases == db.leases[a := d.leases[a]]
  {
    var lease := db.leases[a];
    var j := lease.job;
    assert LeaseOk(lease) && JobOk(db.leases, db.jobs[j], j);
    CountMember(db.leases, a, j, OnLease);
    CountOrder(db.leases, j);
    RewriteLease(db, a, d.leases[a], d.jobs[j].status);
  }

  lemma FirstResultMoves(db: Db, a: nat, p: Payload)
    requires Core(db) && a < |db.leases| && db.leases[a].status.Active?
    requires p.Finished? && db.jobs[db.leases[a].job].kind.Generate? ==> !p.output.Malformed?
    ensures var j := db.leases[a].job; var d := FirstResult(db, a, p);
            OneJob(db, d, j) && JobOk(d.leases, d.jobs[j], j) && LeaseOk(d.leases[a])
            && d.leases == db.leases[a := d.leases[a]]
  {
    FirstResultShape(db, a, p);
    EndedMoves(db, FirstResult(db, a, p), a, p);
  }

  lemma FirstResultKeeps(db: Db, a: nat, p: Payload)
    requires Mid(db) && a < |db.leases| && db.leases[a].status.Active?
    requires p.Finished? && db.jobs[db.leases[a].job].kind.Generate? ==> !p.output.Malformed?
    ensures Mid(FirstResult(db, a, p))
  {
    FirstResultMoves(db, a, p);
    OneJobKeeps(db, FirstResult(db, a, p), db.leases[a].job);
  }

  lemma RefreshAllSettles(db: Db)
    requires Mid(db)
    ensures Inv(RefreshAll(db))
  {
    RefreshSettles(db, Below(|db.runs|));
  }

  lemma DeliverKeeps(db: Db, a: nat, token: nat, raw: Payload, now: int)
    requires Inv(db)
    ensures Inv(Deliver(db, a, token, raw, now).0)
  {
    DeliverCases(db, a, token, raw, now);
    if Deliver(db, a, token, raw, now).0 != db {
      InvIsMid(db);
      FirstResultKeeps(db, a, Canonical(raw));
      RefreshAllSettles(FirstResult(db, a, Canonical(raw)));
    }
  }
}
