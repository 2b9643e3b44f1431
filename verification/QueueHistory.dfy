/**
 Verdicts, insertions and stops keep the invariant, so it holds after every history.
 */
module QueueHistory {
  import opened Basics
  import opened Queue
  import opened QueueInvariant

  // ---------------------------------------------------------------- verdicts

  /** The only assignment rows that change are row a; its attempt gets a verdict. */
  lemma RecordCounts(db: Db, a: nat, v: Verdict, i: nat, t: Tally)
    requires Linked(db) && Open(db, a)
    ensures Count(Record(db, a, v).leases, i, t)
         == Count(db.leases, i, t) - One(t.Undecided? && i == db.leases[a].job)
  {
    CountSet(db.leases, a, Record(db, a, v).leases[a], i, t);
  }

  lemma RecordJob(db: Db, a: nat, v: Verdict, i: nat)
    requires Core(db) && Open(db, a)
    requires i < |db.jobs|
    ensures JobOk(Record(db, a, v).leases, Record(db, a, v).jobs[i], i)
  {
    RecordCounts(db, a, v, i, OnLease);
    RecordCounts(db, a, v, i, Budgeted);
    RecordCounts(db, a, v, i, Attempted);
    RecordCounts(db, a, v, i, Undecided);
    assert JobOk(db.leases, db.jobs[i], i);
    if i == db.leases[a].job {
      CountMember(db.leases, a, i, Attempted);
      CountMember(db.leases, a, i, Undecided);
      CountOrder(db.leases, i);
    }
  }

  lemma RecordCore(db: Db, a: nat, v: Verdict)
    requires Core(db) && Open(db, a)
    ensures Core(Record(db, a, v))
  {
    var d := Record(db, a, v);
    forall i | 0 <= i < |d.leases| ensures LeaseOk(d.leases[i]) {
      assert LeaseOk(db.leases[i]);
    }
    forall i | 0 <= i < |d.jobs| ensures JobOk(d.leases, d.jobs[i], i) {
      RecordJob(db, a, v, i);
    }
    RecordLineage(db, a, v);
  }

  lemma RecordLineage(db: Db, a: nat, v: Verdict)
    requires Core(db) && Open(db, a)
    ensures forall i | 0 <= i < |Record(db, a, v).jobs| :: Lineage(Record(db, a, v), i)
    ensures OneChild(Record(db, a, v))
  {
    var d := Record(db, a, v);
    forall i | 0 <= i < |d.jobs| ensures Lineage(d, i) {
      assert Lineage(db, i);
    }
  }

  /** A verdict adds its own proof to its own run, if it is one. */
  lemma RecordProof(db: Db, a: nat, v: Verdict, r: nat)
    requires Linked(db) && Open(db, a)
    ensures HasProof(Record(db, a, v), r) <==> HasProof(db, r) || (v.Verified? && r == db.jobs[db.leases[a].job].run)
  {
    var d := Record(db, a, v);
    if HasProof(db, r) {
      var b :| 0 <= b < |db.leases| && db.jobs[db.leases[b].job].run == r && db.leases[b].Verdict() == Some(Verified);
      assert d.jobs[d.leases[b].job].run == r && d.leases[b].Verdict() == Some(Verified);
    }
    if HasProof(d, r) && !HasProof(db, r) {
      var b :| 0 <= b < |d.leases| && d.jobs[d.leases[b].job].run == r && d.leases[b].Verdict() == Some(Verified);
      assert db.jobs[db.leases[b].job].run == r;
      assert b == a;
    }
    if v.Verified? && r == db.jobs[db.leases[a].job].run {
      assert d.jobs[d.leases[a].job].run == r && d.leases[a].Verdict() == Some(Verified);
    }
  }

  lemma RecordRun(db: Db, a: nat, v: Verdict, r: nat)
    requires Linked(db) && Open(db, a)
    requires r < |db.runs| && RunMid(db, r)
    ensures RunMid(Record(db, a, v), r)
  {
    var d := Record(db, a, v);
    RecordProof(db, a, v, r);
    if HasLive(d.jobs, r) {
      var j :| 0 <= j < |d.jobs| && d.jobs[j].run == r && d.jobs[j].Live();
      assert db.jobs[j].run == r && db.jobs[j].Live();
    }
  }

  lemma RecordKeeps(db: Db, a: nat, v: Verdict)
    requires Mid(db) && Open(db, a)
    ensures Mid(Record(db, a, v))
  {
    RecordCore(db, a, v);
    forall r | 0 <= r < |db.runs| ensures RunMid(Record(db, a, v), r) {
      assert RunMid(db, r);
      RecordRun(db, a, v, r);
    }
  }

  // -------------------------------------------------------------- insertion

  /** A job that a running run may be given. */
  ghost predicate Insertable(db: Db, job: Job)
    requires Linked(db)
  {
    && JobLinked(db, job) && job.status.Queued? && job.maxAssignments >= 1
    && (job.depth == 0 <==> job.parent.None?)
    && job.depth <= db.runs[job.run].maxRepairs
    && (job.parent.Some? ==>
          var parent := db.leases[job.parent.value];
          && parent.Verdict() == Some(LeanRejected)
          && db.jobs[parent.job].run == job.run
          && db.jobs[parent.job].depth + 1 == job.depth
          && Inherits(db.jobs[parent.job], job)
          && forall i | 0 <= i < |db.jobs| :: db.jobs[i].parent != job.parent)
  }

  lemma InsertLinked(db: Db, added: seq<Job>)
    requires Linked(db) && forall k | 0 <= k < |added| :: JobLinked(db, added[k])
    ensures Linked(db.(jobs := db.jobs + added))
  {
  }

  lemma InsertCore(db: Db, added: seq<Job>)
    requires Core(db)
    requires forall k | 0 <= k < |added| :: Insertable(db, added[k])
    requires forall k | 0 <= k < |added| :: added[k].parent.Some? ==> |added| == 1
    ensures Core(db.(jobs := db.jobs + added))
  {
    var d := db.(jobs := db.jobs + added);
    InsertLinked(db, added);
    forall j | 0 <= j < |d.jobs| ensures JobOk(d.leases, d.jobs[j], j) {
      if j < |db.jobs| {
        assert JobOk(db.leases, db.jobs[j], j);
      } else {
        assert Insertable(db, added[j - |db.jobs|]);
        CountNone(db.leases, j, OnLease);
        CountNone(db.leases, j, Budgeted);
        CountNone(db.leases, j, Attempted);
        CountNone(db.leases, j, Undecided);
      }
    }
    forall j | 0 <= j < |d.jobs| ensures Lineage(d, j) {
      if j < |db.jobs| {
        assert Lineage(db, j);
      } else {
        assert Insertable(db, added[j - |db.jobs|]);
      }
    }
    forall i, j | 0 <= i < j < |d.jobs| && d.jobs[i].parent.Some? ensures d.jobs[i].parent != d.jobs[j].parent {
      if j >= |db.jobs| {
        assert Insertable(db, added[j - |db.jobs|]);
      }
    }
  }

  lemma InsertRuns(db: Db, added: seq<Job>, r: nat, q: nat)
    requires Linked(db) && q < |db.runs| && r < |db.runs| && RunMid(db, q)
    requires forall k | 0 <= k < |added| :: JobLinked(db, added[k]) && added[k].run == r
    requires db.runs[r].status.Running?
    ensures Linked(db.(jobs := db.jobs + added)) && RunMid(db.(jobs := db.jobs + added), q)
    ensures q != r && RunOk(db, q) ==> RunOk(db.(jobs := db.jobs + added), q)
    ensures q == r && added != [] && added[0].Live() ==> RunOk(db.(jobs := db.jobs + added), q)
  {
    var d := db.(jobs := db.jobs + added);
    InsertLinked(db, added);
    assert forall a | 0 <= a < |db.leases| :: d.jobs[d.leases[a].job] == db.jobs[db.leases[a].job];
    assert HasProof(d, q) <==> HasProof(db, q);
    if q != r {
      if HasLive(db.jobs, q) {
        var j :| 0 <= j < |db.jobs| && db.jobs[j].run == q && db.jobs[j].Live();
        assert d.jobs[j] == db.jobs[j];
      }
      if HasLive(d.jobs, q) {
        var j :| 0 <= j < |d.jobs| && d.jobs[j].run == q && d.jobs[j].Live();
        assert j < |db.jobs|;
      }
      if HasQueued(d, q) {
        var j :| 0 <= j < |d.jobs| && d.jobs[j].run == q && d.jobs[j].status.Queued?;
        assert j < |db.jobs|;
      }
    } else if added != [] && added[0].Live() {
      assert d.jobs[|db.jobs|] == added[0];
    }
  }

  /** Queued jobs added to run r, running but possibly idle until now. */
  lemma InsertKeeps(db: Db, added: seq<Job>, r: nat)
    requires Mid(db) && r < |db.runs| && db.runs[r].status.Running?
    requires forall q | 0 <= q < |db.runs| && q != r :: RunOk(db, q)
    requires added != [] && forall k | 0 <= k < |added| :: added[k].run == r && added[k].parent.None? && Insertable(db, added[k])
    ensures Inv(db.(jobs := db.jobs + added))
  {
    var d := db.(jobs := db.jobs + added);
    InsertCore(db, added);
    forall q | 0 <= q < |d.runs| ensures RunOk(d, q) {
      assert RunMid(db, q);
      InsertRuns(db, added, r, q);
    }
  }

  lemma RepairInsertable(db: Db, a: nat, v: Verdict)
    requires Mid(db) && Open(db, a) && Repairs(db, a, v)
    ensures Insertable(Record(db, a, v), RepairJob(db.jobs[db.leases[a].job], a))
  {
    var d := Record(db, a, v);
    var j := db.leases[a].job;
    var child := RepairJob(db.jobs[j], a);
    assert JobOk(db.leases, db.jobs[j], j) && LeaseOk(db.leases[a]);
    CountMember(db.leases, a, j, Budgeted);
    forall i | 0 <= i < |d.jobs| ensures d.jobs[i].parent != child.parent {
      assert Lineage(db, i);
    }
  }

  lemma SettleKeeps(db: Db, a: nat, v: Verdict)
    requires Mid(db) && Open(db, a)
    ensures Mid(Settle(db, a, v))
  {
    var d := Record(db, a, v);
    RecordKeeps(db, a, v);
    if Repairs(db, a, v) {
      var child := RepairJob(db.jobs[db.leases[a].job], a);
      RepairInsertable(db, a, v);
      InsertCore(d, [child]);
      forall r | 0 <= r < |d.runs| ensures RunMid(d.(jobs := d.jobs + [child]), r) {
        assert RunMid(d, r);
        InsertRuns(d, [child], child.run, r);
      }
    }
  }

  lemma JudgeKeeps(db: Db, a: nat, v: Verdict)
    requires Inv(db)
    ensures Inv(Judge(db, a, v))
  {
    if Open(db, a) {
      InvIsMid(db);
      SettleKeeps(db, a, v);
      RefreshAllSettles(Settle(db, a, v));
    }
  }

  // --------------------------------------------------- runs, groups and tasks

  /** Nothing in the core invariant reads the groups and tasks, except that they exist. */
  lemma OtherTables(db: Db, d: Db)
    requires Inv(db) && Linked(d) && d.runs == db.runs && d.jobs == db.jobs && d.leases == db.leases
    ensures Inv(d)
  {
    forall j | 0 <= j < |d.jobs| ensures JobOk(d.leases, d.jobs[j], j) && Lineage(d, j) {
      assert JobOk(db.leases, db.jobs[j], j) && Lineage(db, j);
    }
    forall a | 0 <= a < |d.leases| ensures LeaseOk(d.leases[a]) {
      assert LeaseOk(db.leases[a]);
    }
    assert OneChild(d);
    forall r | 0 <= r < |d.runs| ensures RunOk(d, r) {
      assert RunOk(db, r);
      assert HasProof(d, r) <==> HasProof(db, r);
      assert HasQueued(d, r) <==> HasQueued(db, r);
    }
  }

  /** A new running run, or an exhausted one made to run again, until it is given a job. */
  ghost predicate Reopened(db: Db, d: Db, r: nat) {
    && Linked(db) && Linked(d) && d.jobs == db.jobs && d.leases == db.leases
    && r <= |db.runs| && |d.runs| == Max(|db.runs|, r + 1)
    && d.runs[r].status.Running? && d.runs[r].maxAssignments >= 1
    && (r < |db.runs| ==> db.runs[r].status.Running? || db.runs[r].status.Exhausted?)
    && (forall q | 0 <= q < |db.runs| :: d.runs[q].maxRepairs == db.runs[q].maxRepairs && (q != r ==> d.runs[q] == db.runs[q]))
  }

  lemma ReopenKeeps(db: Db, d: Db, r: nat)
    requires Inv(db) && Reopened(db, d, r)
    ensures Mid(d)
    ensures forall q | 0 <= q < |d.runs| && q != r :: RunOk(d, q)
  {
    forall j | 0 <= j < |d.jobs| ensures JobOk(d.leases, d.jobs[j], j) && Lineage(d, j) {
      assert JobOk(db.leases, db.jobs[j], j) && Lineage(db, j);
    }
    forall a | 0 <= a < |d.leases| ensures LeaseOk(d.leases[a]) {
      assert LeaseOk(db.leases[a]);
    }
    assert OneChild(d);
    forall q | 0 <= q < |d.runs| ensures RunMid(d, q) && (q != r ==> RunOk(d, q)) {
      assert HasProof(d, q) <==> HasProof(db, q);
      assert HasQueued(d, q) <==> HasQueued(db, q);
      if q < |db.runs| {
        assert RunOk(db, q);
      } else {
        assert q == r;
        assert !HasProof(db, r);
      }
    }
  }

  lemma SubmitKeeps(db: Db, groups: seq<InitialGroup>, maxRepairs: nat, maxAssignments: nat, s: Settings)
    requires Inv(db)
    ensures Inv(Submit(db, groups, maxRepairs, maxAssignments, s).0)
  {
    if ValidSubmission(groups, maxRepairs, maxAssignments) {
      var r := |db.runs|;
      var d := db.(runs := db.runs + [Run(Running, maxRepairs, maxAssignments)]);
      assert Reopened(db, d, r);
      ReopenKeeps(db, d, r);
      var added := InitialJobs(r, groups, s, maxAssignments);
      assert InitialCount(groups) >= groups[|groups| - 1].count >= 1;
      assert forall k | 0 <= k < |added| :: Insertable(d, added[k]);
      InsertKeeps(d, added, r);
    }
  }

  lemma EnqueueTaskKeeps(db: Db, r: nat, model: string, task: TaskType)
    requires Inv(db)
    ensures Inv(EnqueueTask(db, r, model, task).0)
  {
    if EnqueueTask(db, r, model, task).1.Accepted? {
      InvIsMid(db);
      var job := Job(r, Queued, model, Respond(task), Settings(false, None), db.runs[r].maxAssignments, None, 0, None);
      assert RunOk(db, r);
      assert Insertable(db, job);
      InsertKeeps(db, [job], r);
    }
  }

  lemma InsertGroupJobKeeps(db: Db, g: nat, t: nat, cost: nat, maxAssignments: nat, model: string, kind: Kind)
    requires Inv(db) && g < |db.groups| && t < |db.tasks| && maxAssignments >= 1
    requires db.groups[g].run.Some? ==> !Terminal(db.runs[db.groups[g].run.value].status)
    ensures Inv(InsertGroupJob(db, g, t, cost, maxAssignments, model, kind))
  {
    var d := GroupRun(db, g);
    var r := d.groups[g].run.value;
    assert r < |db.runs| ==> RunOk(db, r);
    assert Reopened(db, d, r);
    ReopenKeeps(db, d, r);
    var job := Job(r, Queued, model, kind, Settings(false, None), maxAssignments, None, 0, Some(GroupLink(g, t, cost)));
    assert Insertable(d, job);
    InsertKeeps(d, [job], r);
  }

  // ------------------------------------------------------------------- stops

  /** Queued jobs, or targets under verification, are cancelled; nothing else changes. */
  ghost predicate OnlyCancels(db: Db, d: Db) {
    && d.runs == db.runs && d.leases == db.leases && |d.jobs| == |db.jobs|
    && (forall j {:trigger d.jobs[j]} | 0 <= j < |db.jobs| :: d.jobs[j] == db.jobs[j]
          || (d.jobs[j] == db.jobs[j].(status := Cancelled)
              && (db.jobs[j].status.Queued? || (db.jobs[j].status.Verifying? && db.jobs[j].link.Some?))))
  }

  lemma CancelCore(db: Db, d: Db)
    requires Core(db) && Linked(d) && OnlyCancels(db, d)
    ensures Core(d)
  {
    forall a | 0 <= a < |d.leases| ensures LeaseOk(d.leases[a]) {
      assert LeaseOk(db.leases[a]);
    }
    forall j | 0 <= j < |d.jobs| ensures JobOk(d.leases, d.jobs[j], j) && Lineage(d, j) {
      assert JobOk(db.leases, db.jobs[j], j) && Lineage(db, j);
      CountOrder(db.leases, j);
    }
    assert OneChild(d);
  }

  lemma CancelRun(db: Db, d: Db, r: nat)
    requires Linked(db) && Linked(d) && OnlyCancels(db, d) && r < |db.runs| && RunMid(db, r)
    ensures RunMid(d, r)
  {
    assert HasProof(d, r) <==> HasProof(db, r);
    if HasLive(d.jobs, r) {
      var j :| 0 <= j < |d.jobs| && d.jobs[j].run == r && d.jobs[j].Live();
      assert db.jobs[j].run == r && db.jobs[j].Live();
    }
  }

  lemma CancelKeeps(db: Db, d: Db)
    requires Mid(db) && Linked(d) && OnlyCancels(db, d)
    ensures Mid(d)
  {
    CancelCore(db, d);
    forall r | 0 <= r < |d.runs| ensures RunMid(d, r) {
      assert RunMid(db, r);
      CancelRun(db, d, r);
    }
  }

  lemma StopGroupKeeps(db: Db, g: nat)
    requires Mid(db) && g < |db.groups|
    ensures Inv(StopGroup(db, g))
  {
    var d := db.(groups := db.groups[g := StopLoop(db.groups[g])], jobs := CancelGroup(db.jobs, g), tasks := CloseTasks(db.tasks, g));
    CancelKeeps(db, d);
    RefreshAllSettles(d);
  }

  lemma StopUncheckedKeeps(db: Db, a: nat)
    requires Inv(db)
    ensures Inv(StopUnchecked(db, a))
  {
    InvIsMid(db);
    if Open(db, a) && db.jobs[db.leases[a].job].link.Some? {
      CancelKeeps(db, Unchecked(db, a));
      StopGroupKeeps(Unchecked(db, a), db.jobs[db.leases[a].job].link.value.group);
    }
  }

  // --------------------------------------------------------------- histories

  lemma AddTaskKeeps(db: Db, g: nat, parent: Option<nat>, budget: nat)
    requires Inv(db)
    ensures Inv(AddTask(db, g, parent, budget).0)
  {
    OtherTables(db, AddTask(db, g, parent, budget).0);
  }

  lemma EnqueueGroupJobKeeps(db: Db, t: nat, cost: nat, model: string, kind: Kind)
    requires Inv(db)
    ensures Inv(EnqueueGroupJob(db, t, cost, model, kind).0)
  {
    if EnqueueGroupJob(db, t, cost, model, kind).1.Accepted? {
      var d := Spend(db, t, cost);
      OtherTables(db, d);
      InsertGroupJobKeeps(d, db.tasks[t].group, t, cost, cost, model, kind);
    }
  }

  /** Dispatch buys a job only from a looping group whose run is not terminal. */
  predicate Buys(db: Db, g: nat, o: Order, now: int)
    requires Linked(db)
  {
    && g < |db.groups| && db.groups[g].loop.Looping? && ParentTask(db, g, o.parent)
    && o.unit > 0 && o.planning != Some(0)
    && (db.groups[g].run.Some? ==> !Terminal(db.runs[db.groups[g].run.value].status))
    && now < db.groups[g].loop.deadline
    && 2 * o.unit <= db.groups[g].remaining - o.held
    && !OverTaskLimit(db, g, o)
    && ChildDepth(db, o.parent) <= MAX_DEPTH
  }

  function Charged(db: Db, g: nat, o: Order, now: int): (d: Db)
    requires Linked(db) && Buys(db, g, o, now)
    ensures Linked(d)
  {
    ChargeTask(db, g, 2 * o.unit, ChildDepth(db, o.parent))
  }

  lemma DispatchCases(db: Db, g: nat, o: Order, now: int)
    requires Linked(db)
    ensures Buys(db, g, o, now) ==>
              Dispatch(db, g, o, now)
              == InsertGroupJob(Charged(db, g, o, now), g, |db.tasks|, 2 * o.unit, LeaseLimit(o), o.model, o.kind)
    ensures !Buys(db, g, o, now) ==>
              || Dispatch(db, g, o, now) == db
              || (g < |db.groups| && db.groups[g].loop.Looping? && Dispatch(db, g, o, now) == StopGroup(db, g))
  {
  }

  lemma DispatchKeeps(db: Db, g: nat, o: Order, now: int)
    requires Inv(db)
    ensures Inv(Dispatch(db, g, o, now))
  {
    DispatchCases(db, g, o, now);
    if Buys(db, g, o, now) {
      var d := Charged(db, g, o, now);
      OtherTables(db, d);
      InsertGroupJobKeeps(d, g, |db.tasks|, 2 * o.unit, LeaseLimit(o), o.model, o.kind);
    } else if Dispatch(db, g, o, now) != db {
      InvIsMid(db);
      StopGroupKeeps(db, g);
    }
  }

  lemma StepKeeps(db: Db, e: Event)
    requires Inv(db)
    ensures Inv(Step(db, e))
  {
    match e
    case ESubmit(groups, maxRepairs, maxAssignments, s) =>
      SubmitStep(db, groups, maxRepairs, maxAssignments, s);
      SubmitKeeps(db, groups, maxRepairs, maxAssignments, s);
    case EEnqueueTask(r, model, task) =>
      EnqueueTaskStep(db, r, model, task);
      EnqueueTaskKeeps(db, r, model, task);
    case EExpire(now) =>
      ExpireStep(db, now);
      ExpireKeeps(db, now);
    case EClaim(cap, token, now, term) =>
      ClaimStep(db, cap, token, now, term);
      ClaimKeeps(db, cap, token, now, term);
    case EHeartbeat(a, token, now, term) =>
      HeartbeatStep(db, a, token, now, term);
      HeartbeatKeeps(db, a, token, now, term);
    case EDeliver(a, token, p, now) =>
      DeliverStep(db, a, token, p, now);
      DeliverKeeps(db, a, token, p, now);
    case EJudge(a, v) =>
      JudgeStep(db, a, v);
      JudgeKeeps(db, a, v);
    case ECreateGroup(maxWork, maxTasks) =>
      CreateGroupStep(db, maxWork, maxTasks);
      OtherTables(db, CreateGroup(db, maxWork, maxTasks).0);
    case EStartLoop(g, deadline) =>
      StartLoopStep(db, g, deadline);
      OtherTables(db, StartLoop(db, g, deadline).0);
    case EAddTask(g, parent, budget) =>
      AddTaskStep(db, g, parent, budget);
      AddTaskKeeps(db, g, parent, budget);
    case ESetTaskStatus(t) =>
      SetTaskStatusStep(db, t);
      OtherTables(db, SetTaskStatus(db, t).0);
    case EEnqueueGroupJob(t, cost, model, kind) =>
      EnqueueGroupJobStep(db, t, cost, model, kind);
      EnqueueGroupJobKeeps(db, t, cost, model, kind);
    case EDispatch(g, o, now) =>
      DispatchStep(db, g, o, now);
      DispatchKeeps(db, g, o, now);
    case EStop(g) =>
      StopStep(db, g);
      if g < |db.groups| {
        InvIsMid(db);
        StopGroupKeeps(db, g);
      }
    case EStopUnchecked(a) =>
      StopUncheckedStep(db, a);
      StopUncheckedKeeps(db, a);
  }

  /** Every reachable state satisfies the lease queue invariant and settled run statuses. */
  lemma {:induction false} AlwaysInv(events: seq<Event>)
    ensures Inv(After(events))
  {
    if events != [] {
      AlwaysInv(events[..|events| - 1]);
      StepKeeps(After(events[..|events| - 1]), events[|events| - 1]);
    }
  }
}
