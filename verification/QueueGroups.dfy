/**
 Group budgets: work is conserved, leases never exceed it, and a stopped group drains.
 */
module QueueGroups {
  import opened Basics
  import opened Queue
  import opened QueueInvariant
  import opened QueueHistory
  import opened QueueRecords

  // --------------------------------------------------------------- ownership

  /** A group job belongs to its group's run and reserves at least its lease limit. */
  ghost predicate LinkOk(db: Db, j: nat)
    requires Linked(db) && j < |db.jobs|
  {
    var job := db.jobs[j];
    job.link.Some? ==>
      && db.groups[job.link.value.group].run == Some(job.run)
      && db.tasks[job.link.value.task].group == job.link.value.group
      && job.maxAssignments <= job.link.value.cost
  }

  /** A group's run is its own, has no repairs, and holds only jobs of the group. */
  ghost predicate OwnerOk(db: Db, g: nat)
    requires Linked(db) && g < |db.groups|
  {
    db.groups[g].run.Some? ==>
      && db.runs[db.groups[g].run.value].maxRepairs == 0
      && (forall j | 0 <= j < |db.jobs| && db.jobs[j].run == db.groups[g].run.value :: db.jobs[j].In(g))
      && (forall h | 0 <= h < |db.groups| && h != g :: db.groups[h].run != db.groups[g].run)
  }

  /** Before _refresh a stopped group's queued job can only be in a run that is about to shed it. */
  ghost predicate QuietMid(db: Db, j: nat)
    requires Linked(db) && j < |db.jobs|
  {
    Halted(db, j) && db.jobs[j].status.Queued? ==> Terminal(db.runs[db.jobs[j].run].status)
  }

  ghost predicate Quiet(db: Db, j: nat)
    requires Linked(db) && j < |db.jobs|
  {
    Halted(db, j) ==> !db.jobs[j].status.Queued?
  }

  // ------------------------------------------------------------ conservation

  function TaskWork(tasks: seq<Task>, g: nat): nat -> int {
    (i: nat) => if i < |tasks| && tasks[i].group == g then tasks[i].remaining else 0
  }

  function JobWork(jobs: seq<Job>, g: nat): nat -> int {
    (i: nat) => if i < |jobs| && jobs[i].In(g) then jobs[i].link.value.cost else 0
  }

  function Committed(db: Db, g: nat): int {
    Sum(|db.tasks|, TaskWork(db.tasks, g)) + Sum(|db.jobs|, JobWork(db.jobs, g))
  }

  /** max_work = remaining_work + unspent task budgets + costs of all jobs, with nothing negative.
      Inside a dispatch, owed is the cost taken from the budget for a job not yet inserted. */
  ghost predicate Conserved(db: Db, g: nat, owed: int)
    requires g < |db.groups|
  {
    db.groups[g].remaining >= 0 && db.groups[g].maxWork == db.groups[g].remaining + Committed(db, g) + owed
  }

  ghost predicate Grouped(db: Db) {
    Owing(db, 0, 0)
  }

  function Debt(g: nat, debtor: nat, owed: int): int {
    if g == debtor then owed else 0
  }

  ghost predicate Owing(db: Db, debtor: nat, owed: int) {
    && Linked(db)
    && (forall j {:trigger LinkOk(db, j)} | 0 <= j < |db.jobs| :: LinkOk(db, j))
    && (forall g {:trigger OwnerOk(db, g)} | 0 <= g < |db.groups| :: OwnerOk(db, g))
    && (forall g {:trigger Debt(g, debtor, owed)} | 0 <= g < |db.groups| :: Conserved(db, g, Debt(g, debtor, owed)))
    && (forall t {:trigger TaskOk(db, t)} | 0 <= t < |db.tasks| :: TaskOk(db, t))
  }

  ghost predicate TaskOk(db: Db, t: nat)
    requires t < |db.tasks|
  {
    db.tasks[t].remaining >= 0
  }

  ghost predicate GroupInv(db: Db) {
    Grouped(db) && forall j {:trigger Quiet(db, j)} | 0 <= j < |db.jobs| :: Quiet(db, j)
  }

  ghost predicate GroupMid(db: Db) {
    Grouped(db) && forall j {:trigger QuietMid(db, j)} | 0 <= j < |db.jobs| :: QuietMid(db, j)
  }

  // ------------------------------------------- changes that move no budget

  /** Statuses, leases and loop phases may differ; ownership and work do not. */
  ghost predicate SameBudget(db: Db, d: Db) {
    && |d.runs| == |db.runs| && |d.jobs| == |db.jobs| && |d.groups| == |db.groups| && |d.tasks| == |db.tasks|
    && (forall r | 0 <= r < |db.runs| :: d.runs[r].maxRepairs == db.runs[r].maxRepairs)
    && (forall j | 0 <= j < |db.jobs| :: d.jobs[j] == db.jobs[j].(status := d.jobs[j].status))
    && (forall g | 0 <= g < |db.groups| :: d.groups[g] == db.groups[g].(loop := d.groups[g].loop))
    && (forall t | 0 <= t < |db.tasks| :: d.tasks[t] == db.tasks[t].(open := d.tasks[t].open))
  }

  lemma SameBudgetGrouped(db: Db, d: Db)
    requires Grouped(db) && Linked(d) && SameBudget(db, d)
    ensures Grouped(d)
  {
    forall j | 0 <= j < |d.jobs| ensures LinkOk(d, j) {
      assert LinkOk(db, j);
    }
    forall g | 0 <= g < |d.groups| ensures OwnerOk(d, g) {
      assert OwnerOk(db, g);
    }
    forall t | 0 <= t < |d.tasks| ensures TaskOk(d, t) {
      assert TaskOk(db, t);
    }
    forall g | 0 <= g < |d.groups| ensures Conserved(d, g, Debt(g, 0, 0)) {
      assert Conserved(db, g, Debt(g, 0, 0));
      SumFrame(|db.tasks|, TaskWork(db.tasks, g), TaskWork(d.tasks, g));
      SumFrame(|db.jobs|, JobWork(db.jobs, g), JobWork(d.jobs, g));
    }
  }

  lemma RefreshGroups(db: Db, scope: set<nat>)
    requires GroupMid(db)
    requires forall j | 0 <= j < |db.jobs| && db.jobs[j].run !in scope :: Quiet(db, j)
    ensures GroupInv(Refresh(db, scope))
  {
    var d := Refresh(db, scope);
    assert SameBudget(db, d);
    SameBudgetGrouped(db, d);
    forall j | 0 <= j < |d.jobs| ensures Quiet(d, j) {
      assert QuietMid(db, j);
    }
  }

  lemma RefreshAllGroups(db: Db)
    requires GroupMid(db)
    ensures GroupInv(RefreshAll(db))
  {
    RefreshGroups(db, Below(|db.runs|));
  }

  // ------------------------------------------------------------ leases, results

  /** While loops stand still, jobs change status only in ways that leave a halted job unqueued. */
  lemma StatusGroups(db: Db, d: Db)
    requires GroupInv(db) && Linked(d) && SameBudget(db, d) && d.groups == db.groups
    requires forall j | 0 <= j < |db.jobs| :: Halted(db, j) && d.jobs[j].status.Queued? ==> db.jobs[j].status.Queued?
    ensures GroupInv(d)
  {
    SameBudgetGrouped(db, d);
    forall j | 0 <= j < |d.jobs| ensures Quiet(d, j) {
      assert Quiet(db, j);
    }
  }

  lemma RetryQuiet(db: Db, a: nat, lease: Lease)
    requires GroupInv(db) && a < |db.leases| && lease.job == db.leases[a].job
    ensures GroupInv(Retry(SetLease(db, a, lease), lease.job))
  {
    StatusGroups(db, Retry(SetLease(db, a, lease), lease.job));
  }

  lemma ExpireOneGroups(db: Db, a: nat, now: int)
    requires GroupInv(db) && a < |db.leases|
    ensures GroupInv(ExpireOne(db, a, now))
  {
    if Overdue(db.leases[a], now) {
      RetryQuiet(db, a, db.leases[a].(status := Expired));
    }
  }

  lemma ExpireUpToGroups(db: Db, k: nat, now: int)
    requires GroupInv(db) && k <= |db.leases|
    ensures GroupInv(ExpireUpTo(db, k, now))
  {
    forall d: Db, a: nat | Linked(d) && a < |d.leases| && a < |db.leases| && GroupInv(d) ensures GroupInv(ExpireOne(d, a, now)) {
      ExpireOneGroups(d, a, now);
    }
    ExpireInduction(db, k, now, (d: Db, a: nat) => GroupInv(d));
  }

  lemma QuietIsMid(db: Db)
    requires GroupInv(db)
    ensures GroupMid(db)
  {
    forall j | 0 <= j < |db.jobs| ensures QuietMid(db, j) {
      assert Quiet(db, j);
    }
  }

  lemma ExpireGroups(db: Db, now: int)
    requires GroupInv(db)
    ensures GroupInv(Expire(db, now))
  {
    var d := ExpireUpTo(db, |db.leases|, now);
    ExpireUpToGroups(db, |db.leases|, now);
    QuietIsMid(d);
    forall j | 0 <= j < |d.jobs| ensures Quiet(d, j) {
    }
    RefreshGroups(d, OverdueRuns(db, now));
  }

  lemma AssignGroups(db: Db, cap: Capabilities, token: nat, now: int, term: int)
    requires GroupInv(db)
    ensures GroupInv(Assign(db, cap, token, now, term))
  {
    StatusGroups(db, Assign(db, cap, token, now, term));
  }

  lemma ClaimGroups(db: Db, cap: Capabilities, token: nat, now: int, term: int)
    requires GroupInv(db)
    ensures GroupInv(Claim(db, cap, token, now, term))
  {
    ExpireGroups(db, now);
    AssignGroups(Expire(db, now), cap, token, now, term);
  }

  lemma FirstResultGroups(db: Db, a: nat, p: Payload)
    requires GroupInv(db) && a < |db.leases|
    requires p.Finished? && db.jobs[db.leases[a].job].kind.Generate? ==> !p.output.Malformed?
    ensures GroupInv(FirstResult(db, a, p))
  {
    StatusGroups(db, FirstResult(db, a, p));
  }

  lemma DeliverGroups(db: Db, a: nat, token: nat, raw: Payload, now: int)
    requires GroupInv(db)
    ensures GroupInv(Deliver(db, a, token, raw, now).0)
  {
    DeliverCases(db, a, token, raw, now);
    if Deliver(db, a, token, raw, now).0 != db {
      FirstResultGroups(db, a, Canonical(raw));
      QuietIsMid(FirstResult(db, a, Canonical(raw)));
      RefreshAllGroups(FirstResult(db, a, Canonical(raw)));
    }
  }

  // ------------------------------------------------------------------ dispatch

  /** A dispatch never pays without buying: the late stop for a run that is over, which would lose
      the work already charged, is unreachable. */
  lemma PaidWorkBuysAJob(db: Db, g: nat, o: Order, now: int)
    requires Linked(db) && g < |db.groups|
    ensures var d := Dispatch(db, g, o, now);
            && |d.groups| == |db.groups|
            && if |d.tasks| > |db.tasks| || d.groups[g].remaining != db.groups[g].remaining
               then |d.jobs| == |db.jobs| + 1 && d.jobs[|db.jobs|].status.Queued?
                    && d.jobs[|db.jobs|].link == Some(GroupLink(g, |db.tasks|, 2 * o.unit))
                    && d.groups[g].remaining == db.groups[g].remaining - 2 * o.unit
               else |d.jobs| == |db.jobs|
  {
    DispatchCases(db, g, o, now);
  }

  // ------------------------------------------------------------------ verdicts

  lemma RecordGroups(db: Db, a: nat, v: Verdict)
    requires GroupInv(db) && Open(db, a)
    ensures GroupMid(Record(db, a, v))
  {
    var d := Record(db, a, v);
    assert SameBudget(db, d);
    SameBudgetGrouped(db, d);
    forall j | 0 <= j < |d.jobs| ensures QuietMid(d, j) {
      assert Quiet(db, j) && LinkOk(db, j);
    }
  }

  lemma AppendUnlinked(db: Db, added: seq<Job>, r: nat)
    requires GroupMid(db) && r < |db.runs| && !OwnedByGroup(db, r)
    requires forall k | 0 <= k < |added| :: JobLinked(db, added[k]) && added[k].run == r && added[k].link.None?
    ensures GroupMid(db.(jobs := db.jobs + added))
  {
    var d := db.(jobs := db.jobs + added);
    InsertLinked(db, added);
    forall j | 0 <= j < |d.jobs| ensures LinkOk(d, j) && QuietMid(d, j) {
      if j < |db.jobs| {
        assert LinkOk(db, j) && QuietMid(db, j);
      }
    }
    forall g | 0 <= g < |d.groups| ensures OwnerOk(d, g) {
      assert OwnerOk(db, g);
    }
    forall t | 0 <= t < |d.tasks| ensures TaskOk(d, t) {
      assert TaskOk(db, t);
    }
    forall g | 0 <= g < |d.groups| ensures Conserved(d, g, Debt(g, 0, 0)) {
      assert Conserved(db, g, Debt(g, 0, 0));
      SumExtend(|db.jobs|, |d.jobs|, JobWork(db.jobs, g), JobWork(d.jobs, g));
    }
  }

  lemma SettleGroups(db: Db, a: nat, v: Verdict)
    requires GroupInv(db) && Open(db, a)
    ensures GroupMid(Settle(db, a, v))
  {
    RecordGroups(db, a, v);
    if Repairs(db, a, v) {
      var d := Record(db, a, v);
      var r := db.jobs[db.leases[a].job].run;
      forall g | 0 <= g < |d.groups| ensures d.groups[g].run != Some(r) {
        assert OwnerOk(db, g);
      }
      AppendUnlinked(d, [RepairJob(db.jobs[db.leases[a].job], a)], r);
    }
  }

  lemma JudgeGroups(db: Db, a: nat, v: Verdict)
    requires GroupInv(db)
    ensures GroupInv(Judge(db, a, v))
  {
    if Open(db, a) {
      SettleGroups(db, a, v);
      RefreshAllGroups(Settle(db, a, v));
    }
  }

  // ------------------------------------------------------- charges and stops

  lemma GroupRunOwing(db: Db, g: nat, owed: int)
    requires Owing(db, g, owed) && g < |db.groups|
    ensures Owing(GroupRun(db, g), g, owed)
  {
    var d := GroupRun(db, g);
    forall j | 0 <= j < |d.jobs| ensures LinkOk(d, j) {
      assert LinkOk(db, j);
    }
    forall h | 0 <= h < |d.groups| ensures OwnerOk(d, h) {
      assert OwnerOk(db, h);
    }
    forall t | 0 <= t < |d.tasks| ensures TaskOk(d, t) {
      assert TaskOk(db, t);
    }
    forall h | 0 <= h < |d.groups| ensures Conserved(d, h, Debt(h, g, owed)) {
      assert Conserved(db, h, Debt(h, g, owed));
    }
  }

  lemma JobWorkAppend(db: Db, job: Job, g: nat)
    ensures Committed(db.(jobs := db.jobs + [job]), g)
         == Committed(db, g) + if job.In(g) then job.link.value.cost else 0
  {
    SumFrame(|db.jobs|, JobWork(db.jobs, g), JobWork(db.jobs + [job], g));
  }

  lemma InsertGroupJobGroups(db: Db, g: nat, t: nat, cost: nat, maxAssignments: nat, model: string, kind: Kind)
    requires Owing(db, g, cost) && g < |db.groups| && t < |db.tasks| && db.tasks[t].group == g
    requires maxAssignments <= cost && !db.groups[g].loop.Stopped?
    requires forall j {:trigger Quiet(db, j)} | 0 <= j < |db.jobs| :: Quiet(db, j)
    ensures GroupInv(InsertGroupJob(db, g, t, cost, maxAssignments, model, kind))
  {
    var d := GroupRun(db, g);
    GroupRunOwing(db, g, cost);
    var e := InsertGroupJob(db, g, t, cost, maxAssignments, model, kind);
    var job := e.jobs[|d.jobs|];
    forall j | 0 <= j < |e.jobs| ensures LinkOk(e, j) && Quiet(e, j) {
      if j < |db.jobs| {
        assert LinkOk(d, j) && Quiet(db, j);
      }
    }
    forall h | 0 <= h < |e.groups| ensures OwnerOk(e, h) {
      assert OwnerOk(d, h) && OwnerOk(d, g);
    }
    forall i | 0 <= i < |e.tasks| ensures TaskOk(e, i) {
      assert TaskOk(d, i);
    }
    forall h | 0 <= h < |e.groups| ensures Conserved(e, h, Debt(h, 0, 0)) {
      assert Conserved(d, h, Debt(h, g, cost));
      JobWorkAppend(d, job, h);
    }
  }

  /** A task is appended and its group's remaining work is replaced; the difference is owed. */
  lemma AppendTaskOwing(db: Db, d: Db, g: nat, charge: nat, task: Task)
    requires GroupInv(db) && g < |db.groups| && Linked(d) && task.group == g && task.remaining >= 0
    requires charge <= db.groups[g].remaining
    requires d == db.(tasks := db.tasks + [task],
                      groups := db.groups[g := db.groups[g].(remaining := db.groups[g].remaining - charge)])
    ensures Owing(d, g, charge - task.remaining)
    ensures forall j {:trigger Quiet(d, j)} | 0 <= j < |d.jobs| :: Quiet(d, j)
  {
    forall j | 0 <= j < |d.jobs| ensures LinkOk(d, j) && Quiet(d, j) {
      assert LinkOk(db, j) && Quiet(db, j);
    }
    forall h | 0 <= h < |d.groups| ensures OwnerOk(d, h) {
      assert OwnerOk(db, h);
    }
    forall t | 0 <= t < |d.tasks| ensures TaskOk(d, t) {
      assert t < |db.tasks| ==> TaskOk(db, t);
    }
    var owed := charge - task.remaining;
    forall h | 0 <= h < |d.groups| ensures Conserved(d, h, Debt(h, g, owed)) {
      assert Conserved(db, h, Debt(h, 0, 0));
      SumFrame(|db.tasks|, TaskWork(db.tasks, h), TaskWork(d.tasks, h));
    }
  }

  lemma SpendTaskOwing(db: Db, t: nat, cost: nat)
    requires GroupInv(db) && t < |db.tasks| && cost <= db.tasks[t].remaining
    ensures var d := Spend(db, t, cost);
            Owing(d, db.tasks[t].group, cost) && forall j {:trigger Quiet(d, j)} | 0 <= j < |d.jobs| :: Quiet(d, j)
  {
    var d := Spend(db, t, cost);
    var g := db.tasks[t].group;
    forall j | 0 <= j < |d.jobs| ensures LinkOk(d, j) && Quiet(d, j) {
      assert LinkOk(db, j) && Quiet(db, j);
    }
    forall h | 0 <= h < |d.groups| ensures OwnerOk(d, h) {
      assert OwnerOk(db, h);
    }
    forall i | 0 <= i < |d.tasks| ensures TaskOk(d, i) {
      assert TaskOk(db, i);
    }
    forall h | 0 <= h < |d.groups| ensures Conserved(d, h, Debt(h, g, cost)) {
      assert Conserved(db, h, Debt(h, 0, 0));
      SumChange(|db.tasks|, t, TaskWork(db.tasks, h), TaskWork(d.tasks, h));
    }
  }

  lemma AddTaskGroups(db: Db, g: nat, parent: Option<nat>, budget: nat)
    requires GroupInv(db)
    ensures GroupInv(AddTask(db, g, parent, budget).0)
  {
    var d := AddTask(db, g, parent, budget).0;
    if AddTask(db, g, parent, budget).1.Accepted? {
      AppendTaskOwing(db, d, g, budget, Task(g, budget, budget, true, ChildDepth(db, parent)));
      OwingNothing(d, g);
    }
  }

  lemma OwingNothing(d: Db, g: nat)
    requires Owing(d, g, 0)
    ensures Grouped(d)
  {
    forall h | 0 <= h < |d.groups| ensures Conserved(d, h, Debt(h, 0, 0)) {
      assert Conserved(d, h, Debt(h, g, 0));
    }
  }

  lemma EnqueueGroupJobGroups(db: Db, t: nat, cost: nat, model: string, kind: Kind)
    requires GroupInv(db)
    ensures GroupInv(EnqueueGroupJob(db, t, cost, model, kind).0)
  {
    if EnqueueGroupJob(db, t, cost, model, kind).1.Accepted? {
      var d := Spend(db, t, cost);
      SpendTaskOwing(db, t, cost);
      InsertGroupJobGroups(d, db.tasks[t].group, t, cost, cost, model, kind);
    }
  }

  lemma DispatchGroups(db: Db, g: nat, o: Order, now: int)
    requires GroupInv(db)
    ensures GroupInv(Dispatch(db, g, o, now))
  {
    DispatchCases(db, g, o, now);
    if Buys(db, g, o, now) {
      var d := Charged(db, g, o, now);
      AppendTaskOwing(db, d, g, 2 * o.unit, Task(g, 2 * o.unit, 0, true, ChildDepth(db, o.parent)));
      InsertGroupJobGroups(d, g, |db.tasks|, 2 * o.unit, LeaseLimit(o), o.model, o.kind);
    } else if Dispatch(db, g, o, now) != db {
      StopGroups(db, g);
    }
  }

  lemma StopGroups(db: Db, g: nat)
    requires GroupInv(db)
    ensures GroupInv(StopGroup(db, g))
  {
    if g < |db.groups| {
      var d := db.(groups := db.groups[g := StopLoop(db.groups[g])], jobs := CancelGroup(db.jobs, g), tasks := CloseTasks(db.tasks, g));
      assert SameBudget(db, d);
      SameBudgetGrouped(db, d);
      forall j | 0 <= j < |d.jobs| ensures QuietMid(d, j) {
        assert Quiet(db, j);
      }
      RefreshAllGroups(d);
    }
  }

  lemma StopUncheckedGroups(db: Db, a: nat)
    requires GroupInv(db)
    ensures GroupInv(StopUnchecked(db, a))
  {
    if Open(db, a) && db.jobs[db.leases[a].job].link.Some? {
      StatusGroups(db, Unchecked(db, a));
      StopGroups(Unchecked(db, a), db.jobs[db.leases[a].job].link.value.group);
    }
  }

  lemma SubmitGroups(db: Db, groups: seq<InitialGroup>, maxRepairs: nat, maxAssignments: nat, s: Settings)
    requires GroupInv(db)
    ensures GroupInv(Submit(db, groups, maxRepairs, maxAssignments, s).0)
  {
    if ValidSubmission(groups, maxRepairs, maxAssignments) {
      var d := db.(runs := db.runs + [Run(Running, maxRepairs, maxAssignments)]);
      forall j | 0 <= j < |d.jobs| ensures LinkOk(d, j) && QuietMid(d, j) {
        assert LinkOk(db, j) && Quiet(db, j);
      }
      forall g | 0 <= g < |d.groups| ensures OwnerOk(d, g) {
        assert OwnerOk(db, g);
      }
      forall t | 0 <= t < |d.tasks| ensures TaskOk(d, t) {
        assert TaskOk(db, t);
      }
      forall g | 0 <= g < |d.groups| ensures Conserved(d, g, Debt(g, 0, 0)) {
        assert Conserved(db, g, Debt(g, 0, 0)) && Committed(d, g) == Committed(db, g);
      }
      AppendUnlinked(d, InitialJobs(|db.runs|, groups, s, maxAssignments), |db.runs|);
      NewJobsQuiet(db, Submit(db, groups, maxRepairs, maxAssignments, s).0);
    }
  }

  lemma NewJobsQuiet(db: Db, d: Db)
    requires GroupInv(db) && Grouped(d) && d.groups == db.groups && |db.jobs| <= |d.jobs|
    requires forall j | 0 <= j < |d.jobs| :: if j < |db.jobs| then d.jobs[j] == db.jobs[j] else d.jobs[j].link.None?
    ensures GroupInv(d)
  {
    forall j | 0 <= j < |d.jobs| ensures Quiet(d, j) {
      assert j < |db.jobs| ==> Quiet(db, j);
    }
  }

  lemma EnqueueTaskGroups(db: Db, r: nat, model: string, task: TaskType)
    requires GroupInv(db)
    ensures GroupInv(EnqueueTask(db, r, model, task).0)
  {
    var d := EnqueueTask(db, r, model, task).0;
    if EnqueueTask(db, r, model, task).1.Accepted? {
      QuietIsMid(db);
      AppendUnlinked(db, [d.jobs[|db.jobs|]], r);
      NewJobsQuiet(db, d);
    }
  }

  lemma CreateGroupGroups(db: Db, maxWork: nat, maxTasks: nat)
    requires GroupInv(db)
    ensures GroupInv(CreateGroup(db, maxWork, maxTasks).0)
  {
    var d := CreateGroup(db, maxWork, maxTasks).0;
    forall j | 0 <= j < |d.jobs| ensures LinkOk(d, j) && Quiet(d, j) {
      assert LinkOk(db, j) && Quiet(db, j);
    }
    forall g | 0 <= g < |d.groups| ensures OwnerOk(d, g) {
      assert g < |db.groups| ==> OwnerOk(db, g);
    }
    forall t | 0 <= t < |d.tasks| ensures TaskOk(d, t) {
      assert TaskOk(db, t);
    }
    forall g | 0 <= g < |d.groups| ensures Conserved(d, g, Debt(g, 0, 0)) {
      SumFrame(|db.tasks|, TaskWork(db.tasks, g), TaskWork(d.tasks, g));
      if g < |db.groups| {
        assert Conserved(db, g, Debt(g, 0, 0)) && Committed(d, g) == Committed(db, g);
      } else {
        SumZero(|d.tasks|, TaskWork(d.tasks, g));
        SumZero(|d.jobs|, JobWork(d.jobs, g));
      }
    }
  }

  lemma StartLoopGroups(db: Db, g: nat, deadline: int)
    requires GroupInv(db)
    ensures GroupInv(StartLoop(db, g, deadline).0)
  {
    var d := StartLoop(db, g, deadline).0;
    SameBudgetGrouped(db, d);
    forall j | 0 <= j < |d.jobs| ensures Quiet(d, j) {
      assert Quiet(db, j);
    }
  }

  lemma HeartbeatGroups(db: Db, a: nat, token: nat, now: int, term: int)
    requires GroupInv(db)
    ensures GroupInv(Heartbeat(db, a, token, now, term).0)
  {
    StatusGroups(db, Heartbeat(db, a, token, now, term).0);
  }

  lemma SetTaskStatusGroups(db: Db, t: nat)
    requires GroupInv(db)
    ensures GroupInv(SetTaskStatus(db, t).0)
  {
    StatusGroups(db, SetTaskStatus(db, t).0);
  }

  lemma StepGroups(db: Db, e: Event)
    requires GroupInv(db)
    ensures GroupInv(Step(db, e))
  {
    match e
    case ESubmit(groups, maxRepairs, maxAssignments, s) =>
      SubmitStep(db, groups, maxRepairs, maxAssignments, s);
      SubmitGroups(db, groups, maxRepairs, maxAssignments, s);
    case EEnqueueTask(r, model, task) =>
      EnqueueTaskStep(db, r, model, task);
      EnqueueTaskGroups(db, r, model, task);
    case EExpire(now) =>
      ExpireStep(db, now);
      ExpireGroups(db, now);
    case EClaim(cap, token, now, term) =>
      ClaimStep(db, cap, token, now, term);
      ClaimGroups(db, cap, token, now, term);
    case EDeliver(a, token, p, now) =>
      DeliverStep(db, a, token, p, now);
      DeliverGroups(db, a, token, p, now);
    case EJudge(a, v) =>
      JudgeStep(db, a, v);
      JudgeGroups(db, a, v);
    case EAddTask(g, parent, budget) =>
      AddTaskStep(db, g, parent, budget);
      AddTaskGroups(db, g, parent, budget);
    case EEnqueueGroupJob(t, cost, model, kind) =>
      EnqueueGroupJobStep(db, t, cost, model, kind);
      EnqueueGroupJobGroups(db, t, cost, model, kind);
    case EDispatch(g, o, now) =>
      DispatchStep(db, g, o, now);
      DispatchGroups(db, g, o, now);
    case EStop(g) =>
      StopStep(db, g);
      StopGroups(db, g);
    case EStopUnchecked(a) =>
      StopUncheckedStep(db, a);
      StopUncheckedGroups(db, a);
    case EHeartbeat(a, token, now, term) =>
      HeartbeatStep(db, a, token, now, term);
      HeartbeatGroups(db, a, token, now, term);
    case ECreateGroup(maxWork, maxTasks) =>
      CreateGroupStep(db, maxWork, maxTasks);
      CreateGroupGroups(db, maxWork, maxTasks);
    case EStartLoop(g, deadline) =>
      StartLoopStep(db, g, deadline);
      StartLoopGroups(db, g, deadline);
    case ESetTaskStatus(t) =>
      SetTaskStatusStep(db, t);
      SetTaskStatusGroups(db, t);
  }

  lemma {:induction false} AlwaysGrouped(events: seq<Event>)
    ensures GroupInv(After(events))
  {
    if events != [] {
      AlwaysGrouped(events[..|events| - 1]);
      StepGroups(After(events[..|events| - 1]), events[|events| - 1]);
    }
  }

  // ------------------------------------------------------------------ theorems

  function Members(jobs: seq<Job>, g: nat): nat -> bool {
    (j: nat) => j < |jobs| && jobs[j].In(g)
  }

  lemma SpentWithinCommitted(db: Db, g: nat)
    requires Inv(db) && GroupInv(db) && g < |db.groups|
    ensures Spent(db.leases, Members(db.jobs, g)) <= Committed(db, g)
  {
    var who := Members(db.jobs, g);
    SpentByJob(db.leases, |db.jobs|, who);
    forall j: nat | j < |db.jobs| ensures SpentOf(db.leases, who)(j) <= JobWork(db.jobs, g)(j) {
      assert LinkOk(db, j) && JobOk(db.leases, db.jobs[j], j);
    }
    SumMonotone(|db.jobs|, SpentOf(db.leases, who), JobWork(db.jobs, g));
    forall t: nat | t < |db.tasks| ensures TaskWork(db.tasks, g)(t) >= 0 {
      assert TaskOk(db, t);
    }
    SumNonNegative(|db.tasks|, TaskWork(db.tasks, g));
  }

  /** Every budgeted lease ever taken in a group was paid for out of its max_work. */
  lemma GroupLeasesBounded(events: seq<Event>, g: nat)
    requires g < |After(events).groups|
    ensures var db := After(events); var group := db.groups[g];
            && 0 <= group.remaining && group.maxWork == group.remaining + Committed(db, g)
            && Spent(db.leases, Members(db.jobs, g)) <= Committed(db, g) <= group.maxWork
  {
    AlwaysGrouped(events);
    AlwaysInv(events);
    assert Conserved(After(events), g, Debt(g, 0, 0));
    SpentWithinCommitted(After(events), g);
  }

  // ------------------------------------------------------------- draining

  /** How many more times a job that can no longer be queued may change status. */
  function Rank(status: JobStatus): nat {
    match status
    case Queued => 4
    case Assigned => 3
    case Verifying => 2
    case Cancelled => 1
    case Failed => 0
    case Done => 0
  }

  ghost predicate Descends(s: JobStatus, t: JobStatus) {
    s == t || Rank(t) < Rank(s)
  }

  lemma ExpireOneDrains(db: Db, a: nat, now: int, j: nat)
    requires Core(db) && a < |db.leases| && j < |db.jobs| && Halted(db, j)
    ensures var d := ExpireOne(db, a, now);
            d.groups == db.groups && d.jobs[j].link == db.jobs[j].link && Descends(db.jobs[j].status, d.jobs[j].status)
  {
    if Overdue(db.leases[a], now) && db.leases[a].job == j {
      assert JobOk(db.leases, db.jobs[j], j);
      CountMember(db.leases, a, j, OnLease);
    }
  }

  ghost predicate Drained(db: Db, d: Db, j: nat)
    requires j < |db.jobs|
  {
    && d.groups == db.groups && j < |d.jobs| && d.jobs[j].link == db.jobs[j].link
    && Descends(db.jobs[j].status, d.jobs[j].status)
  }

  lemma ExpireUpToDrains(db: Db, k: nat, now: int, j: nat)
    requires Mid(db) && k <= |db.leases| && j < |db.jobs| && Halted(db, j)
    ensures Drained(db, ExpireUpTo(db, k, now), j)
  {
    forall d: Db, a: nat | Linked(d) && a < |d.leases| && a < |db.leases| && Mid(d) && Drained(db, d, j)
      ensures Mid(ExpireOne(d, a, now)) && Drained(db, ExpireOne(d, a, now), j)
    {
      ExpireOneKeeps(d, a, now);
      ExpireOneDrains(d, a, now, j);
    }
    ExpireInduction(db, k, now, (d: Db, a: nat) => Mid(d) && Drained(db, d, j));
  }

  lemma RefreshDrains(db: Db, scope: set<nat>, j: nat)
    requires Linked(db) && j < |db.jobs| && !db.jobs[j].status.Queued?
    ensures Refresh(db, scope).jobs[j] == db.jobs[j]
  {
  }

  lemma ExpireDrains(db: Db, now: int, j: nat)
    requires Inv(db) && GroupInv(db) && j < |db.jobs| && Halted(db, j)
    ensures Descends(db.jobs[j].status, Expire(db, now).jobs[j].status)
  {
    assert Quiet(db, j);
    InvIsMid(db);
    ExpireUpToDrains(db, |db.leases|, now, j);
    RefreshDrains(ExpireUpTo(db, |db.leases|, now), OverdueRuns(db, now), j);
  }

  /** Only a queued job is assigned. */
  lemma AssignDrains(db: Db, cap: Capabilities, token: nat, now: int, term: int, j: nat)
    requires Linked(db) && j < |db.jobs| && !db.jobs[j].status.Queued?
    ensures var d := Assign(db, cap, token, now, term); j < |d.jobs| && d.jobs[j] == db.jobs[j]
  {
  }

  lemma ExpireQuiet(db: Db, now: int, j: nat)
    requires Inv(db) && GroupInv(db) && j < |db.jobs| && Halted(db, j)
    ensures j < |Expire(db, now).jobs| && !Expire(db, now).jobs[j].status.Queued?
  {
    ExpireUpToShape(db, |db.leases|, now);
    ExpireGroups(db, now);
    ExpireGrows(db, now);
    assert JobGrows(db.jobs[j], Expire(db, now).jobs[j]) && Quiet(Expire(db, now), j);
  }

  lemma ClaimDrains(db: Db, cap: Capabilities, token: nat, now: int, term: int, j: nat)
    requires Inv(db) && GroupInv(db) && j < |db.jobs| && Halted(db, j)
    ensures j < |Claim(db, cap, token, now, term).jobs|
    ensures Descends(db.jobs[j].status, Claim(db, cap, token, now, term).jobs[j].status)
  {
    ExpireDrains(db, now, j);
    ExpireQuiet(db, now, j);
    AssignDrains(Expire(db, now), cap, token, now, term, j);
  }

  lemma FirstResultDrains(db: Db, a: nat, p: Payload, j: nat)
    requires Core(db) && GroupInv(db) && j < |db.jobs| && Halted(db, j)
    requires a < |db.leases| && db.leases[a].status.Active?
    requires p.Finished? && db.jobs[db.leases[a].job].kind.Generate? ==> !p.output.Malformed?
    ensures var d := FirstResult(db, a, p);
            |d.jobs| == |db.jobs| && !d.jobs[j].status.Queued? && Descends(db.jobs[j].status, d.jobs[j].status)
  {
    assert Quiet(db, j);
    FirstResultShape(db, a, p);
    if db.leases[a].job == j {
      assert JobOk(db.leases, db.jobs[j], j);
      CountMember(db.leases, a, j, OnLease);
    }
  }

  lemma DeliverDrains(db: Db, a: nat, token: nat, raw: Payload, now: int, j: nat)
    requires Inv(db) && GroupInv(db) && j < |db.jobs| && Halted(db, j)
    ensures Descends(db.jobs[j].status, Deliver(db, a, token, raw, now).0.jobs[j].status)
  {
    DeliverCases(db, a, token, raw, now);
    if Deliver(db, a, token, raw, now).0 != db {
      var d := FirstResult(db, a, Canonical(raw));
      FirstResultDrains(db, a, Canonical(raw), j);
      RefreshDrains(d, Below(|d.runs|), j);
    }
  }

  lemma SettleDrains(db: Db, a: nat, v: Verdict, j: nat)
    requires Core(db) && Open(db, a) && j < |db.jobs| && !db.jobs[j].status.Queued?
    ensures j < |Settle(db, a, v).jobs| && !Settle(db, a, v).jobs[j].status.Queued?
    ensures Descends(db.jobs[j].status, Settle(db, a, v).jobs[j].status)
  {
    if db.leases[a].job == j {
      assert JobOk(db.leases, db.jobs[j], j);
      CountMember(db.leases, a, j, Attempted);
      CountMember(db.leases, a, j, Undecided);
      CountOrder(db.leases, j);
    }
  }

  lemma JudgeDrains(db: Db, a: nat, v: Verdict, j: nat)
    requires Inv(db) && GroupInv(db) && j < |db.jobs| && Halted(db, j)
    ensures j < |Judge(db, a, v).jobs| && Descends(db.jobs[j].status, Judge(db, a, v).jobs[j].status)
  {
    if Open(db, a) {
      assert Quiet(db, j);
      SettleDrains(db, a, v, j);
      var d := Settle(db, a, v);
      RefreshDrains(d, Below(|d.runs|), j);
    }
  }

  lemma StopDrains(db: Db, g: nat, j: nat)
    requires Linked(db) && j < |db.jobs| && !db.jobs[j].status.Queued?
    ensures StopGroup(db, g).jobs[j] == db.jobs[j]
  {
  }

  lemma StopUncheckedDrains(db: Db, a: nat, j: nat)
    requires Linked(db) && j < |db.jobs| && !db.jobs[j].status.Queued?
    ensures Descends(db.jobs[j].status, StopUnchecked(db, a).jobs[j].status)
  {
    if Open(db, a) && db.jobs[db.leases[a].job].link.Some? {
      StopDrains(Unchecked(db, a), db.jobs[db.leases[a].job].link.value.group, j);
    }
  }

  lemma InsertGroupJobDrains(db: Db, g: nat, t: nat, cost: nat, maxAssignments: nat, model: string, kind: Kind, j: nat)
    requires Linked(db) && g < |db.groups| && t < |db.tasks| && j < |db.jobs|
    ensures InsertGroupJob(db, g, t, cost, maxAssignments, model, kind).jobs[j] == db.jobs[j]
  {
  }

  lemma DispatchDrains(db: Db, g: nat, o: Order, now: int, j: nat)
    requires GroupInv(db) && j < |db.jobs| && Halted(db, j)
    ensures Dispatch(db, g, o, now).jobs[j] == db.jobs[j]
  {
    DispatchCases(db, g, o, now);
    assert Quiet(db, j);
    if Buys(db, g, o, now) {
      InsertGroupJobDrains(Charged(db, g, o, now), g, |db.tasks|, 2 * o.unit, LeaseLimit(o), o.model, o.kind, j);
    } else if Dispatch(db, g, o, now) != db {
      StopDrains(db, g, j);
    }
  }

  /** Any status change of a stopped group's job uses up rank. */
  lemma StepDrains(db: Db, e: Event, j: nat)
    requires Inv(db) && GroupInv(db) && j < |db.jobs| && Halted(db, j)
    ensures j < |Step(db, e).jobs| && Descends(db.jobs[j].status, Step(db, e).jobs[j].status)
  {
    StepGrows(db, e);
    assert Quiet(db, j);
    match e
    case EExpire(now) =>
      ExpireStep(db, now);
      ExpireDrains(db, now, j);
    case EClaim(cap, token, now, term) =>
      ClaimStep(db, cap, token, now, term);
      ClaimDrains(db, cap, token, now, term, j);
    case EDeliver(a, token, p, now) =>
      DeliverStep(db, a, token, p, now);
      DeliverDrains(db, a, token, p, now, j);
    case EJudge(a, v) =>
      JudgeStep(db, a, v);
      JudgeDrains(db, a, v, j);
    case EDispatch(g, o, now) =>
      DispatchStep(db, g, o, now);
      DispatchDrains(db, g, o, now, j);
    case EStop(g) =>
      StopStep(db, g);
      StopDrains(db, g, j);
    case EStopUnchecked(a) =>
      StopUncheckedStep(db, a);
      StopUncheckedDrains(db, a, j);
    case _ =>
  }

  /** Transactions of a history that change job j's status. */
  function Changes(earlier: seq<Event>, later: seq<Event>, j: nat): nat
    requires j < |After(earlier).jobs|
  {
    if later == [] then 0
    else
      var front := later[..|later| - 1];
      var db := After(earlier + front);
      var d := Step(db, later[|later| - 1]);
      Changes(earlier, front, j) + One(j < |db.jobs| && j < |d.jobs| && db.jobs[j].status != d.jobs[j].status)
  }

  lemma AfterLast(events: seq<Event>, front: seq<Event>, e: Event)
    requires events == front + [e]
    ensures After(events) == Step(After(front), e)
  {
    assert events[..|events| - 1] == front;
  }

  lemma AfterLater(earlier: seq<Event>, later: seq<Event>)
    requires later != []
    ensures After(earlier + later) == Step(After(earlier + later[..|later| - 1]), later[|later| - 1])
  {
    SplitLast(earlier, later);
    AfterLast(earlier + later, earlier + later[..|later| - 1], later[|later| - 1]);
  }

  /** Once its group is stopped, a job is never queued again and changes status at most three times. */
  lemma {:induction false} StoppedDrains(earlier: seq<Event>, later: seq<Event>, j: nat)
    requires j < |After(earlier).jobs| && Halted(After(earlier), j)
    ensures var db := After(earlier); var d := After(earlier + later);
            && j < |d.jobs| && Halted(d, j) && !d.jobs[j].status.Queued?
            && Changes(earlier, later, j) + Rank(d.jobs[j].status) <= Rank(db.jobs[j].status) <= 3
  {
    AlwaysGrouped(earlier + later);
    AlwaysInv(earlier + later);
    if later == [] {
      PlusNothing(earlier);
      assert Quiet(After(earlier), j);
    } else {
      var front := later[..|later| - 1];
      var db := After(earlier + front);
      StoppedDrains(earlier, front, j);
      AlwaysGrouped(earlier + front);
      AlwaysInv(earlier + front);
      StepDrains(db, later[|later| - 1], j);
      AfterLater(earlier, later);
      StaysHalted(db, later[|later| - 1], j);
      assert Quiet(After(earlier + later), j);
    }
  }

  lemma StaysHalted(db: Db, e: Event, j: nat)
    requires Inv(db) && j < |db.jobs| && Halted(db, j)
    ensures j < |Step(db, e).jobs| && Halted(Step(db, e), j)
  {
    StepGrows(db, e);
    assert JobGrows(db.jobs[j], Step(db, e).jobs[j]);
    assert GroupGrows(db.groups[db.jobs[j].link.value.group], Step(db, e).groups[db.jobs[j].link.value.group]);
  }

  /** Only these transactions insert a job. */
  predicate AddsJobs(e: Event) {
    e.ESubmit? || e.EEnqueueTask? || e.EJudge? || e.EEnqueueGroupJob? || e.EDispatch?
  }

  lemma SameJobCount(db: Db, e: Event)
    requires Linked(db) && !AddsJobs(e)
    ensures |Step(db, e).jobs| == |db.jobs|
  {
    match e
    case EExpire(now) => ExpireUpToShape(db, |db.leases|, now);
    case EClaim(cap, token, now, term) => ClaimJobCount(db, cap, token, now, term);
    case EDeliver(a, token, raw, now) => DeliverJobCount(db, a, token, raw, now);
    case _ =>
  }

  lemma ClaimJobCount(db: Db, cap: Capabilities, token: nat, now: int, term: int)
    requires Linked(db)
    ensures |Claim(db, cap, token, now, term).jobs| == |db.jobs|
  {
    ExpireUpToShape(db, |db.leases|, now);
  }

  lemma DeliverJobCount(db: Db, a: nat, token: nat, raw: Payload, now: int)
    requires Linked(db)
    ensures |Deliver(db, a, token, raw, now).0.jobs| == |db.jobs|
  {
    if Deliver(db, a, token, raw, now).0 != db {
      FirstResultShape(db, a, Canonical(raw));
    }
  }

  lemma SettleAdds(db: Db, a: nat, v: Verdict, j: nat)
    requires Linked(db) && Open(db, a) && |db.jobs| <= j < |Settle(db, a, v).jobs|
    ensures Settle(db, a, v).jobs[j] == RepairJob(db.jobs[db.leases[a].job], a)
  {
  }

  lemma JudgeAdds(db: Db, a: nat, v: Verdict, j: nat)
    requires Linked(db) && |db.jobs| <= j < |Judge(db, a, v).jobs|
    ensures Judge(db, a, v).jobs[j].link.None? && Judge(db, a, v).jobs[j].depth > 0
    ensures Open(db, a) && Judge(db, a, v).jobs[j].run == db.jobs[db.leases[a].job].run
  {
    SettleAdds(db, a, v, j);
  }

  lemma DispatchAdds(db: Db, g: nat, o: Order, now: int, j: nat)
    requires Linked(db) && |db.jobs| <= j < |Dispatch(db, g, o, now).jobs|
    ensures g < |db.groups| && db.groups[g].loop.Looping? && Dispatch(db, g, o, now).jobs[j].In(g)
  {
    DispatchCases(db, g, o, now);
  }

  lemma StepAddsNothing(db: Db, e: Event, j: nat)
    requires Linked(db) && |db.jobs| <= j < |Step(db, e).jobs|
    ensures Step(db, e).jobs[j].link.Some? ==>
              var g := Step(db, e).jobs[j].link.value.group; g < |db.groups| && !db.groups[g].loop.Stopped?
  {
    if !AddsJobs(e) {
      SameJobCount(db, e);
    } else if e.EDispatch? {
      DispatchAdds(db, e.group, e.order, e.now, j);
    } else if e.EJudge? {
      JudgeAdds(db, e.lease, e.verdict, j);
    }
  }

  /** A stopped group stays stopped and is given no further job. */
  lemma {:induction false} StoppedGainsNothing(earlier: seq<Event>, later: seq<Event>, g: nat)
    requires g < |After(earlier).groups| && After(earlier).groups[g].loop.Stopped?
    ensures var d := After(earlier + later);
            && g < |d.groups| && d.groups[g].loop.Stopped?
            && forall j | 0 <= j < |d.jobs| && d.jobs[j].In(g) :: j < |After(earlier).jobs|
  {
    HistoryGrows(earlier, later);
    assert GroupGrows(After(earlier).groups[g], After(earlier + later).groups[g]);
    if later == [] {
      PlusNothing(earlier);
    } else {
      var front := later[..|later| - 1];
      var db := After(earlier + front);
      var d := After(earlier + later);
      StoppedGainsNothing(earlier, front, g);
      AlwaysInv(earlier + front);
      AfterLater(earlier, later);
      StepGrows(db, later[|later| - 1]);
      forall j | 0 <= j < |d.jobs| && d.jobs[j].In(g) ensures j < |After(earlier).jobs| {
        if j < |db.jobs| {
          assert JobGrows(db.jobs[j], d.jobs[j]);
        } else {
          StepAddsNothing(db, later[|later| - 1], j);
        }
      }
    }
  }
}
