/**
 What no transaction ever takes back, and the exactly-once effect of results.
 */
module QueueRecords {
  import opened Basics
  import opened Queue
  import opened QueueInvariant
  import opened QueueHistory

  ghost predicate LeaseGrows(l: Lease, m: Lease) {
    && m.job == l.job && m.token == l.token
    && (!l.status.Active? ==> m.status == l.status && m.result == l.result)
    && (l.attempt.Some? ==> m.attempt.Some? && m.attempt.value.candidate == l.attempt.value.candidate)
    && (l.Verdict().Some? ==> m.Verdict() == l.Verdict())
  }

  ghost predicate JobGrows(j: Job, k: Job) {
    k == j.(status := k.status)
  }

  ghost predicate TaskGrows(t: Task, u: Task) {
    u.group == t.group && u.depth == t.depth && (!t.open ==> !u.open)
  }

  ghost predicate RunGrows(r: Run, s: Run) {
    && s.maxRepairs == r.maxRepairs && s.maxAssignments == r.maxAssignments
    && (r.status.Solved? ==> s.status.Solved?)
  }

  ghost predicate GroupGrows(g: Group, h: Group) {
    && h.maxWork == g.maxWork && h.maxTasks == g.maxTasks
    && (g.run.Some? ==> h.run == g.run)
    && (g.loop.Stopped? ==> h.loop.Stopped?)
  }

  /** Rows are only added; what a row has settled stays settled. */
  ghost predicate Grows(db: Db, d: Db) {
    && |db.runs| <= |d.runs| && |db.jobs| <= |d.jobs| && |db.leases| <= |d.leases|
    && |db.groups| <= |d.groups| && |db.tasks| <= |d.tasks|
    && (forall r {:trigger RunGrows(db.runs[r], d.runs[r])} | 0 <= r < |db.runs| :: RunGrows(db.runs[r], d.runs[r]))
    && (forall j {:trigger JobGrows(db.jobs[j], d.jobs[j])} | 0 <= j < |db.jobs| :: JobGrows(db.jobs[j], d.jobs[j]))
    && (forall a {:trigger LeaseGrows(db.leases[a], d.leases[a])} | 0 <= a < |db.leases| :: LeaseGrows(db.leases[a], d.leases[a]))
    && (forall g {:trigger GroupGrows(db.groups[g], d.groups[g])} | 0 <= g < |db.groups| :: GroupGrows(db.groups[g], d.groups[g]))
    && (forall t {:trigger TaskGrows(db.tasks[t], d.tasks[t])} | 0 <= t < |db.tasks| :: TaskGrows(db.tasks[t], d.tasks[t]))
  }

  lemma GrowsTransitive(db: Db, d: Db, e: Db)
    requires Grows(db, d) && Grows(d, e)
    ensures Grows(db, e)
  {
    forall a | 0 <= a < |db.leases| ensures LeaseGrows(db.leases[a], e.leases[a]) {
      assert LeaseGrows(db.leases[a], d.leases[a]) && LeaseGrows(d.leases[a], e.leases[a]);
    }
    forall r | 0 <= r < |db.runs| ensures RunGrows(db.runs[r], e.runs[r]) {
      assert RunGrows(db.runs[r], d.runs[r]) && RunGrows(d.runs[r], e.runs[r]);
    }
    forall g | 0 <= g < |db.groups| ensures GroupGrows(db.groups[g], e.groups[g]) {
      assert GroupGrows(db.groups[g], d.groups[g]) && GroupGrows(d.groups[g], e.groups[g]);
    }
    forall j | 0 <= j < |db.jobs| ensures JobGrows(db.jobs[j], e.jobs[j]) {
      assert JobGrows(db.jobs[j], d.jobs[j]) && JobGrows(d.jobs[j], e.jobs[j]);
    }
    forall t | 0 <= t < |db.tasks| ensures TaskGrows(db.tasks[t], e.tasks[t]) {
      assert TaskGrows(db.tasks[t], d.tasks[t]) && TaskGrows(d.tasks[t], e.tasks[t]);
    }
  }

  lemma RefreshGrows(db: Db, scope: set<nat>)
    requires Linked(db)
    ensures Grows(db, Refresh(db, scope))
  {
  }

  lemma ExpireOneGrows(db: Db, a: nat, now: int)
    requires Linked(db) && a < |db.leases|
    ensures Grows(db, ExpireOne(db, a, now))
  {
  }

  lemma ExpireUpToGrows(db: Db, k: nat, now: int)
    requires Linked(db) && k <= |db.leases|
    ensures Grows(db, ExpireUpTo(db, k, now))
  {
    forall d: Db, a: nat | Linked(d) && a < |d.leases| && a < |db.leases| && Grows(db, d) ensures Grows(db, ExpireOne(d, a, now)) {
      ExpireOneGrows(d, a, now);
      GrowsTransitive(db, d, ExpireOne(d, a, now));
    }
    ExpireInduction(db, k, now, (d: Db, a: nat) => Grows(db, d));
  }

  lemma ExpireGrows(db: Db, now: int)
    requires Linked(db)
    ensures Grows(db, Expire(db, now))
  {
    var d := ExpireUpTo(db, |db.leases|, now);
    ExpireUpToGrows(db, |db.leases|, now);
    RefreshGrows(d, OverdueRuns(db, now));
    GrowsTransitive(db, d, Expire(db, now));
  }

  lemma AssignGrows(db: Db, cap: Capabilities, token: nat, now: int, term: int)
    requires Linked(db)
    ensures Grows(db, Assign(db, cap, token, now, term))
  {
  }

  lemma ClaimGrows(db: Db, cap: Capabilities, token: nat, now: int, term: int)
    requires Linked(db)
    ensures Grows(db, Claim(db, cap, token, now, term))
  {
    ExpireGrows(db, now);
    AssignGrows(Expire(db, now), cap, token, now, term);
    GrowsTransitive(db, Expire(db, now), Claim(db, cap, token, now, term));
  }

  lemma FirstResultGrows(db: Db, a: nat, p: Payload)
    requires Linked(db) && a < |db.leases| && LeaseOk(db.leases[a]) && db.leases[a].status.Active?
    requires p.Finished? && db.jobs[db.leases[a].job].kind.Generate? ==> !p.output.Malformed?
    ensures Grows(db, FirstResult(db, a, p))
  {
    FirstResultShape(db, a, p);
  }

  lemma DeliverGrows(db: Db, a: nat, token: nat, raw: Payload, now: int)
    requires Inv(db)
    ensures Grows(db, Deliver(db, a, token, raw, now).0)
  {
    DeliverCases(db, a, token, raw, now);
    if Deliver(db, a, token, raw, now).0 != db {
      assert LeaseOk(db.leases[a]);
      FirstResultGrows(db, a, Canonical(raw));
      RefreshAllGrows(db, FirstResult(db, a, Canonical(raw)));
    } else {
      GrowsReflexive(db);
    }
  }

  lemma GrowsReflexive(db: Db)
    ensures Grows(db, db)
  {
  }

  lemma RefreshAllGrows(db: Db, d: Db)
    requires Linked(d) && Grows(db, d)
    ensures Grows(db, RefreshAll(d))
  {
    RefreshGrows(d, Below(|d.runs|));
    GrowsTransitive(db, d, RefreshAll(d));
  }

  lemma RecordGrows(db: Db, a: nat, v: Verdict)
    requires Linked(db) && Open(db, a)
    ensures Grows(db, Record(db, a, v))
  {
  }

  lemma AppendGrows(db: Db, added: seq<Job>)
    ensures Grows(db, db.(jobs := db.jobs + added))
  {
  }

  lemma SettleGrows(db: Db, a: nat, v: Verdict)
    requires Linked(db) && Open(db, a)
    ensures Grows(db, Settle(db, a, v))
  {
    var d := Record(db, a, v);
    RecordGrows(db, a, v);
    if Repairs(db, a, v) {
      var added := [RepairJob(db.jobs[db.leases[a].job], a)];
      AppendGrows(d, added);
      GrowsTransitive(db, d, d.(jobs := d.jobs + added));
    }
  }

  lemma JudgeGrows(db: Db, a: nat, v: Verdict)
    requires Linked(db)
    ensures Grows(db, Judge(db, a, v))
  {
    if Open(db, a) {
      var d := Settle(db, a, v);
      SettleGrows(db, a, v);
      RefreshGrows(d, Below(|d.runs|));
      GrowsTransitive(db, d, RefreshAll(d));
    }
  }

  lemma StopGroupGrows(db: Db, g: nat)
    requires Linked(db)
    ensures Grows(db, StopGroup(db, g))
  {
    if g < |db.groups| {
      var d := db.(groups := db.groups[g := StopLoop(db.groups[g])], jobs := CancelGroup(db.jobs, g), tasks := CloseTasks(db.tasks, g));
      assert Grows(db, d);
      RefreshGrows(d, Below(|d.runs|));
      GrowsTransitive(db, d, RefreshAll(d));
    }
  }

  lemma UncheckedGrows(db: Db, a: nat)
    requires Linked(db) && Open(db, a)
    ensures Grows(db, Unchecked(db, a))
  {
  }

  lemma StopUncheckedGrows(db: Db, a: nat)
    requires Linked(db)
    ensures Grows(db, StopUnchecked(db, a))
  {
    if Open(db, a) && db.jobs[db.leases[a].job].link.Some? {
      UncheckedGrows(db, a);
      StopGroupGrows(Unchecked(db, a), db.jobs[db.leases[a].job].link.value.group);
      GrowsTransitive(db, Unchecked(db, a), StopUnchecked(db, a));
    }
  }

  lemma InsertGroupJobGrows(db: Db, g: nat, t: nat, cost: nat, maxAssignments: nat, model: string, kind: Kind)
    requires Linked(db) && g < |db.groups| && t < |db.tasks|
    ensures Grows(db, InsertGroupJob(db, g, t, cost, maxAssignments, model, kind))
  {
    var d := GroupRun(db, g);
    assert Grows(db, d);
    var e := InsertGroupJob(db, g, t, cost, maxAssignments, model, kind);
    AppendGrows(d, e.jobs[|d.jobs|..]);
    assert e.jobs == d.jobs + e.jobs[|d.jobs|..];
    GrowsTransitive(db, d, e);
  }

  lemma DispatchGrows(db: Db, g: nat, o: Order, now: int)
    requires Linked(db)
    ensures Grows(db, Dispatch(db, g, o, now))
  {
    DispatchCases(db, g, o, now);
    if Buys(db, g, o, now) {
      var d := Charged(db, g, o, now);
      InsertGroupJobGrows(d, g, |db.tasks|, 2 * o.unit, LeaseLimit(o), o.model, o.kind);
      GrowsTransitive(db, d, Dispatch(db, g, o, now));
    } else if Dispatch(db, g, o, now) != db {
      StopGroupGrows(db, g);
    }
  }

  lemma SpendGrows(db: Db, t: nat, cost: nat)
    requires t < |db.tasks|
    ensures Grows(db, Spend(db, t, cost))
  {
  }

  lemma EnqueueCases(db: Db, t: nat, cost: nat, model: string, kind: Kind)
    requires Linked(db)
    ensures var d := EnqueueGroupJob(db, t, cost, model, kind).0;
            d == db || (t < |db.tasks| && d == InsertGroupJob(Spend(db, t, cost), db.tasks[t].group, t, cost, cost, model, kind))
  {
  }

  lemma EnqueueGroupJobGrows(db: Db, t: nat, cost: nat, model: string, kind: Kind)
    requires Linked(db)
    ensures Grows(db, EnqueueGroupJob(db, t, cost, model, kind).0)
  {
    EnqueueCases(db, t, cost, model, kind);
    if EnqueueGroupJob(db, t, cost, model, kind).0 == db {
      GrowsReflexive(db);
    } else {
      var d := Spend(db, t, cost);
      SpendGrows(db, t, cost);
      InsertGroupJobGrows(d, db.tasks[t].group, t, cost, cost, model, kind);
      GrowsTransitive(db, d, InsertGroupJob(d, db.tasks[t].group, t, cost, cost, model, kind));
    }
  }

  lemma SubmitGrows(db: Db, groups: seq<InitialGroup>, maxRepairs: nat, maxAssignments: nat, s: Settings)
    requires Linked(db)
    ensures Grows(db, Submit(db, groups, maxRepairs, maxAssignments, s).0)
  {
  }

  lemma EnqueueTaskGrows(db: Db, r: nat, model: string, task: TaskType)
    requires Linked(db)
    ensures Grows(db, EnqueueTask(db, r, model, task).0)
  {
  }

  lemma HeartbeatGrows(db: Db, a: nat, token: nat, now: int, term: int)
    requires Linked(db)
    ensures Grows(db, Heartbeat(db, a, token, now, term).0)
  {
  }

  lemma CreateGroupGrows(db: Db, maxWork: nat, maxTasks: nat)
    requires Linked(db)
    ensures Grows(db, CreateGroup(db, maxWork, maxTasks).0)
  {
  }

  lemma StartLoopGrows(db: Db, g: nat, deadline: int)
    requires Linked(db)
    ensures Grows(db, StartLoop(db, g, deadline).0)
  {
  }

  lemma AddTaskGrows(db: Db, g: nat, parent: Option<nat>, budget: nat)
    requires Linked(db)
    ensures Grows(db, AddTask(db, g, parent, budget).0)
  {
  }

  lemma SetTaskStatusGrows(db: Db, t: nat)
    requires Linked(db)
    ensures Grows(db, SetTaskStatus(db, t).0)
  {
  }

  lemma SmallStepGrows(db: Db, e: Event)
    requires Linked(db)
    requires e.ESubmit? || e.EEnqueueTask? || e.EHeartbeat? || e.ECreateGroup? || e.EStartLoop? || e.EAddTask? || e.ESetTaskStatus?
    ensures Grows(db, Step(db, e))
  {
    match e
    case ESubmit(groups, maxRepairs, maxAssignments, s) =>
      SubmitStep(db, groups, maxRepairs, maxAssignments, s);
      SubmitGrows(db, groups, maxRepairs, maxAssignments, s);
    case EEnqueueTask(r, model, task) =>
      EnqueueTaskStep(db, r, model, task);
      EnqueueTaskGrows(db, r, model, task);
    case EHeartbeat(a, token, now, term) =>
      HeartbeatStep(db, a, token, now, term);
      HeartbeatGrows(db, a, token, now, term);
    case ECreateGroup(maxWork, maxTasks) =>
      CreateGroupStep(db, maxWork, maxTasks);
      CreateGroupGrows(db, maxWork, maxTasks);
    case EStartLoop(g, deadline) =>
      StartLoopStep(db, g, deadline);
      StartLoopGrows(db, g, deadline);
    case EAddTask(g, parent, budget) =>
      AddTaskStep(db, g, parent, budget);
      AddTaskGrows(db, g, parent, budget);
    case ESetTaskStatus(t) =>
      SetTaskStatusStep(db, t);
      SetTaskStatusGrows(db, t);
  }

  /** No transaction reopens a solved run or a stopped group, or rewrites a result or a verdict. */
  lemma StepGrows(db: Db, e: Event)
    requires Inv(db)
    ensures Grows(db, Step(db, e))
  {
    match e
    case EExpire(now) =>
      ExpireStep(db, now);
      ExpireGrows(db, now);
    case EClaim(cap, token, now, term) =>
      ClaimStep(db, cap, token, now, term);
      ClaimGrows(db, cap, token, now, term);
    case EDeliver(a, token, p, now) =>
      DeliverStep(db, a, token, p, now);
      DeliverGrows(db, a, token, p, now);
    case EJudge(a, v) =>
      JudgeStep(db, a, v);
      JudgeGrows(db, a, v);
    case EEnqueueGroupJob(t, cost, model, kind) =>
      EnqueueGroupJobStep(db, t, cost, model, kind);
      EnqueueGroupJobGrows(db, t, cost, model, kind);
    case EDispatch(g, o, now) =>
      DispatchStep(db, g, o, now);
      DispatchGrows(db, g, o, now);
    case EStop(g) =>
      StopStep(db, g);
      StopGroupGrows(db, g);
    case EStopUnchecked(a) =>
      StopUncheckedStep(db, a);
      StopUncheckedGrows(db, a);
    case _ => SmallStepGrows(db, e);
  }

  lemma {:induction false} HistoryGrows(earlier: seq<Event>, later: seq<Event>)
    ensures Grows(After(earlier), After(earlier + later))
  {
    if later == [] {
      PlusNothing(earlier);
    } else {
      var front := later[..|later| - 1];
      SplitLast(earlier, later);
      HistoryGrows(earlier, front);
      AlwaysInv(earlier + front);
      StepGrows(After(earlier + front), later[|later| - 1]);
      GrowsTransitive(After(earlier), After(earlier + front), After(earlier + later));
    }
  }

  // ---------------------------------------------------------- run status

  /** A solved run stays solved, whatever verdicts, retries and dispatches follow. */
  lemma SolvedForever(earlier: seq<Event>, later: seq<Event>, r: nat)
    requires r < |After(earlier).runs| && After(earlier).runs[r].status.Solved?
    ensures r < |After(earlier + later).runs| && After(earlier + later).runs[r].status.Solved?
  {
    HistoryGrows(earlier, later);
    assert RunGrows(After(earlier).runs[r], After(earlier + later).runs[r]);
  }

  /** The four statuses, read after any history. */
  lemma StatusMeans(events: seq<Event>, r: nat)
    requires r < |After(events).runs|
    ensures var db := After(events); var status := db.runs[r].status;
            && (status.Solved? <==> HasProof(db, r))
            && (status.Running? ==> HasLive(db.jobs, r))
            && (status.Exhausted? ==> !HasLive(db.jobs, r))
            && (Terminal(status) ==> !HasQueued(db, r))
  {
    AlwaysInv(events);
    assert RunOk(After(events), r);
  }

  // ------------------------------------------------------- lease queue laws

  /** At most one live lease per job, a spare assignment for every queued job, at most one attempt. */
  lemma LeaseQueueLaws(events: seq<Event>, j: nat)
    requires j < |After(events).jobs|
    ensures var db := After(events); var job := db.jobs[j];
            && (job.status.Assigned? <==> exists a | 0 <= a < |db.leases| :: db.leases[a].job == j && db.leases[a].status.Active?)
            && (forall a, b | 0 <= a < b < |db.leases| && db.leases[a].job == j && db.leases[b].job == j ::
                  !(db.leases[a].status.Active? && db.leases[b].status.Active?)
                  && !(db.leases[a].attempt.Some? && db.leases[b].attempt.Some?))
            && Count(db.leases, j, Budgeted) <= job.maxAssignments
            && (job.status.Queued? ==> Count(db.leases, j, Budgeted) < job.maxAssignments)
            && (job.status.Queued? ==> forall a | 0 <= a < |db.leases| && db.leases[a].job == j :: db.leases[a].attempt.None?)
  {
    AlwaysInv(events);
    var db := After(events);
    assert JobOk(db.leases, db.jobs[j], j);
    if db.jobs[j].status.Assigned? {
      var a := CountWitness(db.leases, j, OnLease);
    }
    forall a | 0 <= a < |db.leases| && db.leases[a].job == j
      ensures db.leases[a].status.Active? ==> db.jobs[j].status.Assigned?
      ensures db.leases[a].attempt.Some? ==> !db.jobs[j].status.Queued?
    {
      if db.leases[a].status.Active? {
        CountMember(db.leases, a, j, OnLease);
      }
      if db.leases[a].attempt.Some? {
        CountMember(db.leases, a, j, Attempted);
      }
    }
    forall a, b | 0 <= a < b < |db.leases| && db.leases[a].job == j && db.leases[b].job == j
      ensures !(db.leases[a].status.Active? && db.leases[b].status.Active?)
      ensures !(db.leases[a].attempt.Some? && db.leases[b].attempt.Some?)
    {
      if db.leases[a].status.Active? && db.leases[b].status.Active? {
        CountTwo(db.leases, a, b, j, OnLease);
      }
      if db.leases[a].attempt.Some? && db.leases[b].attempt.Some? {
        CountTwo(db.leases, a, b, j, Attempted);
      }
    }
  }

  /** A job that has an attempt is never queued again. */
  lemma AttemptedNeverQueued(earlier: seq<Event>, later: seq<Event>, a: nat)
    requires a < |After(earlier).leases| && After(earlier).leases[a].attempt.Some?
    ensures var d := After(earlier + later); a < |d.leases| && d.leases[a].job < |d.jobs| && !d.jobs[d.leases[a].job].status.Queued?
  {
    HistoryGrows(earlier, later);
    var d := After(earlier + later);
    assert LeaseGrows(After(earlier).leases[a], d.leases[a]);
    LeaseQueueLaws(earlier + later, d.leases[a].job);
  }

  // ---------------------------------------------------------------- lineage

  /** A repair job answers one Lean rejection in its own run, inherits that job's model, settings and
      retry limit one level deeper, and is the only child of the rejected attempt. */
  lemma RepairLineage(events: seq<Event>, j: nat)
    requires j < |After(events).jobs| && After(events).jobs[j].parent.Some?
    ensures var db := After(events); var a := db.jobs[j].parent.value;
            && a < |db.leases| && db.leases[a].Verdict() == Some(LeanRejected)
            && db.jobs[db.leases[a].job].run == db.jobs[j].run
            && db.jobs[db.leases[a].job].depth + 1 == db.jobs[j].depth <= db.runs[db.jobs[j].run].maxRepairs
            && Inherits(db.jobs[db.leases[a].job], db.jobs[j])
            && (forall i | 0 <= i < |db.jobs| && db.jobs[i].parent == Some(a) :: i == j)
  {
    AlwaysInv(events);
    assert Lineage(After(events), j);
  }

  // ------------------------------------------------------------ lease clocks

  /** The time at which an event reads the clock. */
  function Clock(e: Event): Option<int> {
    match e
    case EExpire(now) => Some(now)
    case EClaim(_, _, now, _) => Some(now)
    case EHeartbeat(_, _, now, _) => Some(now)
    case EDeliver(_, _, _, now) => Some(now)
    case _ => None
  }

  /** The lease has ended, or has run out by time t. */
  ghost predicate Lapsed(db: Db, a: nat, t: int) {
    a < |db.leases| && (!db.leases[a].status.Active? || db.leases[a].expires <= t)
  }

  lemma SweepLapses(db: Db, now: int, a: nat, t: int)
    requires Linked(db) && Lapsed(db, a, t)
    ensures Lapsed(Expire(db, now), a, t)
  {
    ExpireUpToShape(db, |db.leases|, now);
  }

  lemma DeliveryLapses(db: Db, b: nat, token: nat, raw: Payload, now: int, a: nat, t: int)
    requires Linked(db) && Lapsed(db, a, t)
    ensures Lapsed(Deliver(db, b, token, raw, now).0, a, t)
  {
    DeliverCases(db, b, token, raw, now);
    if Deliver(db, b, token, raw, now).0 != db {
      FirstResultShape(db, b, Canonical(raw));
    }
  }

  lemma LapsedStep(db: Db, e: Event, a: nat, t: int)
    requires Linked(db) && Lapsed(db, a, t) && (Clock(e).Some? ==> t <= Clock(e).value)
    ensures Lapsed(Step(db, e), a, t)
  {
    match e
    case EExpire(now) =>
      ExpireStep(db, now);
      SweepLapses(db, now, a, t);
    case EClaim(_, _, now, _) => SweepLapses(db, now, a, t);
    case EDeliver(b, token, raw, now) =>
      DeliverStep(db, b, token, raw, now);
      DeliveryLapses(db, b, token, raw, now, a, t);
    case EHeartbeat(b, token, now, term) =>
      HeartbeatStep(db, b, token, now, term);
      HeartbeatLapses(db, b, token, now, term, a, t);
    case EJudge(b, v) =>
      JudgeStep(db, b, v);
      VerdictLapses(db, b, v, a, t);
    case _ => SameLeases(db, e);
  }

  lemma HeartbeatLapses(db: Db, b: nat, token: nat, now: int, term: int, a: nat, t: int)
    requires Linked(db) && Lapsed(db, a, t) && t <= now
    ensures Lapsed(Heartbeat(db, b, token, now, term).0, a, t)
  {
  }

  /** A verdict writes nothing to the assignments but itself. */
  lemma JudgeLeases(db: Db, b: nat, v: Verdict)
    requires Linked(db)
    ensures Judge(db, b, v).leases
         == if Open(db, b) then db.leases[b := db.leases[b].(attempt := Some(db.leases[b].attempt.value.(verdict := Some(v))))]
            else db.leases
  {
  }

  lemma VerdictLapses(db: Db, b: nat, v: Verdict, a: nat, t: int)
    requires Linked(db) && Lapsed(db, a, t)
    ensures Lapsed(Judge(db, b, v), a, t)
  {
    JudgeLeases(db, b, v);
  }

  /** A lease that has run out is never revived: whatever happens from time t on, no heartbeat
      extends it and no first result is accepted for it. */
  lemma {:induction false} LapsedForever(earlier: seq<Event>, later: seq<Event>, a: nat, t: int)
    requires Lapsed(After(earlier), a, t)
    requires forall k | 0 <= k < |later| :: Clock(later[k]).Some? ==> t <= Clock(later[k]).value
    ensures Lapsed(After(earlier + later), a, t)
    ensures forall token, raw, now | t <= now && After(earlier + later).leases[a].result.None? ::
              !Deliver(After(earlier + later), a, token, raw, now).1.Accepted?
  {
    if later == [] {
      PlusNothing(earlier);
    } else {
      LapsedForever(earlier, later[..|later| - 1], a, t);
      LapsedStep(After(earlier + later[..|later| - 1]), later[|later| - 1], a, t);
      SplitLast(earlier, later);
    }
  }

  lemma ExpireSparesLive(db: Db, now: int, a: nat)
    requires Linked(db) && a < |db.leases| && now < db.leases[a].expires
    ensures a < |Expire(db, now).leases| && Expire(db, now).leases[a] == db.leases[a]
  {
    ExpireUpToShape(db, |db.leases|, now);
  }

  lemma ClaimSparesLive(db: Db, cap: Capabilities, token: nat, now: int, term: int, a: nat)
    requires Linked(db) && a < |db.leases| && now < db.leases[a].expires
    ensures a < |Claim(db, cap, token, now, term).leases| && Claim(db, cap, token, now, term).leases[a] == db.leases[a]
  {
    ExpireSparesLive(db, now, a);
  }

  lemma JudgeSparesLive(db: Db, b: nat, v: Verdict, a: nat)
    requires Inv(db) && a < |db.leases| && db.leases[a].status.Active?
    ensures a < |Judge(db, b, v).leases| && Judge(db, b, v).leases[a] == db.leases[a]
  {
    JudgeLeases(db, b, v);
    assert LeaseOk(db.leases[a]);
  }

  /** Until its time a live lease is its worker's: only that worker's heartbeats and result touch it. */
  lemma LiveLeaseStays(db: Db, e: Event, a: nat)
    requires Inv(db) && a < |db.leases| && db.leases[a].status.Active?
    requires Clock(e).Some? ==> Clock(e).value < db.leases[a].expires
    requires (e.EHeartbeat? || e.EDeliver?) ==> e.lease != a || e.token != db.leases[a].token
    ensures a < |Step(db, e).leases| && Step(db, e).leases[a] == db.leases[a]
  {
    match e
    case EExpire(now) =>
      ExpireStep(db, now);
      ExpireSparesLive(db, now, a);
    case EClaim(cap, token, now, term) =>
      ClaimStep(db, cap, token, now, term);
      ClaimSparesLive(db, cap, token, now, term, a);
    case EHeartbeat(b, token, now, term) => HeartbeatStep(db, b, token, now, term);
    case EDeliver(b, token, raw, now) =>
      DeliverStep(db, b, token, raw, now);
      WrongToken(db, b, token, raw, now, a);
    case EJudge(b, v) =>
      JudgeStep(db, b, v);
      JudgeSparesLive(db, b, v, a);
    case _ => SameLeases(db, e);
  }

  lemma WrongToken(db: Db, b: nat, token: nat, raw: Payload, now: int, a: nat)
    requires Linked(db) && a < |db.leases| && (b != a || token != db.leases[a].token)
    ensures var d := Deliver(db, b, token, raw, now).0; a < |d.leases| && d.leases[a] == db.leases[a]
  {
    DeliverCases(db, b, token, raw, now);
    if Deliver(db, b, token, raw, now).0 != db {
      FirstResultShape(db, b, Canonical(raw));
    }
  }

  // -------------------------------------------------------- result delivery

  /** Is event k of a history the one that first records a result for assignment a? */
  predicate Records(db: Db, e: Event, a: nat)
    requires Linked(db)
  {
    e.EDeliver? && e.lease == a && a < |db.leases| && db.leases[a].result.None?
    && Deliver(db, a, e.token, e.payload, e.now).1.Accepted?
  }

  function Recordings(events: seq<Event>, a: nat): nat {
    if events == [] then 0
    else
      var front := events[..|events| - 1];
      Recordings(front, a) + One(Records(After(front), events[|events| - 1], a))
  }

  lemma DeliverRecords(db: Db, a: nat, token: nat, raw: Payload, now: int)
    requires Inv(db) && a < |db.leases| && db.leases[a].result.None?
    requires Deliver(db, a, token, raw, now).1.Accepted?
    ensures var d := Deliver(db, a, token, raw, now).0;
            a < |d.leases| && d.leases[a].result == Some(Canonical(raw))
  {
    DeliverCases(db, a, token, raw, now);
    FirstResultShape(db, a, Canonical(raw));
  }

  lemma RecordsResult(db: Db, e: Event, a: nat)
    requires Inv(db) && Records(db, e, a)
    ensures a < |Step(db, e).leases| && Step(db, e).leases[a].result == Some(Canonical(e.payload))
  {
    DeliverStep(db, a, e.token, e.payload, e.now);
    DeliverRecords(db, a, e.token, e.payload, e.now);
  }

  lemma {:induction false} RecordingsCount(events: seq<Event>, a: nat)
    ensures Recordings(events, a) == One(a < |After(events).leases| && After(events).leases[a].result.Some?)
  {
    if events != [] {
      var front := events[..|events| - 1];
      var e := events[|events| - 1];
      var db := After(front);
      RecordingsCount(front, a);
      AlwaysInv(front);
      StepGrows(db, e);
      if Records(db, e, a) {
        RecordsResult(db, e, a);
      } else if a < |db.leases| {
        assert LeaseGrows(db.leases[a], Step(db, e).leases[a]) && LeaseOk(db.leases[a]);
        if db.leases[a].result.None? {
          OnlyDeliveryRecords(db, e, a);
        }
      } else if a < |Step(db, e).leases| {
        NewLeasesAreBlank(db, e, a);
      }
    }
  }

  /** Only these transactions write to the assignments table. */
  predicate WritesLeases(e: Event) {
    e.EExpire? || e.EClaim? || e.EHeartbeat? || e.EDeliver? || e.EJudge?
  }

  lemma SameLeases(db: Db, e: Event)
    requires Linked(db) && !WritesLeases(e)
    ensures Step(db, e).leases == db.leases
  {
    match e
    case EStopUnchecked(b) => StopUncheckedLeases(db, b);
    case EDispatch(g, o, now) => DispatchLeases(db, g, o, now);
    case EEnqueueGroupJob(_, _, _, _) =>
    case _ =>
  }

  lemma DispatchLeases(db: Db, g: nat, o: Order, now: int)
    requires Linked(db)
    ensures Dispatch(db, g, o, now).leases == db.leases
  {
    DispatchCases(db, g, o, now);
  }

  lemma StopUncheckedLeases(db: Db, b: nat)
    requires Linked(db)
    ensures StopUnchecked(db, b).leases == db.leases
  {
  }

  lemma OnlyDeliveryRecords(db: Db, e: Event, a: nat)
    requires Inv(db) && a < |db.leases| && db.leases[a].result.None? && !Records(db, e, a)
    ensures a < |Step(db, e).leases| && Step(db, e).leases[a].result.None?
  {
    if !WritesLeases(e) {
      SameLeases(db, e);
    } else if e.EExpire? || e.EClaim? {
      ExpireSweeps(db, e.now, a);
    } else if e.EDeliver? {
      DeliveryElsewhere(db, e.lease, e.token, e.payload, e.now, a);
    } else if e.EJudge? {
      JudgeResults(db, e.lease, e.verdict, a);
    }
  }

  lemma JudgeResults(db: Db, b: nat, v: Verdict, a: nat)
    requires Linked(db) && a < |db.leases|
    ensures |Judge(db, b, v).leases| == |db.leases| && Judge(db, b, v).leases[a].result == db.leases[a].result
  {
    JudgeLeases(db, b, v);
  }

  lemma DeliveryElsewhere(db: Db, b: nat, token: nat, raw: Payload, now: int, a: nat)
    requires Linked(db) && a < |db.leases|
    requires Deliver(db, b, token, raw, now).1.Accepted? && db.leases[b].result.None? ==> a != b
    ensures a < |Deliver(db, b, token, raw, now).0.leases| && Deliver(db, b, token, raw, now).0.leases[a] == db.leases[a]
  {
    if Deliver(db, b, token, raw, now).0 != db {
      FirstResultShape(db, b, Canonical(raw));
    }
  }

  lemma GrantedBlank(db: Db, cap: Capabilities, token: nat, now: int, term: int, a: nat)
    requires Linked(db) && |db.leases| <= a < |Claim(db, cap, token, now, term).leases|
    ensures Claim(db, cap, token, now, term).leases[a].result.None?
  {
    ExpireUpToShape(db, |db.leases|, now);
  }

  lemma OnlyClaimsGrant(db: Db, e: Event)
    requires Inv(db) && !e.EClaim?
    ensures |Step(db, e).leases| == |db.leases|
  {
    match e
    case EExpire(now) =>
      ExpireStep(db, now);
      ExpireUpToShape(db, |db.leases|, now);
    case EHeartbeat(b, token, now, term) => HeartbeatStep(db, b, token, now, term);
    case EDeliver(b, token, raw, now) =>
      DeliverStep(db, b, token, raw, now);
      if Deliver(db, b, token, raw, now).0 != db {
        FirstResultShape(db, b, Canonical(raw));
      }
    case EJudge(b, v) =>
      JudgeStep(db, b, v);
      JudgeLeases(db, b, v);
    case _ => SameLeases(db, e);
  }

  lemma NewLeasesAreBlank(db: Db, e: Event, a: nat)
    requires Inv(db) && |db.leases| <= a < |Step(db, e).leases|
    ensures Step(db, e).leases[a].result.None?
  {
    if e.EClaim? {
      ClaimStep(db, e.cap, e.token, e.now, e.term);
      GrantedBlank(db, e.cap, e.token, e.now, e.term, a);
    } else {
      OnlyClaimsGrant(db, e);
    }
  }

  /** Deliveries of a result for assignment a that change any table. */
  function Effects(events: seq<Event>, a: nat): nat {
    if events == [] then 0
    else
      var front := events[..|events| - 1];
      var e := events[|events| - 1];
      Effects(front, a) + One(e.EDeliver? && e.lease == a && Step(After(front), e) != After(front))
  }

  lemma EffectIsRecording(db: Db, e: Event, a: nat)
    requires Linked(db) && e.EDeliver? && e.lease == a && Step(db, e) != db
    ensures Records(db, e, a)
  {
  }

  lemma {:induction false} EffectsAreRecordings(events: seq<Event>, a: nat)
    ensures Effects(events, a) <= Recordings(events, a)
  {
    if events != [] {
      var db := After(events[..|events| - 1]);
      var e := events[|events| - 1];
      EffectsAreRecordings(events[..|events| - 1], a);
      if e.EDeliver? && e.lease == a && Step(db, e) != db {
        EffectIsRecording(db, e, a);
      }
    }
  }

  /** Whatever is lost, duplicated, delayed or reordered, an assignment takes effect at most once. */
  lemma EffectAtMostOnce(events: seq<Event>, a: nat)
    ensures Effects(events, a) <= 1
  {
    EffectsAreRecordings(events, a);
    RecordingsCount(events, a);
  }

  predicate Deliverable(db: Db, a: nat, raw: Payload)
    requires Linked(db) && a < |db.leases|
  {
    raw.Finished? ==> ValidOutput(db.jobs[db.leases[a].job].kind, raw.output)
  }

  /** After the first recording, resends of that payload are acknowledged and all others
      refused, and neither changes any table. */
  lemma Redelivery(events: seq<Event>, a: nat, token: nat, raw: Payload, now: int)
    requires var db := After(events); a < |db.leases| && db.leases[a].result.Some?
    ensures var db := After(events); var (d, reply) := Deliver(db, a, token, raw, now);
            && d == db
            && (reply.Accepted? ==> db.leases[a].result == Some(Canonical(raw)))
            && (db.leases[a].result == Some(Canonical(raw)) && token == db.leases[a].token && Deliverable(db, a, raw)
                ==> reply.Accepted?)
  {
  }

  lemma AcceptedIsRecorded(db: Db, a: nat, token: nat, raw: Payload, now: int)
    requires Inv(db) && Deliver(db, a, token, raw, now).1.Accepted?
    ensures var d := Deliver(db, a, token, raw, now).0;
            && a < |d.leases| && d.leases[a].result == Some(Canonical(raw)) && d.leases[a].token == token
            && !d.leases[a].status.Active? && Deliverable(d, a, raw)
  {
    if db.leases[a].result.None? {
      FirstResultShape(db, a, Canonical(raw));
    } else {
      assert LeaseOk(db.leases[a]);
    }
  }

  /** The worker that was told "accepted" and resends the same payload later is told so again. */
  lemma ResendAccepted(earlier: seq<Event>, later: seq<Event>, a: nat, token: nat, raw: Payload, now: int, again: int)
    requires Deliver(After(earlier), a, token, raw, now).1.Accepted?
    ensures var sent := earlier + [EDeliver(a, token, raw, now)];
            Deliver(After(sent + later), a, token, raw, again) == (After(sent + later), Accepted)
  {
    var sent := earlier + [EDeliver(a, token, raw, now)];
    AlwaysInv(earlier);
    AcceptedIsRecorded(After(earlier), a, token, raw, now);
    DeliveredAfter(earlier, a, token, raw, now);
    HistoryGrows(sent, later);
    ResendOn(After(sent), After(sent + later), a, token, raw, again);
  }

  lemma DeliveredAfter(events: seq<Event>, a: nat, token: nat, raw: Payload, now: int)
    ensures After(events + [EDeliver(a, token, raw, now)]) == Deliver(After(events), a, token, raw, now).0
  {
    AppendParts(events, EDeliver(a, token, raw, now));
    DeliverStep(After(events), a, token, raw, now);
  }

  lemma ResendOn(db: Db, d: Db, a: nat, token: nat, raw: Payload, now: int)
    requires Linked(db) && Linked(d) && Grows(db, d)
    requires a < |db.leases| && db.leases[a].result == Some(Canonical(raw)) && db.leases[a].token == token
    requires !db.leases[a].status.Active? && Deliverable(db, a, raw)
    ensures Deliver(d, a, token, raw, now) == (d, Accepted)
  {
    assert LeaseGrows(db.leases[a], d.leases[a]);
    assert JobGrows(db.jobs[db.leases[a].job], d.jobs[db.leases[a].job]);
  }

  /** A first result for a lease that has ended, or that the clock has overtaken, changes nothing. */
  lemma LateFirstResult(events: seq<Event>, a: nat, token: nat, raw: Payload, now: int)
    requires a < |After(events).leases| && After(events).leases[a].result.None?
    requires !After(events).leases[a].status.Active? || After(events).leases[a].expires <= now
    ensures var (d, reply) := Deliver(After(events), a, token, raw, now); d == After(events) && !reply.Accepted?
  {
  }
}
