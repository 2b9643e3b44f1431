/**
 What submissions and the group operations do to the job tables, row by row.
 */
module GroupRules {
  import opened Basics
  import opened Queue
  import opened QueueInvariant
  import opened QueueHistory
  import opened QueueRecords
  import opened QueueRules
  import Store

  // -------------------------------------------------------------- submission

  /** How many chains the first n groups of a request start. */
  function ChainsBefore(groups: seq<InitialGroup>, n: nat): nat
    requires n <= |groups|
  {
    if n == 0 then 0 else ChainsBefore(groups, n - 1) + groups[n - 1].count
  }

  lemma {:induction false} ChainsCount(groups: seq<InitialGroup>, n: nat)
    requires n <= |groups|
    ensures ChainsBefore(groups, n) == InitialCount(groups[..n])
  {
    if n > 0 {
      TakeNext(groups, n - 1);
      ChainsCount(groups, n - 1);
    }
  }

  /** A submission is taken as a whole or not at all. Chain p of group i is one queued proof job of that
      group's model, at the depth of a root, and a seeded request counts its seed up over all chains. */
  lemma SubmitRule(db: Db, groups: seq<InitialGroup>, maxRepairs: nat, maxAssignments: nat, s: Settings)
    requires Linked(db)
    ensures var (d, reply) := Submit(db, groups, maxRepairs, maxAssignments, s);
            var valid := |groups| >= 1 && (forall i | 0 <= i < |groups| :: groups[i].count >= 1)
                         && ChainsBefore(groups, |groups|) <= 100 && maxRepairs <= 2 && 1 <= maxAssignments <= 100;
            && (!valid ==> d == db && reply.Invalid?)
            && (valid ==>
                  && reply.Accepted? && d == db.(runs := db.runs + [Run(Running, maxRepairs, maxAssignments)], jobs := d.jobs)
                  && db.jobs <= d.jobs && |d.jobs| == |db.jobs| + ChainsBefore(groups, |groups|))
  {
    ChainsCount(groups, |groups|);
    TakeAll(groups);
  }

  lemma SubmittedChain(db: Db, groups: seq<InitialGroup>, maxRepairs: nat, maxAssignments: nat, s: Settings, i: nat, p: nat)
    requires Linked(db) && Submit(db, groups, maxRepairs, maxAssignments, s).1.Accepted?
    requires i < |groups| && p < groups[i].count
    ensures var d := Submit(db, groups, maxRepairs, maxAssignments, s).0;
            var chain := ChainsBefore(groups, i) + p;
            && |db.jobs| + chain < |d.jobs|
            && d.jobs[|db.jobs| + chain]
               == Job(|db.runs|, Queued, groups[i].model, Generate,
                      Settings(s.temperature, if s.seed.Some? then Some(s.seed.value + chain) else None),
                      maxAssignments, None, 0, None)
  {
    var chain := ChainsBefore(groups, i) + p;
    ChainsCount(groups, i);
    Store.ChainsBefore(groups, i);
    Store.ChainModelOf(groups, i, chain);
  }

  // ------------------------------------------------------------ manual tasks

  ghost function TasksOf(tasks: seq<Task>, g: nat): set<nat> {
    Where(tasks, (task: Task) => task.group == g)
  }

  lemma {:induction false} TasksCount(tasks: seq<Task>, g: nat)
    ensures TaskCount(tasks, g) == |TasksOf(tasks, g)|
  {
    if tasks != [] {
      TasksCount(tasks[..|tasks| - 1], g);
      WhereLast(tasks, (task: Task) => task.group == g);
    }
  }

  /** A task added by hand is taken within the unit, depth, count and work limits, under an open parent of
      the same group, and its budget leaves the group's work. */
  lemma AddTaskRule(db: Db, g: nat, parent: Option<nat>, budget: nat)
    requires Linked(db)
    ensures var (d, reply) := AddTask(db, g, parent, budget);
            var depth := if parent.Some? && parent.value < |db.tasks| then db.tasks[parent.value].depth + 1 else 0;
            && (reply.Accepted? <==>
                  && 1 <= budget <= 32 && g < |db.groups| && depth <= 4
                  && (parent.Some? ==> parent.value < |db.tasks| && db.tasks[parent.value].group == g && db.tasks[parent.value].open)
                  && |TasksOf(db.tasks, g)| < db.groups[g].maxTasks && budget <= db.groups[g].remaining)
            && (reply.Invalid? <==> !(1 <= budget <= 32))
            && (if reply.Accepted?
                then d == db.(tasks := db.tasks + [Task(g, budget, budget, true, depth)],
                              groups := db.groups[g := db.groups[g].(remaining := db.groups[g].remaining - budget)])
                else d == db)
  {
    TasksCount(db.tasks, g);
  }

  /** The group's run after a job was put into it: made on first use, and running again if exhausted. */
  ghost predicate RunReady(db: Db, d: Db, g: nat, r: nat)
    requires g < |db.groups|
  {
    match db.groups[g].run
    case None =>
      && r == |db.runs| && d.runs == db.runs + [Run(Running, 0, 3)]
      && d.groups == db.groups[g := db.groups[g].(run := Some(r))]
    case Some(q) =>
      && r == q && q < |db.runs| && d.groups == db.groups
      && d.runs == if db.runs[q].status.Exhausted? then db.runs[q := db.runs[q].(status := Running)] else db.runs
  }

  lemma InsertRule(db: Db, g: nat, t: nat, cost: nat, maxAssignments: nat, model: string, kind: Kind)
    requires Linked(db) && g < |db.groups| && t < |db.tasks|
    ensures var d := InsertGroupJob(db, g, t, cost, maxAssignments, model, kind);
            && g < |d.groups| && d.groups[g].run.Some? && RunReady(db, d, g, d.groups[g].run.value)
            && d.leases == db.leases && d.tasks == db.tasks
            && d.jobs == db.jobs + [Job(d.groups[g].run.value, Queued, model, kind, Settings(false, None), maxAssignments,
                                        None, 0, Some(GroupLink(g, t, cost)))]
  {
  }

  /** A manual group job is taken while its group is not stopped, its task is open with work left, and
      its group's run is not over; the work comes out of the task, one unit for each assignment. */
  lemma EnqueueJobRule(db: Db, t: nat, cost: nat, model: string, kind: Kind)
    requires Linked(db)
    ensures var (d, reply) := EnqueueGroupJob(db, t, cost, model, kind);
            && (reply.Accepted? <==>
                  && 1 <= cost <= 32 && t < |db.tasks| && db.tasks[t].open && cost <= db.tasks[t].remaining
                  && var group := db.groups[db.tasks[t].group];
                     !group.loop.Stopped?
                     && (group.run.Some? ==> db.runs[group.run.value].status.Running? || db.runs[group.run.value].status.Exhausted?))
            && (reply.Invalid? <==> !(1 <= cost <= 32))
            && (!reply.Accepted? ==> d == db)
            && (reply.Accepted? ==>
                  var g := db.tasks[t].group;
                  && g < |d.groups| && d.groups[g].run.Some? && RunReady(db, d, g, d.groups[g].run.value)
                  && d.leases == db.leases
                  && d.tasks == db.tasks[t := db.tasks[t].(remaining := db.tasks[t].remaining - cost)]
                  && d.jobs == db.jobs + [Job(d.groups[g].run.value, Queued, model, kind, Settings(false, None), cost,
                                              None, 0, Some(GroupLink(g, t, cost)))])
  {
    if EnqueueGroupJob(db, t, cost, model, kind).1.Accepted? {
      InsertRule(Spend(db, t, cost), db.tasks[t].group, t, cost, cost, model, kind);
    }
  }

  /** A task joins a running run that no group owns, with the run's own retry limit. */
  lemma EnqueueTaskRule(db: Db, r: nat, model: string, task: TaskType)
    requires Linked(db)
    ensures var (d, reply) := EnqueueTask(db, r, model, task);
            && (reply.Accepted? <==> r < |db.runs| && db.runs[r].status.Running? && forall group | group in db.groups :: group.run != Some(r))
            && (reply.Accepted? ==>
                  d == db.(jobs := db.jobs + [Job(r, Queued, model, Respond(task), Settings(false, None), db.runs[r].maxAssignments, None, 0, None)]))
            && (!reply.Accepted? ==> d == db && reply.Conflict?)
  {
    if OwnedByGroup(db, r) {
      var g :| 0 <= g < |db.groups| && db.groups[g].run == Some(r);
      assert db.groups[g] in db.groups;
    }
  }

  // -------------------------------------------------------------- stop, buy

  /** The rows that a stop writes before runs are refreshed. */
  ghost predicate StopWritten(db: Db, mid: Db, g: nat) {
    && mid.runs == db.runs && mid.leases == db.leases
    && |mid.groups| == |db.groups| && |mid.jobs| == |db.jobs| && |mid.tasks| == |db.tasks|
    && (forall h | 0 <= h < |db.groups| ::
          mid.groups[h] == if h == g && db.groups[h].loop.Looping? then db.groups[h].(loop := Stopped) else db.groups[h])
    && (forall j | 0 <= j < |db.jobs| ::
          mid.jobs[j] == if db.jobs[j].status.Queued? && db.jobs[j].link.Some? && db.jobs[j].link.value.group == g
                         then db.jobs[j].(status := Cancelled) else db.jobs[j])
    && (forall t | 0 <= t < |db.tasks| ::
          mid.tasks[t] == if db.tasks[t].group == g then db.tasks[t].(open := false) else db.tasks[t])
  }

  function Stopping(db: Db, g: nat): (mid: Db)
    requires Linked(db) && g < |db.groups|
    ensures Linked(mid)
  {
    db.(groups := db.groups[g := StopLoop(db.groups[g])], jobs := CancelGroup(db.jobs, g), tasks := CloseTasks(db.tasks, g))
  }

  lemma StopRows(db: Db, g: nat)
    requires Linked(db) && g < |db.groups|
    ensures StopWritten(db, Stopping(db, g), g)
  {
  }

  lemma StopTasks(db: Db, g: nat)
    requires Linked(db)
    ensures |StopGroup(db, g).tasks| == |db.tasks|
  {
  }

  /** A stop ends the group's loop, cancels its queued jobs and closes its tasks; jobs that a worker or
      the verifier holds go on. */
  lemma StopRule(db: Db, g: nat) returns (mid: Db)
    requires Linked(db)
    ensures g >= |db.groups| ==> StopGroup(db, g) == db
    ensures g < |db.groups| ==> Linked(mid) && StopWritten(db, mid, g) && Refreshed(mid, StopGroup(db, g))
  {
    mid := db;
    if g < |db.groups| {
      mid := Stopping(db, g);
      StopRows(db, g);
      RefreshRule(mid);
    }
  }

  /** A target that no check can be reserved for: cancelled while it awaits one, and its group stopped. */
  lemma StopUncheckedRule(db: Db, a: nat)
    requires Linked(db)
    ensures var undecided := a < |db.leases| && db.leases[a].attempt.Some? && db.leases[a].attempt.value.verdict.None?
                             && db.jobs[db.leases[a].job].link.Some?;
            && (!undecided ==> StopUnchecked(db, a) == db)
            && (undecided ==>
                  var j := db.leases[a].job;
                  var mid := if db.jobs[j].status.Verifying? then db.(jobs := db.jobs[j := db.jobs[j].(status := Cancelled)]) else db;
                  Linked(mid) && StopUnchecked(db, a) == StopGroup(mid, db.jobs[j].link.value.group))
  {
  }

  /** Would a group with this loop and these limits refuse the order? */
  ghost predicate OutOfMeans(db: Db, g: nat, o: Order, now: int)
    requires Linked(db) && g < |db.groups| && db.groups[g].loop.Looping?
    requires o.parent.Some? ==> o.parent.value < |db.tasks|
  {
    var group := db.groups[g];
    || (group.run.Some? && (db.runs[group.run.value].status.Solved? || db.runs[group.run.value].status.Errored?))
    || now >= group.loop.deadline
    || 2 * o.unit + o.held > group.remaining
    || (if o.dispatched.Some? then o.dispatched.value else |TasksOf(db.tasks, g)|) >= group.maxTasks
    || (o.parent.Some? && db.tasks[o.parent.value].depth + 1 > 4)
  }

  /** A dispatch for a looping group stops it if it is out of time, work, tasks or depth, or its run is
      over. Otherwise it takes two units of the model's cost from the group, for one closed-budget task
      and one job with two assignments, or as many as the planning calls left allow. */
  lemma DispatchRule(db: Db, g: nat, o: Order, now: int)
    requires Linked(db)
    ensures var d := Dispatch(db, g, o, now);
            if g >= |db.groups| || !db.groups[g].loop.Looping? || o.unit == 0 || o.planning == Some(0)
               || (o.parent.Some? && (o.parent.value >= |db.tasks| || db.tasks[o.parent.value].group != g))
            then d == db
            else if OutOfMeans(db, g, o, now) then d == StopGroup(db, g)
            else
              var depth := if o.parent.Some? then db.tasks[o.parent.value].depth + 1 else 0;
              var charged := db.(groups := db.groups[g := db.groups[g].(remaining := db.groups[g].remaining - 2 * o.unit)]);
              && g < |d.groups| && d.groups[g].run.Some? && RunReady(charged, d, g, d.groups[g].run.value)
              && d.leases == db.leases && d.tasks == db.tasks + [Task(g, 2 * o.unit, 0, true, depth)]
              && d.jobs == db.jobs + [Job(d.groups[g].run.value, Queued, o.model, o.kind, Settings(false, None),
                                          if o.planning.Some? && o.planning.value < 2 then o.planning.value else 2,
                                          None, 0, Some(GroupLink(g, |db.tasks|, 2 * o.unit)))]
  {
    TasksCount(db.tasks, g);
    DispatchCases(db, g, o, now);
    if Buys(db, g, o, now) {
      InsertRule(QueueHistory.Charged(db, g, o, now), g, |db.tasks|, 2 * o.unit, LeaseLimit(o), o.model, o.kind);
    }
  }

  // -------------------------------------------------------------- small steps

  /** A task is closed once. */
  lemma SetTaskStatusRule(db: Db, t: nat)
    requires Linked(db)
    ensures SetTaskStatus(db, t)
         == if t < |db.tasks| && db.tasks[t].open
            then (db.(tasks := db.tasks[t := db.tasks[t].(open := false)]), Accepted) else (db, Conflict)
  {
  }

  /** Only the holder extends a lease, and only while it has not run out. */
  lemma HeartbeatRule(db: Db, a: nat, token: nat, now: int, term: int)
    requires Linked(db)
    ensures var (d, reply) := Heartbeat(db, a, token, now, term);
            if a < |db.leases| && db.leases[a].token == token && db.leases[a].status.Active? && now < db.leases[a].expires
            then reply.Accepted? && d == db.(leases := db.leases[a := db.leases[a].(expires := now + term)])
            else reply.Conflict? && d == db
  {
  }

  /** A group is created with its work unspent, and a loop is started once. */
  lemma CreateRule(db: Db, maxWork: nat, maxTasks: nat, g: nat, deadline: int)
    requires Linked(db)
    ensures CreateGroup(db, maxWork, maxTasks)
         == if 1 <= maxWork <= 256 && 1 <= maxTasks <= 64
            then (db.(groups := db.groups + [Group(maxWork, maxWork, maxTasks, None, NoLoop)]), Accepted) else (db, Invalid)
    ensures StartLoop(db, g, deadline)
         == if g < |db.groups| && db.groups[g].loop.NoLoop?
            then (db.(groups := db.groups[g := db.groups[g].(loop := Looping(deadline))]), Accepted) else (db, Conflict)
  {
  }

  // ------------------------------------------------------------------- depth

  /** No task is deeper than the limit. */
  ghost predicate Shallow(db: Db) {
    forall t | 0 <= t < |db.tasks| :: db.tasks[t].depth <= 4
  }

  /** Tasks may be closed or charged, but stay where they are. */
  ghost predicate SameDepths(db: Db, d: Db) {
    |d.tasks| == |db.tasks| && forall t | 0 <= t < |db.tasks| :: d.tasks[t].depth == db.tasks[t].depth
  }

  lemma OldDepths(db: Db, e: Event)
    requires Inv(db) && Shallow(db) && |Step(db, e).tasks| <= |db.tasks|
    ensures Shallow(Step(db, e))
  {
    StepGrows(db, e);
    forall t | 0 <= t < |Step(db, e).tasks| ensures Step(db, e).tasks[t].depth <= 4 {
      assert TaskGrows(db.tasks[t], Step(db, e).tasks[t]);
    }
  }

  lemma NewTasks(db: Db, e: Event)
    requires Linked(db) && |Step(db, e).tasks| > |db.tasks|
    ensures e.EAddTask? || e.EDispatch?
  {
    match e
    case EExpire(now) =>
      ExpireStep(db, now);
      ExpireUpToShape(db, |db.leases|, now);
    case EClaim(cap, token, now, term) =>
      ClaimStep(db, cap, token, now, term);
      ExpireUpToShape(db, |db.leases|, now);
    case EDeliver(a, token, p, now) =>
      DeliverStep(db, a, token, p, now);
      DeliverCases(db, a, token, p, now);
      if Deliver(db, a, token, p, now).0 != db {
        FirstResultShape(db, a, Canonical(p));
      }
    case EJudge(a, v) =>
      JudgeStep(db, a, v);
      if Open(db, a) {
        SettledTasks(db, a, v);
      }
    case EEnqueueGroupJob(t, cost, model, kind) =>
      EnqueueGroupJobStep(db, t, cost, model, kind);
      EnqueueJobRule(db, t, cost, model, kind);
    case EStop(g) =>
      StopStep(db, g);
      StopTasks(db, g);
    case EStopUnchecked(a) =>
      StopUncheckedStep(db, a);
      StopUncheckedTasks(db, a);
    case _ =>
  }

  lemma StopUncheckedTasks(db: Db, a: nat)
    requires Linked(db)
    ensures |StopUnchecked(db, a).tasks| == |db.tasks|
  {
    StopUncheckedRule(db, a);
    if Open(db, a) && db.jobs[db.leases[a].job].link.Some? {
      StopTasks(Unchecked(db, a), db.jobs[db.leases[a].job].link.value.group);
    }
  }

  lemma StepShallow(db: Db, e: Event)
    requires Inv(db) && Shallow(db)
    ensures Shallow(Step(db, e))
  {
    if |Step(db, e).tasks| <= |db.tasks| {
      OldDepths(db, e);
    } else {
      NewTasks(db, e);
      if e.EAddTask? {
        AddTaskStep(db, e.group, e.parent, e.budget);
        AddTaskRule(db, e.group, e.parent, e.budget);
      } else {
        DispatchStep(db, e.group, e.order, e.now);
        StopTasks(db, e.group);
        DispatchRule(db, e.group, e.order, e.now);
      }
    }
  }

  /** However tasks are added, none is ever nested deeper than four levels. */
  lemma {:induction false} AlwaysShallow(events: seq<Event>)
    ensures Shallow(After(events))
  {
    if events != [] {
      var front := events[..|events| - 1];
      AlwaysShallow(front);
      AlwaysInv(front);
      StepShallow(After(front), events[|events| - 1]);
    }
  }
}
