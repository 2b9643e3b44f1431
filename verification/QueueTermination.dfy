/**
 Every run and every group comes to rest: a natural number falls with each claim, expiry,
 result and verdict.
 */
module QueueTermination {
  import opened Basics
  import opened Queue
  import opened QueueInvariant
  import opened QueueHistory
  import opened QueueRecords
  import opened QueueGroups
  import opened QueueBounds

  /** What a budgeted assignment has been through: granted, ended, judged. A pre-execution
      rejection gives its assignment back. */
  function LeaseWork(l: Lease): nat {
    if l.status.Rejected? then 0 else 1 + One(!l.status.Active?) + One(l.Verdict().Some?)
  }

  function Work(ls: seq<Lease>, who: nat -> bool): nat {
    if ls == [] then 0
    else
      var last := ls[|ls| - 1];
      Work(ls[..|ls| - 1], who) + if who(last.job) then LeaseWork(last) else 0
  }

  lemma {:induction false} WorkWithin(ls: seq<Lease>, who: nat -> bool)
    ensures Work(ls, who) <= 3 * Spent(ls, who)
  {
    if ls != [] {
      WorkWithin(ls[..|ls| - 1], who);
    }
  }

  /** ms continues ls: rows are kept in place and none loses work. */
  ghost predicate Continues(ls: seq<Lease>, ms: seq<Lease>, who: nat -> bool) {
    && |ls| <= |ms|
    && (forall a | 0 <= a < |ls| :: ms[a].job == ls[a].job && (who(ls[a].job) ==> LeaseWork(ls[a]) <= LeaseWork(ms[a])))
  }

  lemma {:induction false} WorkGrows(ls: seq<Lease>, ms: seq<Lease>, who: nat -> bool, k: nat)
    requires Continues(ls, ms, who)
    ensures Work(ls, who) <= Work(ms, who)
    ensures k < |ms| && who(ms[k].job) && (if k < |ls| then LeaseWork(ls[k]) < LeaseWork(ms[k]) else LeaseWork(ms[k]) > 0)
            ==> Work(ls, who) < Work(ms, who)
  {
    if ms == [] {
      assert ls == [];
    } else if |ls| < |ms| {
      WorkGrows(ls, ms[..|ms| - 1], who, k);
    } else {
      WorkGrows(ls[..|ls| - 1], ms[..|ms| - 1], who, k);
    }
  }

  /** Did lease k move on, in a way that a pre-execution rejection does not undo? */
  predicate MovedOn(db: Db, d: Db, k: nat) {
    k < |d.leases| && !d.leases[k].status.Rejected? &&
    (k >= |db.leases|
     || (db.leases[k].status.Active? && !d.leases[k].status.Active?)
     || (db.leases[k].Verdict().None? && d.leases[k].Verdict().Some?))
  }

  /** Steps left to run r: every claim, expiry, failure and verdict uses one up. */
  function StepsLeft(db: Db, r: nat): int
    requires r < |db.runs|
  {
    Allowance(db, r) - Work(db.leases, JobsIn(db.jobs, r))
  }

  /** Three steps for each assignment that the README bound allows. */
  function Allowance(db: Db, r: nat): int
    requires r < |db.runs|
  {
    ThreeSteps(Roots(db, r), db.runs[r].maxRepairs, db.runs[r].maxAssignments)
  }

  function ThreeSteps(chains: int, repairs: nat, retries: nat): int {
    3 * (chains * (1 + repairs) * retries)
  }

  lemma SameAllowance(db: Db, e: Event, r: nat)
    requires Inv(db) && r < |db.runs| && !OwnedByGroup(db, r) && !(e.EEnqueueTask? && e.run == r)
    ensures r < |Step(db, e).runs| && Allowance(Step(db, e), r) == Allowance(db, r)
  {
    RunStays(db, e, r);
    RootsStay(db, e, r);
  }

  lemma StepsLeftOf(db: Db, r: nat)
    requires Core(db) && GroupInv(db) && Bounded(db) && r < |db.runs| && !OwnedByGroup(db, r)
    ensures StepsLeft(db, r) >= 0
  {
    RunWithinBounds(db, r);
    WorkWithin(db.leases, JobsIn(db.jobs, r));
  }

  lemma StepsLeftNatural(events: seq<Event>, r: nat)
    requires r < |After(events).runs| && !OwnedByGroup(After(events), r)
    ensures StepsLeft(After(events), r) >= 0
  {
    AlwaysInv(events);
    AlwaysGrouped(events);
    AlwaysBounded(events);
    StepsLeftOf(After(events), r);
  }

  lemma {:induction false} WorkFrame(ls: seq<Lease>, who: nat -> bool, whom: nat -> bool)
    requires forall a | 0 <= a < |ls| :: who(ls[a].job) == whom(ls[a].job)
    ensures Work(ls, who) == Work(ls, whom)
  {
    if ls != [] {
      WorkFrame(ls[..|ls| - 1], who, whom);
    }
  }

  lemma LeaseWorkGrows(l: Lease, m: Lease)
    requires LeaseOk(l) && LeaseOk(m) && LeaseGrows(l, m) && (m.status.Rejected? ==> l.status.Rejected?)
    ensures LeaseWork(l) <= LeaseWork(m)
    ensures !m.status.Rejected? && ((l.status.Active? && !m.status.Active?) || (l.Verdict().None? && m.Verdict().Some?))
            ==> LeaseWork(l) < LeaseWork(m)
  {
  }

  /** No assignment of these jobs is rejected before execution in this step. */
  ghost predicate NoneRefused(db: Db, d: Db, who: nat -> bool) {
    forall a | 0 <= a < |db.leases| && a < |d.leases| && who(db.leases[a].job) ::
      d.leases[a].status.Rejected? ==> db.leases[a].status.Rejected?
  }

  lemma StepContinues(db: Db, e: Event, who: nat -> bool)
    requires Inv(db) && NoneRefused(db, Step(db, e), who)
    ensures Continues(db.leases, Step(db, e).leases, who)
  {
    var d := Step(db, e);
    StepGrows(db, e);
    StepKeeps(db, e);
    forall a | 0 <= a < |db.leases|
      ensures d.leases[a].job == db.leases[a].job
      ensures who(db.leases[a].job) ==> LeaseWork(db.leases[a]) <= LeaseWork(d.leases[a])
    {
      assert LeaseGrows(db.leases[a], d.leases[a]) && LeaseOk(db.leases[a]) && LeaseOk(d.leases[a]);
      if who(db.leases[a].job) {
        LeaseWorkGrows(db.leases[a], d.leases[a]);
      }
    }
  }

  /** who and whom pick the same ones among the jobs that have leases. */
  ghost predicate Agree(ls: seq<Lease>, who: nat -> bool, whom: nat -> bool) {
    forall a | 0 <= a < |ls| :: who(ls[a].job) == whom(ls[a].job)
  }

  lemma WorkStep(db: Db, e: Event, who: nat -> bool, whom: nat -> bool, k: nat)
    requires Inv(db) && Agree(db.leases, who, whom) && NoneRefused(db, Step(db, e), whom)
    ensures Work(db.leases, who) <= Work(Step(db, e).leases, whom)
    ensures MovedOn(db, Step(db, e), k) && whom(Step(db, e).leases[k].job)
            ==> Work(db.leases, who) < Work(Step(db, e).leases, whom)
  {
    var d := Step(db, e);
    StepContinues(db, e, whom);
    WorkFrame(db.leases, who, whom);
    if MovedOn(db, d, k) && k < |db.leases| {
      StepGrows(db, e);
      StepKeeps(db, e);
      assert LeaseGrows(db.leases[k], d.leases[k]) && LeaseOk(db.leases[k]) && LeaseOk(d.leases[k]);
      LeaseWorkGrows(db.leases[k], d.leases[k]);
    }
    WorkGrows(db.leases, d.leases, whom, k);
  }

  /** The jobs of a run, and those of a group, stay the same ones. */
  lemma SameOwners(db: Db, e: Event, r: nat, g: nat)
    requires Inv(db)
    ensures Agree(db.leases, JobsIn(db.jobs, r), JobsIn(Step(db, e).jobs, r))
    ensures Agree(db.leases, Members(db.jobs, g), Members(Step(db, e).jobs, g))
  {
    var d := Step(db, e);
    StepGrows(db, e);
    forall a | 0 <= a < |db.leases|
      ensures JobsIn(db.jobs, r)(db.leases[a].job) == JobsIn(d.jobs, r)(db.leases[a].job)
      ensures Members(db.jobs, g)(db.leases[a].job) == Members(d.jobs, g)(db.leases[a].job)
    {
      assert JobGrows(db.jobs[db.leases[a].job], d.jobs[db.leases[a].job]);
    }
  }

  lemma StepsLeftFall(db: Db, e: Event, r: nat, k: nat)
    requires Inv(db) && r < |db.runs| && !OwnedByGroup(db, r)
    requires NoneRefused(db, Step(db, e), JobsIn(Step(db, e).jobs, r))
    requires !(e.EEnqueueTask? && e.run == r)
    ensures var d := Step(db, e);
            && r < |d.runs| && StepsLeft(d, r) <= StepsLeft(db, r)
            && (MovedOn(db, d, k) && d.jobs[d.leases[k].job].run == r ==> StepsLeft(d, r) < StepsLeft(db, r))
  {
    SameAllowance(db, e, r);
    SameOwners(db, e, r, 0);
    WorkStep(db, e, JobsIn(db.jobs, r), JobsIn(Step(db, e).jobs, r), k);
  }

  lemma RunStays(db: Db, e: Event, r: nat)
    requires Inv(db) && r < |db.runs|
    ensures r < |Step(db, e).runs|
    ensures Step(db, e).runs[r].maxRepairs == db.runs[r].maxRepairs
    ensures Step(db, e).runs[r].maxAssignments == db.runs[r].maxAssignments
  {
    StepGrows(db, e);
    assert RunGrows(db.runs[r], Step(db, e).runs[r]);
  }

  /** Termination: unless a task is added to the run or a worker rejects an assignment before
      executing it, no transaction raises StepsLeft, and each claim, expiry, result or verdict
      on the run lowers it. */
  lemma StepsRunOut(events: seq<Event>, e: Event, r: nat, k: nat)
    requires r < |After(events).runs| && !OwnedByGroup(After(events), r)
    requires NoneRefused(After(events), Step(After(events), e), JobsIn(Step(After(events), e).jobs, r))
    requires !(e.EEnqueueTask? && e.run == r)
    ensures var db := After(events); var d := After(events + [e]);
            && r < |d.runs| && 0 <= StepsLeft(d, r) <= StepsLeft(db, r)
            && (MovedOn(db, d, k) && d.jobs[d.leases[k].job].run == r ==> StepsLeft(d, r) < StepsLeft(db, r))
  {
    AfterLast(events + [e], events, e);
    AlwaysInv(events);
    StepsLeftFall(After(events), e, r, k);
    StaysUngrouped(After(events), e, r);
    StepsLeftNatural(events + [e], r);
  }

  // ------------------------------------------------------------------- groups

  /** Steps left to group g: three for each unit of its work. Nothing is allowed for beyond max_work. */
  function GroupStepsLeft(db: Db, g: nat): int
    requires g < |db.groups|
  {
    3 * db.groups[g].maxWork - Work(db.leases, Members(db.jobs, g))
  }

  lemma GroupStepsNatural(events: seq<Event>, g: nat)
    requires g < |After(events).groups|
    ensures GroupStepsLeft(After(events), g) >= 0
  {
    GroupLeasesBounded(events, g);
    WorkWithin(After(events).leases, Members(After(events).jobs, g));
  }

  lemma GroupStepsFall(db: Db, e: Event, g: nat, k: nat)
    requires Inv(db) && g < |db.groups|
    requires NoneRefused(db, Step(db, e), Members(Step(db, e).jobs, g))
    ensures var d := Step(db, e);
            && g < |d.groups| && GroupStepsLeft(d, g) <= GroupStepsLeft(db, g)
            && (MovedOn(db, d, k) && d.jobs[d.leases[k].job].In(g) ==> GroupStepsLeft(d, g) < GroupStepsLeft(db, g))
  {
    SameOwners(db, e, 0, g);
    WorkStep(db, e, Members(db.jobs, g), Members(Step(db, e).jobs, g), k);
    StepGrows(db, e);
    assert GroupGrows(db.groups[g], Step(db, e).groups[g]);
  }

  /** Did some lease of the group move on? */
  ghost predicate GroupMoved(db: Db, d: Db, g: nat)
    requires Linked(d)
  {
    exists k: nat :: MovedOn(db, d, k) && d.jobs[d.leases[k].job].In(g)
  }

  /** How many of the later transactions move one of the group's leases on. */
  ghost function GroupMoves(earlier: seq<Event>, later: seq<Event>, g: nat): nat {
    if later == [] then 0
    else
      var front := later[..|later| - 1];
      GroupMoves(earlier, front, g) + One(GroupMoved(After(earlier + front), After(earlier + later), g))
  }

  /** No assignment of the group is rejected before execution in the later transactions. */
  ghost predicate NeverRefused(earlier: seq<Event>, later: seq<Event>, g: nat) {
    later == [] ||
    var front := later[..|later| - 1];
    && NeverRefused(earlier, front, g)
    && NoneRefused(After(earlier + front), After(earlier + later), Members(After(earlier + later).jobs, g))
  }

  /** Termination of groups, with no exception for tasks added by hand or for manual dispatch: from
      any moment on, the claims, expiries, results and verdicts on the group's jobs are at most the
      steps it has left, which are at most three for each unit of max_work. */
  lemma {:induction false} GroupRunsOut(earlier: seq<Event>, later: seq<Event>, g: nat)
    requires g < |After(earlier).groups| && NeverRefused(earlier, later, g)
    ensures g < |After(earlier + later).groups|
    ensures 0 <= GroupStepsLeft(After(earlier + later), g) <= GroupStepsLeft(After(earlier), g) - GroupMoves(earlier, later, g)
  {
    GroupStepsNatural(earlier, g);
    if later == [] {
      PlusNothing(earlier);
    } else {
      var front := later[..|later| - 1];
      GroupRunsOut(earlier, front, g);
      AfterLater(earlier, later);
      AlwaysInv(earlier + front);
      var db, d := After(earlier + front), After(earlier + later);
      if GroupMoved(db, d, g) {
        var k: nat :| MovedOn(db, d, k) && d.jobs[d.leases[k].job].In(g);
        GroupStepsFall(db, later[|later| - 1], g, k);
      } else {
        GroupStepsFall(db, later[|later| - 1], g, 0);
      }
      GroupStepsNatural(earlier + later, g);
    }
  }
}
