/**
 What every run of the frontier keeps: finite dispatch, fresh keys, bounded planning, single
 corrections, and the reserve for completing the target.
 */
module FrontierHistory {
  import opened Basics
  import opened Strategies
  import opened Candidates
  import opened Frontier
  import Queue
  import QueueInvariant
  import QueueHistory
  import QueueRecords
  import Checks

  // ------------------------------------------------------ the job tables' part

  lemma LeaseStepRemaining(db: Db, e: Queue.Event, g: nat)
    requires QueueInvariant.Inv(db) && g < |db.groups| && QueueRecords.WritesLeases(e)
    ensures g < |Queue.Step(db, e).groups|
    ensures Queue.Step(db, e).groups[g].remaining == db.groups[g].remaining
  {
    match e
    case EExpire(now) =>
      Queue.ExpireStep(db, now);
      QueueInvariant.ExpireUpToShape(db, |db.leases|, now);
    case EClaim(cap, token, now, term) =>
      Queue.ClaimStep(db, cap, token, now, term);
      QueueInvariant.ExpireUpToShape(db, |db.leases|, now);
    case EDeliver(a, token, raw, now) =>
      Queue.DeliverStep(db, a, token, raw, now);
      QueueInvariant.DeliverCases(db, a, token, raw, now);
      if Queue.Deliver(db, a, token, raw, now).0 != db {
        QueueInvariant.FirstResultShape(db, a, Queue.Canonical(raw));
      }
    case EJudge(a, v) =>
      Queue.JudgeStep(db, a, v);
      JudgeElsewhere(db, a, v, g);
    case EHeartbeat(_, _, _, _) =>
  }

  lemma GroupStepRemaining(db: Db, e: Queue.Event, g: nat)
    requires QueueInvariant.Inv(db) && g < |db.groups|
    requires e.EDispatch? || e.EEnqueueGroupJob? || e.EStop? || e.EStopUnchecked?
    requires !(e.EDispatch? && e.group == g)
    ensures g < |Queue.Step(db, e).groups|
    ensures Queue.Step(db, e).groups[g].remaining == db.groups[g].remaining
  {
    match e
    case EDispatch(h, o, now) =>
      Queue.DispatchStep(db, h, o, now);
      DispatchElsewhere(db, h, o, now, g);
    case EEnqueueGroupJob(t, cost, model, kind) =>
      Queue.EnqueueGroupJobStep(db, t, cost, model, kind);
      EnqueueElsewhere(db, t, cost, model, kind, g);
    case EStop(h) =>
      Queue.StopStep(db, h);
      StopElsewhere(db, h, g);
    case EStopUnchecked(a) =>
      Queue.StopUncheckedStep(db, a);
      if Queue.Open(db, a) && db.jobs[db.leases[a].job].link.Some? {
        StopElsewhere(Queue.Unchecked(db, a), db.jobs[db.leases[a].job].link.value.group, g);
      }
  }

  /** Only a manual task or a dispatch spends a group's work. */
  lemma RemainingStays(db: Db, e: Queue.Event, g: nat)
    requires QueueInvariant.Inv(db) && g < |db.groups|
    requires !(e.EAddTask? && e.group == g) && !(e.EDispatch? && e.group == g)
    ensures g < |Queue.Step(db, e).groups|
    ensures Queue.Step(db, e).groups[g].remaining == db.groups[g].remaining
  {
    if QueueRecords.WritesLeases(e) {
      LeaseStepRemaining(db, e, g);
    } else if e.EDispatch? || e.EEnqueueGroupJob? || e.EStop? || e.EStopUnchecked? {
      GroupStepRemaining(db, e, g);
    }
  }

  lemma StopElsewhere(db: Db, h: nat, g: nat)
    requires Queue.Linked(db) && g < |db.groups|
    ensures |Queue.StopGroup(db, h).groups| == |db.groups|
    ensures Queue.StopGroup(db, h).groups[g].remaining == db.groups[g].remaining
    ensures Queue.StopGroup(db, h).groups[g].maxTasks == db.groups[g].maxTasks
    ensures |Queue.StopGroup(db, h).jobs| == |db.jobs|
  {
  }

  lemma JudgeElsewhere(db: Db, a: nat, v: Queue.Verdict, g: nat)
    requires Queue.Linked(db) && g < |db.groups|
    ensures |Queue.Judge(db, a, v).groups| == |db.groups|
    ensures Queue.Judge(db, a, v).groups[g].remaining == db.groups[g].remaining
  {
  }

  lemma DispatchElsewhere(db: Db, h: nat, o: Queue.Order, now: int, g: nat)
    requires Queue.Linked(db) && g < |db.groups| && h != g
    ensures |Queue.Dispatch(db, h, o, now).groups| == |db.groups|
    ensures Queue.Dispatch(db, h, o, now).groups[g].remaining == db.groups[g].remaining
  {
    QueueHistory.DispatchCases(db, h, o, now);
    if QueueHistory.Buys(db, h, o, now) {
    } else if Queue.Dispatch(db, h, o, now) != db {
      StopElsewhere(db, h, g);
    }
  }

  lemma EnqueueElsewhere(db: Db, t: nat, cost: nat, model: string, kind: Queue.Kind, g: nat)
    requires Queue.Linked(db) && g < |db.groups|
    ensures g < |Queue.EnqueueGroupJob(db, t, cost, model, kind).0.groups|
    ensures Queue.EnqueueGroupJob(db, t, cost, model, kind).0.groups[g].remaining == db.groups[g].remaining
  {
  }

  /** A frontier dispatch either buys one job at the admitted price, or buys nothing. */
  lemma DispatchBuys(db: Db, g: nat, o: Queue.Order, now: int)
    requires Queue.Linked(db) && g < |db.groups|
    ensures var d := Queue.Dispatch(db, g, o, now);
            && g < |d.groups| && d.groups[g].maxTasks == db.groups[g].maxTasks
            && (QueueHistory.Buys(db, g, o, now) ==>
                  && |d.jobs| == |db.jobs| + 1
                  && d.groups[g].remaining == db.groups[g].remaining - 2 * o.unit
                  && 2 * o.unit <= db.groups[g].remaining - o.held && !Queue.OverTaskLimit(db, g, o)
                  && d.jobs[|db.jobs|].link == Some(Queue.GroupLink(g, |db.tasks|, 2 * o.unit))
                  && d.jobs[|db.jobs|].maxAssignments == Queue.LeaseLimit(o))
            && (!QueueHistory.Buys(db, g, o, now) ==>
                  |d.jobs| == |db.jobs| && d.groups[g].remaining == db.groups[g].remaining)
  {
    QueueHistory.DispatchCases(db, g, o, now);
    if !QueueHistory.Buys(db, g, o, now) && Queue.Dispatch(db, g, o, now) != db {
      StopElsewhere(db, g, g);
    }
  }

  // --------------------------------------------------------------- invariant

  /** What decision i respected when it was made, given the decisions before it. */
  ghost predicate Fresh(k: Config, history: seq<Decision>, i: nat)
    requires i < |history|
  {
    var d, before := history[i], history[..i];
    && d.retry == CountKey(before, d.key) <= Retries(k, d.key.action)
    && Plain(d.key.base) && Plain(d.key.context)
    && (IsPlanning(d.key.action) ==> d.leases <= k.planningCalls - PlanningSpent(before))
    && (d.key.action.Plan? ==> CountAction(before, Plan) < MAX_PLANS)
    && (d.key.base == TARGET_CORRECTION ==> d.key.action.Synthesize? && !Used(before, TARGET_CORRECTION, None))
    && (d.key.base == AUXILIARY_CORRECTION ==> !Used(before, AUXILIARY_CORRECTION, Some(d.key.claim)))
  }

  /** Decision i's job carries its price and its leases. */
  ghost predicate Booked(k: Config, s: State, i: nat)
    requires i < |s.history|
  {
    var d := s.history[i];
    && d.job < |s.db.jobs|
    && s.db.jobs[d.job].In(k.group) && s.db.jobs[d.job].link.value.cost == d.cost
    && s.db.jobs[d.job].maxAssignments == d.leases
    && (forall h | 0 <= h < i :: s.history[h].job < d.job)
  }

  ghost predicate Kept(k: Config, s: State) {
    && QueueInvariant.Inv(s.db) && Configured(k) && k.group < |s.db.groups|
    && |s.history| <= s.db.groups[k.group].maxTasks
    && (forall i {:trigger Fresh(k, s.history, i)} | 0 <= i < |s.history| :: Fresh(k, s.history, i))
    && (forall i {:trigger Booked(k, s, i)} | 0 <= i < |s.history| :: Booked(k, s, i))
  }

  lemma FreshAppend(k: Config, history: seq<Decision>, d: Decision)
    requires forall i | 0 <= i < |history| :: Fresh(k, history, i)
    requires Fresh(k, history + [d], |history|)
    ensures forall i | 0 <= i < |history| + 1 :: Fresh(k, history + [d], i)
  {
    forall i | 0 <= i < |history| + 1 ensures Fresh(k, history + [d], i) {
      if i < |history| {
        assert Fresh(k, history, i);
        assert (history + [d])[..i] == history[..i];
      }
    }
  }

  lemma OtherKeeps(k: Config, s: State, e: Queue.Event)
    requires Kept(k, s)
    ensures Kept(k, s.(db := Queue.Step(s.db, e)))
  {
    QueueHistory.StepKeeps(s.db, e);
    QueueRecords.StepGrows(s.db, e);
    GrownKeeps(k, s, s.(db := Queue.Step(s.db, e)));
  }

  lemma GrownKeeps(k: Config, s: State, d: State)
    requires Kept(k, s) && QueueInvariant.Inv(d.db) && QueueRecords.Grows(s.db, d.db) && d.history == s.history
    ensures Kept(k, d)
  {
    assert QueueRecords.GroupGrows(s.db.groups[k.group], d.db.groups[k.group]);
    forall i | 0 <= i < |d.history| ensures Booked(k, d, i) {
      assert Booked(k, s, i);
      assert QueueRecords.JobGrows(s.db.jobs[d.history[i].job], d.db.jobs[d.history[i].job]);
    }
  }

  /** An admitted candidate makes a fresh decision. */
  lemma AdmittedFresh(k: Config, s: State, checks: seq<Checks.Check>, c: Candidate, choice: Choice, job: nat)
    requires k.group < |s.db.groups| && Guarded(k, s.history, c.offer) && Consider(k, s, checks, c) == Ok(choice)
    ensures var o := OrderFor(k, s, choice);
            Fresh(k, s.history + [Decision(choice.key, choice.retry, job, Queue.LeaseLimit(o), 2 * o.unit)], |s.history|)
  {
    var o := OrderFor(k, s, choice);
    AppendParts(s.history, Decision(choice.key, choice.retry, job, Queue.LeaseLimit(o), 2 * o.unit));
    DigitsPlain(c.dressing.packet.value, 16);
  }

  lemma DispatchKeeps(k: Config, s: State, checks: seq<Checks.Check>, c: Candidate, choice: Choice, now: int)
    requires Kept(k, s) && Guarded(k, s.history, c.offer) && Consider(k, s, checks, c) == Ok(choice)
    ensures Kept(k, Dispatch(k, s, choice, now))
  {
    var o := OrderFor(k, s, choice);
    var d := Dispatch(k, s, choice, now);
    QueueHistory.DispatchKeeps(s.db, k.group, o, now);
    QueueRecords.DispatchGrows(s.db, k.group, o, now);
    DispatchBuys(s.db, k.group, o, now);
    var mid := s.(db := d.db);
    GrownKeeps(k, s, mid);
    if d.history != s.history {
      AdmittedFresh(k, s, checks, c, choice, |s.db.jobs|);
      FreshAppend(k, s.history, d.history[|s.history|]);
      NewBooked(k, s, mid, d);
    }
  }

  lemma NewBooked(k: Config, s: State, mid: State, d: State)
    requires Kept(k, s) && Kept(k, mid) && d.db == mid.db && mid.history == s.history
    requires |d.history| == |s.history| + 1 && d.history == s.history + [d.history[|s.history|]]
    requires d.history[|s.history|].job == |s.db.jobs| && Booked(k, d.(history := [d.history[|s.history|]]), 0)
    ensures forall i | 0 <= i < |d.history| :: Booked(k, d, i)
  {
    forall i | 0 <= i < |d.history| ensures Booked(k, d, i) {
      if i < |s.history| {
        assert Booked(k, mid, i);
      } else {
        forall h | 0 <= h < i ensures d.history[h].job < d.history[i].job {
          assert Booked(k, s, h);
        }
      }
    }
  }

  /** The candidate that an advance dispatches. */
  ghost predicate Chosen(k: Config, s: State, r: Reading, c: Candidate, choice: Choice) {
    && k.group < |s.db.groups| && c in Found(k, s, r.evidence, r.dressings) && Consider(k, s, r.checks, c) == Ok(choice)
  }

  lemma AdmittedIsChosen(k: Config, s: State, r: Reading)
    requires k.group < |s.db.groups| && Admit(k, s, r.checks, Found(k, s, r.evidence, r.dressings), 0).Some?
    ensures var found := Found(k, s, r.evidence, r.dressings); var (i, choice) := Admit(k, s, r.checks, found, 0).value;
            Chosen(k, s, r, found[i], choice)
  {
  }

  /** An advance waits, stops the group, or dispatches an admissible candidate. */
  lemma AdvanceCases(k: Config, s: State, r: Reading) returns (picked: Option<(Candidate, Choice)>)
    requires Queue.Linked(s.db)
    ensures if picked.Some?
            then Chosen(k, s, r, picked.value.0, picked.value.1) && Advance(k, s, r) == Dispatch(k, s, picked.value.1, r.now)
            else Advance(k, s, r) == s || Advance(k, s, r) == s.(db := Queue.StopGroup(s.db, k.group))
  {
    picked := None;
    if k.group < |s.db.groups| && Advance(k, s, r) != s && Advance(k, s, r) != s.(db := Queue.StopGroup(s.db, k.group)) {
      var found := Found(k, s, r.evidence, r.dressings);
      AdmittedIsChosen(k, s, r);
      var (i, choice) := Admit(k, s, r.checks, found, 0).value;
      picked := Some((found[i], choice));
    }
  }

  /** Every candidate is guarded, because _frontier_candidates found it. */
  lemma FoundGuarded(k: Config, s: State, v: Evidence, dressings: map<Offer, Dressing>, c: Candidate)
    requires c in Found(k, s, v, dressings)
    ensures Guarded(k, s.history, c.offer)
  {
    OffersGuarded(k, s, v);
    RankedOffers(Offers(k, s, v));
  }

  lemma StopKeeps(k: Config, s: State)
    requires Kept(k, s)
    ensures Kept(k, s.(db := Queue.StopGroup(s.db, k.group)))
  {
    Queue.StopStep(s.db, k.group);
    OtherKeeps(k, s, Queue.EStop(k.group));
  }

  lemma AdvanceKeeps(k: Config, s: State, r: Reading)
    requires Kept(k, s)
    ensures Kept(k, Advance(k, s, r))
  {
    var picked := AdvanceCases(k, s, r);
    if picked.Some? {
      FoundGuarded(k, s, r.evidence, r.dressings, picked.value.0);
      DispatchKeeps(k, s, r.checks, picked.value.0, picked.value.1, r.now);
    } else {
      StopKeeps(k, s);
    }
  }

  lemma StepKeeps(k: Config, s: State, e: Event)
    requires Kept(k, s)
    ensures Kept(k, Step(k, s, e))
  {
    match e
    case EOther(event) =>
      if Foreign(k, event) {
        OtherKeeps(k, s, event);
      }
    case EAdvance(r) => AdvanceKeeps(k, s, r);
  }

  lemma {:induction false} AlwaysKept(k: Config, s: State, events: seq<Event>)
    requires Kept(k, s)
    ensures Kept(k, Run(k, s, events))
  {
    if events != [] {
      AlwaysKept(k, s, events[..|events| - 1]);
      StepKeeps(k, Run(k, s, events[..|events| - 1]), events[|events| - 1]);
    }
  }

  // ------------------------------------------------ runs are queue histories

  /** The frontier's own transactions: it stops its group, or dispatches for it. */
  lemma AdvanceIsQueueStep(k: Config, s: State, r: Reading) returns (f: Queue.Event)
    requires Queue.Linked(s.db)
    ensures Advance(k, s, r).db == s.db || Advance(k, s, r).db == Queue.Step(s.db, f)
    ensures f.EStop? || f.EDispatch?
  {
    f := Queue.EStop(k.group);
    Queue.StopStep(s.db, k.group);
    var picked := AdvanceCases(k, s, r);
    if picked.Some? {
      f := Queue.EDispatch(k.group, OrderFor(k, s, picked.value.1), r.now);
      Queue.DispatchStep(s.db, k.group, OrderFor(k, s, picked.value.1), r.now);
    }
  }

  lemma StepIsQueueStep(k: Config, s: State, e: Event) returns (f: Queue.Event)
    requires Queue.Linked(s.db)
    ensures Step(k, s, e).db == s.db || Step(k, s, e).db == Queue.Step(s.db, f)
  {
    match e
    case EOther(event) => f := event;
    case EAdvance(r) => f := AdvanceIsQueueStep(k, s, r);
  }

  /** Whatever the frontier does to the job tables is a history of module Queue's transactions, so
      every theorem about those histories holds of frontier groups. */
  lemma {:induction false} RunsAreQueueHistories(k: Config, s: State, events: seq<Event>, before: seq<Queue.Event>)
    returns (later: seq<Queue.Event>)
    requires s.db == Queue.After(before)
    ensures Run(k, s, events).db == Queue.After(before + later)
  {
    if events == [] {
      later := [];
      assert before + [] == before;
    } else {
      var front := events[..|events| - 1];
      later := RunsAreQueueHistories(k, s, front, before);
      var f := StepIsQueueStep(k, Run(k, s, front), events[|events| - 1]);
      if Run(k, s, events).db != Run(k, s, front).db {
        QueueAppend(before + later, f);
        assert before + later + [f] == before + (later + [f]);
        later := later + [f];
      }
    }
  }

  lemma QueueAppend(events: seq<Queue.Event>, e: Queue.Event)
    ensures Queue.After(events + [e]) == Queue.Step(Queue.After(events), e)
  {
    AppendParts(events, e);
  }
}
