/**
 Theorems about the frontier's dispatches, over every run of the scheduler.
 */
module FrontierLimits {
  import opened Basics
  import opened Strategies
  import opened Candidates
  import opened Frontier
  import opened FrontierHistory
  import Queue
  import QueueInvariant
  import QueueHistory
  import QueueRecords
  import Checks

  // ------------------------------------------------------------ finite, fresh

  lemma {:induction false} CountKeyGrows(history: seq<Decision>, i: nat, j: nat)
    requires i < j <= |history|
    ensures CountKey(history[..i], history[i].key) < CountKey(history[..j], history[i].key)
    decreases j
  {
    assert history[..j][..j - 1] == history[..j - 1];
    if i < j - 1 {
      CountKeyGrows(history, i, j - 1);
    }
  }

  /** frontier_decisions.strategy */
  function StrategyOf(d: Decision): string {
    Strategy(d.key.base, d.key.context, d.retry)
  }

  /** No strategy text is used twice for a claim and action: the unique constraint never refuses a dispatch. */
  lemma KeysAreFresh(k: Config, s: State, events: seq<Event>, i: nat, j: nat)
    requires Kept(k, s)
    requires i < j < |Run(k, s, events).history|
    ensures var h := Run(k, s, events).history;
            h[i].key.claim == h[j].key.claim && h[i].key.action == h[j].key.action ==> StrategyOf(h[i]) != StrategyOf(h[j])
  {
    AlwaysKept(k, s, events);
    var h := Run(k, s, events).history;
    assert Fresh(k, h, i) && Fresh(k, h, j);
    if StrategyOf(h[i]) == StrategyOf(h[j]) {
      StrategyInjective(h[i].key.base, h[i].key.context, h[i].retry, h[j].key.base, h[j].key.context, h[j].retry);
    }
    if h[i].key == h[j].key {
      CountKeyGrows(h, i, j);
    }
  }

  /** The rows that _admit_candidate finds by their text up to the retry number. */
  function CountText(history: seq<Decision>, key: Key): nat {
    if history == [] then 0
    else
      var last := history[|history| - 1];
      CountText(history[..|history| - 1], key)
      + if last.key.claim == key.claim && last.key.action == key.action
           && FirstPart(StrategyOf(last), RETRY) == Strategy(key.base, key.context, 0) then 1 else 0
  }

  lemma {:induction false} TextIsKeyUpTo(h: seq<Decision>, key: Key, n: nat)
    requires n <= |h| && Plain(key.base) && Plain(key.context)
    requires forall i | 0 <= i < |h| :: Plain(h[i].key.base) && Plain(h[i].key.context)
    ensures CountText(h[..n], key) == CountKey(h[..n], key)
  {
    if n > 0 {
      TextIsKeyUpTo(h, key, n - 1);
      TakeNext(h, n - 1);
      var d := h[n - 1];
      FirstPartIsUnretried(d.key.base, d.key.context, d.retry);
      if Strategy(d.key.base, d.key.context, 0) == Strategy(key.base, key.context, 0) {
        StrategyInjective(d.key.base, d.key.context, 0, key.base, key.context, 0);
      }
    }
  }

  /** Counting earlier attempts by their text counts the attempts at the same key. */
  lemma PriorByText(k: Config, s: State, events: seq<Event>, o: Offer, packet: nat)
    requires Kept(k, s) && Plain(o.base)
    ensures CountText(Run(k, s, events).history, KeyOf(o, packet)) == CountKey(Run(k, s, events).history, KeyOf(o, packet))
  {
    AlwaysKept(k, s, events);
    var h := Run(k, s, events).history;
    DigitsPlain(packet, 16);
    forall i | 0 <= i < |h| ensures Plain(h[i].key.base) && Plain(h[i].key.context) {
      assert Fresh(k, h, i);
    }
    TextIsKeyUpTo(h, KeyOf(o, packet), |h|);
    TakeAll(h);
  }

  /** A claim is worked on at most 1 + retries times with the same action, strategy and context;
      once if it is a plan or critique, or a synthesis where corrections are configured. */
  lemma KeyUsedWithin(k: Config, s: State, events: seq<Event>, key: Key)
    requires Kept(k, s)
    ensures CountKey(Run(k, s, events).history, key) <= 1 + Retries(k, key.action)
  {
    AlwaysKept(k, s, events);
    var h := Run(k, s, events).history;
    KeyUsedUpTo(k, h, key, |h|);
    assert h[..|h|] == h;
  }

  lemma {:induction false} KeyUsedUpTo(k: Config, h: seq<Decision>, key: Key, n: nat)
    requires n <= |h| && forall i | 0 <= i < |h| :: Fresh(k, h, i)
    ensures CountKey(h[..n], key) <= 1 + Retries(k, key.action)
  {
    if n > 0 {
      KeyUsedUpTo(k, h, key, n - 1);
      assert h[..n][..n - 1] == h[..n - 1];
      assert Fresh(k, h, n - 1);
    }
  }

  /** Plan and critique jobs never hold more leases than the configured planning calls. */
  lemma PlanningWithin(k: Config, s: State, events: seq<Event>)
    requires Kept(k, s)
    ensures k.group < |Run(k, s, events).db.groups|
    ensures |Run(k, s, events).history| <= Run(k, s, events).db.groups[k.group].maxTasks
    ensures PlanningSpent(Run(k, s, events).history) <= k.planningCalls
    ensures CountAction(Run(k, s, events).history, Plan) <= MAX_PLANS
  {
    AlwaysKept(k, s, events);
    var h := Run(k, s, events).history;
    PlanningUpTo(k, h, |h|);
    assert h[..|h|] == h;
  }

  lemma {:induction false} PlanningUpTo(k: Config, h: seq<Decision>, n: nat)
    requires n <= |h| && forall i | 0 <= i < |h| :: Fresh(k, h, i)
    ensures PlanningSpent(h[..n]) <= k.planningCalls && CountAction(h[..n], Plan) <= MAX_PLANS
  {
    if n > 0 {
      PlanningUpTo(k, h, n - 1);
      assert h[..n][..n - 1] == h[..n - 1];
      assert Fresh(k, h, n - 1);
    }
  }

  /** Is j the job of a plan or critique decision? */
  function PlanningJobs(h: seq<Decision>): nat -> bool {
    (j: nat) => exists i | 0 <= i < |h| :: h[i].job == j && IsPlanning(h[i].key.action)
  }

  lemma {:induction false} SpentSplit(ls: seq<Queue.Lease>, who: nat -> bool, more: nat -> bool, j: nat)
    requires !who(j) && more(j) && forall i: nat | i != j :: more(i) == who(i)
    ensures QueueInvariant.Spent(ls, more) == QueueInvariant.Spent(ls, who) + Queue.Count(ls, j, Queue.Budgeted)
  {
    if ls != [] {
      SpentSplit(ls[..|ls| - 1], who, more, j);
    }
  }

  lemma {:induction false} SpentSame(ls: seq<Queue.Lease>, who: nat -> bool, more: nat -> bool)
    requires forall i: nat :: more(i) == who(i)
    ensures QueueInvariant.Spent(ls, more) == QueueInvariant.Spent(ls, who)
  {
    if ls != [] {
      SpentSame(ls[..|ls| - 1], who, more);
    }
  }

  lemma {:induction false} SpentNobody(ls: seq<Queue.Lease>, who: nat -> bool)
    requires forall i: nat :: !who(i)
    ensures QueueInvariant.Spent(ls, who) == 0
  {
    if ls != [] {
      SpentNobody(ls[..|ls| - 1], who);
    }
  }

  lemma PlanningJobsNext(h: seq<Decision>, n: nat, j: nat)
    requires n < |h|
    ensures PlanningJobs(h[..n + 1])(j) <==> PlanningJobs(h[..n])(j) || (h[n].job == j && IsPlanning(h[n].key.action))
  {
    if PlanningJobs(h[..n])(j) {
      var i :| 0 <= i < n && h[..n][i].job == j && IsPlanning(h[..n][i].key.action);
      assert h[..n + 1][i] == h[i];
    }
    if h[n].job == j && IsPlanning(h[n].key.action) {
      assert h[..n + 1][n] == h[n];
    }
    if PlanningJobs(h[..n + 1])(j) {
      var i :| 0 <= i < n + 1 && h[..n + 1][i].job == j && IsPlanning(h[..n + 1][i].key.action);
      assert i < n ==> h[..n][i] == h[i];
    }
  }

  lemma {:induction false} PlanningLeasesUpTo(k: Config, s: State, n: nat)
    requires Kept(k, s) && n <= |s.history|
    ensures QueueInvariant.Spent(s.db.leases, PlanningJobs(s.history[..n])) <= PlanningSpent(s.history[..n])
  {
    var h := s.history;
    if n == 0 {
      SpentNobody(s.db.leases, PlanningJobs(h[..0]));
    } else {
      PlanningLeasesUpTo(k, s, n - 1);
      assert h[..n][..n - 1] == h[..n - 1];
      forall j: nat ensures PlanningJobs(h[..n])(j) <==>
                            PlanningJobs(h[..n - 1])(j) || (h[n - 1].job == j && IsPlanning(h[n - 1].key.action))
      {
        PlanningJobsNext(h, n - 1, j);
      }
      if IsPlanning(h[n - 1].key.action) {
        NewPlanningJob(k, s, n - 1);
        SpentSplit(s.db.leases, PlanningJobs(h[..n - 1]), PlanningJobs(h[..n]), h[n - 1].job);
      } else {
        SpentSame(s.db.leases, PlanningJobs(h[..n - 1]), PlanningJobs(h[..n]));
      }
    }
  }

  lemma NewPlanningJob(k: Config, s: State, n: nat)
    requires Kept(k, s) && n < |s.history|
    ensures !PlanningJobs(s.history[..n])(s.history[n].job)
    ensures Queue.Count(s.db.leases, s.history[n].job, Queue.Budgeted) <= s.history[n].leases
  {
    assert Booked(k, s, n);
    var j := s.history[n].job;
    assert QueueInvariant.JobOk(s.db.leases, s.db.jobs[j], j);
  }

  /** The budgeted assignments that workers ever take on the frontier's plan and critique jobs,
      retries after expiry and failure included, are at most the configured planning calls. */
  lemma PlanningLeasesWithin(k: Config, s: State, events: seq<Event>)
    requires Kept(k, s)
    ensures var d := Run(k, s, events);
            QueueInvariant.Spent(d.db.leases, PlanningJobs(d.history)) <= k.planningCalls
  {
    AlwaysKept(k, s, events);
    var d := Run(k, s, events);
    PlanningLeasesUpTo(k, d, |d.history|);
    assert d.history[..|d.history|] == d.history;
    PlanningWithin(k, s, events);
  }

  lemma UsedBefore(h: seq<Decision>, i: nat, j: nat, word: string)
    requires i < j <= |h| && h[i].key.base == word && Plain(word)
    ensures Used(h[..j], word, None) && Used(h[..j], word, Some(h[i].key.claim))
  {
    StartsWithBase(h[i].key.base, h[i].key.context, h[i].retry, word);
    assert h[..j][i] == h[i];
  }

  /** One target correction in the group, one direct auxiliary correction per claim. */
  lemma CorrectionsAreSingle(k: Config, s: State, events: seq<Event>, i: nat, j: nat)
    requires Kept(k, s)
    requires i < j < |Run(k, s, events).history|
    ensures var h := Run(k, s, events).history;
            && !(h[i].key.base == TARGET_CORRECTION && h[j].key.base == TARGET_CORRECTION)
            && !(h[i].key.base == AUXILIARY_CORRECTION && h[j].key.base == AUXILIARY_CORRECTION && h[i].key.claim == h[j].key.claim)
  {
    AlwaysKept(k, s, events);
    var h := Run(k, s, events).history;
    assert Fresh(k, h, j);
    WordsArePlain();
    if h[i].key.base == TARGET_CORRECTION || h[i].key.base == AUXILIARY_CORRECTION {
      UsedBefore(h, i, j, h[i].key.base);
    }
  }

  // ------------------------------------------------------- completion reserve

  /** The tail is affordable and still fits into the task limit. */
  ghost predicate Affordable(k: Config, s: State)
    requires k.group < |s.db.groups|
  {
    && TailWork(k, s.history) <= s.db.groups[k.group].remaining
    && |s.history| + TailJobs(k, s.history) <= s.db.groups[k.group].maxTasks
  }

  /** Holding back all but one share leaves exactly one share: the division is exact. */
  lemma HeldForCompletion(k: Config, history: seq<Decision>)
    requires Configured(k) && TailJobs(k, history) > 0
    ensures Held(k, history, Synthesize) + 2 * MaxCost(k.models.synthesizer) == TailWork(k, history)
  {
    assert TailJobs(k, history) == 1 || TailJobs(k, history) == 2;
  }

  lemma TailAfter(k: Config, history: seq<Decision>, d: Decision)
    ensures TailJobs(k, history + [d]) == if d.key.action.Synthesize? then Max(0, TailJobs(k, history) - 1) else TailJobs(k, history)
  {
    AppendParts(history, d);
  }

  /** Buying one job at no more than what may be spent keeps the rest of the tail affordable. */
  lemma TailKept(k: Config, history: seq<Decision>, d: Decision, remaining: int, maxTasks: nat)
    requires Configured(k) && TailWork(k, history) <= remaining
    requires d.cost <= remaining - Held(k, history, d.key.action)
    requires |history| < maxTasks
    requires TailJobs(k, history) > 0 ==> |history| + 1 + HeldJobs(k, history, d.key.action) <= maxTasks
    ensures TailWork(k, history + [d]) <= remaining - d.cost
    ensures |history| + 1 + TailJobs(k, history + [d]) <= maxTasks
  {
    TailAfter(k, history, d);
    if d.key.action.Synthesize? && TailJobs(k, history) > 0 {
      HeldForCompletion(k, history);
    }
  }

  lemma DispatchAffordable(k: Config, s: State, checks: seq<Checks.Check>, c: Candidate, choice: Choice, now: int)
    requires Kept(k, s) && Affordable(k, s) && Consider(k, s, checks, c) == Ok(choice)
    ensures k.group < |Dispatch(k, s, choice, now).db.groups| && Affordable(k, Dispatch(k, s, choice, now))
  {
    var o := OrderFor(k, s, choice);
    DispatchBuys(s.db, k.group, o, now);
    if QueueHistory.Buys(s.db, k.group, o, now) {
      var g := s.db.groups[k.group];
      var d := Decision(choice.key, choice.retry, |s.db.jobs|, Queue.LeaseLimit(o), 2 * o.unit);
      TailKept(k, s.history, d, g.remaining, g.maxTasks);
    }
  }

  /** No task was added to the group by hand. */
  predicate Unattended(k: Config, e: Event) {
    e.EOther? ==> !(e.event.EAddTask? && e.event.group == k.group)
  }

  lemma AdvanceAffordable(k: Config, s: State, r: Reading)
    requires Kept(k, s) && Affordable(k, s)
    ensures k.group < |Advance(k, s, r).db.groups| && Affordable(k, Advance(k, s, r))
  {
    var picked := AdvanceCases(k, s, r);
    StopElsewhere(s.db, k.group, k.group);
    if picked.Some? {
      DispatchAffordable(k, s, r.checks, picked.value.0, picked.value.1, r.now);
    }
  }

  lemma StepAffordable(k: Config, s: State, e: Event)
    requires Kept(k, s) && Affordable(k, s) && Unattended(k, e)
    ensures k.group < |Step(k, s, e).db.groups| && Affordable(k, Step(k, s, e))
  {
    match e
    case EOther(event) =>
      if Foreign(k, event) {
        OtherAffordable(k, s, event);
      }
    case EAdvance(r) => AdvanceAffordable(k, s, r);
  }

  lemma OtherAffordable(k: Config, s: State, e: Queue.Event)
    requires Kept(k, s) && Affordable(k, s) && Foreign(k, e) && !(e.EAddTask? && e.group == k.group)
    ensures k.group < |Queue.Step(s.db, e).groups| && Affordable(k, s.(db := Queue.Step(s.db, e)))
  {
    RemainingStays(s.db, e, k.group);
    QueueRecords.StepGrows(s.db, e);
    assert QueueRecords.GroupGrows(s.db.groups[k.group], Queue.Step(s.db, e).groups[k.group]);
  }

  lemma {:induction false} AlwaysAffordable(k: Config, s: State, events: seq<Event>)
    requires Kept(k, s) && Affordable(k, s)
    requires forall e | e in events :: Unattended(k, e)
    ensures k.group < |Run(k, s, events).db.groups| && Affordable(k, Run(k, s, events))
  {
    if events != [] {
      var front := events[..|events| - 1];
      AlwaysAffordable(k, s, front);
      AlwaysKept(k, s, front);
      StepAffordable(k, Run(k, s, front), events[|events| - 1]);
    }
  }

  /** What synthesis may cost now: every configured synthesizer, even the dearest, is within budget. */
  ghost predicate WithinBudget(k: Config, s: State)
    requires k.group < |s.db.groups|
  {
    forall i | 0 <= i < |k.models.synthesizer| ::
      2 * k.models.synthesizer[i].cost <= s.db.groups[k.group].remaining - Held(k, s.history, Synthesize)
  }

  /** The synthesizers are all within budget exactly when the work left covers the tail. */
  lemma BudgetCoversTail(k: Config, s: State)
    requires Configured(k) && k.group < |s.db.groups| && TailJobs(k, s.history) > 0
    ensures WithinBudget(k, s) <==> TailWork(k, s.history) <= s.db.groups[k.group].remaining
  {
    HeldForCompletion(k, s.history);
    var i :| 0 <= i < |k.models.synthesizer| && k.models.synthesizer[i].cost == MaxCost(k.models.synthesizer);
  }

  predicate Attemptable(k: Config, s: State, c: Candidate) {
    && c.offer.action.Synthesize? && c.offer.only.None? && c.dressing.packet.Some?
    && CountKey(s.history, KeyOf(c.offer, c.dressing.packet.value)) <= Retries(k, Synthesize)
  }

  /** While a completion slot is unused, no synthesis candidate is put off for the task limit, no
      configured synthesizer is over budget for it, and it is admitted if one of them is fit. */
  lemma SynthesisAffordable(k: Config, s: State, checks: seq<Checks.Check>, c: Candidate)
    requires Configured(k) && k.group < |s.db.groups| && Affordable(k, s) && TailJobs(k, s.history) > 0
    requires c.offer.action.Synthesize? && c.offer.only.None?
    ensures Consider(k, s, checks, c) != Err(CompletionJobReserve) && WithinBudget(k, s)
    ensures Attemptable(k, s, c) && (exists i | 0 <= i < |k.models.synthesizer| :: k.models.synthesizer[i].name in c.dressing.fit)
            ==> Consider(k, s, checks, c).Ok?
  {
    BudgetCoversTail(k, s);
    if exists i | 0 <= i < |k.models.synthesizer| :: k.models.synthesizer[i].name in c.dressing.fit {
      var i :| 0 <= i < |k.models.synthesizer| && k.models.synthesizer[i].name in c.dressing.fit;
      assert Viable(k.models.synthesizer[i], c.dressing.fit, s.db.groups[k.group].remaining - Held(k, s.history, Synthesize));
    }
  }

  /** The completion reserve over runs: if the group starts with an affordable tail and nobody adds
      tasks by hand, the tail stays affordable, so synthesis is never deferred for the task limit or
      for work while a slot remains, whatever else was dispatched, failed or retried. */
  lemma CompletionReserve(k: Config, s: State, events: seq<Event>, checks: seq<Checks.Check>, c: Candidate)
    requires Kept(k, s) && Affordable(k, s)
    requires forall e | e in events :: Unattended(k, e)
    requires TailJobs(k, Run(k, s, events).history) > 0 && c.offer.action.Synthesize? && c.offer.only.None?
    ensures var d := Run(k, s, events);
            && k.group < |d.db.groups|
            && TailWork(k, d.history) <= d.db.groups[k.group].remaining
            && |d.history| + TailJobs(k, d.history) <= d.db.groups[k.group].maxTasks
            && Consider(k, d, checks, c) != Err(CompletionJobReserve) && WithinBudget(k, d)
  {
    AlwaysAffordable(k, s, events);
    AlwaysKept(k, s, events);
    SynthesisAffordable(k, Run(k, s, events), checks, c);
  }

  // ------------------------------------------------------ tasks added by hand

  function WithTask(k: Config, s: State, parent: Option<nat>, budget: nat): State
    requires Queue.Linked(s.db)
  {
    s.(db := Queue.AddTask(s.db, k.group, parent, budget).0)
  }

  /** Exactly when a task added by hand breaks the reserve: afterwards every synthesizer is still
      within budget if and only if the task's budget is within what the tail leaves over. */
  lemma ManualTaskReserve(k: Config, s: State, parent: Option<nat>, budget: nat)
    requires Kept(k, s) && TailJobs(k, s.history) > 0
    requires Queue.AddTask(s.db, k.group, parent, budget).1.Accepted?
    ensures k.group < |WithTask(k, s, parent, budget).db.groups|
    ensures WithinBudget(k, WithTask(k, s, parent, budget))
       <==> budget <= s.db.groups[k.group].remaining - TailWork(k, s.history)
  {
    BudgetCoversTail(k, WithTask(k, s, parent, budget));
  }

  /** Beyond that budget, synthesis that only the dearest models are fit for is given up, although it
      was admitted before the task was added. */
  lemma ManualTaskStarves(k: Config, s: State, parent: Option<nat>, budget: nat, checks: seq<Checks.Check>, c: Candidate)
    requires Kept(k, s) && Affordable(k, s) && TailJobs(k, s.history) > 0 && Attemptable(k, s, c)
    requires forall i | 0 <= i < |k.models.synthesizer| && k.models.synthesizer[i].name in c.dressing.fit ::
               k.models.synthesizer[i].cost == MaxCost(k.models.synthesizer)
    requires exists i | 0 <= i < |k.models.synthesizer| :: k.models.synthesizer[i].name in c.dressing.fit
    requires Queue.AddTask(s.db, k.group, parent, budget).1.Accepted?
    requires budget > s.db.groups[k.group].remaining - TailWork(k, s.history)
    ensures Consider(k, s, checks, c).Ok?
    ensures k.group < |WithTask(k, s, parent, budget).db.groups|
    ensures Consider(k, WithTask(k, s, parent, budget), checks, c) == Err(ModelUnavailableOrBudget)
  {
    SynthesisAffordable(k, s, checks, c);
    HeldForCompletion(k, s.history);
    var d := WithTask(k, s, parent, budget);
    var remaining := d.db.groups[k.group].remaining - Held(k, d.history, Synthesize);
    forall i | 0 <= i < |k.models.synthesizer| ensures !Viable(k.models.synthesizer[i], c.dressing.fit, remaining) {
    }
  }

  /** A task added by hand leaves the tail its work. */
  predicate Harmless(k: Config, s: State, e: Event)
    requires Queue.Linked(s.db) && k.group < |s.db.groups|
  {
    !Unattended(k, e) && Queue.AddTask(s.db, k.group, e.event.parent, e.event.budget).1.Accepted? ==>
      e.event.budget <= s.db.groups[k.group].remaining - TailWork(k, s.history)
  }

  /** What the reserve is for: while a slot is unused, no configured synthesizer is over budget. */
  ghost predicate Promise(k: Config, s: State) {
    k.group < |s.db.groups| && (TailJobs(k, s.history) > 0 ==> WithinBudget(k, s))
  }

  lemma TaskAffordable(k: Config, s: State, parent: Option<nat>, budget: nat)
    requires Kept(k, s) && Affordable(k, s)
    ensures k.group < |WithTask(k, s, parent, budget).db.groups|
    ensures Affordable(k, WithTask(k, s, parent, budget)) <==> Harmless(k, s, EOther(Queue.EAddTask(k.group, parent, budget)))
    ensures Promise(k, WithTask(k, s, parent, budget)) ==> Harmless(k, s, EOther(Queue.EAddTask(k.group, parent, budget)))
  {
    if Queue.AddTask(s.db, k.group, parent, budget).1.Accepted? && TailJobs(k, s.history) > 0 {
      ManualTaskReserve(k, s, parent, budget);
    }
  }

  lemma StepHarmless(k: Config, s: State, e: Event)
    requires Kept(k, s) && Affordable(k, s)
    ensures k.group < |Step(k, s, e).db.groups|
    ensures Affordable(k, Step(k, s, e)) <==> Harmless(k, s, e)
    ensures Promise(k, Step(k, s, e)) ==> Harmless(k, s, e)
  {
    if Unattended(k, e) {
      StepAffordable(k, s, e);
    } else {
      Queue.AddTaskStep(s.db, k.group, e.event.parent, e.event.budget);
      TaskAffordable(k, s, e.event.parent, e.event.budget);
    }
  }

  /** The promise holds now and held at every moment of the run. */
  ghost predicate PromisedThroughout(k: Config, s: State, events: seq<Event>)
    requires Queue.Linked(s.db)
  {
    Promise(k, Run(k, s, events)) && (events == [] || PromisedThroughout(k, s, events[..|events| - 1]))
  }

  /** Each task of the run was harmless when it was added. */
  ghost predicate HarmlessThroughout(k: Config, s: State, events: seq<Event>)
    requires Queue.Linked(s.db)
  {
    events == [] ||
    var front := events[..|events| - 1];
    var d := Run(k, s, front);
    HarmlessThroughout(k, s, front) && k.group < |d.db.groups| && Harmless(k, d, events[|events| - 1])
  }

  lemma {:induction false} HarmlessAffordable(k: Config, s: State, events: seq<Event>)
    requires Kept(k, s) && Affordable(k, s) && HarmlessThroughout(k, s, events)
    ensures k.group < |Run(k, s, events).db.groups| && Affordable(k, Run(k, s, events))
  {
    if events != [] {
      var front := events[..|events| - 1];
      HarmlessAffordable(k, s, front);
      AlwaysKept(k, s, front);
      StepHarmless(k, Run(k, s, front), events[|events| - 1]);
    }
  }

  /** The reserve with tasks added by hand, over every run from an affordable start: it keeps its
      promise at every moment if and only if every task was harmless when it was added. */
  lemma {:induction false} PromiseIffHarmless(k: Config, s: State, events: seq<Event>)
    requires Kept(k, s) && Affordable(k, s)
    ensures PromisedThroughout(k, s, events) <==> HarmlessThroughout(k, s, events)
  {
    if events == [] {
      AffordablePromise(k, s);
    } else {
      var front := events[..|events| - 1];
      PromiseIffHarmless(k, s, front);
      if HarmlessThroughout(k, s, front) {
        HarmlessAffordable(k, s, front);
        AlwaysKept(k, s, front);
        StepHarmless(k, Run(k, s, front), events[|events| - 1]);
        if HarmlessThroughout(k, s, events) {
          AffordablePromise(k, Run(k, s, events));
        }
      }
    }
  }

  lemma AffordablePromise(k: Config, s: State)
    requires Configured(k) && k.group < |s.db.groups| && Affordable(k, s)
    ensures Promise(k, s)
  {
    if TailJobs(k, s.history) > 0 {
      BudgetCoversTail(k, s);
    }
  }
}
