/**
 Which model is routed, which candidate is admitted, and what an advance does, on the rows of the
 tables and of the earlier dispatches.
 */
module FrontierRules {
  import opened Basics
  import opened Strategies
  import opened Candidates
  import CandidateRules
  import opened Frontier
  import opened FrontierLimits
  import Queue
  import QueueHistory
  import GroupRules
  import Checks
  import ChecksRules

  // ----------------------------------------------------------------- routing

  predicate Fit(m: Model, fit: set<string>, remaining: int) {
    m.name in fit && 2 * m.cost <= remaining
  }

  function Shortfall(m: Model, quality: map<string, nat>): nat {
    if m.name in quality then quality[m.name] else 0
  }

  /** m goes before n: one to be avoided comes last, then the one with the better record goes first. */
  predicate Preferred(m: Model, n: Model, quality: map<string, nat>, avoid: Option<string>) {
    || (avoid != Some(m.name) && avoid == Some(n.name))
    || ((avoid == Some(m.name) <==> avoid == Some(n.name)) && Shortfall(m, quality) < Shortfall(n, quality))
  }

  /** Model i is fit and affordable, none is preferred to it, and it is preferred to all before it. */
  ghost predicate FirstBest(models: seq<Model>, fit: set<string>, quality: map<string, nat>, avoid: Option<string>, remaining: int, i: nat) {
    && i < |models| && Fit(models[i], fit, remaining)
    && (forall j | 0 <= j < |models| && Fit(models[j], fit, remaining) :: !Preferred(models[j], models[i], quality, avoid))
    && (forall j | 0 <= j < i && Fit(models[j], fit, remaining) :: Preferred(models[i], models[j], quality, avoid))
  }

  lemma FirstBestStays(models: seq<Model>, fit: set<string>, quality: map<string, nat>, avoid: Option<string>, remaining: int, i: nat)
    requires models != [] && FirstBest(models[..|models| - 1], fit, quality, avoid, remaining, i)
    requires var last := models[|models| - 1]; Fit(last, fit, remaining) ==> !Preferred(last, models[i], quality, avoid)
    ensures FirstBest(models, fit, quality, avoid, remaining, i)
  {
  }

  lemma LastIsBest(models: seq<Model>, fit: set<string>, quality: map<string, nat>, avoid: Option<string>, remaining: int, i: nat)
    requires models != [] && Fit(models[|models| - 1], fit, remaining)
    requires var front := models[..|models| - 1]; var last := models[|models| - 1];
             if forall j | 0 <= j < |front| :: !Fit(front[j], fit, remaining) then true
             else FirstBest(front, fit, quality, avoid, remaining, i) && Preferred(last, front[i], quality, avoid)
    ensures FirstBest(models, fit, quality, avoid, remaining, |models| - 1)
  {
  }

  /** Routing takes the first of the preferred models that are fit and affordable, and none only if no
      model is both. */
  lemma {:induction false} RoutedModel(models: seq<Model>, fit: set<string>, quality: map<string, nat>, avoid: Option<string>, remaining: int)
    returns (i: nat)
    ensures Best(models, fit, quality, avoid, remaining).None? <==> forall j | 0 <= j < |models| :: !Fit(models[j], fit, remaining)
    ensures Best(models, fit, quality, avoid, remaining).Some? ==>
              FirstBest(models, fit, quality, avoid, remaining, i) && Best(models, fit, quality, avoid, remaining) == Some(models[i])
  {
    i := 0;
    if models != [] {
      var front, last := models[..|models| - 1], models[|models| - 1];
      i := RoutedModel(front, fit, quality, avoid, remaining);
      var best := Best(front, fit, quality, avoid, remaining);
      if Fit(last, fit, remaining) && (best.None? || Preferred(last, best.value, quality, avoid)) {
        LastIsBest(models, fit, quality, avoid, remaining, i);
        i := |models| - 1;
      } else if best.Some? {
        FirstBestStays(models, fit, quality, avoid, remaining, i);
      }
    }
  }

  // ---------------------------------------------------------------- the tail

  /** Target attempts dispatched so far. */
  ghost function Attempts(history: seq<Decision>): set<nat> {
    Where(history, (d: Decision) => d.key.action.Synthesize?)
  }

  lemma {:induction false} AttemptsCount(history: seq<Decision>)
    ensures CountAction(history, Synthesize) == |Attempts(history)|
  {
    if history != [] {
      AttemptsCount(history[..|history| - 1]);
      WhereLast(history, (d: Decision) => d.key.action.Synthesize?);
    }
  }

  /** Target attempts still held back: one, and one more where a correction is configured. */
  ghost function Reserve(k: Config, history: seq<Decision>): nat {
    if k.reserve && 1 + k.corrections > |Attempts(history)| then 1 + k.corrections - |Attempts(history)| else 0
  }

  /** Those that must stay possible after a dispatch of this action. */
  ghost function Others(k: Config, history: seq<Decision>, a: Action): nat {
    if a.Synthesize? && Reserve(k, history) > 0 then Reserve(k, history) - 1 else Reserve(k, history)
  }

  lemma ReserveIsTail(k: Config, history: seq<Decision>, a: Action)
    requires Configured(k)
    ensures TailJobs(k, history) == Reserve(k, history)
    ensures HeldJobs(k, history, a) == Others(k, history, a)
    ensures Held(k, history, a) == Others(k, history, a) * 2 * MaxCost(k.models.synthesizer)
  {
    AttemptsCount(history);
    if a.Synthesize? && TailJobs(k, history) > 0 {
      HeldForCompletion(k, history);
    }
  }

  // --------------------------------------------------------------- admission

  /** Earlier dispatches of the same work. */
  ghost function Earlier(history: seq<Decision>, key: Key): set<nat> {
    Where(history, (d: Decision) => d.key == key)
  }

  lemma {:induction false} EarlierCount(history: seq<Decision>, key: Key)
    ensures CountKey(history, key) == |Earlier(history, key)|
  {
    if history != [] {
      EarlierCount(history[..|history| - 1], key);
      WhereLast(history, (d: Decision) => d.key == key);
    }
  }

  /** How often the same work may be dispatched again. */
  function RetriesOf(k: Config, a: Action): nat {
    if a.Plan? || a.Critique? || (a.Synthesize? && k.corrections > 0) then 0 else k.retries
  }

  function Staff(k: Config, o: Offer): seq<Model> {
    match o.only
    case Some(m) => [m]
    case None =>
      if o.action.Plan? then k.models.planner
      else if o.action.Critique? then k.models.critic
      else if o.action.Synthesize? then k.models.synthesizer
      else k.models.investigator
  }

  /** The task limit has no room for this dispatch beside the target attempts held back. */
  ghost predicate NoRoom(k: Config, s: State, a: Action)
    requires k.group < |s.db.groups|
  {
    Reserve(k, s.history) > 0 && |s.history| + 1 + Others(k, s.history, a) > s.db.groups[k.group].maxTasks
  }

  predicate MakesProof(a: Action) {
    a.Investigate? || a.Prove?
  }

  /** Its proof could not be checked beside the target checks held back. */
  ghost predicate NoCheckLeft(k: Config, checks: seq<Checks.Check>, a: Action) {
    var slots := ChecksRules.UnusedSlots(k.caps, checks);
    MakesProof(a) && slots > 0 && |checks| + 1 + slots > k.caps.operations
  }

  ghost predicate NoLeanTimeLeft(k: Config, checks: seq<Checks.Check>, a: Action) {
    var slots := ChecksRules.UnusedSlots(k.caps, checks);
    MakesProof(a) && slots > 0 && ChecksRules.LeanTime(checks) + (1 + slots) * k.caps.checkMillis > k.caps.millis
  }

  /** The work that this dispatch may use up. */
  ghost function Spendable(k: Config, s: State, a: Action): int
    requires k.group < |s.db.groups|
  {
    s.db.groups[k.group].remaining - Others(k, s.history, a) * 2 * MaxCost(k.models.synthesizer)
  }

  /** One of the models costs more than is left beside the work held back for the target. */
  ghost predicate HeldBack(k: Config, s: State, o: Offer)
    requires k.group < |s.db.groups|
  {
    && !o.action.Synthesize? && Reserve(k, s.history) * MaxCost(k.models.synthesizer) > 0
    && exists m | m in Staff(k, o) :: 2 * m.cost > Spendable(k, s, o.action)
  }

  lemma TailIsSlots(caps: Checks.Caps, checks: seq<Checks.Check>)
    ensures Checks.Tail(caps, checks) == ChecksRules.UnusedSlots(caps, checks)
    ensures Checks.Total(checks, Checks.CHARGE) == ChecksRules.LeanTime(checks)
  {
    ChecksRules.TargetsCount(checks);
    ChecksRules.LeanTimeTotal(checks);
  }

  /** Exactly when a candidate is admitted: there is room for the job, for its check and for its work
      beside what is held back for the target; a packet fits; it was not tried too often; and one of its
      models is fit and affordable. Each reason for putting it off is named in this order. */
  lemma AdmittedIff(k: Config, s: State, checks: seq<Checks.Check>, c: Candidate)
    requires Configured(k) && k.group < |s.db.groups|
    ensures var r := Consider(k, s, checks, c); var a := c.offer.action;
            var crowded := NoRoom(k, s, a);
            var unchecked, late := NoCheckLeft(k, checks, a), NoLeanTimeLeft(k, checks, a);
            var unfit := c.dressing.packet.None?;
            var worn := !unfit && |Earlier(s.history, KeyOf(c.offer, c.dressing.packet.value))| > RetriesOf(k, a);
            var staffed := exists m | m in Staff(k, c.offer) :: Fit(m, c.dressing.fit, Spendable(k, s, a));
            && (r == Err(CompletionJobReserve) <==> crowded)
            && (r == Err(CompletionVerificationReserve) <==> !crowded && unchecked)
            && (r == Err(CompletionLeanTimeReserve) <==> !crowded && !unchecked && late)
            && (r == Err(ContextUnfit) <==> !crowded && !unchecked && !late && unfit)
            && (r == Err(EquivalentStrategyExhausted) <==> !crowded && !unchecked && !late && !unfit && worn)
            && (r.Ok? <==> !crowded && !unchecked && !late && !unfit && !worn && staffed)
            && (r == Err(CompletionWorkReserve) <==>
                  !crowded && !unchecked && !late && !unfit && !worn && !staffed && HeldBack(k, s, c.offer))
            && (r == Err(ModelUnavailableOrBudget) <==>
                  !crowded && !unchecked && !late && !unfit && !worn && !staffed && !HeldBack(k, s, c.offer))
  {
    Gates(k, s, checks, c);
    if c.dressing.packet.Some? {
      EarlierCount(s.history, KeyOf(c.offer, c.dressing.packet.value));
      RoutedOk(k, s, c);
    }
  }

  /** The tests before a model is looked for. */
  lemma Gates(k: Config, s: State, checks: seq<Checks.Check>, c: Candidate)
    requires Configured(k) && k.group < |s.db.groups|
    ensures var a := c.offer.action;
            Consider(k, s, checks, c)
            == if NoRoom(k, s, a) then Err(CompletionJobReserve)
               else if NoCheckLeft(k, checks, a) then Err(CompletionVerificationReserve)
               else if NoLeanTimeLeft(k, checks, a) then Err(CompletionLeanTimeReserve)
               else if c.dressing.packet.None? then Err(ContextUnfit)
               else Routed(k, s, c)
  {
    ReserveIsTail(k, s.history, c.offer.action);
    TailIsSlots(k.caps, checks);
  }

  lemma RoutedOk(k: Config, s: State, c: Candidate)
    requires Configured(k) && k.group < |s.db.groups| && c.dressing.packet.Some?
    ensures var a := c.offer.action;
            var worn := CountKey(s.history, KeyOf(c.offer, c.dressing.packet.value)) > RetriesOf(k, a);
            && (Routed(k, s, c) == Err(EquivalentStrategyExhausted) <==> worn)
            && (Routed(k, s, c).Ok? <==>
                  !worn && exists m | m in Staff(k, c.offer) :: Fit(m, c.dressing.fit, Spendable(k, s, a)))
            && Routed(k, s, c) != Err(CompletionJobReserve) && Routed(k, s, c) != Err(ContextUnfit)
            && Routed(k, s, c) != Err(CompletionVerificationReserve) && Routed(k, s, c) != Err(CompletionLeanTimeReserve)
            && (Routed(k, s, c).Err? && !worn ==>
                  Routed(k, s, c) == Err(if HeldBack(k, s, c.offer) then CompletionWorkReserve else ModelUnavailableOrBudget))
  {
    var key := KeyOf(c.offer, c.dressing.packet.value);
    ReserveIsTail(k, s.history, c.offer.action);
    HeldRows(k, s, c.offer);
    assert Role(k, c.offer) == Staff(k, c.offer);
    var i := RoutedModel(Role(k, c.offer), c.dressing.fit, c.dressing.quality, Continues(s, c.offer, key).1,
                         Spendable(k, s, c.offer.action));
  }

  lemma HeldRows(k: Config, s: State, o: Offer)
    requires Configured(k) && k.group < |s.db.groups|
    ensures var remaining := s.db.groups[k.group].remaining - Held(k, s.history, o.action);
            HeldBack(k, s, o)
            <==> && !o.action.Synthesize? && TailWork(k, s.history) > 0
                 && exists i | 0 <= i < |Role(k, o)| :: 2 * Role(k, o)[i].cost > remaining
  {
    ReserveIsTail(k, s.history, o.action);
    assert Role(k, o) == Staff(k, o);
    assert TailWork(k, s.history) == 2 * (Reserve(k, s.history) * MaxCost(k.models.synthesizer));
  }

  /** What an admitted candidate is dispatched as: its key and retry number count the earlier dispatches
      of the same work; a retry continues under the latest one's task and prefers another model. */
  lemma ChoiceRule(k: Config, s: State, checks: seq<Checks.Check>, c: Candidate)
    requires Configured(k) && k.group < |s.db.groups| && Consider(k, s, checks, c).Ok?
    ensures var choice := Consider(k, s, checks, c).value; var o := c.offer;
            && c.dressing.packet.Some? && choice.key == Key(o.claim, o.action, o.base, Hex(c.dressing.packet.value))
            && choice.retry == |Earlier(s.history, choice.key)|
            && choice.model in Staff(k, o) && Fit(choice.model, c.dressing.fit, Spendable(k, s, o.action))
            && (choice.retry == 0 ==>
                  && choice.parent == o.parent
                  && NoneBefore(Staff(k, o), choice.model, c.dressing, Spendable(k, s, o.action), o.avoid))
            && (choice.retry > 0 ==>
                  exists i | 0 <= i < |s.history| && LastDispatch(s.history, choice.key, i) ::
                    && choice.parent == TaskOf(s.db, s.history[i])
                    && NoneBefore(Staff(k, o), choice.model, c.dressing, Spendable(k, s, o.action), ModelOf(s.db, s.history[i])))
  {
    var key := KeyOf(c.offer, c.dressing.packet.value);
    EarlierCount(s.history, key);
    LastOfRows(s.history, key);
    ChosenModel(k, s, checks, c);
  }

  lemma ChosenModel(k: Config, s: State, checks: seq<Checks.Check>, c: Candidate)
    requires Configured(k) && k.group < |s.db.groups| && Consider(k, s, checks, c).Ok?
    ensures var choice := Consider(k, s, checks, c).value; var o := c.offer;
            && choice.model in Staff(k, o) && Fit(choice.model, c.dressing.fit, Spendable(k, s, o.action))
            && NoneBefore(Staff(k, o), choice.model, c.dressing, Spendable(k, s, o.action),
                          Continues(s, o, KeyOf(o, c.dressing.packet.value)).1)
  {
    var o := c.offer;
    var key := KeyOf(o, c.dressing.packet.value);
    ReserveIsTail(k, s.history, o.action);
    var i := RoutedModel(Role(k, o), c.dressing.fit, c.dressing.quality, Continues(s, o, key).1, Spendable(k, s, o.action));
    assert Role(k, o) == Staff(k, o);
  }

  /** No fit and affordable model is preferred to this one. */
  ghost predicate NoneBefore(models: seq<Model>, m: Model, d: Dressing, remaining: int, avoid: Option<string>) {
    forall n | n in models && Fit(n, d.fit, remaining) :: !Preferred(n, m, d.quality, avoid)
  }

  predicate LastDispatch(history: seq<Decision>, key: Key, i: nat)
    requires i < |history|
  {
    history[i].key == key && forall j | i < j < |history| :: history[j].key != key
  }

  lemma {:induction false} LastOfRows(history: seq<Decision>, key: Key)
    ensures LastOf(history, key).None? <==> CountKey(history, key) == 0
    ensures LastOf(history, key).Some? ==>
              exists i | 0 <= i < |history| && LastDispatch(history, key, i) :: history[i] == LastOf(history, key).value
  {
    if history != [] {
      var front, last := history[..|history| - 1], history[|history| - 1];
      LastOfRows(front, key);
      if last.key == key {
        assert LastDispatch(history, key, |history| - 1);
      } else if LastOf(front, key).Some? {
        var i :| 0 <= i < |front| && LastDispatch(front, key, i) && front[i] == LastOf(front, key).value;
        assert LastDispatch(history, key, i);
      }
    }
  }

  // ----------------------------------------------------------------- advance

  /** A worker or the verifier is at work for the group. */
  ghost predicate AtWork(db: Db, g: nat) {
    exists job | job in db.jobs ::
      job.link.Some? && job.link.value.group == g && (job.status.Queued? || job.status.Assigned? || job.status.Verifying?)
  }

  ghost predicate TimeIsUp(k: Config, s: State, now: int)
    requires Queue.Linked(s.db) && k.group < |s.db.groups| && s.db.groups[k.group].loop.Looping?
  {
    var group := s.db.groups[k.group];
    || now >= group.loop.deadline
    || (group.run.Some? && (s.db.runs[group.run.value].status.Solved? || s.db.runs[group.run.value].status.Errored?))
  }

  /** d is s after the first admitted candidate was dispatched; all those before it were put off. */
  ghost predicate FirstAdmitted(k: Config, s: State, checks: seq<Checks.Check>, cs: seq<Candidate>, now: int, d: State)
    requires Queue.Linked(s.db) && k.group < |s.db.groups|
  {
    exists i | 0 <= i < |cs| && Consider(k, s, checks, cs[i]).Ok? ::
      && (forall j | 0 <= j < i :: Consider(k, s, checks, cs[j]).Err?)
      && d == Dispatch(k, s, Consider(k, s, checks, cs[i]).value, now)
  }

  /** An advance of a looping group: it stops the group when its time is up; waits while somebody works
      for it or an artifact awaits its check; stops it when Lean operations or time are spent, or no
      candidate is admitted; waits for a verifier; and otherwise dispatches the first candidate that is
      admitted, having put off all those before it. */
  lemma AdvanceRule(k: Config, s: State, r: Reading)
    requires Queue.Linked(s.db)
    ensures var d := Advance(k, s, r); var stopped := s.(db := Queue.StopGroup(s.db, k.group));
            if k.group >= |s.db.groups| || !s.db.groups[k.group].loop.Looping? then d == s
            else if TimeIsUp(k, s, r.now) then d == stopped
            else if AtWork(s.db, k.group) || r.pending then d == s
            else if |r.checks| >= k.caps.operations || ChecksRules.LeanTime(r.checks) >= k.caps.millis then d == stopped
            else if !r.bound then d == s
            else
              var cs := Found(k, s, r.evidence, r.dressings);
              if forall c | c in cs :: Consider(k, s, r.checks, c).Err? then d == stopped
              else FirstAdmitted(k, s, r.checks, cs, r.now, d)
  {
    ChecksRules.LeanTimeTotal(r.checks);
    if k.group < |s.db.groups| && s.db.groups[k.group].loop.Looping? {
      AtWorkRows(s.db, k.group);
      if !TimeIsUp(k, s, r.now) && !Busy(s.db, k.group) && !r.pending && !LeanSpent(k, r.checks) && r.bound {
        AdvanceDispatches(k, s, r);
      }
    }
  }

  lemma AdvanceDispatches(k: Config, s: State, r: Reading)
    requires Queue.Linked(s.db) && k.group < |s.db.groups| && s.db.groups[k.group].loop.Looping?
    requires !TimeIsUp(k, s, r.now) && !Busy(s.db, k.group) && !r.pending && !LeanSpent(k, r.checks) && r.bound
    ensures var d := Advance(k, s, r); var cs := Found(k, s, r.evidence, r.dressings);
            if forall c | c in cs :: Consider(k, s, r.checks, c).Err? then d == s.(db := Queue.StopGroup(s.db, k.group))
            else FirstAdmitted(k, s, r.checks, cs, r.now, d)
  {
    AdmitRows(k, s, r.checks, Found(k, s, r.evidence, r.dressings), r.now);
  }

  lemma AtWorkRows(db: Db, g: nat)
    ensures AtWork(db, g) <==> Busy(db, g)
  {
    if AtWork(db, g) {
      var job :| job in db.jobs && job.In(g) && job.Live();
      var j :| 0 <= j < |db.jobs| && db.jobs[j] == job;
    }
  }

  lemma AdmitRows(k: Config, s: State, checks: seq<Checks.Check>, cs: seq<Candidate>, now: int)
    requires Queue.Linked(s.db) && k.group < |s.db.groups|
    ensures var r := Admit(k, s, checks, cs, 0);
            && (r.None? <==> forall c | c in cs :: Consider(k, s, checks, c).Err?)
            && (r.Some? ==> FirstAdmitted(k, s, checks, cs, now, Dispatch(k, s, r.value.1, now)))
  {
    var r := Admit(k, s, checks, cs, 0);
    if r.Some? {
      assert cs[r.value.0] in cs;
    }
  }

  // ---------------------------------------------------------------- dispatch

  function JobKind(a: Action): Queue.Kind {
    if a.Synthesize? then Queue.Generate
    else if a.Plan? then Queue.Respond(Queue.Plan)
    else if a.Critique? then Queue.Respond(Queue.Critique)
    else Queue.Respond(Queue.Finding)
  }

  /** Planning calls that are left; other actions have two assignments each. */
  ghost function Leases(k: Config, s: State, a: Action): nat {
    var left := k.planningCalls - CandidateRules.PlanningCalls(s.history);
    if !(a.Plan? || a.Critique?) || left >= 2 then 2 else if left > 0 then left else 0
  }

  /** A dispatch either puts off nothing and books one job with its decision, at twice the model's cost,
      or leaves the decisions as they are. */
  lemma DispatchedRule(k: Config, s: State, choice: Choice, now: int)
    requires Queue.Linked(s.db)
    ensures var d := Dispatch(k, s, choice, now); var n := |s.db.jobs|; var a := choice.key.action;
            if |d.db.jobs| == n then d.history == s.history
            else
              && |d.db.jobs| == n + 1 && |s.db.tasks| < |d.db.tasks|
              && d.db.jobs[..n] == s.db.jobs
              && d.db.jobs[n] == Queue.Job(d.db.jobs[n].run, Queue.Queued, choice.model.name, JobKind(a), Queue.Settings(false, None),
                                           Leases(k, s, a), None, 0, Some(Queue.GroupLink(k.group, |s.db.tasks|, 2 * choice.model.cost)))
              && d.history == s.history + [Decision(choice.key, choice.retry, n, Leases(k, s, a), 2 * choice.model.cost)]
  {
    var o := OrderFor(k, s, choice);
    Booked(s.db, k.group, o, now);
    CandidateRules.PlanningCount(s.history);
    assert LeasesOf(o) == Leases(k, s, choice.key.action);
  }

  function LeasesOf(o: Queue.Order): nat {
    if o.planning.Some? && o.planning.value < 2 then o.planning.value else 2
  }

  lemma Booked(db: Db, g: nat, o: Queue.Order, now: int)
    requires Queue.Linked(db)
    ensures var d := Queue.Dispatch(db, g, o, now); var n := |db.jobs|;
            |d.jobs| == n ||
            (&& |d.jobs| == n + 1 && |db.tasks| < |d.tasks| && d.jobs[..n] == db.jobs
             && d.jobs[n] == Queue.Job(d.jobs[n].run, Queue.Queued, o.model, o.kind, Queue.Settings(false, None), LeasesOf(o),
                                       None, 0, Some(Queue.GroupLink(g, |db.tasks|, 2 * o.unit))))
  {
    GroupRules.DispatchRule(db, g, o, now);
    SameJobs(db, g);
    var d := Queue.Dispatch(db, g, o, now);
    if |d.jobs| != |db.jobs| {
      AppendParts(db.jobs, d.jobs[|db.jobs|]);
    }
  }

  lemma SameJobs(db: Db, g: nat)
    requires Queue.Linked(db)
    ensures |Queue.StopGroup(db, g).jobs| == |db.jobs|
  {
  }
}
