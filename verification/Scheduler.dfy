/**
 advance_frontier as the coordinator runs it: one transaction over the store that admits and
 dispatches at most one candidate. Its effect is the one that module Frontier describes.
 */
module Scheduler {
  import opened Basics
  import opened Strategies
  import opened Candidates
  import opened Frontier
  import Queue
  import Checks
  import Store

  // -------------------------------------------------------------- candidates

  /** _frontier_candidates, with the list that its inner functions append to. */
  class Finder {
    const k: Config
    const s: State
    const v: Evidence
    var candidates: seq<Offer>

    constructor (k: Config, s: State, v: Evidence)
      ensures this.k == k && this.s == s && this.v == v && candidates == []
    {
      this.k, this.s, this.v, candidates := k, s, v, [];
    }

    /** candidate */
    method Add(claim: nat, a: Action, rank: int, base: string)
      modifies this
      ensures candidates == old(candidates) + Suggest(k, s, v, claim, a, rank, base)
    {
      if (a.Plan? || a.Critique?) && PlanningSpent(s.history) >= k.planningCalls {
        return;
      }
      var priority := 0;
      if claim in v.proposals {
        priority := v.proposals[claim].priority;
      }
      candidates := candidates + [Offer(claim, a, rank, priority, base, None, None, None)];
    }

    /** candidates[-1].update(...) */
    method UpdateLast(avoid: Option<string>, parent: Option<nat>, only: Option<Model>)
      requires candidates != []
      modifies this
      ensures var n := |old(candidates)| - 1;
              candidates == old(candidates)[..n] + [old(candidates)[n].(avoid := avoid, parent := parent, only := only)]
    {
      var n := |candidates| - 1;
      candidates := candidates[n := candidates[n].(avoid := avoid, parent := parent, only := only)];
    }

    method AddHelp(claim: nat)
      modifies this
      ensures candidates == old(candidates) + Help(k, s, v, claim)
    {
      if claim in v.proposals && v.proposals[claim].action.Critique? {
        Add(claim, Critique, 1, Hex(v.proposals[claim].id));
      }
    }

    /** _direct_auxiliary_candidate */
    method AddDirectAuxiliary(a: Artifact)
      modifies this
      ensures candidates == old(candidates) + DirectAuxiliary(k, s, v, a)
    {
      if a.claim in v.proposals && v.proposals[a.claim].action.Critique? {
        AddHelp(a.claim);
      } else if !Used(s.history, AUXILIARY_CORRECTION, Some(a.claim)) && k.retries > 0 && a.finding.Refuted? && a.author.Some? {
        Add(a.claim, Investigate, -1, AUXILIARY_CORRECTION);
        UpdateLast(None, Some(a.task), a.author);
      } else {
        Add(a.claim, Critique, 1, "rejected");
      }
    }

    /** The answer to a finished critique of a rejection. */
    method AddRepair(claim: nat)
      modifies this
      ensures candidates == old(candidates) + Repair(k, s, v, claim)
    {
      var critiques, findings := Past(s.history, claim, Critique), Past(s.history, claim, Investigate);
      var done := false;
      for i := 0 to |critiques|
        invariant done <==> exists j | 0 <= j < i :: AnswersRejection(s.db, critiques[j])
      {
        if AnswersRejection(s.db, critiques[i]) {
          done := true;
        }
      }
      if done && findings != [] && |findings| <= k.retries && claim in v.answered {
        var last := findings[|findings| - 1];
        Add(claim, Investigate, 2, "auxiliary-repair");
        UpdateLast(ModelOf(s.db, last), TaskOf(s.db, last), None);
      }
    }

    /** One round of the loop over the nodes. */
    method AddNode(n: Node)
      modifies this
      ensures candidates == old(candidates) + NodeOffers(k, s, v, n)
    {
      if n.claim == k.root || n.opinion.Abandoned? {
        return;
      }
      if n.opinion.Challenged? {
        Add(n.claim, Critique, 1, Hex(n.review));
      } else if Checked(v, n.claim) {
        return;
      } else {
        var negative := LastNegative(v.artifacts, n.claim);
        if negative.Some? {
          if k.direct {
            AddDirectAuxiliary(negative.value);
            return;
          }
          Add(n.claim, Critique, 1, "rejected");
          AddRepair(n.claim);
        } else if n.opinion.Promising? || Attempted(s, n.claim) || Proposed(v, n.claim, Prove) {
          Add(n.claim, Prove, 2, "default");
        } else {
          Add(n.claim, Investigate, 3, "default");
        }
      }
      AddHelp(n.claim);
    }

    method Collect()
      requires candidates == []
      modifies this
      ensures candidates == Offers(k, s, v)
    {
      if s.history == [] {
        Add(k.root, Plan, -1, "initial");
        return;
      }
      for i := 0 to |v.nodes|
        invariant candidates == AllNodeOffers(k, s, v, v.nodes[..i])
      {
        TakeNext(v.nodes, i);
        AddNode(v.nodes[i]);
      }
      TakeAll(v.nodes);
      Add(k.root, Synthesize, if NewContext(k, v) then 0 else 4, "default");
      if k.corrections > 0 && !Used(s.history, TARGET_CORRECTION, None) && v.failed.Some? {
        Add(k.root, Synthesize, -1, TARGET_CORRECTION);
        UpdateLast(None, v.failed, None);
      }
      if v.digest.Some? && CountAction(s.history, Plan) < MAX_PLANS {
        Add(k.root, Plan, 5, Hex(v.digest.value));
      }
    }
  }

  // --------------------------------------------------------------- admission

  lemma BestNext(models: seq<Model>, i: nat, fit: set<string>, quality: map<string, nat>, avoid: Option<string>, remaining: int)
    requires i < |models|
    ensures var best := Best(models[..i], fit, quality, avoid, remaining);
            Best(models[..i + 1], fit, quality, avoid, remaining)
            == if Viable(models[i], fit, remaining) && (best.None? || Better(models[i], best.value, quality, avoid))
               then Some(models[i]) else best
  {
    TakeNext(models, i);
  }

  /** choose: the best viable model, and whether a model was over budget. */
  method Choose(models: seq<Model>, fit: set<string>, quality: map<string, nat>, avoid: Option<string>, remaining: int)
    returns (chosen: Option<Model>, overBudget: bool)
    ensures chosen == Best(models, fit, quality, avoid, remaining)
    ensures overBudget <==> exists i | 0 <= i < |models| :: 2 * models[i].cost > remaining
  {
    chosen, overBudget := None, false;
    for i := 0 to |models|
      invariant chosen == Best(models[..i], fit, quality, avoid, remaining)
      invariant overBudget <==> exists j | 0 <= j < i :: 2 * models[j].cost > remaining
    {
      BestNext(models, i, fit, quality, avoid, remaining);
      if 2 * models[i].cost > remaining {
        overBudget := true;
      } else if models[i].name in fit && (chosen.None? || Better(models[i], chosen.value, quality, avoid)) {
        chosen := Some(models[i]);
      }
    }
    TakeAll(models);
  }

  /** One candidate of _admit_candidate's loop. */
  method TryCandidate(k: Config, s: State, checks: seq<Checks.Check>, c: Candidate) returns (r: Result<Choice, Why>)
    requires k.group < |s.db.groups|
    ensures r == Consider(k, s, checks, c)
  {
    var g, a := s.db.groups[k.group], c.offer.action;
    var tail := TailJobs(k, s.history);
    var held := tail;
    if a.Synthesize? && tail > 0 {
      held := tail - 1;
    }
    if tail > 0 && |s.history| + 1 + held > g.maxTasks {
      return Err(CompletionJobReserve);
    }
    var slots := Checks.Tail(k.caps, checks);
    if (a.Investigate? || a.Prove?) && slots > 0 {
      if |checks| >= k.caps.operations - slots {
        return Err(CompletionVerificationReserve);
      }
      if Checks.Total(checks, Checks.CHARGE) + k.caps.checkMillis > k.caps.millis - slots * k.caps.checkMillis {
        return Err(CompletionLeanTimeReserve);
      }
    }
    if c.dressing.packet.None? {
      return Err(ContextUnfit);
    }
    r := RouteCandidate(k, s, c);
  }

  /** The retry number and the route of a candidate whose packet fits. */
  method RouteCandidate(k: Config, s: State, c: Candidate) returns (r: Result<Choice, Why>)
    requires k.group < |s.db.groups| && c.dressing.packet.Some?
    ensures r == Routed(k, s, c)
  {
    var a := c.offer.action;
    var key := KeyOf(c.offer, c.dressing.packet.value);
    var prior := CountKey(s.history, key);
    var parent, avoid := c.offer.parent, c.offer.avoid;
    if prior > 0 {
      if prior > Retries(k, a) {
        return Err(EquivalentStrategyExhausted);
      }
      LastCounted(s.history, key);
      var last := LastOf(s.history, key).value;
      parent, avoid := TaskOf(s.db, last), ModelOf(s.db, last);
    } else {
      NeverCounted(s.history, key);
    }
    var remaining := s.db.groups[k.group].remaining - Held(k, s.history, a);
    var chosen, overBudget := Choose(Role(k, c.offer), c.dressing.fit, c.dressing.quality, avoid, remaining);
    if chosen.None? {
      if !a.Synthesize? && TailWork(k, s.history) > 0 && overBudget {
        return Err(CompletionWorkReserve);
      }
      return Err(ModelUnavailableOrBudget);
    }
    r := Ok(Choice(key, prior, chosen.value, parent));
  }

  lemma {:induction false} LastCounted(history: seq<Decision>, key: Key)
    requires CountKey(history, key) > 0
    ensures LastOf(history, key).Some?
  {
    if history[|history| - 1].key != key {
      LastCounted(history[..|history| - 1], key);
    }
  }

  lemma {:induction false} NeverCounted(history: seq<Decision>, key: Key)
    requires CountKey(history, key) == 0
    ensures LastOf(history, key).None?
  {
    if history != [] {
      NeverCounted(history[..|history| - 1], key);
    }
  }

  /** _admit_candidate: the first admissible candidate; those before it are deferred with a reason. */
  method AdmitCandidate(k: Config, s: State, checks: seq<Checks.Check>, cs: seq<Candidate>)
    returns (selected: Option<(nat, Choice)>, deferred: seq<Why>)
    requires k.group < |s.db.groups|
    ensures selected == Admit(k, s, checks, cs, 0)
    ensures |deferred| == if selected.Some? then selected.value.0 else |cs|
    ensures forall i | 0 <= i < |deferred| :: Consider(k, s, checks, cs[i]) == Err(deferred[i])
  {
    deferred := [];
    for i := 0 to |cs|
      invariant |deferred| == i
      invariant forall j | 0 <= j < i :: Consider(k, s, checks, cs[j]) == Err(deferred[j])
      invariant Admit(k, s, checks, cs, 0) == Admit(k, s, checks, cs, i)
    {
      var r := TryCandidate(k, s, checks, cs[i]);
      if r.Ok? {
        return Some((i, r.value)), deferred;
      }
      deferred := deferred + [r.error];
    }
    selected := None;
  }

  class Scheduler {
    const store: Store.Store
    var history: seq<Decision>

    ghost function View(): State
      reads this, store
    {
      State(store.View(), history)
    }

    constructor (store: Store.Store)
      ensures this.store == store && history == []
    {
      this.store, history := store, [];
    }

    function Tables(): Db
      reads store
    {
      Queue.Db(store.runs, store.jobs, store.leases, store.groups, store.tasks)
    }

    /** _dispatch_frontier_task */
    method DispatchTask(k: Config, choice: Choice, now: int)
      requires store.Valid()
      modifies this`history, store
      ensures store.Valid() && View() == Dispatch(k, old(View()), choice, now)
    {
      var o := OrderFor(k, State(Tables(), history), choice);
      var job := |store.jobs|;
      store.DispatchJob(k.group, o, now);
      if |store.jobs| != job {
        history := history + [Decision(choice.key, choice.retry, job, Queue.LeaseLimit(o), 2 * o.unit)];
      }
    }

    /** The candidates, ranked, with the packets and models for them. */
    method FindCandidates(k: Config, v: Evidence, dressings: map<Offer, Dressing>) returns (cs: seq<Candidate>)
      ensures cs == Found(k, View(), v, dressings)
    {
      var finder := new Finder(k, State(Tables(), history), v);
      finder.Collect();
      cs := DressAll(Ranked(finder.candidates), dressings);
    }

    /** advance_frontier */
    method AdvanceFrontier(k: Config, r: Reading)
      requires store.Valid()
      modifies this`history, store
      ensures store.Valid() && View() == Advance(k, old(View()), r)
    {
      if k.group >= |store.groups| || !store.groups[k.group].loop.Looping? {
        return;
      }
      var g := store.groups[k.group];
      if (g.run.Some? && Queue.Terminal(store.runs[g.run.value].status)) || r.now >= g.loop.deadline {
        store.Stop(k.group);
        return;
      }
      if Busy(Tables(), k.group) || r.pending {
        return;
      }
      if LeanSpent(k, r.checks) {
        store.Stop(k.group);
        return;
      }
      if r.bound {
        AdmitNext(k, r);
      }
    }

    /** The rest of an advance: the first admissible candidate, or the end of the group. */
    method AdmitNext(k: Config, r: Reading)
      requires store.Valid() && k.group < |store.groups|
      modifies this`history, store
      ensures store.Valid()
      ensures View() == match Admit(k, old(View()), r.checks, Found(k, old(View()), r.evidence, r.dressings), 0)
                        case None => old(View()).(db := Queue.StopGroup(old(View()).db, k.group))
                        case Some((_, choice)) => Dispatch(k, old(View()), choice, r.now)
    {
      var cs := FindCandidates(k, r.evidence, r.dressings);
      var selected, deferred := AdmitCandidate(k, State(Tables(), history), r.checks, cs);
      if selected.None? {
        store.Stop(k.group);
      } else {
        DispatchTask(k, selected.value.1, r.now);
      }
    }
  }
}
