/**
 The graph frontier: which candidate is admitted next, at what price, and what stays held
 back for the target proof. It runs over the job tables of module Queue, and a dispatch
 is Queue's own, so every theorem about those tables holds of frontier groups.
 */
module Frontier {
  import opened Basics
  import opened Strategies
  import opened Candidates
  import Queue
  import Checks

  // ------------------------------------------------------------ reservations

  function MaxCost(models: seq<Model>): (c: nat)
    ensures forall i | 0 <= i < |models| :: models[i].cost <= c
    ensures |models| > 0 ==> exists i | 0 <= i < |models| :: models[i].cost == c
  {
    if models == [] then 0
    else
      var rest := MaxCost(models[..|models| - 1]);
      assert models == models[..|models| - 1] + [models[|models| - 1]];
      if models[|models| - 1].cost > rest then models[|models| - 1].cost else rest
  }

  /** completion_tail: the synthesis jobs still held back, and their work at the dearest price. */
  function TailJobs(k: Config, history: seq<Decision>): nat {
    if k.reserve then Max(0, 1 + k.corrections - CountAction(history, Synthesize)) else 0
  }

  function TailWork(k: Config, history: seq<Decision>): nat {
    TailJobs(k, history) * 2 * MaxCost(k.models.synthesizer)
  }

  /** The work that a candidate must leave: a completion may take its own share of the tail. */
  function Held(k: Config, history: seq<Decision>, a: Action): nat {
    var jobs, work := TailJobs(k, history), TailWork(k, history);
    if !a.Synthesize? then work else if jobs > 0 then OthersShare(work, jobs) else 0
  }

  /** tail["work"] * max(0, tail["jobs"] - 1) // tail["jobs"] */
  function OthersShare(work: nat, jobs: nat): nat
    requires jobs > 0
  {
    var others: nat := jobs - 1;
    Quotient(work * others, jobs)
  }

  function Quotient(a: nat, b: nat): nat
    requires b > 0
  {
    a / b
  }

  // ---------------------------------------------------------------- routing

  predicate Viable(m: Model, fit: set<string>, remaining: int) {
    m.name in fit && 2 * m.cost <= remaining
  }

  /** Quality first, unless the model is the one to avoid. */
  function Rating(m: Model, quality: map<string, nat>, avoid: Option<string>): (nat, nat) {
    (if avoid == Some(m.name) then 1 else 0, if m.name in quality then quality[m.name] else 0)
  }

  predicate Better(m: Model, n: Model, quality: map<string, nat>, avoid: Option<string>) {
    var a, b := Rating(m, quality, avoid), Rating(n, quality, avoid);
    a.0 < b.0 || (a.0 == b.0 && a.1 < b.1)
  }

  /** The first of the best viable models. */
  function Best(models: seq<Model>, fit: set<string>, quality: map<string, nat>, avoid: Option<string>, remaining: int): (r: Option<Model>)
    ensures r.None? <==> forall i | 0 <= i < |models| :: !Viable(models[i], fit, remaining)
    ensures r.Some? ==> r.value in models && Viable(r.value, fit, remaining)
    ensures r.Some? ==> forall i | 0 <= i < |models| :: Viable(models[i], fit, remaining) ==> !Better(models[i], r.value, quality, avoid)
  {
    if models == [] then None
    else
      assert models == models[..|models| - 1] + [models[|models| - 1]];
      var rest := Best(models[..|models| - 1], fit, quality, avoid, remaining);
      var last := models[|models| - 1];
      if Viable(last, fit, remaining) && (rest.None? || Better(last, rest.value, quality, avoid)) then Some(last) else rest
  }

  /** An offer with the packet built for it (its declarations' digest, or None when no packet fits),
      the models that are fit and present, and their observed quality. */
  datatype Dressing = Dressing(packet: Option<nat>, fit: set<string>, quality: map<string, nat>)
  datatype Candidate = Candidate(offer: Offer, dressing: Dressing)

  function Dress(o: Offer, dressings: map<Offer, Dressing>): Candidate {
    Candidate(o, if o in dressings then dressings[o] else Dressing(None, {}, map[]))
  }

  function DressAll(offers: seq<Offer>, dressings: map<Offer, Dressing>): (cs: seq<Candidate>)
    ensures |cs| == |offers| && forall i | 0 <= i < |cs| :: cs[i] == Dress(offers[i], dressings)
  {
    seq(|offers|, i requires 0 <= i < |offers| => Dress(offers[i], dressings))
  }

  /** The ranked candidates of one advance. */
  function Found(k: Config, s: State, v: Evidence, dressings: map<Offer, Dressing>): seq<Candidate> {
    DressAll(Ranked(Offers(k, s, v)), dressings)
  }

  function Role(k: Config, o: Offer): seq<Model> {
    if o.only.Some? then [o.only.value]
    else
      match o.action
      case Plan => k.models.planner
      case Critique => k.models.critic
      case Synthesize => k.models.synthesizer
      case Investigate => k.models.investigator
      case Prove => k.models.investigator
  }

  // --------------------------------------------------------------- admission

  function CountKey(history: seq<Decision>, key: Key): nat {
    if history == [] then 0
    else CountKey(history[..|history| - 1], key) + if history[|history| - 1].key == key then 1 else 0
  }

  /** prior[-1] */
  function LastOf(history: seq<Decision>, key: Key): Option<Decision> {
    if history == [] then None
    else if history[|history| - 1].key == key then Some(history[|history| - 1])
    else LastOf(history[..|history| - 1], key)
  }

  datatype Why =
    | CompletionJobReserve | CompletionVerificationReserve | CompletionLeanTimeReserve
    | ContextUnfit | EquivalentStrategyExhausted | CompletionWorkReserve | ModelUnavailableOrBudget

  datatype Choice = Choice(key: Key, retry: nat, model: Model, parent: Option<nat>)

  function Retries(k: Config, a: Action): nat {
    if IsPlanning(a) || (a.Synthesize? && k.corrections > 0) then 0 else k.retries
  }

  function HeldJobs(k: Config, history: seq<Decision>, a: Action): nat {
    if a.Synthesize? then Max(0, TailJobs(k, history) - 1) else TailJobs(k, history)
  }

  /** A retry continues the last attempt, with another model if one is as good. */
  function Continues(s: State, o: Offer, key: Key): (Option<nat>, Option<string>) {
    match LastOf(s.history, key)
    case None => (o.parent, o.avoid)
    case Some(d) => (TaskOf(s.db, d), ModelOf(s.db, d))
  }

  function KeyOf(o: Offer, packet: nat): Key {
    Key(o.claim, o.action, o.base, Hex(packet))
  }

  /** The body of the loop in _admit_candidate, for one candidate. */
  function Consider(k: Config, s: State, checks: seq<Checks.Check>, c: Candidate): Result<Choice, Why>
    requires k.group < |s.db.groups|
  {
    var g, a := s.db.groups[k.group], c.offer.action;
    var slots := Checks.Tail(k.caps, checks);
    if TailJobs(k, s.history) > 0 && |s.history| + 1 + HeldJobs(k, s.history, a) > g.maxTasks then Err(CompletionJobReserve)
    else if (a.Investigate? || a.Prove?) && slots > 0 && |checks| >= k.caps.operations - slots
    then Err(CompletionVerificationReserve)
    else if (a.Investigate? || a.Prove?) && slots > 0
            && Checks.Total(checks, Checks.CHARGE) + k.caps.checkMillis > k.caps.millis - slots * k.caps.checkMillis
    then Err(CompletionLeanTimeReserve)
    else if c.dressing.packet.None? then Err(ContextUnfit)
    else Routed(k, s, c)
  }

  /** A candidate with a packet: earlier attempts at the same key, and the model that takes it. */
  function Routed(k: Config, s: State, c: Candidate): Result<Choice, Why>
    requires k.group < |s.db.groups| && c.dressing.packet.Some?
  {
    var a := c.offer.action;
    var key := KeyOf(c.offer, c.dressing.packet.value);
    var prior := CountKey(s.history, key);
    if prior > Retries(k, a) then Err(EquivalentStrategyExhausted)
    else
      var remaining := s.db.groups[k.group].remaining - Held(k, s.history, a);
      var (parent, avoid) := Continues(s, c.offer, key);
      match Best(Role(k, c.offer), c.dressing.fit, c.dressing.quality, avoid, remaining)
      case Some(m) => Ok(Choice(key, prior, m, parent))
      case None =>
        if !a.Synthesize? && TailWork(k, s.history) > 0
           && exists i | 0 <= i < |Role(k, c.offer)| :: 2 * Role(k, c.offer)[i].cost > remaining
        then Err(CompletionWorkReserve)
        else Err(ModelUnavailableOrBudget)
  }

  /** The first candidate that can be admitted, from position i on. */
  function Admit(k: Config, s: State, checks: seq<Checks.Check>, cs: seq<Candidate>, i: nat): (r: Option<(nat, Choice)>)
    requires k.group < |s.db.groups| && i <= |cs|
    ensures r.Some? ==> i <= r.value.0 < |cs| && Consider(k, s, checks, cs[r.value.0]) == Ok(r.value.1)
    ensures forall j | i <= j < |cs| && (r.Some? ==> j < r.value.0) :: Consider(k, s, checks, cs[j]).Err?
    decreases |cs| - i
  {
    if i == |cs| then None
    else
      match Consider(k, s, checks, cs[i])
      case Ok(choice) => Some((i, choice))
      case Err(_) => Admit(k, s, checks, cs, i + 1)
  }

  // ----------------------------------------------------------------- advance

  function OrderFor(k: Config, s: State, choice: Choice): Queue.Order {
    var a := choice.key.action;
    Queue.Order(
      choice.model.cost,
      Held(k, s.history, a),
      if IsPlanning(a) then Some(Max(0, k.planningCalls - PlanningSpent(s.history))) else None,
      Some(|s.history|),
      choice.parent, choice.model.name,
      match a
      case Plan => Queue.Respond(Queue.Plan)
      case Critique => Queue.Respond(Queue.Critique)
      case Synthesize => Queue.Generate
      case Investigate => Queue.Respond(Queue.Finding)
      case Prove => Queue.Respond(Queue.Finding))
  }

  predicate Busy(db: Db, g: nat) {
    exists j | 0 <= j < |db.jobs| :: db.jobs[j].In(g) && db.jobs[j].Live()
  }

  /** _dispatch_frontier_task: the job and its decision, unless the task limits stop the group. */
  function Dispatch(k: Config, s: State, choice: Choice, now: int): State
    requires Queue.Linked(s.db)
  {
    var o := OrderFor(k, s, choice);
    var db := Queue.Dispatch(s.db, k.group, o, now);
    if |db.jobs| == |s.db.jobs| then s.(db := db)
    else State(db, s.history + [Decision(choice.key, choice.retry, |s.db.jobs|, Queue.LeaseLimit(o), 2 * o.unit)])
  }

  /** lean_budget_reason */
  predicate LeanSpent(k: Config, checks: seq<Checks.Check>) {
    |checks| >= k.caps.operations || Checks.Total(checks, Checks.CHARGE) >= k.caps.millis
  }

  /** What one advance reads besides the job tables: the group's checks, its evidence, packets and
      models for the offers, whether an artifact awaits its check, and whether the verifier is bound. */
  datatype Reading = Reading(checks: seq<Checks.Check>, evidence: Evidence, dressings: map<Offer, Dressing>,
                             pending: bool, bound: bool, now: int)

  /** advance_frontier */
  function Advance(k: Config, s: State, r: Reading): State
    requires Queue.Linked(s.db)
  {
    if k.group >= |s.db.groups| || !s.db.groups[k.group].loop.Looping? then s
    else
      var g := s.db.groups[k.group];
      if g.run.Some? && Queue.Terminal(s.db.runs[g.run.value].status) then s.(db := Queue.StopGroup(s.db, k.group))
      else if r.now >= g.loop.deadline then s.(db := Queue.StopGroup(s.db, k.group))
      else if Busy(s.db, k.group) || r.pending then s
      else if LeanSpent(k, r.checks) then s.(db := Queue.StopGroup(s.db, k.group))
      else if !r.bound then s
      else
        match Admit(k, s, r.checks, Found(k, s, r.evidence, r.dressings), 0)
        case None => s.(db := Queue.StopGroup(s.db, k.group))
        case Some((_, choice)) => Dispatch(k, s, choice, r.now)
  }

  datatype Event = EOther(event: Queue.Event) | EAdvance(reading: Reading)

  /** The group's loop is graph-driven: only the frontier dispatches for it. */
  predicate Foreign(k: Config, e: Queue.Event) {
    !(e.EDispatch? && e.group == k.group)
  }

  function Step(k: Config, s: State, e: Event): (d: State)
    requires Queue.Linked(s.db)
    ensures Queue.Linked(d.db)
  {
    match e
    case EOther(event) => if Foreign(k, event) then s.(db := Queue.Step(s.db, event)) else s
    case EAdvance(r) => Advance(k, s, r)
  }

  /** The state after a run of the scheduler from s. */
  function Run(k: Config, s: State, events: seq<Event>): (d: State)
    requires Queue.Linked(s.db)
    ensures Queue.Linked(d.db)
  {
    if events == [] then s else Step(k, Run(k, s, events[..|events| - 1]), events[|events| - 1])
  }
}
