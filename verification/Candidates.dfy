/**
 What the frontier may do next: _frontier_candidates reads the dispatches made so far and the
 group's evidence, and ranks plans, critiques, investigations, proofs and target attempts.
 */
module Candidates {
  import opened Basics
  import opened Strategies
  import Queue
  import Checks
  type Db = Queue.Db

  // ------------------------------------------------------------------ tables

  datatype Action = Plan | Investigate | Critique | Prove | Synthesize

  const TARGET_CORRECTION := "target-correction"
  const AUXILIARY_CORRECTION := "auxiliary-correction"
  const MAX_PLANS := 3

  /** What a dispatch works on: its base strategy, and the digest of the declarations in its context. */
  datatype Key = Key(claim: nat, action: Action, base: string, context: string)

  /** A row of frontier_decisions that dispatched a job. */
  datatype Decision = Decision(key: Key, retry: nat, job: nat, leases: nat, cost: nat)

  datatype Model = Model(name: string, cost: nat)
  datatype Models = Models(planner: seq<Model>, critic: seq<Model>, synthesizer: seq<Model>, investigator: seq<Model>)

  datatype Config = Config(group: nat, root: nat, planningCalls: nat, retries: nat, corrections: nat, direct: bool,
                           reserve: bool, models: Models, caps: Checks.Caps)

  predicate Configured(k: Config) {
    && k.corrections <= 1 && k.caps.corrections == k.corrections && k.caps.reserve == k.reserve
    && |k.models.planner| > 0 && |k.models.critic| > 0 && |k.models.synthesizer| > 0 && |k.models.investigator| > 0
    && (forall i | 0 <= i < |k.models.synthesizer| :: k.models.synthesizer[i].cost >= 1)
  }

  datatype State = State(db: Db, history: seq<Decision>)

  predicate DoneJob(db: Db, d: Decision) {
    d.job < |db.jobs| && db.jobs[d.job].status.Done?
  }

  function TaskOf(db: Db, d: Decision): Option<nat> {
    if d.job < |db.jobs| && db.jobs[d.job].link.Some? then Some(db.jobs[d.job].link.value.task) else None
  }

  function ModelOf(db: Db, d: Decision): Option<string> {
    if d.job < |db.jobs| then Some(db.jobs[d.job].model) else None
  }

  function CountAction(history: seq<Decision>, a: Action): nat {
    if history == [] then 0
    else CountAction(history[..|history| - 1], a) + if history[|history| - 1].key.action == a then 1 else 0
  }

  predicate IsPlanning(a: Action) {
    a.Plan? || a.Critique?
  }

  /** sum of max_assignments over plan and critique decisions */
  function PlanningSpent(history: seq<Decision>): nat {
    if history == [] then 0
    else
      var last := history[|history| - 1];
      PlanningSpent(history[..|history| - 1]) + if IsPlanning(last.key.action) then last.leases else 0
  }

  /** The decisions about a claim with this action, oldest first. */
  function Past(history: seq<Decision>, claim: nat, a: Action): seq<Decision> {
    if history == [] then []
    else
      var last := history[|history| - 1];
      Past(history[..|history| - 1], claim, a) + if last.key.claim == claim && last.key.action == a then [last] else []
  }

  // ---------------------------------------------------------------- evidence

  datatype Opinion = Suggested | Promising | Challenged | Abandoned

  /** A claim reached from the target by suggestions, with its latest review. */
  datatype Node = Node(claim: nat, opinion: Opinion, review: nat)

  datatype Finding = Accepted | Refuted | TimedOut | Broken | Undecided

  /** A formal artifact: the claim it is about, its verdict, whether the verifier in force gave it, its
      task, and the model of the job it came from. */
  datatype Artifact = Artifact(claim: nat, finding: Finding, current: bool, task: nat, author: Option<Model>)

  datatype Proposal = Proposal(id: nat, action: Action, priority: nat)

  /** All that the graph and the verdicts contribute, in row order. failed is the task of the latest
      target attempt that Lean rejected; answered has the claims whose last critique cites their
      rejected artifact; digest covers the events that may trigger planning. */
  datatype Evidence = Evidence(nodes: seq<Node>, artifacts: seq<Artifact>, proposals: map<nat, Proposal>,
                               failed: Option<nat>, answered: set<nat>, digest: Option<nat>)

  predicate Checked(v: Evidence, claim: nat) {
    exists i | 0 <= i < |v.artifacts| ::
      v.artifacts[i].claim == claim && v.artifacts[i].finding.Accepted? && v.artifacts[i].current
  }

  predicate Negative(f: Finding) {
    f.Refuted? || f.TimedOut? || f.Broken?
  }

  /** a is the claim's latest artifact with a negative verdict. */
  predicate Latest(artifacts: seq<Artifact>, claim: nat, a: Artifact) {
    exists i | 0 <= i < |artifacts| ::
      artifacts[i] == a && a.claim == claim && Negative(a.finding)
      && forall j | i < j < |artifacts| :: artifacts[j].claim != claim || !Negative(artifacts[j].finding)
  }

  /** The claim's latest artifact with a negative verdict. */
  function LastNegative(artifacts: seq<Artifact>, claim: nat): (r: Option<Artifact>)
    ensures r.Some? ==> Latest(artifacts, claim, r.value)
    ensures r.None? ==> forall a | a in artifacts && a.claim == claim :: !Negative(a.finding)
  {
    if artifacts == [] then None
    else
      var last := artifacts[|artifacts| - 1];
      assert artifacts == artifacts[..|artifacts| - 1] + [last];
      if last.claim == claim && Negative(last.finding) then Some(last) else LastNegative(artifacts[..|artifacts| - 1], claim)
  }

  /** A checked lemma that the graph still stands by. */
  predicate NewContext(k: Config, v: Evidence) {
    exists i | 0 <= i < |v.nodes| ::
      v.nodes[i].claim != k.root && Checked(v, v.nodes[i].claim)
      && !v.nodes[i].opinion.Abandoned? && !v.nodes[i].opinion.Challenged?
  }

  // -------------------------------------------------------------- candidates

  datatype Offer = Offer(claim: nat, action: Action, rank: int, priority: nat, base: string,
                         avoid: Option<string>, parent: Option<nat>, only: Option<Model>)

  /** The inner function candidate: plans and critiques end with the planning cap. */
  function Suggest(k: Config, s: State, v: Evidence, claim: nat, a: Action, rank: int, base: string): seq<Offer> {
    if IsPlanning(a) && PlanningSpent(s.history) >= k.planningCalls then []
    else [Offer(claim, a, rank, if claim in v.proposals then v.proposals[claim].priority else 0, base, None, None, None)]
  }

  predicate Proposed(v: Evidence, claim: nat, a: Action) {
    claim in v.proposals && v.proposals[claim].action == a
  }

  /** A request for help gets a critique of its own. */
  function Help(k: Config, s: State, v: Evidence, claim: nat): seq<Offer> {
    if Proposed(v, claim, Critique) then Suggest(k, s, v, claim, Critique, 1, Hex(v.proposals[claim].id)) else []
  }

  /** r["strategy"].startswith(word + "|") for some decision about the claim, or about any claim. */
  predicate Used(history: seq<Decision>, word: string, claim: Option<nat>) {
    exists i | 0 <= i < |history| ::
      StartsWith(Strategy(history[i].key.base, history[i].key.context, history[i].retry), word + "|")
      && (claim.Some? ==> history[i].key.claim == claim.value)
  }

  /** _direct_auxiliary_candidate */
  function DirectAuxiliary(k: Config, s: State, v: Evidence, a: Artifact): seq<Offer> {
    if Proposed(v, a.claim, Critique) then Help(k, s, v, a.claim)
    else if !Used(s.history, AUXILIARY_CORRECTION, Some(a.claim)) && k.retries > 0 && a.finding.Refuted? && a.author.Some?
    then [Offer(a.claim, Investigate, -1, if a.claim in v.proposals then v.proposals[a.claim].priority else 0,
                AUXILIARY_CORRECTION, None, Some(a.task), a.author)]
    else Suggest(k, s, v, a.claim, Critique, 1, "rejected")
  }

  /** status == "done" and strategy.startswith("rejected|context:") */
  predicate AnswersRejection(db: Db, d: Decision) {
    DoneJob(db, d) && StartsWith(Strategy(d.key.base, d.key.context, d.retry), "rejected|context:")
  }

  predicate SomeAnswers(db: Db, critiques: seq<Decision>) {
    exists i | 0 <= i < |critiques| :: AnswersRejection(db, critiques[i])
  }

  /** A finished critique of a rejection, within the retries, is answered by another investigation. */
  function Repair(k: Config, s: State, v: Evidence, claim: nat): seq<Offer> {
    var critiques := Past(s.history, claim, Critique);
    var findings := Past(s.history, claim, Investigate);
    if SomeAnswers(s.db, critiques) && 0 < |findings| <= k.retries && claim in v.answered then
      var last := findings[|findings| - 1];
      [Offer(claim, Investigate, 2, if claim in v.proposals then v.proposals[claim].priority else 0, "auxiliary-repair",
             ModelOf(s.db, last), TaskOf(s.db, last), None)]
    else []
  }

  predicate Attempted(s: State, claim: nat) {
    exists i | 0 <= i < |Past(s.history, claim, Investigate)| :: DoneJob(s.db, Past(s.history, claim, Investigate)[i])
  }

  /** One round of the loop over the nodes. */
  function NodeOffers(k: Config, s: State, v: Evidence, n: Node): seq<Offer> {
    if n.claim == k.root || n.opinion.Abandoned? then []
    else if n.opinion.Challenged? then Suggest(k, s, v, n.claim, Critique, 1, Hex(n.review)) + Help(k, s, v, n.claim)
    else if Checked(v, n.claim) then []
    else
      match LastNegative(v.artifacts, n.claim)
      case Some(a) =>
        if k.direct then DirectAuxiliary(k, s, v, a)
        else Suggest(k, s, v, n.claim, Critique, 1, "rejected") + Repair(k, s, v, n.claim) + Help(k, s, v, n.claim)
      case None =>
        (if n.opinion.Promising? || Attempted(s, n.claim) || Proposed(v, n.claim, Prove)
         then Suggest(k, s, v, n.claim, Prove, 2, "default")
         else Suggest(k, s, v, n.claim, Investigate, 3, "default")) + Help(k, s, v, n.claim)
  }

  function AllNodeOffers(k: Config, s: State, v: Evidence, nodes: seq<Node>): seq<Offer> {
    if nodes == [] then []
    else AllNodeOffers(k, s, v, nodes[..|nodes| - 1]) + NodeOffers(k, s, v, nodes[|nodes| - 1])
  }

  /** _correction_source and _target_correction_candidate */
  function TargetCorrection(k: Config, s: State, v: Evidence): seq<Offer> {
    if k.corrections == 0 || Used(s.history, TARGET_CORRECTION, None) || v.failed.None? then []
    else [Offer(k.root, Synthesize, -1, if k.root in v.proposals then v.proposals[k.root].priority else 0,
                TARGET_CORRECTION, None, v.failed, None)]
  }

  function Replan(k: Config, s: State, v: Evidence): seq<Offer> {
    if v.digest.Some? && CountAction(s.history, Plan) < MAX_PLANS
    then Suggest(k, s, v, k.root, Plan, 5, Hex(v.digest.value))
    else []
  }

  /** The candidates in the order in which they are found. */
  function Offers(k: Config, s: State, v: Evidence): seq<Offer> {
    if s.history == [] then Suggest(k, s, v, k.root, Plan, -1, "initial")
    else
      AllNodeOffers(k, s, v, v.nodes)
      + Suggest(k, s, v, k.root, Synthesize, if NewContext(k, v) then 0 else 4, "default")
      + TargetCorrection(k, s, v)
      + Replan(k, s, v)
  }

  // ------------------------------------------------------------------ ranking

  /** Actions in alphabetical order. */
  function Place(a: Action): nat {
    match a
    case Critique => 0
    case Investigate => 1
    case Plan => 2
    case Prove => 3
    case Synthesize => 4
  }

  /** key=lambda c: (c["rank"], -c["priority"], c["claim_id"], c["action"]) */
  predicate Precedes(a: Offer, b: Offer) {
    if a.rank != b.rank then a.rank < b.rank
    else if a.priority != b.priority then a.priority > b.priority
    else if a.claim != b.claim then a.claim < b.claim
    else Place(a.action) <= Place(b.action)
  }

  function InsertOffer(o: Offer, sorted: seq<Offer>): seq<Offer> {
    if sorted == [] then [o]
    else if Precedes(sorted[|sorted| - 1], o) then sorted + [o]
    else InsertOffer(o, sorted[..|sorted| - 1]) + [sorted[|sorted| - 1]]
  }

  function Ranked(offers: seq<Offer>): seq<Offer> {
    if offers == [] then [] else InsertOffer(offers[|offers| - 1], Ranked(offers[..|offers| - 1]))
  }

  ghost predicate InRankOrder(offers: seq<Offer>) {
    forall i, j | 0 <= i < j < |offers| :: Precedes(offers[i], offers[j])
  }

  lemma {:induction false} InsertOfferMembers(o: Offer, sorted: seq<Offer>)
    ensures forall p :: p in InsertOffer(o, sorted) <==> p in sorted || p == o
  {
    if sorted != [] {
      assert sorted == sorted[..|sorted| - 1] + [sorted[|sorted| - 1]];
      InsertOfferMembers(o, sorted[..|sorted| - 1]);
    }
  }

  lemma {:induction false} InsertOfferSorted(o: Offer, sorted: seq<Offer>)
    requires InRankOrder(sorted)
    ensures InRankOrder(InsertOffer(o, sorted))
  {
    if sorted != [] {
      var front, last := sorted[..|sorted| - 1], sorted[|sorted| - 1];
      if Precedes(last, o) {
        forall i | 0 <= i < |sorted| ensures Precedes(sorted[i], o) {
        }
      } else {
        InsertOfferSorted(o, front);
        InsertOfferMembers(o, front);
        forall p | p in InsertOffer(o, front) ensures Precedes(p, last) {
          assert p in front ==> exists i | 0 <= i < |front| :: sorted[i] == p;
        }
      }
    }
  }

  /** Ranking keeps exactly the offers made, in rank order. */
  lemma {:induction false} RankedOffers(offers: seq<Offer>)
    ensures InRankOrder(Ranked(offers))
    ensures forall p :: p in Ranked(offers) <==> p in offers
  {
    if offers != [] {
      var front := offers[..|offers| - 1];
      assert offers == front + [offers[|offers| - 1]];
      RankedOffers(front);
      InsertOfferSorted(offers[|offers| - 1], Ranked(front));
      InsertOfferMembers(offers[|offers| - 1], Ranked(front));
    }
  }

  // ------------------------------------------------------------------- guards

  /** What every offer respects, given what was dispatched before. */
  ghost predicate Guarded(k: Config, history: seq<Decision>, o: Offer) {
    && Plain(o.base)
    && (IsPlanning(o.action) ==> PlanningSpent(history) < k.planningCalls)
    && (history == [] ==> o.action.Plan?)
    && (o.action.Plan? || o.action.Synthesize? ==> o.claim == k.root && o.only.None?)
    && (o.action.Plan? ==> CountAction(history, Plan) < MAX_PLANS)
    && (o.base == TARGET_CORRECTION ==> o.action.Synthesize? && !Used(history, TARGET_CORRECTION, None))
    && (o.base == AUXILIARY_CORRECTION ==> o.action.Investigate? && !Used(history, AUXILIARY_CORRECTION, Some(o.claim)))
  }

  ghost predicate AllGuarded(k: Config, history: seq<Decision>, offers: seq<Offer>) {
    forall o | o in offers :: Guarded(k, history, o)
  }

  /** An identifier is none of the scheduler's own words, which have a hyphen. */
  lemma HexIsId(n: nat)
    ensures Plain(Hex(n)) && Hex(n) != TARGET_CORRECTION && Hex(n) != AUXILIARY_CORRECTION
  {
    DigitsPlain(n, 16);
    assert TARGET_CORRECTION[6] == '-' && AUXILIARY_CORRECTION[9] == '-';
  }

  lemma WordsArePlain()
    ensures Plain("initial") && Plain("default") && Plain("rejected") && Plain("auxiliary-repair")
    ensures Plain(TARGET_CORRECTION) && Plain(AUXILIARY_CORRECTION)
    ensures "initial"[0] == 'i' && "default"[0] == 'd' && "rejected"[0] == 'r' && "auxiliary-repair"[10] == 'r'
    ensures TARGET_CORRECTION[0] == 't' && AUXILIARY_CORRECTION[0] == 'a' && AUXILIARY_CORRECTION[10] == 'c'
  {
  }

  /** A suggestion under another word than the corrections' is guarded. */
  lemma SuggestGuarded(k: Config, s: State, v: Evidence, claim: nat, a: Action, rank: int, base: string)
    requires Plain(base) && base != TARGET_CORRECTION && base != AUXILIARY_CORRECTION
    requires s.history == [] ==> a.Plan?
    requires a.Plan? || a.Synthesize? ==> claim == k.root
    requires a.Plan? ==> CountAction(s.history, Plan) < MAX_PLANS
    ensures AllGuarded(k, s.history, Suggest(k, s, v, claim, a, rank, base))
  {
  }

  lemma HelpGuarded(k: Config, s: State, v: Evidence, claim: nat)
    requires s.history != []
    ensures AllGuarded(k, s.history, Help(k, s, v, claim))
  {
    if Proposed(v, claim, Critique) {
      HexIsId(v.proposals[claim].id);
      SuggestGuarded(k, s, v, claim, Critique, 1, Hex(v.proposals[claim].id));
    }
  }

  lemma DirectAuxiliaryGuarded(k: Config, s: State, v: Evidence, a: Artifact)
    requires s.history != []
    ensures AllGuarded(k, s.history, DirectAuxiliary(k, s, v, a))
  {
    WordsArePlain();
    HelpGuarded(k, s, v, a.claim);
    SuggestGuarded(k, s, v, a.claim, Critique, 1, "rejected");
  }

  lemma NodeOffersGuarded(k: Config, s: State, v: Evidence, n: Node)
    requires s.history != []
    ensures AllGuarded(k, s.history, NodeOffers(k, s, v, n))
  {
    WordsArePlain();
    HexIsId(n.review);
    HelpGuarded(k, s, v, n.claim);
    SuggestGuarded(k, s, v, n.claim, Critique, 1, Hex(n.review));
    SuggestGuarded(k, s, v, n.claim, Critique, 1, "rejected");
    SuggestGuarded(k, s, v, n.claim, Prove, 2, "default");
    SuggestGuarded(k, s, v, n.claim, Investigate, 3, "default");
    var a := LastNegative(v.artifacts, n.claim);
    if a.Some? {
      DirectAuxiliaryGuarded(k, s, v, a.value);
    }
  }

  lemma {:induction false} AllNodeOffersGuarded(k: Config, s: State, v: Evidence, nodes: seq<Node>)
    requires s.history != []
    ensures AllGuarded(k, s.history, AllNodeOffers(k, s, v, nodes))
  {
    if nodes != [] {
      AllNodeOffersGuarded(k, s, v, nodes[..|nodes| - 1]);
      NodeOffersGuarded(k, s, v, nodes[|nodes| - 1]);
    }
  }

  /** Whatever the graph, the reviews and the verdicts say: planning and critique stay within the
      planning calls, there are at most three plans, and a correction is offered only while none was
      made for the target, or for that claim. */
  lemma OffersGuarded(k: Config, s: State, v: Evidence)
    ensures AllGuarded(k, s.history, Offers(k, s, v))
  {
    WordsArePlain();
    if s.history == [] {
      SuggestGuarded(k, s, v, k.root, Plan, -1, "initial");
    } else {
      AllNodeOffersGuarded(k, s, v, v.nodes);
      SuggestGuarded(k, s, v, k.root, Synthesize, if NewContext(k, v) then 0 else 4, "default");
      if v.digest.Some? && CountAction(s.history, Plan) < MAX_PLANS {
        HexIsId(v.digest.value);
        SuggestGuarded(k, s, v, k.root, Plan, 5, Hex(v.digest.value));
      }
    }
  }
}
