/**
 When the frontier offers what, for each state of the evidence: stated on the rows of the
 evidence and of the decisions, for every claim and every group.
 */
module CandidateRules {
  import opened Basics
  import opened Strategies
  import opened Candidates

  // --------------------------------------------------------------- the record

  /** Decision i is the latest about the claim with this action. */
  predicate LastMatch(history: seq<Decision>, claim: nat, a: Action, i: nat)
    requires i < |history|
  {
    && history[i].key.claim == claim && history[i].key.action == a
    && (forall j | i < j < |history| :: history[j].key.claim != claim || history[j].key.action != a)
  }

  ghost function Matching(history: seq<Decision>, claim: nat, a: Action): set<nat> {
    Where(history, (d: Decision) => d.key.claim == claim && d.key.action == a)
  }

  lemma {:induction false} PastRows(history: seq<Decision>, claim: nat, a: Action)
    ensures forall d :: d in Past(history, claim, a) <==> d in history && d.key.claim == claim && d.key.action == a
  {
    if history != [] {
      var front, last := history[..|history| - 1], history[|history| - 1];
      PastRows(front, claim, a);
      assert history == front + [last];
    }
  }

  lemma {:induction false} PastCount(history: seq<Decision>, claim: nat, a: Action)
    ensures |Past(history, claim, a)| == |Matching(history, claim, a)|
  {
    if history != [] {
      PastCount(history[..|history| - 1], claim, a);
      WhereLast(history, (d: Decision) => d.key.claim == claim && d.key.action == a);
    }
  }

  lemma {:induction false} PastLast(history: seq<Decision>, claim: nat, a: Action, i: nat)
    requires i < |history| && LastMatch(history, claim, a, i)
    ensures Past(history, claim, a) != [] && Past(history, claim, a)[|Past(history, claim, a)| - 1] == history[i]
  {
    if i < |history| - 1 {
      PastLast(history[..|history| - 1], claim, a, i);
    }
  }

  // ------------------------------------------------------------ the conditions

  /** The assignments that decision i was given, if it is a plan or a critique. */
  function CallsOf(history: seq<Decision>, i: nat): nat {
    if i < |history| && (history[i].key.action.Plan? || history[i].key.action.Critique?) then history[i].leases else 0
  }

  ghost function PlanningCalls(history: seq<Decision>): int {
    Sum(|history|, (i: nat) => CallsOf(history, i))
  }

  lemma {:induction false} PlanningCount(history: seq<Decision>)
    ensures PlanningCalls(history) == PlanningSpent(history)
  {
    if history != [] {
      var front := history[..|history| - 1];
      PlanningCount(front);
      SumFrame(|front|, (i: nat) => CallsOf(front, i), (i: nat) => CallsOf(history, i));
    }
  }

  ghost predicate MayPlan(k: Config, s: State) {
    PlanningCalls(s.history) < k.planningCalls
  }

  /** The decision's job is finished. */
  predicate Finished(s: State, d: Decision) {
    d.job < |s.db.jobs| && s.db.jobs[d.job].status.Done?
  }

  function Priority(v: Evidence, claim: nat): nat {
    if claim in v.proposals then v.proposals[claim].priority else 0
  }

  /** An offer without a model to avoid, a parent task or a fixed model. */
  function Plainly(v: Evidence, claim: nat, a: Action, rank: int, base: string): Offer {
    Offer(claim, a, rank, Priority(v, claim), base, None, None, None)
  }

  /** Somebody asked for a critique of the claim, in this proposal. */
  predicate HelpAsked(v: Evidence, claim: nat, o: Offer) {
    && claim in v.proposals && v.proposals[claim].action.Critique?
    && o == Plainly(v, claim, Critique, 1, Hex(v.proposals[claim].id))
  }

  ghost predicate CheckedNow(v: Evidence, claim: nat) {
    exists a | a in v.artifacts :: a.claim == claim && a.finding.Accepted? && a.current
  }

  /** a is the claim's latest artifact that was rejected, timed out or broke the verifier. */
  ghost predicate LatestFailure(v: Evidence, claim: nat, a: Artifact) {
    exists i | 0 <= i < |v.artifacts| ::
      && v.artifacts[i] == a && a.claim == claim && (a.finding.Refuted? || a.finding.TimedOut? || a.finding.Broken?)
      && forall j | i < j < |v.artifacts| && v.artifacts[j].claim == claim ::
           v.artifacts[j].finding.Accepted? || v.artifacts[j].finding.Undecided?
  }

  ghost predicate NeverFailed(v: Evidence, claim: nat) {
    forall a | a in v.artifacts && a.claim == claim :: a.finding.Accepted? || a.finding.Undecided?
  }

  ghost predicate Investigated(s: State, claim: nat) {
    exists d | d in s.history :: d.key.claim == claim && d.key.action.Investigate? && Finished(s, d)
  }

  /** A finished critique of a rejection. */
  predicate RejectionDone(s: State, d: Decision) {
    Finished(s, d) && StartsWith(Strategy(d.key.base, d.key.context, d.retry), "rejected|context:")
  }

  ghost predicate CritiqueAnswered(s: State, claim: nat) {
    exists d | d in s.history ::
      d.key.claim == claim && d.key.action.Critique? && RejectionDone(s, d)
  }

  ghost predicate Corrected(s: State, word: string, d: Decision) {
    d in s.history && StartsWith(Strategy(d.key.base, d.key.context, d.retry), word + "|")
  }

  /** The node of a claim other than the target; the graph has one node for each claim. */
  ghost predicate NodeOf(k: Config, v: Evidence, n: Node) {
    n in v.nodes && n.claim != k.root && forall m | m in v.nodes && m.claim == n.claim :: m == n
  }

  // ------------------------------------------------- from offers to conditions

  lemma {:induction false} AllNodesOffer(k: Config, s: State, v: Evidence, nodes: seq<Node>, o: Offer)
    ensures o in AllNodeOffers(k, s, v, nodes) <==> exists n | n in nodes :: o in NodeOffers(k, s, v, n)
  {
    if nodes != [] {
      var front, last := nodes[..|nodes| - 1], nodes[|nodes| - 1];
      assert nodes == front + [last];
      AllNodesOffer(k, s, v, front, o);
      if n :| n in nodes && o in NodeOffers(k, s, v, n) {
        assert n in front || n == last;
      }
    }
  }

  /** A node's offers are about its own claim. */
  lemma OwnClaim(k: Config, s: State, v: Evidence, n: Node, o: Offer)
    requires o in NodeOffers(k, s, v, n)
    ensures o.claim == n.claim != k.root
  {
  }

  lemma NodeDecides(k: Config, s: State, v: Evidence, n: Node, o: Offer)
    requires s.history != [] && NodeOf(k, v, n) && o.claim == n.claim
    ensures o in Offers(k, s, v) <==> o in NodeOffers(k, s, v, n)
  {
    AllNodesOffer(k, s, v, v.nodes, o);
    if m :| m in v.nodes && o in NodeOffers(k, s, v, m) {
      OwnClaim(k, s, v, m, o);
    }
  }

  lemma CheckedRows(v: Evidence, claim: nat)
    ensures Checked(v, claim) <==> CheckedNow(v, claim)
  {
    if a :| a in v.artifacts && a.claim == claim && a.finding.Accepted? && a.current {
      var i :| 0 <= i < |v.artifacts| && v.artifacts[i] == a;
      assert v.artifacts[i].current;
    }
  }

  lemma FailedRows(v: Evidence, claim: nat, a: Artifact)
    requires LatestFailure(v, claim, a)
    ensures LastNegative(v.artifacts, claim) == Some(a)
  {
    var i :| 0 <= i < |v.artifacts| && v.artifacts[i] == a && a.claim == claim && Negative(a.finding)
      && forall j | i < j < |v.artifacts| && v.artifacts[j].claim == claim :: !Negative(v.artifacts[j].finding);
    LatestAt(v.artifacts, claim, i);
  }

  lemma {:induction false} LatestAt(artifacts: seq<Artifact>, claim: nat, i: nat)
    requires i < |artifacts| && artifacts[i].claim == claim && Negative(artifacts[i].finding)
    requires forall j | i < j < |artifacts| && artifacts[j].claim == claim :: !Negative(artifacts[j].finding)
    ensures LastNegative(artifacts, claim) == Some(artifacts[i])
  {
    if i < |artifacts| - 1 {
      LatestAt(artifacts[..|artifacts| - 1], claim, i);
    }
  }

  lemma {:induction false} NoneFailed(artifacts: seq<Artifact>, claim: nat)
    requires forall a | a in artifacts && a.claim == claim :: !Negative(a.finding)
    ensures LastNegative(artifacts, claim).None?
  {
  }

  // ---------------------------------------------------------------- the rules

  /** Before anything was dispatched there is one plan, unless planning calls are used up. */
  lemma FirstOffer(k: Config, s: State, v: Evidence, o: Offer)
    requires s.history == []
    ensures o in Offers(k, s, v) <==> MayPlan(k, s) && o == Plainly(v, k.root, Plan, -1, "initial")
  {
    PlanningCount(s.history);
  }

  /** Everything offered is about the target or about a claim of the graph that is not abandoned. */
  lemma NothingElse(k: Config, s: State, v: Evidence, o: Offer)
    requires s.history != [] && o in Offers(k, s, v) && o.claim != k.root
    ensures exists n | n in v.nodes :: n.claim == o.claim && !n.opinion.Abandoned?
  {
    AllNodesOffer(k, s, v, v.nodes, o);
    var n :| n in v.nodes && o in NodeOffers(k, s, v, n);
    OwnClaim(k, s, v, n, o);
  }

  lemma AbandonedRule(k: Config, s: State, v: Evidence, n: Node, o: Offer)
    requires s.history != [] && NodeOf(k, v, n) && n.opinion.Abandoned? && o.claim == n.claim
    ensures o !in Offers(k, s, v)
  {
    NodeDecides(k, s, v, n, o);
  }

  /** A challenged claim gets a critique of its review, and one for a request for help. */
  lemma ChallengedRule(k: Config, s: State, v: Evidence, n: Node, o: Offer)
    requires s.history != [] && NodeOf(k, v, n) && n.opinion.Challenged? && o.claim == n.claim
    ensures o in Offers(k, s, v)
       <==> MayPlan(k, s) && (o == Plainly(v, n.claim, Critique, 1, Hex(n.review)) || HelpAsked(v, n.claim, o))
  {
    PlanningCount(s.history);
    NodeDecides(k, s, v, n, o);
  }

  /** Nothing is offered for a claim that has a checked proof, unless it is challenged. */
  lemma CheckedRule(k: Config, s: State, v: Evidence, n: Node, o: Offer)
    requires s.history != [] && NodeOf(k, v, n) && !n.opinion.Challenged? && CheckedNow(v, n.claim) && o.claim == n.claim
    ensures o !in Offers(k, s, v)
  {
    NodeDecides(k, s, v, n, o);
    CheckedRows(v, n.claim);
  }

  /** A claim that never failed is proved once it is promising, investigated or proposed for proof, and
      investigated before that; a request for help is answered as well. */
  lemma OpenRule(k: Config, s: State, v: Evidence, n: Node, o: Offer)
    requires s.history != [] && NodeOf(k, v, n) && !n.opinion.Abandoned? && !n.opinion.Challenged? && o.claim == n.claim
    requires !CheckedNow(v, n.claim) && NeverFailed(v, n.claim)
    ensures var ripe := n.opinion.Promising? || Investigated(s, n.claim)
                        || (n.claim in v.proposals && v.proposals[n.claim].action.Prove?);
            (o in Offers(k, s, v)
             <==> || o == (if ripe then Plainly(v, n.claim, Prove, 2, "default") else Plainly(v, n.claim, Investigate, 3, "default"))
                  || (MayPlan(k, s) && HelpAsked(v, n.claim, o)))
  {
    PlanningCount(s.history);
    NodeDecides(k, s, v, n, o);
    CheckedRows(v, n.claim);
    NoneFailed(v.artifacts, n.claim);
    AttemptedRows(s, n.claim);
  }

  lemma AttemptedRows(s: State, claim: nat)
    ensures Attempted(s, claim) <==> Investigated(s, claim)
  {
    var past := Past(s.history, claim, Investigate);
    PastRows(s.history, claim, Investigate);
    if d :| d in s.history && d.key.claim == claim && d.key.action.Investigate? && Finished(s, d) {
      assert d in past;
      var i :| 0 <= i < |past| && past[i] == d;
    }
    if i :| 0 <= i < |past| && DoneJob(s.db, past[i]) {
      assert past[i] in past;
    }
  }

  /** A claim whose latest verdict is negative is corrected directly, where that is configured: once, by
      the author of a rejected artifact, and by a critique otherwise; a request for help comes first. */
  lemma DirectRule(k: Config, s: State, v: Evidence, n: Node, a: Artifact, o: Offer)
    requires s.history != [] && NodeOf(k, v, n) && !n.opinion.Abandoned? && !n.opinion.Challenged? && o.claim == n.claim
    requires !CheckedNow(v, n.claim) && LatestFailure(v, n.claim, a) && k.direct
    ensures var asked := n.claim in v.proposals && v.proposals[n.claim].action.Critique?;
            var corrects := a.finding.Refuted? && a.author.Some? && k.retries > 0
                            && !exists d :: Corrected(s, AUXILIARY_CORRECTION, d) && d.key.claim == n.claim;
            (o in Offers(k, s, v)
             <==> if asked then MayPlan(k, s) && HelpAsked(v, n.claim, o)
                  else if corrects
                  then o == Plainly(v, n.claim, Investigate, -1, AUXILIARY_CORRECTION).(parent := Some(a.task), only := a.author)
                  else MayPlan(k, s) && o == Plainly(v, n.claim, Critique, 1, "rejected"))
  {
    PlanningCount(s.history);
    NodeDecides(k, s, v, n, o);
    CheckedRows(v, n.claim);
    FailedRows(v, n.claim, a);
    UsedRows(s, AUXILIARY_CORRECTION, Some(n.claim));
  }

  lemma UsedRows(s: State, word: string, claim: Option<nat>)
    ensures Used(s.history, word, claim) <==> exists d :: Corrected(s, word, d) && (claim.Some? ==> d.key.claim == claim.value)
  {
    if d :| Corrected(s, word, d) && (claim.Some? ==> d.key.claim == claim.value) {
      var i :| 0 <= i < |s.history| && s.history[i] == d;
      assert StartsWith(Strategy(s.history[i].key.base, s.history[i].key.context, s.history[i].retry), word + "|");
    }
    if Used(s.history, word, claim) {
      var i :| 0 <= i < |s.history|
        && StartsWith(Strategy(s.history[i].key.base, s.history[i].key.context, s.history[i].retry), word + "|")
        && (claim.Some? ==> s.history[i].key.claim == claim.value);
      assert Corrected(s, word, s.history[i]);
    }
  }

  /** Another investigation after the latest one. */
  function Another(s: State, v: Evidence, claim: nat, last: Decision): Offer {
    Plainly(v, claim, Investigate, 2, "auxiliary-repair").(avoid := ModelOf(s.db, last), parent := TaskOf(s.db, last))
  }

  /** o continues decision i, the claim's latest investigation: its task is the parent, and another
      model is preferred. */
  predicate InLine(s: State, v: Evidence, claim: nat, i: nat, o: Offer)
    requires i < |s.history|
  {
    && LastMatch(s.history, claim, Investigate, i)
    && o == Another(s, v, claim, s.history[i])
  }

  /** Otherwise it gets a critique, and once that is done and cites the failure, another investigation
      in the line of the latest one with another model, within the retries. */
  lemma FailedRule(k: Config, s: State, v: Evidence, n: Node, a: Artifact, o: Offer)
    requires s.history != [] && NodeOf(k, v, n) && !n.opinion.Abandoned? && !n.opinion.Challenged? && o.claim == n.claim
    requires !CheckedNow(v, n.claim) && LatestFailure(v, n.claim, a) && !k.direct
    ensures o in Offers(k, s, v)
       <==> || (MayPlan(k, s) && o == Plainly(v, n.claim, Critique, 1, "rejected"))
            || (MayPlan(k, s) && HelpAsked(v, n.claim, o))
            || (&& CritiqueAnswered(s, n.claim) && n.claim in v.answered
                && |Matching(s.history, n.claim, Investigate)| <= k.retries
                && exists i | 0 <= i < |s.history| :: InLine(s, v, n.claim, i, o))
  {
    PlanningCount(s.history);
    NodeDecides(k, s, v, n, o);
    CheckedRows(v, n.claim);
    FailedRows(v, n.claim, a);
    RepairRows(k, s, v, n.claim, o);
  }

  lemma SameRejection(s: State, d: Decision)
    ensures AnswersRejection(s.db, d) <==> RejectionDone(s, d)
  {
  }

  lemma AnsweredHas(s: State, claim: nat, d: Decision) returns (i: nat)
    requires d in s.history && d.key.claim == claim && d.key.action.Critique? && RejectionDone(s, d)
    ensures i < |Past(s.history, claim, Critique)| && Past(s.history, claim, Critique)[i] == d && AnswersRejection(s.db, d)
  {
    var critiques := Past(s.history, claim, Critique);
    PastRows(s.history, claim, Critique);
    SameRejection(s, d);
    assert d in critiques;
    i :| 0 <= i < |critiques| && critiques[i] == d;
  }

  lemma AnsweredBy(s: State, claim: nat, i: nat)
    requires var critiques := Past(s.history, claim, Critique); i < |critiques| && AnswersRejection(s.db, critiques[i])
    ensures CritiqueAnswered(s, claim)
  {
    var d := Past(s.history, claim, Critique)[i];
    PastRows(s.history, claim, Critique);
    SameRejection(s, d);
    assert d in Past(s.history, claim, Critique);
  }

  lemma {:induction false} SomeLast(history: seq<Decision>, claim: nat, a: Action) returns (i: nat)
    requires Past(history, claim, a) != []
    ensures i < |history| && LastMatch(history, claim, a, i)
  {
    var last := history[|history| - 1];
    if last.key.claim == claim && last.key.action == a {
      i := |history| - 1;
    } else {
      i := SomeLast(history[..|history| - 1], claim, a);
    }
  }

  lemma AnsweredRows(s: State, claim: nat)
    ensures CritiqueAnswered(s, claim) <==> SomeAnswers(s.db, Past(s.history, claim, Critique))
  {
    var critiques := Past(s.history, claim, Critique);
    if d :| d in s.history && d.key.claim == claim && d.key.action.Critique? && RejectionDone(s, d) {
      var c := AnsweredHas(s, claim, d);
      assert AnswersRejection(s.db, critiques[c]);
    }
    if c :| 0 <= c < |critiques| && AnswersRejection(s.db, critiques[c]) {
      AnsweredBy(s, claim, c);
    }
  }

  /** Only the latest investigation has an offer in its line. */
  lemma LineRows(s: State, v: Evidence, claim: nat, o: Offer)
    ensures var findings := Past(s.history, claim, Investigate);
            (exists i | 0 <= i < |s.history| :: InLine(s, v, claim, i, o))
            <==> findings != [] && o == Another(s, v, claim, findings[|findings| - 1])
  {
    var findings := Past(s.history, claim, Investigate);
    if findings != [] {
      var l := SomeLast(s.history, claim, Investigate);
      PastLast(s.history, claim, Investigate, l);
      assert InLine(s, v, claim, l, o) <==> o == Another(s, v, claim, findings[|findings| - 1]);
    }
    if i :| 0 <= i < |s.history| && InLine(s, v, claim, i, o) {
      PastLast(s.history, claim, Investigate, i);
    }
  }

  lemma RepairCases(k: Config, s: State, v: Evidence, claim: nat)
    ensures var findings := Past(s.history, claim, Investigate);
            Repair(k, s, v, claim)
            == if CritiqueAnswered(s, claim) && 0 < |findings| <= k.retries && claim in v.answered
               then [Another(s, v, claim, findings[|findings| - 1])] else []
  {
    AnsweredRows(s, claim);
  }

  lemma RepairRows(k: Config, s: State, v: Evidence, claim: nat, o: Offer)
    ensures o in Repair(k, s, v, claim)
       <==> (&& CritiqueAnswered(s, claim) && claim in v.answered
             && |Matching(s.history, claim, Investigate)| <= k.retries
             && exists i | 0 <= i < |s.history| :: InLine(s, v, claim, i, o))
  {
    PastCount(s.history, claim, Investigate);
    RepairCases(k, s, v, claim);
    LineRows(s, v, claim, o);
  }

  // --------------------------------------------------------------- the target

  /** A checked lemma that nobody challenged or abandoned. */
  ghost predicate NewLemma(k: Config, v: Evidence) {
    exists n, a | n in v.nodes && a in v.artifacts ::
      n.claim != k.root && a.claim == n.claim && a.finding.Accepted? && a.current
      && !n.opinion.Abandoned? && !n.opinion.Challenged?
  }

  ghost function Plans(history: seq<Decision>): set<nat> {
    Where(history, (d: Decision) => d.key.action.Plan?)
  }

  lemma {:induction false} PlanRows(history: seq<Decision>)
    ensures CountAction(history, Plan) == |Plans(history)|
  {
    if history != [] {
      PlanRows(history[..|history| - 1]);
      WhereLast(history, (d: Decision) => d.key.action.Plan?);
    }
  }

  lemma NewLemmaRows(k: Config, v: Evidence)
    ensures NewContext(k, v) <==> NewLemma(k, v)
  {
    forall claim: nat ensures Checked(v, claim) <==> CheckedNow(v, claim) {
      CheckedRows(v, claim);
    }
    if NewLemma(k, v) {
      var n, a :| n in v.nodes && a in v.artifacts && n.claim != k.root && a.claim == n.claim
        && a.finding.Accepted? && a.current && !n.opinion.Abandoned? && !n.opinion.Challenged?;
      var i :| 0 <= i < |v.nodes| && v.nodes[i] == n;
      assert CheckedNow(v, n.claim);
    }
    if NewContext(k, v) {
      var i :| 0 <= i < |v.nodes| && v.nodes[i].claim != k.root && Checked(v, v.nodes[i].claim)
        && !v.nodes[i].opinion.Abandoned? && !v.nodes[i].opinion.Challenged?;
      assert v.nodes[i] in v.nodes && CheckedNow(v, v.nodes[i].claim);
    }
  }

  /** The target itself: always a direct attempt, first if there is a new lemma for it; one correction
      of a rejected attempt; and replanning on new evidence, with at most three plans. */
  lemma TargetRule(k: Config, s: State, v: Evidence, o: Offer)
    requires s.history != [] && o.claim == k.root
    ensures o in Offers(k, s, v)
       <==> || o == Plainly(v, k.root, Synthesize, if NewLemma(k, v) then 0 else 4, "default")
            || (&& k.corrections > 0 && v.failed.Some? && !(exists d :: Corrected(s, TARGET_CORRECTION, d))
                && o == Plainly(v, k.root, Synthesize, -1, TARGET_CORRECTION).(parent := v.failed))
            || (&& v.digest.Some? && |Plans(s.history)| < 3 && MayPlan(k, s)
                && o == Plainly(v, k.root, Plan, 5, Hex(v.digest.value)))
  {
    PlanningCount(s.history);
    AllNodesOffer(k, s, v, v.nodes, o);
    if n :| n in v.nodes && o in NodeOffers(k, s, v, n) {
      OwnClaim(k, s, v, n, o);
    }
    NewLemmaRows(k, v);
    UsedRows(s, TARGET_CORRECTION, None);
    PlanRows(s.history);
  }

  // ---------------------------------------------------------------- the order

  function ActionName(a: Action): string {
    match a
    case Plan => "plan"
    case Investigate => "investigate"
    case Critique => "critique"
    case Prove => "prove"
    case Synthesize => "synthesize"
  }

  /** The order of Python's strings. */
  predicate Before(s: string, t: string) {
    t != "" && (s == "" || s[0] < t[0] || (s[0] == t[0] && Before(s[1..], t[1..])))
  }

  /** "plan" and "prove" differ in their second letter, all other names in their first. */
  lemma Letters()
    ensures "plan"[1..][0] == 'l' && "prove"[1..][0] == 'r'
    ensures Before("plan", "prove") && !Before("prove", "plan")
  {
    assert Before("plan"[1..], "prove"[1..]) && !Before("prove"[1..], "plan"[1..]);
  }

  lemma {:induction false} NotBeforeItself(s: string)
    ensures !Before(s, s)
  {
    if s != "" {
      NotBeforeItself(s[1..]);
    }
  }

  lemma PlaceIsName(a: Action, b: Action)
    ensures Place(a) < Place(b) <==> Before(ActionName(a), ActionName(b))
  {
    Letters();
    NotBeforeItself(ActionName(a));
    assert ActionName(a)[0] in {'p', 'i', 'c', 's'} && ActionName(b)[0] in {'p', 'i', 'c', 's'};
  }

  /** Candidates are tried by rank, then by falling priority, then by claim and by action name. */
  lemma RankingRule(k: Config, s: State, v: Evidence, i: nat, j: nat)
    requires i < j < |Ranked(Offers(k, s, v))|
    ensures var a, b := Ranked(Offers(k, s, v))[i], Ranked(Offers(k, s, v))[j];
            && a.rank <= b.rank
            && (a.rank == b.rank ==> a.priority >= b.priority)
            && (a.rank == b.rank && a.priority == b.priority ==> a.claim <= b.claim)
            && (a.rank == b.rank && a.priority == b.priority && a.claim == b.claim ==>
                  a.action == b.action || Before(ActionName(a.action), ActionName(b.action)))
  {
    var ranked := Ranked(Offers(k, s, v));
    RankedOffers(Offers(k, s, v));
    assert Precedes(ranked[i], ranked[j]);
    PlaceIsName(ranked[i].action, ranked[j].action);
  }
}
