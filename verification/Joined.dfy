/**
 The frontier and its checks in one history: the scheduler admits candidates by the checks that
 were really begun, and checks report into the job tables that the scheduler dispatches from.
 Both completion reserves hold together.
 */
module Joined {
  import opened Basics
  import opened Candidates
  import opened Frontier
  import opened FrontierHistory
  import opened FrontierLimits
  import Queue
  import Bundles
  import Checks
  import ChecksFencing

  /** All tables of the group. */
  datatype Joint = Joint(c: Checks.Coord, history: seq<Decision>)

  datatype Event = ECheck(event: Checks.Event) | ETick(reading: Reading)

  function StateOf(j: Joint): State {
    State(j.c.db, j.history)
  }

  /** What an advance reads, with the checks that the tables hold. */
  function Seen(j: Joint, r: Reading): Reading {
    r.(checks := j.c.checks)
  }

  /** Only the frontier dispatches for its group. */
  predicate Outside(k: Config, e: Checks.Event) {
    e.EQueue? ==> Foreign(k, e.event)
  }

  function Step(k: Config, z: Bundles.Sizes, j: Joint, e: Event): (d: Joint)
    requires Queue.Linked(j.c.db)
    ensures Queue.Linked(d.c.db)
  {
    match e
    case ECheck(event) => if Outside(k, event) then j.(c := Checks.Step(k.caps, z, j.c, event)) else j
    case ETick(r) =>
      var s := Frontier.Step(k, StateOf(j), EAdvance(Seen(j, r)));
      Joint(j.c.(db := s.db), s.history)
  }

  function Run(k: Config, z: Bundles.Sizes, j: Joint, events: seq<Event>): (d: Joint)
    requires Queue.Linked(j.c.db)
    ensures Queue.Linked(d.c.db)
  {
    if events == [] then j else Step(k, z, Run(k, z, j, events[..|events| - 1]), events[|events| - 1])
  }

  // ------------------------------------------------ joint runs, seen as checks

  lemma AdvanceIsCheckStep(k: Config, z: Bundles.Sizes, j: Joint, r: Reading) returns (f: Checks.Event)
    requires Queue.Linked(j.c.db)
    ensures Step(k, z, j, ETick(r)).c == j.c || Step(k, z, j, ETick(r)).c == Checks.Step(k.caps, z, j.c, f)
  {
    var e := AdvanceIsQueueStep(k, StateOf(j), Seen(j, r));
    f := Checks.EQueue(e);
  }

  /** Whatever a joint run does is a history of module Checks, so all theorems about verification
      hold of it. */
  lemma {:induction false} RunsAreCheckHistories(k: Config, z: Bundles.Sizes, j: Joint, before: seq<Checks.Event>, events: seq<Event>)
    returns (later: seq<Checks.Event>)
    requires j.c == Checks.After(k.caps, z, before)
    ensures Run(k, z, j, events).c == Checks.After(k.caps, z, before + later)
  {
    if events == [] {
      later := [];
      PlusNothing(before);
    } else {
      var front, last := events[..|events| - 1], events[|events| - 1];
      later := RunsAreCheckHistories(k, z, j, before, front);
      var mid := Run(k, z, j, front);
      var f: Checks.Event;
      match last {
        case ECheck(event) => f := event;
        case ETick(r) => f := AdvanceIsCheckStep(k, z, mid, r);
      }
      if Step(k, z, mid, last).c != mid.c {
        CheckNext(k, z, before, later, f);
        later := later + [f];
      }
    }
  }

  lemma CheckNext(k: Config, z: Bundles.Sizes, before: seq<Checks.Event>, later: seq<Checks.Event>, f: Checks.Event)
    ensures Checks.After(k.caps, z, before + (later + [f]))
         == Checks.Step(k.caps, z, Checks.After(k.caps, z, before + later), f)
  {
    AppendParts(later, f);
    ChecksFencing.AfterLater(k.caps, z, before, later + [f]);
  }

  // -------------------------------------------- joint runs, seen as the frontier

  /** What a transaction of module Checks does to the job tables is nothing, or one of module Queue's. */
  lemma CheckIsQueueStep(k: Config, z: Bundles.Sizes, c: Checks.Coord, e: Checks.Event) returns (f: Queue.Event)
    requires Queue.Linked(c.db) && Outside(k, e)
    ensures Checks.Step(k.caps, z, c, e).db == c.db || Checks.Step(k.caps, z, c, e).db == Queue.Step(c.db, f)
    ensures Foreign(k, f) && (e.EQueue? ==> f == e.event) && (f.EAddTask? ==> e.EQueue?)
  {
    f := if e.EQueue? then e.event else if e.EReport? then Queue.EJudge(OwnerId(c, e.check), e.verdict) else Queue.EStop(k.group);
    if e.EReport? && e.check < |c.checks| {
      ReportIsJudge(c, e.check, e.verdict, e.elapsed);
    }
  }

  function OwnerId(c: Checks.Coord, k: nat): nat {
    if k < |c.checks| then c.checks[k].owner.id else 0
  }

  lemma ReportIsJudge(c: Checks.Coord, k: nat, v: Queue.Verdict, elapsed: Option<nat>)
    requires Queue.Linked(c.db) && k < |c.checks|
    ensures var d := Checks.Report(c, k, v, elapsed).db;
            d == c.db || d == Queue.Step(c.db, Queue.EJudge(c.checks[k].owner.id, v))
  {
    Queue.JudgeStep(c.db, c.checks[k].owner.id, v);
  }

  /** No task is added to the group by hand. */
  predicate Unaided(k: Config, e: Event) {
    e.ECheck? && e.event.EQueue? ==> Unattended(k, EOther(e.event.event))
  }

  lemma StepIsFrontierStep(k: Config, z: Bundles.Sizes, j: Joint, e: Event) returns (f: Frontier.Event)
    requires Queue.Linked(j.c.db)
    ensures StateOf(Step(k, z, j, e)) == StateOf(j) || StateOf(Step(k, z, j, e)) == Frontier.Step(k, StateOf(j), f)
    ensures Unaided(k, e) ==> Unattended(k, f)
  {
    match e
    case ETick(r) => f := EAdvance(Seen(j, r));
    case ECheck(event) =>
      f := EOther(Queue.EStop(k.group));
      if Outside(k, event) {
        var g := CheckIsQueueStep(k, z, j.c, event);
        f := EOther(g);
      }
  }

  /** Whatever a joint run does is a run of the frontier, unattended if nobody adds tasks. */
  lemma {:induction false} RunsAreFrontierRuns(k: Config, z: Bundles.Sizes, j: Joint, events: seq<Event>)
    returns (steps: seq<Frontier.Event>)
    requires Queue.Linked(j.c.db)
    ensures Frontier.Run(k, StateOf(j), steps) == StateOf(Run(k, z, j, events))
    ensures (forall e | e in events :: Unaided(k, e)) ==> forall f | f in steps :: Unattended(k, f)
  {
    steps := [];
    if events != [] {
      var front, last := events[..|events| - 1], events[|events| - 1];
      steps := RunsAreFrontierRuns(k, z, j, front);
      var mid := Run(k, z, j, front);
      var f := StepIsFrontierStep(k, z, mid, last);
      if StateOf(Step(k, z, mid, last)) != StateOf(mid) {
        AppendParts(steps, f);
        steps := steps + [f];
      }
    }
  }

  // ------------------------------------------------------------ both reserves

  /** The group can pay for its completion, in work, in dispatches and in Lean capacity. */
  ghost predicate Funded(k: Config, j: Joint) {
    && Kept(k, StateOf(j)) && Affordable(k, StateOf(j)) && ChecksFencing.Covered(k.caps) && k.caps.checkMillis > 0
  }

  /** The joint invariant: work, dispatches and Lean capacity cover what is still held back. */
  lemma JointReserve(k: Config, z: Bundles.Sizes, j: Joint, before: seq<Checks.Event>, events: seq<Event>)
    requires j.c == Checks.After(k.caps, z, before) && Funded(k, j)
    requires forall e | e in events :: Unaided(k, e)
    ensures var d := Run(k, z, j, events);
            Kept(k, StateOf(d)) && Affordable(k, StateOf(d)) && ChecksFencing.Reserved(k.caps, d.c.checks)
  {
    var steps := RunsAreFrontierRuns(k, z, j, events);
    AlwaysKept(k, StateOf(j), steps);
    AlwaysAffordable(k, StateOf(j), steps);
    var later := RunsAreCheckHistories(k, z, j, before, events);
    ChecksFencing.AlwaysReserved(k.caps, z, before + later);
  }

  lemma LeanLeft(k: Config, checks: seq<Checks.Check>)
    requires k.caps.checkMillis > 0 && ChecksFencing.Reserved(k.caps, checks) && ChecksFencing.OnTime(checks)
    requires Checks.Tail(k.caps, checks) > 0
    ensures !LeanSpent(k, checks)
  {
    ChecksFencing.NoExcess(checks);
    ChecksFencing.OneSlot(Checks.Tail(k.caps, checks), k.caps.checkMillis);
  }

  /** With both reserves paid for at the start, verifiers on time and no task added by hand, in every
      joint run: while a check slot is unused, the group is not out of Lean budget, and a target's
      check of at most a slot's length is granted. */
  lemma TargetIsChecked(k: Config, z: Bundles.Sizes, j: Joint, before: seq<Checks.Event>, events: seq<Event>,
                        a: nat, b: Checks.Bundle, deadline: nat, now: int)
    requires j.c == Checks.After(k.caps, z, before) && Funded(k, j)
    requires forall e | e in events :: Unaided(k, e)
    requires var c := Run(k, z, j, events).c; ChecksFencing.OnTime(c.checks) && Checks.Tail(k.caps, c.checks) > 0
    ensures var c := Run(k, z, j, events).c;
            && !LeanSpent(k, c.checks)
            && (deadline <= k.caps.checkMillis && ChecksFencing.Free(c, a, now) ==>
                  Checks.Begin(k.caps, c, Checks.OfAttempt(a), b, deadline, now, None).1.Started?)
  {
    JointReserve(k, z, j, before, events);
    LeanLeft(k, Run(k, z, j, events).c.checks);
    var later := RunsAreCheckHistories(k, z, j, before, events);
    ChecksFencing.ReserveHolds(k.caps, z, before + later, a, b, if deadline <= k.caps.checkMillis then deadline else 0, now);
  }

  /** Nothing but its candidates decides what the next advance does. */
  predicate Ready(k: Config, s: State, r: Reading)
    requires Queue.Linked(s.db)
  {
    && k.group < |s.db.groups| && s.db.groups[k.group].loop.Looping? && r.now < s.db.groups[k.group].loop.deadline
    && (s.db.groups[k.group].run.Some? ==> !Queue.Terminal(s.db.runs[s.db.groups[k.group].run.value].status))
    && !Busy(s.db, k.group) && !r.pending && r.bound
  }

  predicate Staffed(k: Config, c: Candidate) {
    exists i | 0 <= i < |k.models.synthesizer| :: k.models.synthesizer[i].name in c.dressing.fit
  }

  lemma AdmitFinds(k: Config, s: State, checks: seq<Checks.Check>, cs: seq<Candidate>, c: Candidate)
    requires k.group < |s.db.groups| && c in cs && Consider(k, s, checks, c).Ok?
    ensures Admit(k, s, checks, cs, 0).Some?
  {
    var i :| 0 <= i < |cs| && cs[i] == c;
  }

  lemma AdvanceDispatches(k: Config, s: State, r: Reading)
    requires Queue.Linked(s.db) && Ready(k, s, r) && !LeanSpent(k, r.checks)
    requires Admit(k, s, r.checks, Found(k, s, r.evidence, r.dressings), 0).Some?
    ensures var (i, choice) := Admit(k, s, r.checks, Found(k, s, r.evidence, r.dressings), 0).value;
            Frontier.Advance(k, s, r) == Dispatch(k, s, choice, r.now)
  {
  }

  /** And such a group is never stopped while its target can still be tried: with a synthesis candidate
      that has a packet, retries left and a fit model, a slot for its job and a slot for its check, the
      next advance dispatches the first admissible candidate. */
  lemma GroupGoesOn(k: Config, z: Bundles.Sizes, j: Joint, before: seq<Checks.Event>, events: seq<Event>, r: Reading, c: Candidate)
    requires j.c == Checks.After(k.caps, z, before) && Funded(k, j)
    requires forall e | e in events :: Unaided(k, e)
    requires var d := Run(k, z, j, events);
             && ChecksFencing.OnTime(d.c.checks) && Checks.Tail(k.caps, d.c.checks) > 0 && TailJobs(k, d.history) > 0
             && Ready(k, StateOf(d), r) && c in Found(k, StateOf(d), r.evidence, r.dressings)
             && Attemptable(k, StateOf(d), c) && Staffed(k, c)
    ensures var d := Run(k, z, j, events); var found := Found(k, StateOf(d), r.evidence, r.dressings);
            && Admit(k, StateOf(d), d.c.checks, found, 0).Some?
            && Frontier.Advance(k, StateOf(d), Seen(d, r))
               == Dispatch(k, StateOf(d), Admit(k, StateOf(d), d.c.checks, found, 0).value.1, r.now)
  {
    var d := Run(k, z, j, events);
    JointReserve(k, z, j, before, events);
    LeanLeft(k, d.c.checks);
    SynthesisAffordable(k, StateOf(d), d.c.checks, c);
    AdmitFinds(k, StateOf(d), d.c.checks, Found(k, StateOf(d), r.evidence, r.dressings), c);
    AdvanceDispatches(k, StateOf(d), Seen(d, r));
  }
}
