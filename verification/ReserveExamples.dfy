/**
 Two histories in which a completion reserve fails, from an empty coordinator on: one artifact
 check that overran its deadline, and one task added by hand.
 */
module ReserveExamples {
  import opened Basics
  import Queue
  import Selection
  import Bundles
  import Ledger
  import Checks
  import ChecksFencing
  import Strategies
  import Candidates
  import Frontier
  import FrontierHistory
  import FrontierLimits
  import QueueHistory

  // ------------------------------------------------ a target job and its answer

  const WORKER := Queue.Capabilities({"m"}, true, true, false)
  const ORDER := Queue.Order(1, 0, None, Some(0), None, "m", Queue.Generate)
  const ANSWER := Queue.Finished(Queue.Untyped("proof"))

  const LOOPING := Queue.Group(2, 2, 4, None, Queue.Looping(1000))
  const TARGET_JOB := Queue.Job(0, Queue.Queued, "m", Queue.Generate, Queue.Settings(false, None), 2, None, 0,
                                Some(Queue.GroupLink(0, 0, 2)))
  const TARGET_LEASE := Queue.Lease(0, 7, 30, Queue.Active, None, None)

  const DISPATCHED := Queue.Db([Queue.Run(Queue.Running, 0, 3)], [TARGET_JOB], [],
                               [LOOPING.(remaining := 0, run := Some(0))], [Queue.Task(0, 2, 0, true, 0)])
  const CLAIMED := DISPATCHED.(jobs := [TARGET_JOB.(status := Queue.Assigned)], leases := [TARGET_LEASE])
  const ANSWERED := DISPATCHED.(
    jobs := [TARGET_JOB.(status := Queue.Verifying)],
    leases := [TARGET_LEASE.(status := Queue.Completed, result := Some(ANSWER), attempt := Some(Queue.Attempt("proof", None)))])

  /** Nothing is refreshed while the only run is running and its only job is live. */
  lemma LiveRunStays(db: Queue.Db, scope: set<nat>)
    requires Queue.Linked(db) && |db.runs| == 1 && |db.jobs| == 1 && db.runs[0].status.Running? && db.jobs[0].Live()
    ensures Queue.Refresh(db, scope) == db
  {
    var d := Queue.Refresh(db, scope);
    assert db.jobs[0].run == 0;
    assert Queue.HasLive(d.jobs, 0) by {
      assert d.jobs[0] == db.jobs[0];
    }
    assert d.jobs == db.jobs && d.runs == db.runs;
  }

  lemma Dispatching()
    ensures Queue.Linked(DISPATCHED)
    ensures Queue.Step(Queue.EMPTY.(groups := [LOOPING]), Queue.EDispatch(0, ORDER, 0)) == DISPATCHED
  {
  }

  lemma Claiming()
    ensures Queue.Linked(DISPATCHED) && Queue.Linked(CLAIMED)
    ensures Queue.Step(DISPATCHED, Queue.EClaim(WORKER, 7, 0, 30)) == CLAIMED
  {
    assert Queue.OverdueRuns(DISPATCHED, 0) == {};
    LiveRunStays(DISPATCHED, {});
    assert Queue.Claimable(DISPATCHED, 0, WORKER, 0);
    assert Queue.FirstClaimable(DISPATCHED, 0, WORKER, 0) == Some(0);
  }

  lemma Answering()
    ensures Queue.Linked(CLAIMED) && Queue.Linked(ANSWERED)
    ensures Queue.Step(CLAIMED, Queue.EDeliver(0, 7, ANSWER, 1)) == ANSWERED
  {
    assert Queue.FirstResult(CLAIMED, 0, ANSWER) == ANSWERED;
    LiveRunStays(ANSWERED, Queue.Below(1));
  }

  lemma AnsweredLinked()
    ensures Queue.Linked(ANSWERED)
  {
  }

  lemma QueueNext(events: seq<Queue.Event>, front: seq<Queue.Event>, e: Queue.Event, db: Queue.Db, d: Queue.Db)
    requires events == front + [e] && Queue.After(front) == db && Queue.Step(db, e) == d
    ensures Queue.After(events) == d
  {
    AppendParts(front, e);
  }

  const TO_DISPATCH := [Queue.ECreateGroup(2, 4), Queue.EStartLoop(0, 1000), Queue.EDispatch(0, ORDER, 0)]
  const TO_ANSWER := TO_DISPATCH + [Queue.EClaim(WORKER, 7, 0, 30), Queue.EDeliver(0, 7, ANSWER, 1)]

  function Created(maxWork: nat, maxTasks: nat): Queue.Db {
    Queue.EMPTY.(groups := [Queue.Group(maxWork, maxWork, maxTasks, None, Queue.NoLoop)])
  }

  function Started(maxWork: nat, maxTasks: nat): Queue.Db {
    Queue.EMPTY.(groups := [Queue.Group(maxWork, maxWork, maxTasks, None, Queue.Looping(1000))])
  }

  lemma Creating(maxWork: nat, maxTasks: nat)
    requires 1 <= maxWork <= Queue.MAX_GROUP_WORK && 1 <= maxTasks <= Queue.MAX_GROUP_TASKS
    ensures Queue.Linked(Queue.EMPTY)
    ensures Queue.Step(Queue.EMPTY, Queue.ECreateGroup(maxWork, maxTasks)) == Created(maxWork, maxTasks)
  {
    Queue.CreateGroupStep(Queue.EMPTY, maxWork, maxTasks);
  }

  lemma StartingLoop(maxWork: nat, maxTasks: nat)
    ensures Queue.Linked(Created(maxWork, maxTasks))
    ensures Queue.Step(Created(maxWork, maxTasks), Queue.EStartLoop(0, 1000)) == Started(maxWork, maxTasks)
  {
    Queue.StartLoopStep(Created(maxWork, maxTasks), 0, 1000);
  }

  lemma Starting(maxWork: nat, maxTasks: nat)
    requires 1 <= maxWork <= Queue.MAX_GROUP_WORK && 1 <= maxTasks <= Queue.MAX_GROUP_TASKS
    ensures Queue.After([Queue.ECreateGroup(maxWork, maxTasks), Queue.EStartLoop(0, 1000)]) == Started(maxWork, maxTasks)
  {
    var create, start := Queue.ECreateGroup(maxWork, maxTasks), Queue.EStartLoop(0, 1000);
    Creating(maxWork, maxTasks);
    QueueNext([create], [], create, Queue.EMPTY, Created(maxWork, maxTasks));
    StartingLoop(maxWork, maxTasks);
    QueueNext([create, start], [create], start, Created(maxWork, maxTasks), Started(maxWork, maxTasks));
  }

  lemma ToDispatch()
    ensures Queue.After(TO_DISPATCH) == DISPATCHED
  {
    Starting(2, 4);
    Dispatching();
    QueueNext(TO_DISPATCH, TO_DISPATCH[..2], TO_DISPATCH[2], Queue.EMPTY.(groups := [LOOPING]), DISPATCHED);
  }

  lemma ToAnswer()
    ensures Queue.After(TO_ANSWER) == ANSWERED
  {
    ToDispatch();
    Claiming();
    Answering();
    QueueNext(TO_DISPATCH + [TO_ANSWER[3]], TO_DISPATCH, TO_ANSWER[3], DISPATCHED, CLAIMED);
    QueueNext(TO_ANSWER, TO_DISPATCH + [TO_ANSWER[3]], TO_ANSWER[4], CLAIMED, ANSWERED);
  }

  // ----------------------------------------------------- an overrun Lean check

  /** Two operations and 200 ms, of which one slot of 100 ms is held back for the target. */
  const LIMITS := Checks.Caps(2, 200, true, 0, 100, 1000)

  const SETTING := Selection.Setting(["Mathlib"], "lean")

  function Lifted(events: seq<Queue.Event>): seq<Checks.Event> {
    if events == [] then [] else Lifted(events[..|events| - 1]) + [Checks.EQueue(events[|events| - 1])]
  }

  const INSERTION := Checks.ELedger(Ledger.EInsert("lemma", "proof of it", SETTING))
  const REPORT := Checks.EReport(0, Queue.LeanRejected, Some(150))

  function Beginnings(b: Checks.Bundle): Checks.Event {
    Checks.EBegin(Checks.OfArtifact(0), b, 100, 2, None)
  }

  /** The target is answered; then an artifact is proposed, and its check takes 150 ms instead of 100. */
  function Overrun(b: Checks.Bundle): seq<Checks.Event> {
    Lifted(TO_ANSWER) + [INSERTION] + [Beginnings(b)] + [REPORT]
  }

  function Stage(db: Queue.Db): Checks.Coord {
    Checks.INITIAL.(db := db)
  }

  const PROPOSED := Stage(ANSWERED).(
    l := Ledger.FRESH.(w := Ledger.FRESH.w.(
      claims := [Selection.Claim("lemma", SETTING)],
      artifacts := [Selection.Artifact("lemma", "proof of it", SETTING, Selection.Pending)],
      claimOf := map[0 := 0])))

  function Row(b: Checks.Bundle): Checks.Check {
    Checks.Check(Checks.OfArtifact(0), b, 100, Checks.Checking, None, false, false)
  }

  function Begun(b: Checks.Bundle): Checks.Coord {
    PROPOSED.(checks := [Row(b)], owners := map[Checks.OfArtifact(0) := Checks.Hold(0, 2 + 100 + Checks.GRACE)])
  }

  function Late(b: Checks.Bundle): Checks.Coord {
    PROPOSED.(checks := [Row(b).(status := Checks.Reported(Queue.LeanRejected), elapsed := Some(150), finished := true)])
  }

  lemma Proposing(z: Bundles.Sizes)
    ensures Queue.Linked(ANSWERED)
    ensures Checks.Step(LIMITS, z, Stage(ANSWERED), INSERTION) == PROPOSED
  {
    AnsweredLinked();
  }

  lemma Admitted()
    ensures Checks.Refusal(LIMITS, [], Checks.OfArtifact(0), 100, 2).None?
  {
    assert Checks.Total([], Checks.CHARGE) == 0 && Checks.Total([], Checks.TARGET) == 0;
  }

  lemma Beginning(z: Bundles.Sizes, b: Checks.Bundle)
    ensures Queue.Linked(ANSWERED)
    ensures Checks.Step(LIMITS, z, PROPOSED, Beginnings(b)) == Begun(b)
  {
    AnsweredLinked();
    Admitted();
    assert Checks.Reserve(LIMITS, PROPOSED, Checks.OfArtifact(0), b, 100, 2, None).0.owners == Begun(b).owners;
  }

  lemma Reporting(z: Bundles.Sizes, b: Checks.Bundle)
    ensures Queue.Linked(ANSWERED)
    ensures Checks.Step(LIMITS, z, Begun(b), REPORT) == Late(b)
  {
    AnsweredLinked();
    assert Checks.Close(Begun(b), 0, Queue.LeanRejected, Some(150), false) == Late(b);
  }

  lemma Next(z: Bundles.Sizes, front: seq<Checks.Event>, e: Checks.Event, c: Checks.Coord, d: Checks.Coord)
    requires Queue.Linked(c.db)
    requires Checks.After(LIMITS, z, front) == c && Checks.Step(LIMITS, z, c, e) == d
    ensures Checks.After(LIMITS, z, front + [e]) == d
  {
    AppendParts(front, e);
  }

  lemma StageStep(z: Bundles.Sizes, db: Queue.Db, e: Queue.Event)
    requires Queue.Linked(db) && !e.EJudge? && !e.EStopUnchecked?
    ensures Checks.Step(LIMITS, z, Stage(db), Checks.EQueue(e)) == Stage(Queue.Step(db, e))
  {
  }

  lemma {:induction false} LiftedHistory(z: Bundles.Sizes, events: seq<Queue.Event>)
    requires forall e | e in events :: !e.EJudge? && !e.EStopUnchecked?
    ensures Checks.After(LIMITS, z, Lifted(events)) == Stage(Queue.After(events))
  {
    if events != [] {
      var front, e := events[..|events| - 1], events[|events| - 1];
      LiftedHistory(z, front);
      StageStep(z, Queue.After(front), e);
      Next(z, Lifted(front), Checks.EQueue(e), Stage(Queue.After(front)), Stage(Queue.After(events)));
    }
  }

  /** The history leaves 50 ms for the target, whose slot is unused. */
  lemma OverrunHistory(z: Bundles.Sizes, b: Checks.Bundle)
    ensures Checks.After(LIMITS, z, Overrun(b)) == Late(b)
  {
    ToAnswer();
    LiftedHistory(z, TO_ANSWER);
    AnsweredLinked();
    var start := Lifted(TO_ANSWER);
    Proposing(z);
    Next(z, start, INSERTION, Stage(ANSWERED), PROPOSED);
    Beginning(z, b);
    Next(z, start + [INSERTION], Beginnings(b), PROPOSED, Begun(b));
    Reporting(z, b);
    Next(z, start + [INSERTION] + [Beginnings(b)], REPORT, Begun(b), Late(b));
  }

  lemma OneRow(row: Checks.Check, f: Checks.Check -> int)
    ensures Checks.Total([row], f) == f(row)
  {
    assert [row][..0] == [];
  }

  lemma TargetIsShort(b: Checks.Bundle)
    ensures Checks.Refusal(LIMITS, Late(b).checks, Checks.OfAttempt(0), 100, 152) == Some(Checks.CompletionLeanTimeReserve)
    ensures Checks.Tail(LIMITS, Late(b).checks) == 1
  {
    OneRow(Late(b).checks[0], Checks.CHARGE);
    OneRow(Late(b).checks[0], Checks.TARGET);
  }

  /** The completion reserve can fail: the limits covered the slot at the start, the slot is unused, and
      the target's check, which asks for no more than the slot's time, is refused for want of time. */
  lemma OverrunRefusesTarget(z: Bundles.Sizes, b: Checks.Bundle)
    ensures ChecksFencing.Covered(LIMITS)
    ensures var c := Checks.After(LIMITS, z, Overrun(b));
            && Checks.Tail(LIMITS, c.checks) == 1 && ChecksFencing.Free(c, 0, 152)
            && Checks.Begin(LIMITS, c, Checks.OfAttempt(0), b, 100, 152, None).1 == Checks.Refused(Checks.CompletionLeanTimeReserve)
  {
    OverrunHistory(z, b);
    TargetIsShort(b);
    AnsweredLinked();
  }

  // -------------------------------------------------------- a task added by hand

  const CHEAP := Candidates.Model("m", 1)

  /** One model for every role, four units of work, and one target job held back. */
  const CONFIG := Candidates.Config(0, 0, 2, 0, 0, false, true, Candidates.Models([CHEAP], [CHEAP], [CHEAP], [CHEAP]), LIMITS)

  const NOTHING := Candidates.Evidence([], [], map[], None, {}, None)
  const PLAN := Candidates.Offer(0, Candidates.Plan, -1, 0, "initial", None, None, None)
  const SYNTHESIS := Candidates.Offer(0, Candidates.Synthesize, 4, 0, "default", None, None, None)

  function Look(now: int): Frontier.Reading {
    Frontier.Reading([], NOTHING,
                     map[PLAN := Frontier.Dressing(Some(7), {"m"}, map[]), SYNTHESIS := Frontier.Dressing(Some(8), {"m"}, map[])],
                     false, true, now)
  }

  const START := Candidates.State(Queue.EMPTY.(groups := [Queue.Group(4, 4, 4, None, Queue.Looping(1000))]), [])

  const PLANNED_KEY := Candidates.Key(0, Candidates.Plan, "initial", Strategies.Hex(7))
  const PLAN_JOB := Queue.Job(0, Queue.Queued, "m", Queue.Respond(Queue.Plan), Queue.Settings(false, None), 2, None, 0,
                              Some(Queue.GroupLink(0, 0, 2)))

  /** The plan is dispatched, and this much work and these further tasks remain. */
  function Planned(rest: int, more: seq<Queue.Task>): Candidates.State {
    Candidates.State(
      Queue.Db([Queue.Run(Queue.Running, 0, 3)], [PLAN_JOB], [], [Queue.Group(4, rest, 4, Some(0), Queue.Looping(1000))],
               [Queue.Task(0, 2, 0, true, 0)] + more),
      [Candidates.Decision(PLANNED_KEY, 0, 0, 2, 2)])
  }

  lemma OffersAtStart()
    ensures Candidates.Ranked(Candidates.Offers(CONFIG, START, NOTHING)) == [PLAN]
  {
    assert Candidates.Offers(CONFIG, START, NOTHING) == [PLAN];
    assert [PLAN][..0] == [];
  }

  lemma PlanIsRouted()
    ensures Frontier.Consider(CONFIG, START, [], Frontier.Dress(PLAN, Look(0).dressings))
         == Ok(Frontier.Choice(PLANNED_KEY, 0, CHEAP, None))
  {
    assert [CHEAP][..0] == [];
  }

  lemma StartLinked()
    ensures Queue.Linked(START.db)
  {
  }

  lemma PlanIsDispatched()
    ensures Queue.Linked(START.db)
    ensures Frontier.Dispatch(CONFIG, START, Frontier.Choice(PLANNED_KEY, 0, CHEAP, None), 0) == Planned(2, [])
  {
  }

  lemma PlanIsAdmitted()
    ensures Queue.Linked(START.db)
    ensures Frontier.Advance(CONFIG, START, Look(0)) == Planned(2, [])
  {
    OffersAtStart();
    PlanIsRouted();
    PlanIsDispatched();
    var found := Frontier.Found(CONFIG, START, NOTHING, Look(0).dressings);
    assert found == [Frontier.Dress(PLAN, Look(0).dressings)];
    assert Frontier.Admit(CONFIG, START, [], found, 0) == Some((0, Frontier.Choice(PLANNED_KEY, 0, CHEAP, None)));
  }

  const ADDED := Queue.Task(0, 1, 1, true, 0)
  const ADDITION := Queue.EAddTask(0, None, 1)

  lemma TaskIsAdded()
    ensures Queue.Linked(Planned(2, []).db)
    ensures Queue.Step(Planned(2, []).db, ADDITION) == Planned(1, [ADDED]).db
  {
    assert Queue.TaskCount(Planned(2, []).db.tasks, 0) <= 1;
  }

  const CLAIM := Queue.EClaim(WORKER, 7, 0, 30)
  const REPLY := Queue.Finished(Queue.Typed(Queue.Plan, "plan"))
  const DELIVERY := Queue.EDeliver(0, 7, REPLY, 1)

  /** The plan is answered; the group's run has no live job. */
  function Finished(rest: int, more: seq<Queue.Task>): Candidates.State {
    var s := Planned(rest, more);
    s.(db := s.db.(runs := [Queue.Run(Queue.Exhausted, 0, 3)], jobs := [PLAN_JOB.(status := Queue.Done)],
                   leases := [TARGET_LEASE.(status := Queue.Completed, result := Some(REPLY))]))
  }

  function Taken(rest: int, more: seq<Queue.Task>): Candidates.State {
    var s := Planned(rest, more);
    s.(db := s.db.(jobs := [PLAN_JOB.(status := Queue.Assigned)], leases := [TARGET_LEASE]))
  }

  lemma PlanIsClaimed(rest: int, more: seq<Queue.Task>)
    requires forall t | t in more :: t.group == 0
    ensures Queue.Linked(Planned(rest, more).db)
    ensures Queue.Step(Planned(rest, more).db, CLAIM) == Taken(rest, more).db
  {
    var db := Planned(rest, more).db;
    assert Queue.OverdueRuns(db, 0) == {};
    LiveRunStays(db, {});
    assert Queue.Claimable(db, 0, WORKER, 0);
    assert Queue.FirstClaimable(db, 0, WORKER, 0) == Some(0);
  }

  lemma IdleRunIsExhausted(db: Queue.Db)
    requires Queue.Linked(db) && |db.runs| == 1 && |db.jobs| == 1 && db.runs[0].status.Running? && db.jobs[0].status.Done?
    ensures Queue.RefreshAll(db) == db.(runs := [db.runs[0].(status := Queue.Exhausted)])
  {
    var d := Queue.RefreshAll(db);
    assert d.jobs == db.jobs;
    assert !Queue.HasLive(db.jobs, 0);
    assert d.runs == [db.runs[0].(status := Queue.Exhausted)];
  }

  lemma PlanText()
    ensures Queue.ValidOutput(Queue.Respond(Queue.Plan), REPLY.output)
  {
    var text := "plan";
    assert text[0] == 'p' && !Queue.Stripped(text[0]);
    assert Utf8Bytes(text) <= 16 by {
      ShortText(text);
    }
  }

  lemma {:induction false} ShortText(text: string)
    ensures Utf8Bytes(text) <= 4 * |text|
  {
    if text != "" {
      ShortText(text[..|text| - 1]);
    }
  }

  lemma PlanIsAnswered(rest: int, more: seq<Queue.Task>)
    requires forall t | t in more :: t.group == 0
    ensures Queue.Linked(Taken(rest, more).db)
    ensures Queue.Step(Taken(rest, more).db, DELIVERY) == Finished(rest, more).db
  {
    var db := Taken(rest, more).db;
    PlanText();
    var d := Finished(rest, more).db.(runs := db.runs);
    assert Queue.FirstResult(db, 0, REPLY) == d;
    IdleRunIsExhausted(d);
  }

  lemma OnePlan(rest: int, more: seq<Queue.Task>)
    ensures Candidates.CountAction(Finished(rest, more).history, Candidates.Synthesize) == 0
    ensures Frontier.TailJobs(CONFIG, Finished(rest, more).history) == 1
    ensures Frontier.Held(CONFIG, Finished(rest, more).history, Candidates.Synthesize) == 0
    ensures Frontier.TailWork(CONFIG, Finished(rest, more).history) == 2
  {
    assert Finished(rest, more).history[..0] == [];
    assert [CHEAP][..0] == [];
  }

  lemma SynthesisIsFound(rest: int, more: seq<Queue.Task>)
    ensures Frontier.Found(CONFIG, Finished(rest, more), NOTHING, Look(2).dressings) == [Frontier.Dress(SYNTHESIS, Look(2).dressings)]
  {
    var offers := Candidates.Offers(CONFIG, Finished(rest, more), NOTHING);
    assert offers == [SYNTHESIS];
    assert [SYNTHESIS][..0] == [];
    assert Candidates.Ranked(offers) == [SYNTHESIS];
  }

  const TARGET_KEY := Candidates.Key(0, Candidates.Synthesize, "default", Strategies.Hex(8))

  lemma NeverTried(rest: int, more: seq<Queue.Task>)
    ensures Frontier.CountKey(Finished(rest, more).history, TARGET_KEY) == 0
    ensures Frontier.LastOf(Finished(rest, more).history, TARGET_KEY).None?
  {
    assert Finished(rest, more).history[..0] == [];
  }

  /** With the task there is one unit of work left, and the only synthesizer takes two. */
  lemma SynthesisIsOverBudget()
    ensures Frontier.Consider(CONFIG, Finished(1, [ADDED]), [], Frontier.Dress(SYNTHESIS, Look(2).dressings))
         == Err(Frontier.ModelUnavailableOrBudget)
  {
    OnePlan(1, [ADDED]);
    NeverTried(1, [ADDED]);
  }

  lemma SynthesisIsRouted()
    ensures Frontier.Consider(CONFIG, Finished(2, []), [], Frontier.Dress(SYNTHESIS, Look(2).dressings))
         == Ok(Frontier.Choice(TARGET_KEY, 0, CHEAP, None))
  {
    OnePlan(2, []);
    NeverTried(2, []);
    assert [CHEAP][..0] == [];
  }

  lemma FinishedLinked(rest: int, more: seq<Queue.Task>)
    requires forall t | t in more :: t.group == 0
    ensures Queue.Linked(Finished(rest, more).db) && !Frontier.Busy(Finished(rest, more).db, 0)
  {
  }

  lemma GroupIsStopped()
    ensures Queue.Linked(Finished(1, [ADDED]).db)
    ensures var d := Frontier.Advance(CONFIG, Finished(1, [ADDED]), Look(2));
            |d.db.groups| == 1 && d.db.groups[0].loop.Stopped? && d.history == Finished(1, [ADDED]).history
  {
    FinishedLinked(1, [ADDED]);
    SynthesisIsFound(1, [ADDED]);
    SynthesisIsOverBudget();
    FrontierHistory.StopElsewhere(Finished(1, [ADDED]).db, 0, 0);
  }

  lemma TargetIsAdmitted()
    ensures Queue.Linked(Finished(2, []).db)
    ensures Frontier.Advance(CONFIG, Finished(2, []), Look(2))
         == Frontier.Dispatch(CONFIG, Finished(2, []), Frontier.Choice(TARGET_KEY, 0, CHEAP, None), 2)
  {
    FinishedLinked(2, []);
    SynthesisIsFound(2, []);
    SynthesisIsRouted();
  }

  lemma TargetIsBought()
    ensures Queue.Linked(Finished(2, []).db)
    ensures var d := Frontier.Dispatch(CONFIG, Finished(2, []), Frontier.Choice(TARGET_KEY, 0, CHEAP, None), 2);
            |d.history| == 2 && d.history[1].key == TARGET_KEY && d.history[1].cost == 2
  {
    OnePlan(2, []);
    var s, choice := Finished(2, []), Frontier.Choice(TARGET_KEY, 0, CHEAP, None);
    FrontierHistory.DispatchBuys(s.db, 0, Frontier.OrderFor(CONFIG, s, choice), 2);
  }

  // ---------------------------------------------------------------- both runs

  const STARTED := [Frontier.EAdvance(Look(0))]
  const HELPED := STARTED + [Frontier.EOther(ADDITION)]

  function Served(front: seq<Frontier.Event>): seq<Frontier.Event> {
    front + [Frontier.EOther(CLAIM)] + [Frontier.EOther(DELIVERY)]
  }

  lemma RunStarted()
    ensures Queue.Linked(START.db) && Frontier.Run(CONFIG, START, STARTED) == Planned(2, [])
  {
    PlanIsAdmitted();
    AppendParts<Frontier.Event>([], Frontier.EAdvance(Look(0)));
    assert Frontier.Run(CONFIG, START, []) == START;
  }

  lemma RunOther(front: seq<Frontier.Event>, e: Queue.Event, s: Candidates.State, d: Candidates.State)
    requires Queue.Linked(START.db) && Queue.Linked(s.db) && Frontier.Foreign(CONFIG, e)
    requires Frontier.Run(CONFIG, START, front) == s && d == s.(db := Queue.Step(s.db, e))
    ensures Frontier.Run(CONFIG, START, front + [Frontier.EOther(e)]) == d
  {
    AppendParts(front, Frontier.EOther(e));
  }

  lemma RunHelped()
    ensures Queue.Linked(START.db) && Frontier.Run(CONFIG, START, HELPED) == Planned(1, [ADDED])
  {
    RunStarted();
    TaskIsAdded();
    RunOther(STARTED, ADDITION, Planned(2, []), Planned(1, [ADDED]));
  }

  /** A worker takes and answers the plan. */
  lemma RunServed(front: seq<Frontier.Event>, rest: int, more: seq<Queue.Task>)
    requires Queue.Linked(START.db) && Frontier.Run(CONFIG, START, front) == Planned(rest, more)
    requires forall t | t in more :: t.group == 0
    ensures Frontier.Run(CONFIG, START, Served(front)) == Finished(rest, more)
  {
    PlanIsClaimed(rest, more);
    RunOther(front, CLAIM, Planned(rest, more), Taken(rest, more));
    PlanIsAnswered(rest, more);
    RunOther(front + [Frontier.EOther(CLAIM)], DELIVERY, Taken(rest, more), Finished(rest, more));
  }

  lemma StartIsKept()
    ensures Queue.After([Queue.ECreateGroup(4, 4), Queue.EStartLoop(0, 1000)]) == START.db
    ensures FrontierHistory.Kept(CONFIG, START) && FrontierLimits.Affordable(CONFIG, START)
  {
    Starting(4, 4);
    QueueHistory.AlwaysInv([Queue.ECreateGroup(4, 4), Queue.EStartLoop(0, 1000)]);
    assert [CHEAP][..0] == [];
  }

  /** One task added by hand costs the group its target. Both runs start with an affordable tail and
      differ only in that task; the next advance dispatches the target without it, and with it finds
      the only synthesizer over budget and stops the group. */
  lemma ManualTaskCostsTarget()
    ensures FrontierHistory.Kept(CONFIG, START) && FrontierLimits.Affordable(CONFIG, START)
    ensures var s := Frontier.Run(CONFIG, START, Served(STARTED)); var d := Frontier.Advance(CONFIG, s, Look(2));
            |d.history| == 2 && d.history[1].key.action.Synthesize?
    ensures var s := Frontier.Run(CONFIG, START, Served(HELPED)); var d := Frontier.Advance(CONFIG, s, Look(2));
            && |s.db.groups| == 1 && Frontier.TailJobs(CONFIG, s.history) == 1
            && Frontier.Found(CONFIG, s, NOTHING, Look(2).dressings) == [Frontier.Dress(SYNTHESIS, Look(2).dressings)]
            && Frontier.Consider(CONFIG, s, [], Frontier.Dress(SYNTHESIS, Look(2).dressings)) == Err(Frontier.ModelUnavailableOrBudget)
            && |d.db.groups| == 1 && d.db.groups[0].loop.Stopped? && d.history == s.history
  {
    StartIsKept();
    RunStarted();
    RunServed(STARTED, 2, []);
    RunHelped();
    RunServed(HELPED, 1, [ADDED]);
    TargetIsAdmitted();
    TargetIsBought();
    OnePlan(1, [ADDED]);
    SynthesisIsFound(1, [ADDED]);
    SynthesisIsOverBudget();
    GroupIsStopped();
  }
}
