/**
 Verification fencing and the Lean completion reserve, over every history.
 */
module ChecksFencing {
  import opened Basics
  import opened Checks
  import opened ChecksHistory
  import Queue
  import Bundles
  import Replay

  // ---------------------------------------------------------------- fencing

  /** One live check per proof, and it is the recorded owner. */
  lemma OneOwner(caps: Caps, z: Bundles.Sizes, events: seq<Event>, i: nat, j: nat)
    requires var c := After(caps, z, events);
             i < |c.checks| && j < |c.checks| && c.checks[i].status.Checking? && c.checks[j].status.Checking?
             && c.checks[i].owner == c.checks[j].owner
    ensures i == j && Owns(After(caps, z, events), After(caps, z, events).checks[i].owner, i)
  {
    AlwaysInv(caps, z, events);
    assert RowOk(After(caps, z, events), i) && RowOk(After(caps, z, events), j);
  }

  /** Check k is over: its row, with its charge and its commit, is final. */
  ghost predicate Over(c: Coord, k: nat) {
    k < |c.checks| && !c.checks[k].status.Checking?
  }

  lemma BeginRows(caps: Caps, c: Coord, owner: Owner, b: Bundle, deadline: nat, now: int, manifest: Option<Bundle>, k: nat)
    requires Inv(c) && Over(c, k)
    ensures var d := Begin(caps, c, owner, b, deadline, now, manifest).0; Over(d, k) && d.checks[k] == c.checks[k]
  {
    assert RowOk(c, k);
    if owner in c.owners {
      assert HoldOk(c, owner);
    }
  }

  lemma ReportCloses(c: Coord, i: nat, v: Queue.Verdict, elapsed: Option<nat>)
    requires Queue.Linked(c.db) && i < |c.checks|
    ensures Report(c, i, v, elapsed).checks == Close(c, i, v, elapsed, Commits(c, i)).checks
  {
  }

  lemma CloseRows(c: Coord, i: nat, v: Queue.Verdict, elapsed: Option<nat>, committed: bool, k: nat)
    requires i < |c.checks| && Over(c, k) && RowOk(c, k)
    ensures var d := Close(c, i, v, elapsed, committed); Over(d, k) && d.checks[k] == c.checks[k]
  {
  }

  lemma ReportRows(c: Coord, i: nat, v: Queue.Verdict, elapsed: Option<nat>, k: nat)
    requires Inv(c) && Over(c, k) && i < |c.checks|
    ensures Over(Report(c, i, v, elapsed), k) && Report(c, i, v, elapsed).checks[k] == c.checks[k]
  {
    assert RowOk(c, k);
    ReportCloses(c, i, v, elapsed);
    CloseRows(c, i, v, elapsed, Commits(c, i), k);
  }

  lemma OverStep(caps: Caps, z: Bundles.Sizes, c: Coord, e: Event, k: nat)
    requires Inv(c) && Over(c, k)
    ensures Over(Step(caps, z, c, e), k) && Step(caps, z, c, e).checks[k] == c.checks[k]
  {
    match e
    case EBegin(owner, b, deadline, now, manifest) => BeginRows(caps, c, owner, b, deadline, now, manifest, k);
    case EReport(i, v, elapsed) =>
      if i < |c.checks| {
        ReportRows(c, i, v, elapsed, k);
      }
    case _ =>
  }

  lemma AfterLater(caps: Caps, z: Bundles.Sizes, events: seq<Event>, later: seq<Event>)
    requires later != []
    ensures After(caps, z, events + later)
         == Step(caps, z, After(caps, z, events + later[..|later| - 1]), later[|later| - 1])
  {
    SplitLast(events, later);
  }

  lemma {:induction false} OverForever(caps: Caps, z: Bundles.Sizes, events: seq<Event>, later: seq<Event>, k: nat)
    requires Over(After(caps, z, events), k)
    ensures Over(After(caps, z, events + later), k)
    ensures After(caps, z, events + later).checks[k] == After(caps, z, events).checks[k]
  {
    if later == [] {
      PlusNothing(events);
    } else {
      var front := later[..|later| - 1];
      OverForever(caps, z, events, front, k);
      AlwaysInv(caps, z, events + front);
      AfterLater(caps, z, events, later);
      OverStep(caps, z, After(caps, z, events + front), later[|later| - 1], k);
    }
  }

  /** A check that was taken over (or has reported) never acts again: whenever its report arrives,
      nothing is committed, no ownership is lost, and its recorded charge stays what it was. */
  lemma OverNeverActs(caps: Caps, z: Bundles.Sizes, events: seq<Event>, later: seq<Event>, k: nat,
                      v: Queue.Verdict, elapsed: Option<nat>)
    requires Over(After(caps, z, events), k)
    ensures var c := After(caps, z, events + later);
            && k < |c.checks| && Report(c, k, v, elapsed) == c
            && c.checks[k] == After(caps, z, events).checks[k]
  {
    OverForever(caps, z, events, later, k);
    AlwaysInv(caps, z, events + later);
    OverOwnsNothing(After(caps, z, events + later), k);
    LostCheckIsInert(After(caps, z, events + later), k, v, elapsed);
  }

  lemma OverOwnsNothing(c: Coord, k: nat)
    requires Sound(c) && Over(c, k)
    ensures !Owns(c, c.checks[k].owner, k)
  {
    assert c.checks[k].owner in c.owners ==> HoldOk(c, c.checks[k].owner);
  }

  /** Check k lost its proof without a verdict, and is charged its whole deadline. */
  ghost predicate EndedBy(c: Coord, d: Coord, k: nat) {
    && k < |c.checks| && Over(d, k) && d.checks[k].status.Abandoned? && !d.checks[k].committed
    && CHARGE(d.checks[k]) == c.checks[k].deadline
  }

  lemma TakeOverEndsOn(caps: Caps, c: Coord, owner: Owner, b: Bundle, deadline: nat, now: int, manifest: Option<Bundle>)
    requires Inv(c) && owner in c.owners
    ensures var (d, outcome) := Begin(caps, c, owner, b, deadline, now, manifest);
            if outcome.Busy? then d == c
            else
              && c.owners[owner].expires <= now && EndedBy(c, d, c.owners[owner].check)
              && (if outcome.Started? then Owns(d, owner, outcome.check) && outcome.check == |c.checks| else owner !in d.owners)
  {
    assert HoldOk(c, owner) && RowOk(c, c.owners[owner].check);
  }

  /** Beginning a check of an owned proof waits for the lease of the owner to run out; then the
      old check is over, uncommitted, and keeps the charge of its whole deadline. */
  lemma TakeOverEnds(caps: Caps, z: Bundles.Sizes, events: seq<Event>, owner: Owner, b: Bundle, deadline: nat, now: int,
                     manifest: Option<Bundle>)
    requires owner in After(caps, z, events).owners
    ensures var c := After(caps, z, events);
            var (d, outcome) := Begin(caps, c, owner, b, deadline, now, manifest);
            if outcome.Busy? then d == c
            else
              && c.owners[owner].expires <= now && EndedBy(c, d, c.owners[owner].check)
              && (if outcome.Started? then Owns(d, owner, outcome.check) && outcome.check == |c.checks| else owner !in d.owners)
  {
    AlwaysInv(caps, z, events);
    TakeOverEndsOn(caps, After(caps, z, events), owner, b, deadline, now, manifest);
  }

  /** An attempt never has two committed checks, in the whole history. */
  lemma CommittedOnce(caps: Caps, z: Bundles.Sizes, events: seq<Event>, i: nat, j: nat, a: nat)
    requires Commit(After(caps, z, events), i, a) && Commit(After(caps, z, events), j, a)
    ensures i == j
    ensures var c := After(caps, z, events);
            && a < |c.db.leases| && c.db.leases[a].attempt.Some? && c.db.leases[a].Verdict().Some?
            && c.checks[i].status == Reported(c.db.leases[a].Verdict().value)
            && SameTarget(c, a, c.checks[i].bundle)
  {
    AlwaysInv(caps, z, events);
    assert Attested(After(caps, z, events), i);
  }

  /** A group's target is accepted only by a committed check, and what was checked is the job's
      frozen bundle with the submitted proof in it. */
  lemma AcceptedTargetsWereChecked(caps: Caps, z: Bundles.Sizes, events: seq<Event>, a: nat)
    requires var db := After(caps, z, events).db;
             a < |db.leases| && db.jobs[db.leases[a].job].link.Some? && db.leases[a].Verdict() == Some(Queue.Verified)
    ensures var c := After(caps, z, events);
            exists k: nat :: Commit(c, k, a) && c.checks[k].status == Reported(Queue.Verified) && SameTarget(c, a, c.checks[k].bundle)
  {
    AlwaysInv(caps, z, events);
    var c := After(caps, z, events);
    assert Backed(c, a);
    var k :| Commit(c, k, a);
    assert Attested(c, k);
  }

  // ------------------------------------------------------- unchanged verifier

  /** What was checked, and for whom, never changes. */
  ghost predicate SameCheck(c: Coord, d: Coord, k: nat) {
    k < |c.checks| && k < |d.checks| && d.checks[k].owner == c.checks[k].owner && d.checks[k].bundle == c.checks[k].bundle
  }

  lemma BeginSameCheck(caps: Caps, c: Coord, owner: Owner, b: Bundle, deadline: nat, now: int, manifest: Option<Bundle>, k: nat)
    requires Queue.Linked(c.db) && k < |c.checks|
    ensures SameCheck(c, Begin(caps, c, owner, b, deadline, now, manifest).0, k)
  {
  }

  lemma CloseSameCheck(c: Coord, i: nat, v: Queue.Verdict, elapsed: Option<nat>, committed: bool, k: nat)
    requires i < |c.checks| && k < |c.checks|
    ensures SameCheck(c, Close(c, i, v, elapsed, committed), k)
  {
  }

  lemma ReportSameCheck(c: Coord, i: nat, v: Queue.Verdict, elapsed: Option<nat>, k: nat)
    requires Queue.Linked(c.db) && i < |c.checks| && k < |c.checks|
    ensures SameCheck(c, Report(c, i, v, elapsed), k)
  {
    ReportCloses(c, i, v, elapsed);
    CloseSameCheck(c, i, v, elapsed, Commits(c, i), k);
  }

  lemma StepSameCheck(caps: Caps, z: Bundles.Sizes, c: Coord, e: Event, k: nat)
    requires Queue.Linked(c.db) && k < |c.checks|
    ensures SameCheck(c, Step(caps, z, c, e), k)
  {
    match e
    case EBegin(owner, b, deadline, now, manifest) => BeginSameCheck(caps, c, owner, b, deadline, now, manifest, k);
    case EReport(i, v, elapsed) =>
      if i < |c.checks| {
        ReportSameCheck(c, i, v, elapsed, k);
      }
    case _ =>
  }

  /** The binding's revision never falls, and stays only if the binding does. */
  ghost predicate Advances(c: Coord, d: Coord) {
    && c.l.w.binding.revision <= d.l.w.binding.revision
    && (c.l.w.binding.revision == d.l.w.binding.revision ==> c.l.w.binding == d.l.w.binding)
  }

  lemma StepAdvances(caps: Caps, z: Bundles.Sizes, c: Coord, e: Event)
    requires Queue.Linked(c.db)
    ensures Advances(c, Step(caps, z, c, e))
  {
    if e.ELedger? {
      Replay.StepRevision(c.l, z, e.change);
    }
  }

  lemma {:induction false} HistoryAdvances(caps: Caps, z: Bundles.Sizes, events: seq<Event>, later: seq<Event>, k: nat)
    requires k < |After(caps, z, events).checks|
    ensures Advances(After(caps, z, events), After(caps, z, events + later))
    ensures SameCheck(After(caps, z, events), After(caps, z, events + later), k)
  {
    if later == [] {
      PlusNothing(events);
    } else {
      var front := later[..|later| - 1];
      HistoryAdvances(caps, z, events, front, k);
      AfterLater(caps, z, events, later);
      StepAdvances(caps, z, After(caps, z, events + front), later[|later| - 1]);
      StepSameCheck(caps, z, After(caps, z, events + front), later[|later| - 1], k);
    }
  }

  /** A check begun under the binding in force commits, for a target or for an artifact, only if that
      binding was in force at every moment until then: a verifier that changed and changed back is
      noticed. */
  lemma CommitsUnderOneBinding(caps: Caps, z: Bundles.Sizes, events: seq<Event>, middle: seq<Event>, rest: seq<Event>, k: nat)
    requires k < |After(caps, z, events).checks|
    requires Binding(After(caps, z, events).checks[k].bundle) == After(caps, z, events).l.w.binding
    requires k < |After(caps, z, events + middle + rest).checks| && Commits(After(caps, z, events + middle + rest), k)
    ensures After(caps, z, events + middle).l.w.binding == After(caps, z, events).l.w.binding
  {
    HistoryAdvances(caps, z, events, middle, k);
    HistoryAdvances(caps, z, events + middle, rest, k);
  }

  // ----------------------------------------------------------- Lean capacity

  lemma {:induction false} TotalSet(checks: seq<Check>, k: nat, row: Check, f: Check -> int)
    requires k < |checks|
    ensures Total(checks[k := row], f) == Total(checks, f) - f(checks[k]) + f(row)
  {
    var front := checks[..|checks| - 1];
    if k == |front| {
      assert checks[k := row][..|front|] == front;
    } else {
      assert checks[k := row][..|front|] == front[k := row];
      TotalSet(front, k, row, f);
    }
  }

  lemma {:induction false} TotalSign(checks: seq<Check>)
    ensures Total(checks, EXCESS) >= 0 && Total(checks, TARGET) >= 0
  {
    if checks != [] {
      TotalSign(checks[..|checks| - 1]);
    }
  }

  lemma TotalAppend(checks: seq<Check>, row: Check, f: Check -> int)
    ensures Total(checks + [row], f) == Total(checks, f) + f(row)
  {
    assert (checks + [row])[..|checks|] == checks;
  }

  /** What is held back stays available, except for time that verifiers took beyond what they
      had reserved. */
  ghost predicate Reserved(caps: Caps, checks: seq<Check>) {
    && |checks| + Tail(caps, checks) <= caps.operations
    && Total(checks, CHARGE) + Tail(caps, checks) * caps.checkMillis <= caps.millis + Total(checks, EXCESS)
  }

  /** The limits cover the completion slots to begin with. */
  predicate Covered(caps: Caps) {
    caps.reserve && Slots(caps) <= caps.operations && Slots(caps) * caps.checkMillis <= caps.millis
  }

  lemma AbandonTotals(checks: seq<Check>, k: nat)
    ensures |Abandon(checks, k)| == |checks|
    ensures Total(Abandon(checks, k), CHARGE) == Total(checks, CHARGE)
    ensures Total(Abandon(checks, k), EXCESS) == Total(checks, EXCESS)
    ensures Total(Abandon(checks, k), TARGET) == Total(checks, TARGET)
  {
    if k < |checks| {
      TotalSet(checks, k, Abandon(checks, k)[k], CHARGE);
      TotalSet(checks, k, Abandon(checks, k)[k], EXCESS);
      TotalSet(checks, k, Abandon(checks, k)[k], TARGET);
    }
  }

  lemma ReserveTotals(caps: Caps, c: Coord, owner: Owner, b: Bundle, deadline: nat, now: int, manifest: Option<Bundle>)
    requires caps.reserve && Reserved(caps, c.checks)
    ensures Reserved(caps, Reserve(caps, c, owner, b, deadline, now, manifest).0.checks)
  {
    var d := Reserve(caps, c, owner, b, deadline, now, manifest).0;
    if d != c {
      var row := Check(owner, b, deadline, Checking, None, false, false);
      TotalAppend(c.checks, row, CHARGE);
      TotalAppend(c.checks, row, EXCESS);
      TotalAppend(c.checks, row, TARGET);
      TotalSign(c.checks);
      assert Tail(caps, d.checks) == Max(0, Tail(caps, c.checks) - if owner.OfAttempt? then 1 else 0);
    }
  }

  lemma BeginTotals(caps: Caps, c: Coord, owner: Owner, b: Bundle, deadline: nat, now: int, manifest: Option<Bundle>)
    requires caps.reserve && Queue.Linked(c.db) && Reserved(caps, c.checks)
    ensures Reserved(caps, Begin(caps, c, owner, b, deadline, now, manifest).0.checks)
  {
    if owner in c.owners {
      AbandonTotals(c.checks, c.owners[owner].check);
      ReserveTotals(caps, TakeOver(c, owner), owner, b, deadline, now, manifest);
    } else {
      ReserveTotals(caps, c, owner, b, deadline, now, manifest);
    }
  }

  lemma CloseTotals(caps: Caps, c: Coord, k: nat, v: Queue.Verdict, elapsed: Option<nat>, committed: bool)
    requires k < |c.checks| && RowOk(c, k) && Reserved(caps, c.checks)
    ensures Reserved(caps, Close(c, k, v, elapsed, committed).checks)
  {
    var row := Close(c, k, v, elapsed, committed).checks[k];
    TotalSet(c.checks, k, row, CHARGE);
    TotalSet(c.checks, k, row, EXCESS);
    TotalSet(c.checks, k, row, TARGET);
  }

  lemma StepReserved(caps: Caps, z: Bundles.Sizes, c: Coord, e: Event)
    requires caps.reserve && Inv(c) && Reserved(caps, c.checks)
    ensures Reserved(caps, Step(caps, z, c, e).checks)
  {
    match e
    case EBegin(owner, b, deadline, now, manifest) => BeginTotals(caps, c, owner, b, deadline, now, manifest);
    case EReport(k, v, elapsed) =>
      if k < |c.checks| {
        assert RowOk(c, k);
        CloseTotals(caps, c, k, v, elapsed, Commits(c, k));
      }
    case _ =>
  }

  lemma {:induction false} AlwaysReserved(caps: Caps, z: Bundles.Sizes, events: seq<Event>)
    requires Covered(caps)
    ensures Reserved(caps, After(caps, z, events).checks)
  {
    if events != [] {
      var front := events[..|events| - 1];
      AlwaysReserved(caps, z, front);
      AlwaysInv(caps, z, front);
      StepReserved(caps, z, After(caps, z, front), events[|events| - 1]);
    }
  }

  /** The time left for a target check once the other unused slots keep theirs. */
  function TimeFor(caps: Caps, checks: seq<Check>): int {
    caps.millis - Total(checks, CHARGE) - Max(0, Tail(caps, checks) - 1) * caps.checkMillis
  }

  /** Does Lean time run out for a target check with this deadline? */
  predicate TimeShort(caps: Caps, checks: seq<Check>, deadline: nat) {
    Total(checks, CHARGE) >= caps.millis || deadline > TimeFor(caps, checks)
  }

  lemma SlotIsRefused(caps: Caps, checks: seq<Check>, a: nat, deadline: nat, now: int)
    requires caps.reserve && Reserved(caps, checks) && Tail(caps, checks) > 0
    ensures Refusal(caps, checks, OfAttempt(a), deadline, now).Some? <==> TimeShort(caps, checks, deadline)
    ensures Refusal(caps, checks, OfAttempt(a), deadline, now).Some? ==>
              var reason := Refusal(caps, checks, OfAttempt(a), deadline, now).value;
              reason == LeanTimeBudget || reason == CompletionLeanTimeReserve
  {
  }

  /** Is the proof of this attempt still to be checked, by nobody who may be at it? */
  predicate Free(c: Coord, a: nat, now: int)
    requires Queue.Linked(c.db)
  {
    var owner := OfAttempt(a);
    Known(c, owner) && !Settled(c, owner) && (owner in c.owners ==> c.owners[owner].expires <= now)
  }

  lemma BeginIsRefused(caps: Caps, c: Coord, a: nat, b: Bundle, deadline: nat, now: int, manifest: Option<Bundle>)
    requires Queue.Linked(c.db) && caps.reserve && Reserved(caps, c.checks) && Tail(caps, c.checks) > 0 && Free(c, a, now)
    ensures var outcome := Begin(caps, c, OfAttempt(a), b, deadline, now, manifest).1;
            && !outcome.Busy?
            && (outcome.Refused? <==> Moved(c, b, manifest) || TimeShort(caps, c.checks, deadline))
  {
    if OfAttempt(a) in c.owners {
      var k := c.owners[OfAttempt(a)].check;
      AbandonTotals(c.checks, k);
      SlotIsRefused(caps, Abandon(c.checks, k), a, deadline, now);
    } else {
      SlotIsRefused(caps, c.checks, a, deadline, now);
    }
  }

  /** Exactly when the completion reserve fails a target, whatever was checked, abandoned or recovered
      before: while a slot is unused, a target check is refused if and only if it is a correction whose
      verifier has changed, or Lean time is spent, or its deadline exceeds the time left beside the
      other unused slots. It is never refused for the number of operations. */
  lemma TargetRefusedIff(caps: Caps, z: Bundles.Sizes, events: seq<Event>, a: nat, b: Bundle, deadline: nat, now: int,
                         manifest: Option<Bundle>)
    requires Covered(caps) && Tail(caps, After(caps, z, events).checks) > 0 && Free(After(caps, z, events), a, now)
    ensures var c := After(caps, z, events); var outcome := Begin(caps, c, OfAttempt(a), b, deadline, now, manifest).1;
            && !outcome.Busy?
            && (outcome.Refused? <==> Moved(c, b, manifest) || TimeShort(caps, c.checks, deadline))
  {
    AlwaysReserved(caps, z, events);
    BeginIsRefused(caps, After(caps, z, events), a, b, deadline, now, manifest);
  }

  lemma TimeEnough(caps: Caps, checks: seq<Check>, deadline: nat)
    requires Reserved(caps, checks) && Tail(caps, checks) > 0
    requires var excess := Total(checks, EXCESS); excess < caps.checkMillis && deadline + excess <= caps.checkMillis
    ensures !TimeShort(caps, checks, deadline)
  {
    OneSlot(Tail(caps, checks), caps.checkMillis);
  }

  lemma OneSlot(tail: nat, millis: nat)
    requires tail > 0
    ensures tail * millis == Max(0, tail - 1) * millis + millis
  {
  }

  /** So a target check is granted whenever its deadline, with the time by which verifiers overran,
      fits into a slot. */
  lemma TargetNeverRefused(caps: Caps, z: Bundles.Sizes, events: seq<Event>, a: nat, b: Bundle, deadline: nat, now: int)
    requires Covered(caps) && Tail(caps, After(caps, z, events).checks) > 0 && Free(After(caps, z, events), a, now)
    requires var excess := Total(After(caps, z, events).checks, EXCESS);
             excess < caps.checkMillis && deadline + excess <= caps.checkMillis
    ensures Begin(caps, After(caps, z, events), OfAttempt(a), b, deadline, now, None).1.Started?
  {
    AlwaysReserved(caps, z, events);
    TimeEnough(caps, After(caps, z, events).checks, deadline);
    TargetRefusedIff(caps, z, events, a, b, deadline, now, None);
  }

  /** No finished operation took longer than it had reserved. */
  ghost predicate OnTime(checks: seq<Check>) {
    forall k | 0 <= k < |checks| :: checks[k].elapsed.Some? ==> checks[k].elapsed.value <= checks[k].deadline
  }

  lemma {:induction false} NoExcess(checks: seq<Check>)
    requires OnTime(checks)
    ensures Total(checks, EXCESS) == 0
  {
    if checks != [] {
      NoExcess(checks[..|checks| - 1]);
    }
  }

  /** With verifiers that keep their deadlines, limits are never exceeded and every target check
      of at most a slot's length gets its slot. */
  lemma ReserveHolds(caps: Caps, z: Bundles.Sizes, events: seq<Event>, a: nat, b: Bundle, deadline: nat, now: int)
    requires Covered(caps) && OnTime(After(caps, z, events).checks)
    requires 0 < caps.checkMillis && deadline <= caps.checkMillis
    ensures var checks := After(caps, z, events).checks;
            && |checks| + Tail(caps, checks) <= caps.operations
            && Total(checks, CHARGE) + Tail(caps, checks) * caps.checkMillis <= caps.millis
            && (Tail(caps, checks) > 0 && Free(After(caps, z, events), a, now) ==>
                  Begin(caps, After(caps, z, events), OfAttempt(a), b, deadline, now, None).1.Started?)
  {
    AlwaysReserved(caps, z, events);
    NoExcess(After(caps, z, events).checks);
    if Tail(caps, After(caps, z, events).checks) > 0 && Free(After(caps, z, events), a, now) {
      TargetNeverRefused(caps, z, events, a, b, deadline, now);
    }
  }
}
