/**
 Ownership, commits and Lean capacity over every history of ticks, takeovers and rebinds.
 */
module ChecksHistory {
  import opened Basics
  import opened Checks
  import Queue
  import QueueInvariant
  import QueueHistory
  import QueueRecords
  import Ledger
  import LedgerHistory
  import Bundles

  // --------------------------------------------------------------- invariant

  /** A check that is being run owns its proof; one that is over has paid and never reopens. */
  ghost predicate RowOk(c: Coord, k: nat)
    requires k < |c.checks|
  {
    && (c.checks[k].status.Checking? <==> !c.checks[k].finished)
    && (c.checks[k].status.Checking? ==>
          Owns(c, c.checks[k].owner, k) && c.checks[k].elapsed.None? && !c.checks[k].committed)
  }

  ghost predicate HoldOk(c: Coord, o: Owner)
    requires o in c.owners
  {
    var k := c.owners[o].check;
    k < |c.checks| && c.checks[k].owner == o && c.checks[k].status.Checking?
  }

  ghost predicate Sound(c: Coord) {
    && (forall k {:trigger RowOk(c, k)} | 0 <= k < |c.checks| :: RowOk(c, k))
    && (forall o {:trigger HoldOk(c, o)} | o in c.owners :: HoldOk(c, o))
  }

  /** A committed check of an attempt reported the attempt's verdict, on its frozen inputs. */
  ghost predicate Attested(c: Coord, k: nat)
    requires k < |c.checks|
  {
    c.checks[k].committed && c.checks[k].owner.OfAttempt? ==>
      var a := c.checks[k].owner.id;
      && a < |c.db.leases| && c.db.leases[a].attempt.Some? && c.db.leases[a].Verdict().Some?
      && c.checks[k].status == Reported(c.db.leases[a].Verdict().value)
      && SameTarget(c, a, c.checks[k].bundle)
  }

  predicate Commit(c: Coord, k: nat, a: nat)
  {
    k < |c.checks| && c.checks[k].committed && c.checks[k].owner == OfAttempt(a)
  }

  /** An accepted proof of a group's target was accepted by a committed check. */
  ghost predicate Backed(c: Coord, a: nat)
    requires Queue.Linked(c.db) && a < |c.db.leases|
  {
    c.db.jobs[c.db.leases[a].job].link.Some? && c.db.leases[a].Verdict() == Some(Queue.Verified) ==>
      exists k :: Commit(c, k, a)
  }

  ghost predicate Single(c: Coord) {
    forall i, j, a {:trigger Commit(c, i, a), Commit(c, j, a)} | Commit(c, i, a) && Commit(c, j, a) :: i == j
  }

  ghost predicate Inv(c: Coord) {
    && QueueInvariant.Inv(c.db) && Ledger.Inv(c.l)
    && Sound(c) && Single(c)
    && (forall k {:trigger Attested(c, k)} | 0 <= k < |c.checks| :: Attested(c, k))
    && (forall a {:trigger Backed(c, a)} | 0 <= a < |c.db.leases| :: Backed(c, a))
  }

  // -------------------------------------------------------------- ownership

  lemma AbandonSound(c: Coord, owner: Owner)
    requires Sound(c) && owner in c.owners
    ensures Sound(TakeOver(c, owner)) && owner !in TakeOver(c, owner).owners
  {
    var d := TakeOver(c, owner);
    assert HoldOk(c, owner);
    forall k | 0 <= k < |d.checks| ensures RowOk(d, k) {
      assert RowOk(c, k);
    }
    forall o | o in d.owners ensures HoldOk(d, o) {
      assert HoldOk(c, o);
    }
  }

  lemma ReserveSound(caps: Caps, c: Coord, owner: Owner, b: Bundle, deadline: nat, now: int, manifest: Option<Bundle>)
    requires Sound(c) && owner !in c.owners
    ensures Sound(Reserve(caps, c, owner, b, deadline, now, manifest).0)
  {
    var d := Reserve(caps, c, owner, b, deadline, now, manifest).0;
    forall k | 0 <= k < |d.checks| ensures RowOk(d, k) {
      if k < |c.checks| {
        assert RowOk(c, k);
      }
    }
    forall o | o in d.owners ensures HoldOk(d, o) {
      if o in c.owners {
        assert HoldOk(c, o);
      }
    }
  }

  lemma CloseSound(c: Coord, k: nat, v: Queue.Verdict, elapsed: Option<nat>, committed: bool)
    requires Sound(c) && k < |c.checks|
    ensures Sound(Close(c, k, v, elapsed, committed))
    ensures !c.checks[k].status.Checking? ==> Close(c, k, v, elapsed, committed) == c
  {
    var d := Close(c, k, v, elapsed, committed);
    assert RowOk(c, k);
    if Owns(c, c.checks[k].owner, k) {
      assert HoldOk(c, c.checks[k].owner);
    }
    forall i | 0 <= i < |d.checks| ensures RowOk(d, i) {
      assert RowOk(c, i);
    }
    forall o | o in d.owners ensures HoldOk(d, o) {
      assert HoldOk(c, o);
    }
  }

  /** A check that lost its proof has no effect at all when it finally reports: nothing is
      committed, the new owner keeps its ownership, and the old charge stands. */
  lemma LostCheckIsInert(c: Coord, k: nat, v: Queue.Verdict, elapsed: Option<nat>)
    requires Queue.Linked(c.db) && Sound(c) && k < |c.checks| && !Owns(c, c.checks[k].owner, k)
    ensures Report(c, k, v, elapsed) == c
  {
    assert RowOk(c, k);
    CloseSound(c, k, v, elapsed, Commits(c, k));
  }

  // ------------------------------------------------------ verdicts elsewhere

  /** Only a verdict for attempt a decides attempt a. */
  lemma OnlyJudgeDecides(db: Queue.Db, e: Queue.Event, a: nat)
    requires QueueInvariant.Inv(db) && a < |Queue.Step(db, e).leases| && !(e.EJudge? && e.lease == a)
    ensures Queue.Step(db, e).leases[a].Verdict() == if a < |db.leases| then db.leases[a].Verdict() else None
  {
    if !QueueRecords.WritesLeases(e) {
      QueueRecords.SameLeases(db, e);
    } else {
      match e
      case EExpire(now) => ExpiryUndecided(db, now, a);
      case EClaim(cap, token, now, term) => ClaimUndecided(db, cap, token, now, term, a);
      case EHeartbeat(_, _, _, _) =>
      case EDeliver(b, token, raw, now) => DeliveryUndecided(db, b, token, raw, now, a);
      case EJudge(b, v) => JudgeElsewhere(db, b, v, a);
    }
  }

  lemma ExpiryUndecided(db: Queue.Db, now: int, a: nat)
    requires Queue.Linked(db) && a < |Queue.Expire(db, now).leases|
    ensures a < |db.leases| && Queue.Expire(db, now).leases[a].Verdict() == db.leases[a].Verdict()
  {
    QueueInvariant.ExpireUpToShape(db, |db.leases|, now);
  }

  lemma ClaimUndecided(db: Queue.Db, cap: Queue.Capabilities, token: nat, now: int, term: int, a: nat)
    requires Queue.Linked(db) && a < |Queue.Claim(db, cap, token, now, term).leases|
    ensures Queue.Claim(db, cap, token, now, term).leases[a].Verdict() == if a < |db.leases| then db.leases[a].Verdict() else None
  {
    if a < |Queue.Expire(db, now).leases| {
      ExpiryUndecided(db, now, a);
    }
    QueueInvariant.ExpireUpToShape(db, |db.leases|, now);
  }

  lemma DeliveryUndecided(db: Queue.Db, b: nat, token: nat, raw: Queue.Payload, now: int, a: nat)
    requires QueueInvariant.Inv(db) && a < |Queue.Deliver(db, b, token, raw, now).0.leases|
    ensures a < |db.leases| && Queue.Deliver(db, b, token, raw, now).0.leases[a].Verdict() == db.leases[a].Verdict()
  {
    QueueInvariant.DeliverCases(db, b, token, raw, now);
    if Queue.Deliver(db, b, token, raw, now).0 != db {
      QueueInvariant.FirstResultShape(db, b, Queue.Canonical(raw));
      assert QueueInvariant.LeaseOk(db.leases[b]);
    }
  }

  lemma JudgeElsewhere(db: Queue.Db, b: nat, v: Queue.Verdict, a: nat)
    requires Queue.Linked(db) && a < |Queue.Judge(db, b, v).leases|
    ensures a < |db.leases|
    ensures Queue.Judge(db, b, v).leases[a].Verdict() == if a == b && Queue.Open(db, a) then Some(v) else db.leases[a].Verdict()
  {
  }

  // ---------------------------------------------------------------- commits

  /** d has the same checks, and its other tables only grew. */
  ghost predicate Continues(c: Coord, d: Coord) {
    && QueueRecords.Grows(c.db, d.db)
    && (forall j | j in c.targets :: j in d.targets && d.targets[j] == c.targets[j])
  }

  lemma AttestedStays(c: Coord, d: Coord, k: nat)
    requires Continues(c, d) && k < |c.checks| && k < |d.checks| && d.checks[k] == c.checks[k] && Attested(c, k)
    ensures Attested(d, k)
  {
    if c.checks[k].committed && c.checks[k].owner.OfAttempt? {
      var a := c.checks[k].owner.id;
      assert QueueRecords.LeaseGrows(c.db.leases[a], d.db.leases[a]);
    }
  }

  /** Neither a new verdict for a group's target nor a committed check goes unnoticed. */
  lemma BackedStays(c: Coord, d: Coord, a: nat)
    requires Queue.Linked(c.db) && Queue.Linked(d.db) && Continues(c, d) && a < |d.db.leases|
    requires a < |c.db.leases| ==> Backed(c, a)
    requires d.db.leases[a].Verdict() == if a < |c.db.leases| then c.db.leases[a].Verdict() else None
    requires forall k | Commit(c, k, a) :: Commit(d, k, a)
    ensures Backed(d, a)
  {
    if a < |c.db.leases| {
      assert QueueRecords.LeaseGrows(c.db.leases[a], d.db.leases[a]);
      assert QueueRecords.JobGrows(c.db.jobs[c.db.leases[a].job], d.db.jobs[c.db.leases[a].job]);
    }
  }

  lemma SameChecks(c: Coord, d: Coord)
    requires d.checks == c.checks
    ensures forall k, a | Commit(c, k, a) :: Commit(d, k, a)
    ensures Single(c) ==> Single(d)
  {
    if Single(c) {
      forall i, j, a | Commit(d, i, a) && Commit(d, j, a) ensures i == j {
        assert Commit(c, i, a) && Commit(c, j, a);
      }
    }
  }

  lemma SoundSame(c: Coord, d: Coord)
    requires Sound(c) && d.checks == c.checks && d.owners == c.owners
    ensures Sound(d)
  {
    forall k | 0 <= k < |d.checks| ensures RowOk(d, k) {
      assert RowOk(c, k);
    }
    forall o | o in d.owners ensures HoldOk(d, o) {
      assert HoldOk(c, o);
    }
  }

  lemma QueueKeeps(c: Coord, e: Queue.Event)
    requires Inv(c) && !Barred(c, e)
    ensures Inv(c.(db := Queue.Step(c.db, e)))
  {
    var d := c.(db := Queue.Step(c.db, e));
    QueueHistory.StepKeeps(c.db, e);
    QueueRecords.StepGrows(c.db, e);
    SoundSame(c, d);
    SameChecks(c, d);
    forall k | 0 <= k < |d.checks| ensures Attested(d, k) {
      assert Attested(c, k);
      AttestedStays(c, d, k);
    }
    forall a | 0 <= a < |d.db.leases| ensures Backed(d, a) {
      QueueBacked(c, e, a);
    }
  }

  lemma QueueBacked(c: Coord, e: Queue.Event, a: nat)
    requires Inv(c) && !Barred(c, e) && a < |Queue.Step(c.db, e).leases|
    ensures Backed(c.(db := Queue.Step(c.db, e)), a)
  {
    var d := c.(db := Queue.Step(c.db, e));
    QueueRecords.StepGrows(c.db, e);
    SameChecks(c, d);
    assert a < |c.db.leases| ==> Backed(c, a);
    if e.EJudge? && e.lease == a {
      JudgeElsewhere(c.db, a, e.verdict, a);
      assert QueueRecords.LeaseGrows(c.db.leases[a], d.db.leases[a]);
      assert QueueRecords.JobGrows(c.db.jobs[c.db.leases[a].job], d.db.jobs[c.db.leases[a].job]);
    } else {
      OnlyJudgeDecides(c.db, e, a);
      BackedStays(c, d, a);
    }
  }

  lemma LedgerKeeps(c: Coord, z: Bundles.Sizes, e: Ledger.Event)
    requires Inv(c)
    ensures Inv(c.(l := Ledger.Step(c.l, z, e)))
  {
    var d := c.(l := Ledger.Step(c.l, z, e));
    LedgerHistory.StepKeeps(c.l, z, e);
    SameTables(c, d);
  }

  /** Changes to the artifacts or to the frozen target contexts leave the commits alone. */
  lemma SameTables(c: Coord, d: Coord)
    requires Inv(c) && d.db == c.db && d.checks == c.checks && d.owners == c.owners && Ledger.Inv(d.l)
    requires forall j | j in c.targets :: j in d.targets && d.targets[j] == c.targets[j]
    ensures Inv(d)
  {
    SoundSame(c, d);
    SameChecks(c, d);
    forall k | 0 <= k < |d.checks| ensures Attested(d, k) {
      assert Attested(c, k);
    }
    forall a | 0 <= a < |d.db.leases| ensures Backed(d, a) {
      assert Backed(c, a);
    }
  }

  /** The commits among the checks are the same, and so are the tables. */
  ghost predicate SameCommits(c: Coord, d: Coord) {
    && d.db == c.db && d.l == c.l && d.targets == c.targets && |c.checks| <= |d.checks|
    && (forall k {:trigger d.checks[k]} | 0 <= k < |d.checks| ::
          d.checks[k].committed ==> k < |c.checks| && d.checks[k] == c.checks[k])
    && (forall k {:trigger c.checks[k]} | 0 <= k < |c.checks| :: c.checks[k].committed ==> d.checks[k] == c.checks[k])
  }

  lemma SameCommitsKeeps(c: Coord, d: Coord)
    requires Inv(c) && SameCommits(c, d) && Sound(d)
    ensures Inv(d)
  {
    forall k | 0 <= k < |d.checks| ensures Attested(d, k) {
      if d.checks[k].committed {
        assert Attested(c, k);
      }
    }
    forall i, j, a | Commit(d, i, a) && Commit(d, j, a) ensures i == j {
      assert Commit(c, i, a) && Commit(c, j, a);
    }
    forall a | 0 <= a < |d.db.leases| ensures Backed(d, a) {
      SameCommitsBacked(c, d, a);
    }
  }

  lemma SameCommitsBacked(c: Coord, d: Coord, a: nat)
    requires Queue.Linked(c.db) && SameCommits(c, d) && a < |d.db.leases| && Backed(c, a)
    ensures Backed(d, a)
  {
    if k :| Commit(c, k, a) {
      assert Commit(d, k, a);
    }
  }

  lemma BeginKeeps(caps: Caps, c: Coord, owner: Owner, b: Bundle, deadline: nat, now: int, manifest: Option<Bundle>)
    requires Inv(c)
    ensures Inv(Begin(caps, c, owner, b, deadline, now, manifest).0)
  {
    var d := Begin(caps, c, owner, b, deadline, now, manifest).0;
    if d != c {
      var e := if owner in c.owners then TakeOver(c, owner) else c;
      if owner in c.owners {
        assert HoldOk(c, owner) && RowOk(c, c.owners[owner].check);
        AbandonSound(c, owner);
      }
      SameCommitsKeeps(c, e);
      ReserveSound(caps, e, owner, b, deadline, now, manifest);
      SameCommitsKeeps(e, d);
    }
  }

  // ---------------------------------------------------------------- reports

  lemma RefusedReportKeeps(c: Coord, k: nat, v: Queue.Verdict, elapsed: Option<nat>)
    requires Inv(c) && k < |c.checks| && !Commits(c, k)
    ensures Inv(Report(c, k, v, elapsed))
  {
    CloseSound(c, k, v, elapsed, false);
    assert RowOk(c, k);
    SameCommitsKeeps(c, Report(c, k, v, elapsed));
  }

  /** A committing check is still running: it owns its proof. */
  lemma CommittingRow(c: Coord, k: nat, v: Queue.Verdict, elapsed: Option<nat>)
    requires Sound(c) && k < |c.checks| && Commits(c, k)
    ensures var d := Close(c, k, v, elapsed, true);
            && c.checks[k].status.Checking? && !c.checks[k].committed
            && d.checks == c.checks[k := c.checks[k].(elapsed := elapsed, finished := true, status := Reported(v), committed := true)]
            && d.owners == c.owners - {c.checks[k].owner}
  {
    assert HoldOk(c, c.checks[k].owner) && RowOk(c, k);
  }

  lemma ArtifactReportKeeps(c: Coord, k: nat, v: Queue.Verdict, elapsed: Option<nat>)
    requires Inv(c) && k < |c.checks| && Commits(c, k) && c.checks[k].owner.OfArtifact?
    ensures Inv(Report(c, k, v, elapsed))
  {
    var e := Close(c, k, v, elapsed, true);
    CommittingRow(c, k, v, elapsed);
    CloseSound(c, k, v, elapsed, true);
    OtherCommits(c, e, k);
    var b := c.checks[k].bundle;
    LedgerHistory.CommitKeeps(c.l, c.checks[k].owner.id, Some(b), true, Binding(b), v.Verified?);
    SameTables(e, Report(c, k, v, elapsed));
  }

  /** Committing an artifact's check adds no commit of an attempt. */
  lemma OtherCommits(c: Coord, e: Coord, k: nat)
    requires Inv(c) && Sound(e) && k < |c.checks| && c.checks[k].owner.OfArtifact? && !c.checks[k].committed
    requires e == c.(checks := e.checks, owners := e.owners)
    requires |e.checks| == |c.checks| && e.checks == c.checks[k := e.checks[k]] && e.checks[k].owner == c.checks[k].owner
    ensures Inv(e)
  {
    forall i | 0 <= i < |e.checks| ensures Attested(e, i) {
      assert Attested(c, i);
    }
    forall i, j, a | Commit(e, i, a) && Commit(e, j, a) ensures i == j {
      assert Commit(c, i, a) && Commit(c, j, a);
    }
    forall a | 0 <= a < |e.db.leases| ensures Backed(e, a) {
      OtherBacked(c, e, k, a);
    }
  }

  lemma OtherBacked(c: Coord, e: Coord, k: nat, a: nat)
    requires Queue.Linked(c.db) && e.db == c.db && k < |c.checks| && !c.checks[k].committed && a < |c.db.leases|
    requires |e.checks| == |c.checks| && e.checks == c.checks[k := e.checks[k]] && Backed(c, a)
    ensures Backed(e, a)
  {
    if i :| Commit(c, i, a) {
      assert Commit(e, i, a);
    }
  }

  /** An undecided attempt has no committed check yet. */
  lemma NoCommitYet(c: Coord, a: nat, i: nat)
    requires i < |c.checks| ==> Attested(c, i)
    requires Queue.Open(c.db, a)
    ensures !Commit(c, i, a)
  {
  }

  lemma JudgeKeeps(db: Queue.Db, a: nat, v: Queue.Verdict)
    requires QueueInvariant.Inv(db)
    ensures QueueInvariant.Inv(Queue.Judge(db, a, v))
  {
    var e := Queue.EJudge(a, v);
    assert Queue.Step(db, e) == Queue.Judge(db, a, v);
    QueueHistory.StepKeeps(db, e);
  }

  lemma AttemptSound(c: Coord, k: nat, v: Queue.Verdict, elapsed: Option<nat>)
    requires Inv(c) && k < |c.checks| && Commits(c, k) && c.checks[k].owner.OfAttempt?
    ensures Sound(Report(c, k, v, elapsed)) && Report(c, k, v, elapsed).l == c.l
    ensures Report(c, k, v, elapsed).db == Queue.Judge(c.db, c.checks[k].owner.id, v)
  {
    CloseSound(c, k, v, elapsed, true);
    SoundSame(Close(c, k, v, elapsed, true), Report(c, k, v, elapsed));
  }

  lemma AttemptReportKeeps(c: Coord, k: nat, v: Queue.Verdict, elapsed: Option<nat>)
    requires Inv(c) && k < |c.checks| && Commits(c, k) && c.checks[k].owner.OfAttempt?
    ensures Inv(Report(c, k, v, elapsed))
  {
    AttemptSound(c, k, v, elapsed);
    JudgeKeeps(c.db, c.checks[k].owner.id, v);
    AttemptCommits(c, k, v, elapsed);
  }

  lemma AttemptCommits(c: Coord, k: nat, v: Queue.Verdict, elapsed: Option<nat>)
    requires Inv(c) && k < |c.checks| && Commits(c, k) && c.checks[k].owner.OfAttempt?
    ensures var d := Report(c, k, v, elapsed);
            && Single(d)
            && (forall i | 0 <= i < |d.checks| :: Attested(d, i))
            && (forall b | 0 <= b < |d.db.leases| :: Backed(d, b))
  {
    var d := Report(c, k, v, elapsed);
    CommittingRow(c, k, v, elapsed);
    forall i | 0 <= i < |d.checks| ensures Attested(d, i) {
      AttemptAttested(c, k, v, elapsed, i);
    }
    forall i, j, b | Commit(d, i, b) && Commit(d, j, b) ensures i == j {
      AttemptSingle(c, k, v, elapsed, i, j, b);
    }
    forall b | 0 <= b < |d.db.leases| ensures Backed(d, b) {
      AttemptBacked(c, k, v, elapsed, b);
    }
  }

  lemma AttemptAttested(c: Coord, k: nat, v: Queue.Verdict, elapsed: Option<nat>, i: nat)
    requires Inv(c) && k < |c.checks| && Commits(c, k) && c.checks[k].owner.OfAttempt? && i < |c.checks|
    ensures i < |Report(c, k, v, elapsed).checks| && Attested(Report(c, k, v, elapsed), i)
  {
    var a := c.checks[k].owner.id;
    var d := Report(c, k, v, elapsed);
    CommittingRow(c, k, v, elapsed);
    QueueRecords.JudgeGrows(c.db, a, v);
    if i == k {
      JudgeElsewhere(c.db, a, v, a);
      assert QueueRecords.LeaseGrows(c.db.leases[a], d.db.leases[a]);
    } else {
      assert Attested(c, i);
      AttestedStays(c, d, i);
    }
  }

  lemma AttemptSingle(c: Coord, k: nat, v: Queue.Verdict, elapsed: Option<nat>, i: nat, j: nat, b: nat)
    requires Inv(c) && k < |c.checks| && Commits(c, k) && c.checks[k].owner.OfAttempt?
    requires Commit(Report(c, k, v, elapsed), i, b) && Commit(Report(c, k, v, elapsed), j, b)
    ensures i == j
  {
    CommittingRow(c, k, v, elapsed);
    assert Attested(c, i) && Attested(c, j);
    NoCommitYet(c, c.checks[k].owner.id, i);
    NoCommitYet(c, c.checks[k].owner.id, j);
    assert i != k && j != k ==> Commit(c, i, b) && Commit(c, j, b);
    assert i != k ==> Commit(c, i, b);
    assert j != k ==> Commit(c, j, b);
  }

  lemma AttemptBacked(c: Coord, k: nat, v: Queue.Verdict, elapsed: Option<nat>, b: nat)
    requires Inv(c) && k < |c.checks| && Commits(c, k) && c.checks[k].owner.OfAttempt?
    requires b < |Report(c, k, v, elapsed).db.leases|
    ensures Backed(Report(c, k, v, elapsed), b)
  {
    var a := c.checks[k].owner.id;
    var d := Report(c, k, v, elapsed);
    CommittingRow(c, k, v, elapsed);
    QueueRecords.JudgeGrows(c.db, a, v);
    JudgeElsewhere(c.db, a, v, b);
    if a == b {
      assert Commit(d, k, a);
    } else {
      assert Backed(c, b);
      forall i | Commit(c, i, b) ensures Commit(d, i, b) {
      }
      BackedStays(c, d, b);
    }
  }

  lemma ReportKeeps(c: Coord, k: nat, v: Queue.Verdict, elapsed: Option<nat>)
    requires Inv(c) && k < |c.checks|
    ensures Inv(Report(c, k, v, elapsed))
  {
    if !Commits(c, k) {
      RefusedReportKeeps(c, k, v, elapsed);
    } else if c.checks[k].owner.OfArtifact? {
      ArtifactReportKeeps(c, k, v, elapsed);
    } else {
      AttemptReportKeeps(c, k, v, elapsed);
    }
  }

  lemma FreezeTargetKeeps(c: Coord, z: Bundles.Sizes, j: nat, root: nat, request: seq<nat>)
    requires Inv(c)
    ensures Inv(FreezeTarget(c, z, j, root, request))
  {
    SameTables(c, FreezeTarget(c, z, j, root, request));
  }

  lemma StepKeeps(caps: Caps, z: Bundles.Sizes, c: Coord, e: Event)
    requires Inv(c)
    ensures Inv(Step(caps, z, c, e))
  {
    match e
    case EQueue(event) =>
      if !Barred(c, event) {
        QueueKeeps(c, event);
      }
    case ELedger(change) => LedgerKeeps(c, z, change);
    case EFreezeTarget(j, root, request) => FreezeTargetKeeps(c, z, j, root, request);
    case EBegin(owner, b, deadline, now, manifest) => BeginKeeps(caps, c, owner, b, deadline, now, manifest);
    case EReport(k, v, elapsed) =>
      if k < |c.checks| {
        ReportKeeps(c, k, v, elapsed);
      }
  }

  lemma {:induction false} AlwaysInv(caps: Caps, z: Bundles.Sizes, events: seq<Event>)
    ensures Inv(After(caps, z, events))
  {
    if events != [] {
      AlwaysInv(caps, z, events[..|events| - 1]);
      StepKeeps(caps, z, After(caps, z, events[..|events| - 1]), events[|events| - 1]);
    }
  }
}
