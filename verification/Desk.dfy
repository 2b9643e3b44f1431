/**
 The verification tables as begin_composed_check and record_check write them, row by row,
 beside the job tables and the artifact tables that a report is committed to. Each method
 makes exactly the change that module Checks describes.
 */
module Desk {
  import opened Basics
  import opened Checks
  import Queue
  import Ledger
  import Store
  import Archive

  /** What a report comes to: it is recorded alone, or with its verdict, or with the artifact's row. */
  lemma ReportAlone(c: Coord, k: nat, v: Queue.Verdict, elapsed: Option<nat>)
    requires Queue.Linked(c.db) && k < |c.checks| && !Commits(c, k)
    ensures Report(c, k, v, elapsed) == Close(c, k, v, elapsed, false)
  {
  }

  /** May the verdict of an attempt's check take effect, if the attempt has none? */
  predicate Current(c: Coord, k: nat, a: nat)
    requires k < |c.checks|
  {
    && Owns(c, OfAttempt(a), k) && c.l.w.binding == Binding(c.checks[k].bundle)
    && a < |c.db.leases| && c.db.leases[a].attempt.Some? && SameTarget(c, a, c.checks[k].bundle)
  }

  lemma CurrentCommits(c: Coord, k: nat, a: nat)
    requires k < |c.checks| && c.checks[k].owner == OfAttempt(a)
    ensures Commits(c, k) <==> Current(c, k, a) && c.db.leases[a].Verdict().None?
  {
  }

  lemma ReportJudged(c: Coord, k: nat, a: nat, v: Queue.Verdict, elapsed: Option<nat>)
    requires Queue.Linked(c.db) && k < |c.checks| && c.checks[k].owner == OfAttempt(a) && Commits(c, k)
    ensures Report(c, k, v, elapsed) == Close(c, k, v, elapsed, true).(db := Queue.Judge(c.db, a, v))
  {
  }

  lemma ReportChecked(c: Coord, k: nat, a: nat, v: Queue.Verdict, elapsed: Option<nat>)
    requires Queue.Linked(c.db) && k < |c.checks| && c.checks[k].owner == OfArtifact(a) && !Anonymous(c, k, v)
    ensures var b := c.checks[k].bundle;
            var w := Ledger.Commit(c.l.w, a, Some(b), Owns(c, OfArtifact(a), k), Binding(b), v.Verified?);
            Report(c, k, v, elapsed) == Close(c.(l := c.l.(w := w)), k, v, elapsed, w != c.l.w)
  {
  }

  class Desk {
    const store: Store.Store
    const archive: Archive.Archive
    var targets: map<nat, Bundle>
    var checks: seq<Check>
    var owners: map<Owner, Hold>

    function View(): Coord
      reads this, store, archive
    {
      Coord(store.View(), archive.View(), targets, checks, owners)
    }

    ghost predicate Valid()
      reads store
    {
      store.Valid()
    }

    constructor ()
      ensures View() == INITIAL && Valid() && fresh(store) && fresh(archive)
    {
      store := new Store.Store();
      archive := new Archive.Archive();
      targets, checks, owners := map[], [], map[];
    }

    method AbandonOwner(owner: Owner)
      requires owner in owners
      modifies this`checks, this`owners
      ensures View() == TakeOver(old(View()), owner)
    {
      var k := owners[owner].check;
      if k < |checks| {
        if checks[k].status.Checking? {
          checks := checks[k := checks[k].(status := Abandoned)];
        }
        checks := checks[k := checks[k].(finished := true)];
      }
      owners := owners - {owner};
    }

    /** reserve_check: the reason for a refusal, if any. */
    method RefusalOf(caps: Caps, owner: Owner, b: Bundle, deadline: nat, now: int, manifest: Option<Bundle>)
      returns (reason: Option<Reason>)
      ensures reason == if Moved(View(), b, manifest) then Some(VerifierBindingChanged)
                        else Refusal(caps, checks, owner, deadline, now)
    {
      if Moved(View(), b, manifest) {
        return Some(VerifierBindingChanged);
      }
      var operations, charged := |checks|, Total(checks, CHARGE);
      if operations >= caps.operations {
        return Some(VerificationBudget);
      }
      if charged >= caps.millis {
        return Some(LeanTimeBudget);
      }
      if caps.reserve {
        var held := Tail(caps, checks);
        if owner.OfAttempt? && held > 0 {
          held := held - 1;
        }
        if operations + 1 + held > caps.operations {
          return Some(CompletionVerificationReserve);
        }
        if charged + deadline + held * caps.checkMillis > caps.millis {
          return Some(CompletionLeanTimeReserve);
        }
      }
      if now >= caps.deadline && !owner.OfAttempt? {
        return Some(Deadline);
      }
      reason := None;
    }

    /** begin_composed_check */
    method BeginCheck(caps: Caps, owner: Owner, b: Bundle, deadline: nat, now: int, manifest: Option<Bundle>)
      returns (outcome: Outcome)
      requires Valid()
      modifies this`checks, this`owners
      ensures (View(), outcome) == Begin(caps, old(View()), owner, b, deadline, now, manifest)
    {
      if !Known(View(), owner) || Settled(View(), owner) {
        return Busy;
      }
      if owner in owners {
        if owners[owner].expires > now {
          return Busy;
        }
        AbandonOwner(owner);
      }
      var reason := RefusalOf(caps, owner, b, deadline, now, manifest);
      if reason.Some? {
        return Refused(reason.value);
      }
      var k := |checks|;
      checks := checks + [Check(owner, b, deadline, Checking, None, false, false)];
      owners := owners[owner := Hold(k, now + deadline + GRACE)];
      outcome := Started(k);
    }

    /** record_check, with finish_check */
    method RecordCheck(k: nat, v: Queue.Verdict, elapsed: Option<nat>, committed: bool)
      requires k < |checks|
      modifies this`checks, this`owners
      ensures View() == Close(old(View()), k, v, elapsed, committed)
    {
      if !checks[k].finished {
        checks := checks[k := checks[k].(elapsed := elapsed, finished := true)];
      }
      if checks[k].status.Checking? {
        checks := checks[k := checks[k].(status := Reported(v), committed := committed)];
      }
      if checks[k].owner in owners && owners[checks[k].owner].check == k {
        owners := owners - {checks[k].owner};
      }
    }

    /** owns_check, binding_matches and check_inputs_match */
    method IsCurrent(k: nat, a: nat) returns (current: bool)
      requires Valid() && k < |checks|
      ensures current == Current(View(), k, a)
    {
      var owner, b := OfAttempt(a), checks[k].bundle;
      if owner !in owners || owners[owner].check != k || archive.binding != Binding(b) {
        return false;
      }
      if a >= |store.leases| || store.leases[a].attempt.None? {
        return false;
      }
      current := SameTarget(View(), a, b);
    }

    /** verified: the verdict's row is inserted under the owning check and unchanged inputs, at most once;
        then the check is recorded, and the verdict takes effect in the job tables. */
    method ReportAttempt(k: nat, a: nat, v: Queue.Verdict, elapsed: Option<nat>)
      requires Valid() && k < |checks| && checks[k].owner == OfAttempt(a)
      modifies this`checks, this`owners, store
      ensures Valid() && View() == Report(old(View()), k, v, elapsed)
    {
      CurrentCommits(View(), k, a);
      var current := IsCurrent(k, a);
      ghost var before := View();
      if !current {
        ReportAlone(before, k, v, elapsed);
        RecordCheck(k, v, elapsed, false);
        return;
      }
      if store.leases[a].attempt.value.verdict.None? {
        ReportJudged(before, k, a, v, elapsed);
        CommitAttempt(k, a, v, elapsed);
      } else {
        ReportAlone(before, k, v, elapsed);
        RecordCheck(k, v, elapsed, false);
      }
    }

    /** The verdict's row is new: the check is recorded as committed, and the verdict takes effect. */
    method CommitAttempt(k: nat, a: nat, v: Queue.Verdict, elapsed: Option<nat>)
      requires Valid() && k < |checks|
      modifies this`checks, this`owners, store
      ensures Valid()
      ensures View() == Close(old(View()), k, v, elapsed, true).(db := Queue.Judge(old(store.View()), a, v))
    {
      RecordCheck(k, v, elapsed, true);
      store.RecordVerdict(a, v);
    }

    /** checked_group_artifact: acceptance is refused to a verifier without an identity; otherwise the
        artifact's row is updated if the check still counts, and the check is recorded. */
    method ReportArtifact(k: nat, a: nat, v: Queue.Verdict, elapsed: Option<nat>)
      requires Valid() && k < |checks| && checks[k].owner == OfArtifact(a)
      modifies this`checks, this`owners, archive
      ensures Valid()
      ensures View() == if Anonymous(old(View()), k, v) then old(View()) else Report(old(View()), k, v, elapsed)
    {
      var owner, b := checks[k].owner, checks[k].bundle;
      if v.Verified? && b.identity == "" {
        return;
      }
      var owned := owner in owners && owners[owner].check == k;
      ReportChecked(View(), k, a, v, elapsed);
      var accepted := archive.Checked(a, Some(b), owned, Binding(b), v.Verified?);
      RecordCheck(k, v, elapsed, accepted);
    }

    method ReportCheck(k: nat, v: Queue.Verdict, elapsed: Option<nat>)
      requires Valid() && k < |checks|
      modifies this`checks, this`owners, store, archive
      ensures Valid()
      ensures View() == if Anonymous(old(View()), k, v) then old(View()) else Report(old(View()), k, v, elapsed)
    {
      match checks[k].owner
      case OfAttempt(a) => ReportAttempt(k, a, v, elapsed);
      case OfArtifact(a) => ReportArtifact(k, a, v, elapsed);
    }
  }
}
