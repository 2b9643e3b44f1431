/**
 When a check is begun and when its report counts, on the rows of the tables, in every history.
 */
module ChecksRules {
  import opened Basics
  import opened Checks
  import opened ChecksHistory
  import opened ChecksFencing
  import Queue
  import Ledger
  import Selection
  import Bundles

  // ------------------------------------------------------------ rows, charges

  /** The checks of target proofs. */
  ghost function Targets(checks: seq<Check>): set<nat> {
    Where(checks, (row: Check) => row.owner.OfAttempt?)
  }

  lemma {:induction false} TargetsCount(checks: seq<Check>)
    ensures Total(checks, TARGET) == |Targets(checks)|
  {
    if checks != [] {
      TargetsCount(checks[..|checks| - 1]);
      WhereLast(checks, (row: Check) => row.owner.OfAttempt?);
    }
  }

  /** Slots held back for target checks that have not begun. */
  ghost function UnusedSlots(caps: Caps, checks: seq<Check>): nat {
    if caps.reserve && 1 + caps.corrections > |Targets(checks)| then 1 + caps.corrections - |Targets(checks)| else 0
  }

  /** Lean time: what a check is known to have taken, and its whole deadline until then. */
  function LeanTime(checks: seq<Check>): int {
    if checks == [] then 0
    else
      var last := checks[|checks| - 1];
      LeanTime(checks[..|checks| - 1]) + if last.elapsed.Some? then last.elapsed.value else last.deadline
  }

  lemma {:induction false} LeanTimeTotal(checks: seq<Check>)
    ensures Total(checks, CHARGE) == LeanTime(checks)
  {
    if checks != [] {
      LeanTimeTotal(checks[..|checks| - 1]);
    }
  }

  /** The slots that stay held back while this check runs: a target's check uses one of them. */
  ghost function StillHeld(caps: Caps, checks: seq<Check>, owner: Owner): nat {
    var slots := UnusedSlots(caps, checks);
    if owner.OfAttempt? && slots > 0 then slots - 1 else slots
  }

  // ---------------------------------------------------------------- refusals

  /** The operations allowed are used up, or a further one would take one that is held back. */
  ghost predicate NoOperation(caps: Caps, checks: seq<Check>, owner: Owner) {
    |checks| + 1 + StillHeld(caps, checks, owner) > caps.operations && caps.reserve
  }

  ghost predicate NoTime(caps: Caps, checks: seq<Check>, owner: Owner, deadline: nat) {
    LeanTime(checks) + deadline + StillHeld(caps, checks, owner) * caps.checkMillis > caps.millis && caps.reserve
  }

  /** Each reason for a refusal, and that the earlier ones did not apply. */
  lemma ReasonsRule(caps: Caps, checks: seq<Check>, owner: Owner, deadline: nat, now: int)
    ensures var r := Refusal(caps, checks, owner, deadline, now);
            var spent, late := LeanTime(checks) >= caps.millis, owner.OfArtifact? && now >= caps.deadline;
            && (r == Some(VerificationBudget) <==> |checks| >= caps.operations)
            && (r == Some(LeanTimeBudget) <==> |checks| < caps.operations && spent)
            && (r == Some(CompletionVerificationReserve) <==> |checks| < caps.operations && !spent && NoOperation(caps, checks, owner))
            && (r == Some(CompletionLeanTimeReserve) <==>
                  |checks| < caps.operations && !spent && !NoOperation(caps, checks, owner) && NoTime(caps, checks, owner, deadline))
            && (r == Some(Deadline) <==>
                  && |checks| < caps.operations && !spent && !NoOperation(caps, checks, owner)
                  && !NoTime(caps, checks, owner, deadline) && late)
            && (r.None? <==>
                  && |checks| < caps.operations && !spent && !NoOperation(caps, checks, owner)
                  && !NoTime(caps, checks, owner, deadline) && !late)
            && r != Some(VerifierBindingChanged)
  {
    LeanTimeTotal(checks);
    TargetsCount(checks);
  }

  /** Giving a check up changes no charge and no count. */
  lemma AbandonedRows(checks: seq<Check>, k: nat)
    ensures |Abandon(checks, k)| == |checks| && LeanTime(Abandon(checks, k)) == LeanTime(checks)
    ensures Targets(Abandon(checks, k)) == Targets(checks)
  {
    AbandonTotals(checks, k);
    LeanTimeTotal(checks);
    LeanTimeTotal(Abandon(checks, k));
  }

  /** The proof is known and undecided, and nobody may still be checking it. */
  ghost predicate Open(c: Coord, owner: Owner, now: int)
    requires Queue.Linked(c.db)
  {
    && (owner in c.owners ==> c.owners[owner].expires <= now)
    && match owner
       case OfAttempt(a) =>
         a < |c.db.leases| && c.db.leases[a].attempt.Some? && c.db.leases[a].attempt.value.verdict.None?
         && !c.db.jobs[c.db.leases[a].job].status.Cancelled?
       case OfArtifact(a) => a < |c.l.w.artifacts| && c.l.w.artifacts[a].standing.Pending?
  }

  /** A correction whose verifier is no longer the one its packet was frozen with. */
  ghost predicate Rebound(c: Coord, b: Bundle, manifest: Option<Bundle>) {
    && manifest.Some?
    && !(&& c.l.w.binding.identity == Some(manifest.value.identity) && c.l.w.binding.revision == manifest.value.revision
         && b.identity == manifest.value.identity && b.revision == manifest.value.revision)
  }

  lemma BeginOutcome(caps: Caps, c: Coord, owner: Owner, b: Bundle, deadline: nat, now: int, manifest: Option<Bundle>)
    requires Queue.Linked(c.db)
    ensures var outcome := Begin(caps, c, owner, b, deadline, now, manifest).1;
            && (outcome.Busy? <==> !Open(c, owner, now))
            && (Open(c, owner, now) ==>
                  if Rebound(c, b, manifest) then outcome == Refused(VerifierBindingChanged)
                  else match Refusal(caps, c.checks, owner, deadline, now)
                       case Some(reason) => outcome == Refused(reason)
                       case None => outcome == Started(|c.checks|))
  {
    if owner in c.owners {
      var k := c.owners[owner].check;
      AbandonTotals(c.checks, k);
      assert Refusal(caps, Abandon(c.checks, k), owner, deadline, now) == Refusal(caps, c.checks, owner, deadline, now);
    }
  }

  /** Exactly when a check is refused, and for which reason, in every history and for targets and
      artifacts alike; what is abandoned on the way changes none of this. */
  lemma RefusedIff(caps: Caps, z: Bundles.Sizes, events: seq<Event>, owner: Owner, b: Bundle, deadline: nat, now: int,
                   manifest: Option<Bundle>)
    requires Open(After(caps, z, events), owner, now)
    ensures var c := After(caps, z, events); var outcome := Begin(caps, c, owner, b, deadline, now, manifest).1;
            var full, spent := |c.checks| >= caps.operations, LeanTime(c.checks) >= caps.millis;
            var crowded, short := NoOperation(caps, c.checks, owner), NoTime(caps, c.checks, owner, deadline);
            var moved, late := Rebound(c, b, manifest), owner.OfArtifact? && now >= caps.deadline;
            && (outcome == Refused(VerifierBindingChanged) <==> moved)
            && (outcome == Refused(VerificationBudget) <==> !moved && full)
            && (outcome == Refused(LeanTimeBudget) <==> !moved && !full && spent)
            && (outcome == Refused(CompletionVerificationReserve) <==> !moved && !full && !spent && crowded)
            && (outcome == Refused(CompletionLeanTimeReserve) <==> !moved && !full && !spent && !crowded && short)
            && (outcome == Refused(Deadline) <==> !moved && !full && !spent && !crowded && !short && late)
            && (outcome == Started(|c.checks|) <==> !(moved || full || spent || crowded || short || late))
  {
    var c := After(caps, z, events);
    BeginOutcome(caps, c, owner, b, deadline, now, manifest);
    ReasonsRule(caps, c.checks, owner, deadline, now);
  }

  /** A pending artifact that nobody is checking: its check is refused if and only if the verifier moved,
      operations or Lean time are spent, what is left is held back for the target, or the group's
      deadline has passed. Only then is it not begun. */
  lemma ArtifactRefusedIff(caps: Caps, z: Bundles.Sizes, events: seq<Event>, a: nat, b: Bundle, deadline: nat, now: int,
                           manifest: Option<Bundle>)
    requires Open(After(caps, z, events), OfArtifact(a), now)
    ensures var c := After(caps, z, events); var outcome := Begin(caps, c, OfArtifact(a), b, deadline, now, manifest).1;
            var slots := UnusedSlots(caps, c.checks);
            && (outcome.Refused? <==>
                  || Rebound(c, b, manifest)
                  || |c.checks| >= caps.operations || LeanTime(c.checks) >= caps.millis
                  || (caps.reserve && |c.checks| + 1 + slots > caps.operations)
                  || (caps.reserve && LeanTime(c.checks) + deadline + slots * caps.checkMillis > caps.millis)
                  || now >= caps.deadline)
            && (outcome.Refused? || outcome == Started(|c.checks|))
  {
    RefusedIff(caps, z, events, OfArtifact(a), b, deadline, now, manifest);
  }

  /** d is c with a new running check of exactly this proof, bundle and deadline, which owns the proof until
      five seconds after its deadline; the check before it, if any, is over. */
  ghost predicate Begun(c: Coord, d: Coord, owner: Owner, b: Bundle, deadline: nat, now: int) {
    var n := |c.checks|;
    && d == c.(checks := d.checks, owners := c.owners[owner := Hold(n, now + deadline + 5000)])
    && |d.checks| == n + 1 && d.checks[n] == Check(owner, b, deadline, Checking, None, false, false)
    && (forall k | 0 <= k < n ::
          d.checks[k] == if owner in c.owners && c.owners[owner].check == k
                         then c.checks[k].(status := Abandoned, finished := true) else c.checks[k])
  }

  /** In every history a check that is begun changes nothing else. */
  lemma StartedRule(caps: Caps, z: Bundles.Sizes, events: seq<Event>, owner: Owner, b: Bundle, deadline: nat, now: int,
                    manifest: Option<Bundle>)
    requires Begin(caps, After(caps, z, events), owner, b, deadline, now, manifest).1.Started?
    ensures var c := After(caps, z, events); Begun(c, Begin(caps, c, owner, b, deadline, now, manifest).0, owner, b, deadline, now)
  {
    AlwaysInv(caps, z, events);
    StartedRows(caps, After(caps, z, events), owner, b, deadline, now, manifest);
  }

  lemma StartedRows(caps: Caps, c: Coord, owner: Owner, b: Bundle, deadline: nat, now: int, manifest: Option<Bundle>)
    requires Inv(c) && Begin(caps, c, owner, b, deadline, now, manifest).1.Started?
    ensures Begun(c, Begin(caps, c, owner, b, deadline, now, manifest).0, owner, b, deadline, now)
  {
    if owner in c.owners {
      assert HoldOk(c, owner);
      TakenAgain(c.owners, owner, Hold(|c.checks|, now + deadline + GRACE));
    }
  }

  lemma TakenAgain(owners: map<Owner, Hold>, owner: Owner, hold: Hold)
    ensures (owners - {owner})[owner := hold] == owners[owner := hold]
  {
  }

  /** The job tables change as in their own histories, with two exceptions: a group's target is not
      accepted without a check, and one that is being checked is not stopped as unchecked. Artifacts
      are decided only by reports. */
  lemma OtherEventsRule(caps: Caps, z: Bundles.Sizes, c: Coord, e: Queue.Event, change: Ledger.Event)
    requires Queue.Linked(c.db)
    ensures var unchecked := e.EJudge? && e.verdict.Verified? && e.lease < |c.db.leases| && c.db.jobs[c.db.leases[e.lease].job].link.Some?;
            var owned := e.EStopUnchecked? && OfAttempt(e.lease) in c.owners;
            Step(caps, z, c, EQueue(e)) == if unchecked || owned then c else c.(db := Queue.Step(c.db, e))
    ensures Step(caps, z, c, ELedger(change)) == if change.ECommit? then c else c.(l := Ledger.Step(c.l, z, change))
  {
  }

  /** A target job's context is frozen once, while it is queued, from a selection that succeeds. */
  lemma FreezeTargetRule(c: Coord, z: Bundles.Sizes, j: nat, root: nat, request: seq<nat>)
    ensures var free := j < |c.db.jobs| && c.db.jobs[j].status.Queued? && c.db.jobs[j].kind.Generate? && j !in c.targets;
            var picked := Bundles.Select(c.l.w, z, root, "", request);
            FreezeTarget(c, z, j, root, request) == if free && picked.Ok? then c.(targets := c.targets[j := picked.value]) else c
  {
  }

  // ----------------------------------------------------------------- reports

  /** The checked bundle is the frozen one with this proof in it; only the verifier it names may differ. */
  ghost predicate SameProblem(frozen: Bundle, b: Bundle, source: string) {
    && frozen.claim == b.claim && frozen.statement == b.statement && frozen.setting == b.setting && b.source == source
    && frozen.declarations == b.declarations && frozen.selected == b.selected && frozen.limit == b.limit
  }

  /** A report counts for its proof: the check owns it, the verifier is the one it began with, the inputs
      are the frozen ones, and the proof is undecided. */
  ghost predicate Counts(c: Coord, k: nat)
    requires Queue.Linked(c.db) && k < |c.checks|
  {
    var owner, b := c.checks[k].owner, c.checks[k].bundle;
    && owner in c.owners && c.owners[owner].check == k
    && c.l.w.binding.identity == Some(b.identity) && c.l.w.binding.revision == b.revision
    && match owner
       case OfAttempt(a) =>
         && a < |c.db.leases| && c.db.leases[a].attempt.Some? && c.db.leases[a].attempt.value.verdict.None?
         && c.db.leases[a].job in c.targets
         && SameProblem(c.targets[c.db.leases[a].job], b, c.db.leases[a].attempt.value.candidate)
       case OfArtifact(a) =>
         && a < |c.l.w.artifacts| && c.l.w.artifacts[a].standing.Pending? && a in c.l.w.contexts
         && b.statement == c.l.w.artifacts[a].statement && b.setting == c.l.w.artifacts[a].setting
         && c.l.w.contexts[a].source == c.l.w.artifacts[a].source
         && SameProblem(c.l.w.contexts[a], b, c.l.w.artifacts[a].source)
  }

  lemma CountsIff(c: Coord, k: nat)
    requires Queue.Linked(c.db) && k < |c.checks|
    ensures Commits(c, k) <==> Counts(c, k)
  {
    var owner, b := c.checks[k].owner, c.checks[k].bundle;
    match owner
    case OfAttempt(a) =>
      if a < |c.db.leases| && c.db.leases[a].attempt.Some? && c.db.leases[a].job in c.targets {
        Reworded(c.targets[c.db.leases[a].job], b, c.db.leases[a].attempt.value.candidate);
      }
    case OfArtifact(a) =>
      if a < |c.l.w.artifacts| && a in c.l.w.contexts {
        Reworded(c.l.w.contexts[a], b, c.l.w.artifacts[a].source);
        CommitChanges(c.l.w, a, b);
      }
  }

  lemma Reworded(frozen: Bundle, b: Bundle, source: string)
    ensures frozen.(source := source, identity := b.identity, revision := b.revision) == b <==> SameProblem(frozen, b, source)
    ensures frozen.(identity := b.identity, revision := b.revision) == b && b.source == source
       <==> SameProblem(frozen, b, source) && frozen.source == source
  {
  }

  lemma CommitChanges(w: Selection.World, a: nat, b: Bundle)
    requires a < |w.artifacts|
    ensures Ledger.Commit(w, a, Some(b), true, Binding(b), false) != w
       <==> w.binding == Binding(b) && w.artifacts[a].standing.Pending? && Ledger.SameInputs(w, a, b)
  {
    var d := Ledger.Commit(w, a, Some(b), true, Binding(b), false);
    if w.binding == Binding(b) && w.artifacts[a].standing.Pending? && Ledger.SameInputs(w, a, b) {
      assert d.artifacts[a].standing.Refused?;
    }
  }

  /** d is c after the report. Without ownership nothing changes. With it, the check is over at the
      reported cost and the proof is free; and exactly if the report counts, it decides the proof. */
  ghost predicate ReportWritten(c: Coord, d: Coord, k: nat, v: Queue.Verdict, elapsed: Option<nat>)
    requires Queue.Linked(c.db) && k < |c.checks|
  {
    var row := c.checks[k];
    if !(row.owner in c.owners && c.owners[row.owner].check == k) then d == c
    else
      && d.checks == c.checks[k := row.(status := Reported(v), elapsed := elapsed, finished := true, committed := Counts(c, k))]
      && d.owners == c.owners - {row.owner} && d.targets == c.targets
      && (!Counts(c, k) ==> d.db == c.db && d.l == c.l)
      && (Counts(c, k) && row.owner.OfAttempt? ==> d.db == Queue.Judge(c.db, row.owner.id, v) && d.l == c.l)
      && (Counts(c, k) && row.owner.OfArtifact? ==>
            var a := row.owner.id;
            var standing := if v.Verified? then Selection.Verified(row.bundle.identity) else Selection.Refused;
            d.db == c.db && d.l == c.l.(w := c.l.w.(artifacts := c.l.w.artifacts[a := c.l.w.artifacts[a].(standing := standing)])))
  }

  lemma ReportRule(caps: Caps, z: Bundles.Sizes, events: seq<Event>, k: nat, v: Queue.Verdict, elapsed: Option<nat>)
    requires k < |After(caps, z, events).checks|
    requires var row := After(caps, z, events).checks[k]; !(row.owner.OfArtifact? && v.Verified? && row.bundle.identity == "")
    ensures var c := After(caps, z, events); ReportWritten(c, Report(c, k, v, elapsed), k, v, elapsed)
  {
    var c := After(caps, z, events);
    AlwaysInv(caps, z, events);
    CountsIff(c, k);
    ReportRows(c, k, v, elapsed);
  }

  /** Accepting an artifact for a verifier without an identity is an error that changes nothing; every
      other report takes effect. */
  lemma ReportTakesEffect(caps: Caps, z: Bundles.Sizes, c: Coord, k: nat, v: Queue.Verdict, elapsed: Option<nat>)
    requires Queue.Linked(c.db) && k < |c.checks|
    ensures Step(caps, z, c, EReport(k, v, elapsed))
         == if c.checks[k].owner.OfArtifact? && v.Verified? && c.checks[k].bundle.identity == "" then c else Report(c, k, v, elapsed)
  {
  }

  lemma ReportRows(c: Coord, k: nat, v: Queue.Verdict, elapsed: Option<nat>)
    requires Inv(c) && k < |c.checks| && (Commits(c, k) <==> Counts(c, k))
    requires !(c.checks[k].owner.OfArtifact? && v.Verified? && c.checks[k].bundle.identity == "")
    ensures ReportWritten(c, Report(c, k, v, elapsed), k, v, elapsed)
  {
    var row := c.checks[k];
    assert RowOk(c, k);
    if row.owner in c.owners && c.owners[row.owner].check == k {
      assert HoldOk(c, row.owner);
    } else {
      LostCheckIsInert(c, k, v, elapsed);
    }
  }
}
