/**
 Verification of a graph group's proofs. A scheduler tick begins a check, runs Lean, looks
 at the verifier's identity again and reports; another tick may take an expired check over.
 A check reserves one Lean operation and its deadline, and completion slots are held back
 for the target proof. Owners belong to one group, so one group's rows are modelled.
 */
module Checks {
  import opened Basics
  import Queue
  import Selection
  import Bundles
  import Ledger
  type Bundle = Selection.Bundle

  datatype Owner = OfAttempt(id: nat) | OfArtifact(id: nat)

  datatype Status = Checking | Abandoned | Reported(verdict: Queue.Verdict)

  /** A row of composed_checks with its row of frontier_lean_reservations. */
  datatype Check = Check(owner: Owner, bundle: Bundle, deadline: nat,
                         status: Status, elapsed: Option<nat>, finished: bool, committed: bool)

  /** A row of verification_ownership. */
  datatype Hold = Hold(check: nat, expires: int)

  /** The group's limits; times are in milliseconds. */
  datatype Caps = Caps(operations: nat, millis: nat, reserve: bool, corrections: nat, checkMillis: nat, deadline: int)

  datatype Coord = Coord(db: Queue.Db, l: Ledger.Ledger, targets: map<nat, Bundle>,
                         checks: seq<Check>, owners: map<Owner, Hold>)

  const GRACE := 5000

  // ------------------------------------------------------------------- costs

  function Total(checks: seq<Check>, f: Check -> int): int {
    if checks == [] then 0 else Total(checks[..|checks| - 1], f) + f(checks[|checks| - 1])
  }

  /** An operation whose elapsed time is unknown is charged its whole deadline. */
  const CHARGE := (k: Check) => if k.elapsed.Some? then k.elapsed.value else k.deadline

  const TARGET := (k: Check) => if k.owner.OfAttempt? then 1 else 0

  /** By how much an operation exceeded the time it reserved. */
  const EXCESS := (k: Check) => if k.elapsed.Some? && k.elapsed.value > k.deadline then k.elapsed.value - k.deadline else 0

  function Slots(caps: Caps): nat {
    1 + caps.corrections
  }

  /** completion_tail: the target checks still held back. */
  function Tail(caps: Caps, checks: seq<Check>): nat {
    if caps.reserve then Max(0, Slots(caps) - Total(checks, TARGET)) else 0
  }

  datatype Reason =
    | VerifierBindingChanged | VerificationBudget | LeanTimeBudget
    | CompletionVerificationReserve | CompletionLeanTimeReserve | Deadline

  /** reserve_check, from lean_budget_reason on. */
  function Refusal(caps: Caps, checks: seq<Check>, owner: Owner, deadline: nat, now: int): Option<Reason> {
    var held := Max(0, Tail(caps, checks) - if owner.OfAttempt? then 1 else 0);
    if |checks| >= caps.operations then Some(VerificationBudget)
    else if Total(checks, CHARGE) >= caps.millis then Some(LeanTimeBudget)
    else if caps.reserve && |checks| + 1 + held > caps.operations then Some(CompletionVerificationReserve)
    else if caps.reserve && Total(checks, CHARGE) + deadline + held * caps.checkMillis > caps.millis then Some(CompletionLeanTimeReserve)
    else if now >= caps.deadline && !owner.OfAttempt? then Some(Deadline)
    else None
  }

  // --------------------------------------------------------------- beginning

  predicate Known(c: Coord, owner: Owner) {
    match owner
    case OfAttempt(a) => a < |c.db.leases| && c.db.leases[a].attempt.Some?
    case OfArtifact(a) => a < |c.l.w.artifacts|
  }

  /** The input has its verdict, or its job was cancelled. */
  predicate Settled(c: Coord, owner: Owner)
    requires Queue.Linked(c.db) && Known(c, owner)
  {
    match owner
    case OfAttempt(a) => c.db.leases[a].Verdict().Some? || c.db.jobs[c.db.leases[a].job].status.Cancelled?
    case OfArtifact(a) => !c.l.w.artifacts[a].standing.Pending?
  }

  datatype Outcome = Started(check: nat) | Busy | Refused(reason: Reason)

  /** Abandoning a check keeps its charge and its slot. */
  function Abandon(checks: seq<Check>, k: nat): seq<Check> {
    if k >= |checks| then checks
    else if checks[k].status.Checking?
    then checks[k := checks[k].(status := Abandoned, finished := true)]
    else checks[k := checks[k].(finished := true)]
  }

  function TakeOver(c: Coord, owner: Owner): Coord
    requires owner in c.owners
  {
    c.(checks := Abandon(c.checks, c.owners[owner].check), owners := c.owners - {owner})
  }

  /** The verifier that a bundle names. */
  function Binding(b: Bundle): Selection.Binding {
    Selection.Binding(Some(b.identity), b.revision)
  }

  /** A correction is checked only under the verifier its packet was frozen with. */
  predicate Moved(c: Coord, b: Bundle, manifest: Option<Bundle>) {
    manifest.Some? && (c.l.w.binding != Binding(manifest.value) || Binding(b) != Binding(manifest.value))
  }

  function Reserve(caps: Caps, c: Coord, owner: Owner, b: Bundle, deadline: nat, now: int, manifest: Option<Bundle>): (Coord, Outcome) {
    if Moved(c, b, manifest) then (c, Refused(VerifierBindingChanged))
    else
      match Refusal(caps, c.checks, owner, deadline, now)
      case Some(reason) => (c, Refused(reason))
      case None =>
        (c.(checks := c.checks + [Check(owner, b, deadline, Checking, None, false, false)],
            owners := c.owners[owner := Hold(|c.checks|, now + deadline + GRACE)]), Started(|c.checks|))
  }

  /** begin_composed_check: an expired owner is abandoned even if the new check is refused. */
  function Begin(caps: Caps, c: Coord, owner: Owner, b: Bundle, deadline: nat, now: int, manifest: Option<Bundle>): (Coord, Outcome)
    requires Queue.Linked(c.db)
  {
    if !Known(c, owner) || Settled(c, owner) then (c, Busy)
    else if owner in c.owners && c.owners[owner].expires > now then (c, Busy)
    else Reserve(caps, if owner in c.owners then TakeOver(c, owner) else c, owner, b, deadline, now, manifest)
  }

  // --------------------------------------------------------------- reporting

  predicate Owns(c: Coord, owner: Owner, k: nat) {
    owner in c.owners && c.owners[owner].check == k
  }

  /** check_inputs_match, for a target candidate: the job's frozen bundle with its proof. */
  predicate SameTarget(c: Coord, a: nat, b: Bundle)
    requires a < |c.db.leases| && c.db.leases[a].attempt.Some?
  {
    var j := c.db.leases[a].job;
    && j in c.targets
    && c.targets[j].(source := c.db.leases[a].attempt.value.candidate, identity := b.identity, revision := b.revision) == b
  }

  /** May check k's verdict be committed? */
  predicate Commits(c: Coord, k: nat)
    requires k < |c.checks|
  {
    var owner, b := c.checks[k].owner, c.checks[k].bundle;
    && Owns(c, owner, k) && c.l.w.binding == Binding(b)
    && match owner
       case OfAttempt(a) => Queue.Open(c.db, a) && SameTarget(c, a, b)
       case OfArtifact(a) => Ledger.Commit(c.l.w, a, Some(b), true, Binding(b), false) != c.l.w
  }

  /** record_check: the operation's cost, the check's status, and the end of its ownership. */
  function Close(c: Coord, k: nat, v: Queue.Verdict, elapsed: Option<nat>, committed: bool): Coord
    requires k < |c.checks|
  {
    var row := c.checks[k];
    var paid := if row.finished then row else row.(elapsed := elapsed, finished := true);
    var told := if row.status.Checking? then paid.(status := Reported(v), committed := committed) else paid;
    c.(checks := c.checks[k := told], owners := if Owns(c, row.owner, k) then c.owners - {row.owner} else c.owners)
  }

  /** No artifact is accepted on behalf of a verifier without an identity: the report is an error. */
  predicate Anonymous(c: Coord, k: nat, v: Queue.Verdict)
    requires k < |c.checks|
  {
    c.checks[k].owner.OfArtifact? && v.Verified? && c.checks[k].bundle.identity == ""
  }

  /** verified and checked_group_artifact, for a check begun with an identifier. */
  function Report(c: Coord, k: nat, v: Queue.Verdict, elapsed: Option<nat>): (d: Coord)
    requires Queue.Linked(c.db) && k < |c.checks|
    ensures Queue.Linked(d.db)
  {
    var d := Close(c, k, v, elapsed, Commits(c, k));
    if !Commits(c, k) then d
    else
      match c.checks[k].owner
      case OfAttempt(a) => d.(db := Queue.Judge(c.db, a, v))
      case OfArtifact(a) =>
        d.(l := c.l.(w := Ledger.Commit(c.l.w, a, Some(c.checks[k].bundle), true, Binding(c.checks[k].bundle), v.Verified?)))
  }

  // --------------------------------------------------------------- histories

  datatype Event =
    | EQueue(event: Queue.Event)
    | ELedger(change: Ledger.Event)
    | EFreezeTarget(job: nat, source: nat, request: seq<nat>)
    | EBegin(owner: Owner, bundle: Bundle, deadline: nat, now: int, manifest: Option<Bundle>)
    | EReport(check: nat, verdict: Queue.Verdict, elapsed: Option<nat>)

  /** select_target_proof_context and freeze_packet: a queued job's context, once. */
  function FreezeTarget(c: Coord, z: Bundles.Sizes, j: nat, root: nat, request: seq<nat>): Coord {
    if j >= |c.db.jobs| || !c.db.jobs[j].status.Queued? || !c.db.jobs[j].kind.Generate? || j in c.targets then c
    else
      match Bundles.Select(c.l.w, z, root, "", request)
      case Err(_) => c
      case Ok(b) => c.(targets := c.targets[j := b])
  }

  /** A group's target is never accepted without a check of its composed context, and one whose
      check is running is not stopped as unchecked. */
  predicate Barred(c: Coord, event: Queue.Event)
    requires Queue.Linked(c.db)
  {
    || (event.EJudge? && event.verdict.Verified? && event.lease < |c.db.leases|
        && c.db.jobs[c.db.leases[event.lease].job].link.Some?)
    || (event.EStopUnchecked? && OfAttempt(event.lease) in c.owners)
  }

  function Step(caps: Caps, z: Bundles.Sizes, c: Coord, e: Event): (d: Coord)
    requires Queue.Linked(c.db)
    ensures Queue.Linked(d.db)
  {
    match e
    case EQueue(event) => if Barred(c, event) then c else c.(db := Queue.Step(c.db, event))
    case ELedger(change) => if change.ECommit? then c else c.(l := Ledger.Step(c.l, z, change))
    case EFreezeTarget(j, root, request) => FreezeTarget(c, z, j, root, request)
    case EBegin(owner, b, deadline, now, manifest) => Begin(caps, c, owner, b, deadline, now, manifest).0
    case EReport(k, v, elapsed) => if k < |c.checks| && !Anonymous(c, k, v) then Report(c, k, v, elapsed) else c
  }

  const INITIAL := Coord(Queue.EMPTY, Ledger.FRESH, map[], [], map[])

  function After(caps: Caps, z: Bundles.Sizes, events: seq<Event>): (c: Coord)
    ensures Queue.Linked(c.db)
  {
    if events == [] then INITIAL else Step(caps, z, After(caps, z, events[..|events| - 1]), events[|events| - 1])
  }
}
