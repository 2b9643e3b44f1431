/**
 The life of a group's formal artifacts: claims and their exact-context links, frozen
 bundles, verdicts, and the verifier they were obtained with. World holds the tables and
 when records the insertion order of the frozen bundles.
 */
module Ledger {
  import opened Basics
  import opened Selection
  import opened Bundles

  const MAX_ARTIFACTS := 64
  const MAX_CLAIMS := 64

  datatype Ledger = Ledger(w: World, when: map<nat, nat>)

  const FRESH := Ledger(World([], [], map[], map[], Binding(None, 0), None), map[])

  // ------------------------------------------------------------ publication

  function PlaceOf(claims: seq<Claim>, claim: Claim): (c: nat)
    ensures c <= |claims| && (c < |claims| <==> claim in claims)
    ensures c < |claims| ==> claims[c] == claim
  {
    if claims == [] then 0 else if claims[0] == claim then 0 else 1 + PlaceOf(claims[1..], claim)
  }

  /** insert_claim: equal statements in equal settings are one claim. */
  function Publish(w: World, claim: Claim): Option<World> {
    if claim in w.claims then Some(w)
    else if |w.claims| >= MAX_CLAIMS then None
    else Some(w.(claims := w.claims + [claim]))
  }

  /** attach_evidence: an artifact proves one claim, in exactly its own context. */
  function Attach(w: World, c: nat, a: nat): Option<World> {
    if c >= |w.claims| || a >= |w.artifacts| then None
    else if Claim(w.artifacts[a].statement, w.artifacts[a].setting) != w.claims[c] then None
    else if a in w.claimOf then (if w.claimOf[a] == c then Some(w) else None)
    else Some(w.(claimOf := w.claimOf[a := c]))
  }

  /** insert_artifact in a group with a claim graph. */
  function Insert(w: World, statement: string, source: string, setting: Setting): Option<World> {
    if |w.artifacts| >= MAX_ARTIFACTS then None
    else
      var claim := Claim(statement, setting);
      match Publish(w.(artifacts := w.artifacts + [Artifact(statement, source, setting, Pending)]), claim)
      case None => None
      case Some(d) => Attach(d, PlaceOf(d.claims, claim), |w.artifacts|)
  }

  // ---------------------------------------------------------------- freezing

  /** selected_bundle and freeze_context for artifact a, unless it already has a context. */
  function Freeze(l: Ledger, z: Sizes, a: nat, request: seq<nat>): Ledger {
    if a >= |l.w.artifacts| || a !in l.w.claimOf || a in l.w.contexts then l
    else
      match Select(l.w, z, l.w.claimOf[a], l.w.artifacts[a].source, request)
      case Err(_) => l
      case Ok(b) => Ledger(l.w.(contexts := l.w.contexts[a := b]), l.when[a := |l.w.contexts|])
  }

  /** propose_group_artifact with prerequisites: inserting and freezing succeed together. */
  function Propose(l: Ledger, z: Sizes, statement: string, source: string, setting: Setting, request: seq<nat>): Ledger {
    match Insert(l.w, statement, source, setting)
    case None => l
    case Some(w) =>
      var d := Freeze(Ledger(w, l.when), z, |l.w.artifacts|, request);
      if |l.w.artifacts| in d.w.contexts then d else l
  }

  datatype Refusal = NoArtifact | EditedFrozenProof | Historical | NotSelected(problem: Problem)

  /** ensure_artifact_context: the bundle to check artifact a with. */
  function Ensure(l: Ledger, z: Sizes, a: nat, token: Binding): (r: (Ledger, Result<Bundle, Refusal>))
    requires token.identity.Some?
  {
    if a >= |l.w.artifacts| then (l, Err(NoArtifact))
    else if a in l.w.contexts then
      (l, if SameSource(l.w.contexts[a], l.w.artifacts[a]) then Ok(Under(l.w.contexts[a], token)) else Err(EditedFrozenProof))
    else if a !in l.w.claimOf then (l, Err(Historical))
    else
      match Select(l.w, z, l.w.claimOf[a], l.w.artifacts[a].source, [])
      case Err(problem) => (l, Err(NotSelected(problem)))
      case Ok(b) => (Freeze(l, z, a, []), Ok(Under(b, token)))
  }

  function Under(b: Bundle, token: Binding): Bundle
    requires token.identity.Some?
  {
    b.(identity := token.identity.value, revision := token.revision)
  }

  // -------------------------------------------------- verdicts and rebinding

  /** bind_group_artifact_verifier: a new identity voids every verdict of another one. */
  function Bind(w: World, identity: Option<string>): World {
    if w.binding.identity == identity then w
    else
      w.(binding := Binding(identity, w.binding.revision + 1),
         artifacts := Void(w.artifacts, identity))
  }

  function Void(artifacts: seq<Artifact>, identity: Option<string>): (result: seq<Artifact>)
    ensures |result| == |artifacts|
    ensures forall a | 0 <= a < |artifacts| ::
              result[a] == (if artifacts[a].standing.Verified? && (identity.None? || artifacts[a].standing.identity != identity.value)
                            then artifacts[a].(standing := Pending) else artifacts[a])
  {
    seq(|artifacts|, a requires 0 <= a < |artifacts| =>
      if artifacts[a].standing.Verified? && (identity.None? || artifacts[a].standing.identity != identity.value)
      then artifacts[a].(standing := Pending) else artifacts[a])
  }

  /** check_inputs_match: the checked bundle is the frozen one, but for the verifier it names. */
  predicate SameInputs(w: World, a: nat, b: Bundle)
    requires a < |w.artifacts|
  {
    && a in w.contexts
    && SameSource(b, w.artifacts[a])
    && w.contexts[a].(identity := b.identity, revision := b.revision) == b
  }

  /** A check's report counts under its owning check, its own verifier and the frozen inputs. */
  predicate Authentic(w: World, a: nat, b: Bundle, owned: bool)
    requires a < |w.artifacts|
  {
    owned && w.binding == Binding(Some(b.identity), b.revision) && SameInputs(w, a, b)
  }

  /** checked_group_artifact: the report of a composed check, or, without a bundle, the rejection of an
      artifact that cannot be checked. Only acceptance needs a verifier with an identity. */
  function Commit(w: World, a: nat, bundle: Option<Bundle>, owned: bool, token: Binding, passed: bool): World {
    if a >= |w.artifacts| || (passed && (token.identity.None? || token.identity.value == "")) then w
    else if bundle.Some? && !Authentic(w, a, bundle.value, owned) then w
    else if !w.artifacts[a].standing.Pending? || w.binding != token then w
    else
      var standing := if passed then Verified(token.identity.value) else Refused;
      w.(artifacts := w.artifacts[a := w.artifacts[a].(standing := standing)])
  }

  /** A pending artifact is released when no Lean capacity is left for it. */
  function Release(w: World, a: nat): World {
    if a < |w.artifacts| && w.artifacts[a].standing.Pending?
    then w.(artifacts := w.artifacts[a := w.artifacts[a].(standing := Refused)])
    else w
  }

  // --------------------------------------------------------------- histories

  datatype Event =
    | EPublish(claim: Claim)
    | EInsert(statement: string, source: string, setting: Setting)
    | EAttach(claimId: nat, artifact: nat)
    | EPropose(statement: string, source: string, setting: Setting, request: seq<nat>)
    | EFreeze(artifact: nat, request: seq<nat>)
    | EEnsure(artifact: nat, token: Binding)
    | EBind(identity: Option<string>)
    | ECommit(artifact: nat, bundle: Bundle, owned: bool, token: Binding, passed: bool)
    | EReject(artifact: nat, token: Binding)
    | ERelease(artifact: nat)
    | EStart(limits: Limits)

  function Or(w: World, o: Option<World>): World {
    if o.Some? then o.value else w
  }

  function Step(l: Ledger, z: Sizes, e: Event): Ledger {
    match e
    case EPublish(claim) => l.(w := Or(l.w, Publish(l.w, claim)))
    case EInsert(statement, source, setting) => l.(w := Or(l.w, Insert(l.w, statement, source, setting)))
    case EAttach(c, a) => l.(w := Or(l.w, Attach(l.w, c, a)))
    case EPropose(statement, source, setting, request) => Propose(l, z, statement, source, setting, request)
    case EFreeze(a, request) => Freeze(l, z, a, request)
    case EEnsure(a, token) => if token.identity.Some? then Ensure(l, z, a, token).0 else l
    case EBind(identity) => l.(w := Bind(l.w, identity))
    case ECommit(a, b, owned, token, passed) => l.(w := Commit(l.w, a, Some(b), owned, token, passed))
    case EReject(a, token) => l.(w := Commit(l.w, a, None, true, token, false))
    case ERelease(a) => l.(w := Release(l.w, a))
    case EStart(limits) => if l.w.limits.None? then l.(w := l.w.(limits := Some(limits))) else l
  }

  // What each event does, one at a time.

  lemma PublishStep(l: Ledger, z: Sizes, claim: Claim)
    ensures Step(l, z, EPublish(claim)) == l.(w := Or(l.w, Publish(l.w, claim)))
  {
  }

  lemma InsertStep(l: Ledger, z: Sizes, statement: string, source: string, setting: Setting)
    ensures Step(l, z, EInsert(statement, source, setting)) == l.(w := Or(l.w, Insert(l.w, statement, source, setting)))
  {
  }

  lemma AttachStep(l: Ledger, z: Sizes, c: nat, a: nat)
    ensures Step(l, z, EAttach(c, a)) == l.(w := Or(l.w, Attach(l.w, c, a)))
  {
  }

  lemma ProposeStep(l: Ledger, z: Sizes, statement: string, source: string, setting: Setting, request: seq<nat>)
    ensures Step(l, z, EPropose(statement, source, setting, request)) == Propose(l, z, statement, source, setting, request)
  {
  }

  lemma FreezeStep(l: Ledger, z: Sizes, a: nat, request: seq<nat>)
    ensures Step(l, z, EFreeze(a, request)) == Freeze(l, z, a, request)
  {
  }

  lemma BindStep(l: Ledger, z: Sizes, identity: Option<string>)
    ensures Step(l, z, EBind(identity)) == l.(w := Bind(l.w, identity))
  {
  }

  lemma CommitStep(l: Ledger, z: Sizes, a: nat, b: Bundle, owned: bool, token: Binding, passed: bool)
    ensures Step(l, z, ECommit(a, b, owned, token, passed)) == l.(w := Commit(l.w, a, Some(b), owned, token, passed))
  {
  }

  lemma RejectStep(l: Ledger, z: Sizes, a: nat, token: Binding)
    ensures Step(l, z, EReject(a, token)) == l.(w := Commit(l.w, a, None, true, token, false))
  {
  }

  lemma ReleaseStep(l: Ledger, z: Sizes, a: nat)
    ensures Step(l, z, ERelease(a)) == l.(w := Release(l.w, a))
  {
  }

  function After(z: Sizes, events: seq<Event>): Ledger {
    if events == [] then FRESH else Step(After(z, events[..|events| - 1]), z, events[|events| - 1])
  }

  // --------------------------------------------------------------- invariant

  /** Artifact a is linked to the one claim that states exactly what it proves. */
  ghost predicate Owned(w: World, a: nat)
    requires a < |w.artifacts|
  {
    && a in w.claimOf && w.claimOf[a] < |w.claims|
    && w.claims[w.claimOf[a]] == Claim(w.artifacts[a].statement, w.artifacts[a].setting)
  }

  /** A verdict that counts names the verifier in force, and the proof's inputs are frozen. */
  ghost predicate Current(w: World, a: nat)
    requires a < |w.artifacts|
  {
    w.artifacts[a].standing.Verified? ==>
      && w.binding.identity == Some(w.artifacts[a].standing.identity) && w.artifacts[a].standing.identity != ""
      && a in w.contexts
  }

  /** Item i of a's frozen bundle is what selection would write today, and was frozen before a
      was, as were the items in its own bundle, which stand before it here too. */
  ghost predicate Recalled(l: Ledger, a: nat, i: nat)
    requires a in l.w.contexts && i < |l.w.contexts[a].declarations|
  {
    var items := l.w.contexts[a].declarations;
    var p := items[i].proof;
    && p < |l.w.artifacts| && l.w.artifacts[p].setting == l.w.contexts[a].setting
    && p in l.w.claimOf && items[i] == Entry(l.w, p)
    && p in l.when && a in l.when && l.when[p] < l.when[a]
    && (forall q | q in Prior(l.w, p) :: q in items[..i])
  }

  ghost predicate FrozenOk(l: Ledger, a: nat)
    requires a in l.w.contexts
  {
    && a < |l.w.artifacts| && SameSource(l.w.contexts[a], l.w.artifacts[a])
    && a in l.when && l.when[a] < |l.w.contexts|
    && |l.w.contexts[a].declarations| <= MAX_DECLARATIONS
    && Distinct(ItemIds(l.w.contexts[a].declarations))
    && (forall i {:trigger Recalled(l, a, i)} | 0 <= i < |l.w.contexts[a].declarations| :: Recalled(l, a, i))
    && (forall id | id in l.w.contexts[a].selected :: Has(l.w.contexts[a].declarations, id))
  }

  ghost predicate Inv(l: Ledger) {
    && (forall a {:trigger Owned(l.w, a)} | 0 <= a < |l.w.artifacts| :: Owned(l.w, a))
    && (forall a {:trigger Current(l.w, a)} | 0 <= a < |l.w.artifacts| :: Current(l.w, a))
    && l.when.Keys == l.w.contexts.Keys
    && (forall a {:trigger FrozenOk(l, a)} | a in l.w.contexts :: FrozenOk(l, a))
    && (forall a | a in l.w.claimOf :: a < |l.w.artifacts|)
  }

  /** What never changes: rows are only added, and frozen bundles are immutable. */
  ghost predicate Keeps(w: World, d: World) {
    && |w.artifacts| <= |d.artifacts|
    && (forall a {:trigger d.artifacts[a]} | 0 <= a < |w.artifacts| :: d.artifacts[a] == w.artifacts[a].(standing := d.artifacts[a].standing))
    && (forall a | a in w.claimOf :: a in d.claimOf && d.claimOf[a] == w.claimOf[a])
    && (forall a | a in w.contexts :: a in d.contexts && d.contexts[a] == w.contexts[a])
  }
}
