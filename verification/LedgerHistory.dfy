/**
 What every history of proposing, freezing, checking and rebinding keeps, in which each
 verdict commits under a frozen bundle: verdicts are current, and frozen bundles replay.
 */
module LedgerHistory {
  import opened Basics
  import opened Selection
  import opened Bundles
  import opened Ledger

  // ----------------------------------------------------------- preservation

  ghost predicate Extends(l: Ledger, d: Ledger) {
    Keeps(l.w, d.w) && (forall a | a in l.when :: a in d.when && d.when[a] == l.when[a])
    && |l.w.contexts| <= |d.w.contexts|
  }

  lemma EntryKept(l: Ledger, d: Ledger, p: nat)
    requires Extends(l, d) && p in l.w.contexts && p < |l.w.artifacts| && p in l.w.claimOf
    ensures Prior(d.w, p) == Prior(l.w, p) && Entry(d.w, p) == Entry(l.w, p)
  {
  }

  lemma FrozenKept(l: Ledger, d: Ledger, a: nat)
    requires Inv(l) && Extends(l, d) && a in l.w.contexts
    ensures FrozenOk(d, a)
  {
    assert FrozenOk(l, a);
    forall i | 0 <= i < |l.w.contexts[a].declarations| ensures Recalled(d, a, i) {
      assert Recalled(l, a, i);
      EntryKept(l, d, l.w.contexts[a].declarations[i].proof);
    }
  }

  lemma FrozenStays(l: Ledger, d: Ledger)
    requires Inv(l) && Extends(l, d) && d.w.contexts == l.w.contexts
    ensures forall a | a in d.w.contexts :: FrozenOk(d, a)
  {
    forall a | a in d.w.contexts ensures FrozenOk(d, a) {
      FrozenKept(l, d, a);
    }
  }

  lemma PublishKeeps(l: Ledger, claim: Claim)
    requires Inv(l)
    ensures var d := l.(w := Or(l.w, Publish(l.w, claim))); Inv(d) && Extends(l, d)
  {
    var d := l.(w := Or(l.w, Publish(l.w, claim)));
    FrozenStays(l, d);
    forall a | 0 <= a < |d.w.artifacts| ensures Owned(d.w, a) && Current(d.w, a) {
      assert Owned(l.w, a) && Current(l.w, a);
    }
  }

  /** A new artifact is linked to the claim for its own statement and setting. */
  lemma InsertShape(w: World, statement: string, source: string, setting: Setting)
    requires Insert(w, statement, source, setting).Some? && |w.artifacts| !in w.claimOf
    ensures var d := Insert(w, statement, source, setting).value; var n := |w.artifacts|;
            && d == w.(claims := d.claims, artifacts := d.artifacts, claimOf := d.claimOf)
            && d.artifacts == w.artifacts + [Artifact(statement, source, setting, Pending)]
            && w.claims <= d.claims
            && n in d.claimOf && d.claimOf == w.claimOf[n := d.claimOf[n]]
            && d.claimOf[n] < |d.claims| && d.claims[d.claimOf[n]] == Claim(statement, setting)
  {
  }

  lemma InsertKeeps(l: Ledger, statement: string, source: string, setting: Setting)
    requires Inv(l)
    ensures var d := l.(w := Or(l.w, Insert(l.w, statement, source, setting))); Inv(d) && Extends(l, d)
  {
    var d := l.(w := Or(l.w, Insert(l.w, statement, source, setting)));
    if Insert(l.w, statement, source, setting).Some? {
      InsertShape(l.w, statement, source, setting);
      InsertedOwned(l, d);
      FrozenStays(l, d);
    }
  }

  lemma InsertedOwned(l: Ledger, d: Ledger)
    requires Inv(l) && |d.w.artifacts| == |l.w.artifacts| + 1 && l.w.artifacts <= d.w.artifacts && l.w.claims <= d.w.claims
    requires d.w.artifacts[|l.w.artifacts|].standing.Pending? && Owned(d.w, |l.w.artifacts|)
    requires d.w.claimOf == l.w.claimOf[|l.w.artifacts| := d.w.claimOf[|l.w.artifacts|]]
    requires d.w.binding == l.w.binding && d.w.contexts == l.w.contexts
    ensures forall a | 0 <= a < |d.w.artifacts| :: Owned(d.w, a) && Current(d.w, a)
  {
    forall a | 0 <= a < |d.w.artifacts| ensures Owned(d.w, a) && Current(d.w, a) {
      if a < |l.w.artifacts| {
        assert Owned(l.w, a) && Current(l.w, a);
      }
    }
  }

  /** Every artifact is linked when it is inserted, so a later link is refused or changes nothing. */
  lemma AttachKeeps(l: Ledger, c: nat, a: nat)
    requires Inv(l)
    ensures Or(l.w, Attach(l.w, c, a)) == l.w
    ensures Attach(l.w, c, a).Some? ==> l.w.claimOf[a] == c
  {
    if a < |l.w.artifacts| {
      assert Owned(l.w, a);
    }
  }

  /** Only verdicts and the binding change, and each verdict that remains is current. */
  lemma StandingsKeep(l: Ledger, d: Ledger)
    requires Inv(l) && |d.w.artifacts| == |l.w.artifacts| && d.when == l.when
    requires d.w == l.w.(artifacts := d.w.artifacts, binding := d.w.binding, limits := d.w.limits)
    requires forall a | 0 <= a < |l.w.artifacts| ::
               d.w.artifacts[a] == l.w.artifacts[a].(standing := d.w.artifacts[a].standing) && Current(d.w, a)
    ensures Inv(d) && Extends(l, d)
  {
    forall a | 0 <= a < |d.w.artifacts| ensures Owned(d.w, a) {
      assert Owned(l.w, a);
    }
    FrozenStays(l, d);
  }

  lemma BindKeeps(l: Ledger, identity: Option<string>)
    requires Inv(l)
    ensures var d := l.(w := Bind(l.w, identity)); Inv(d) && Extends(l, d)
  {
    var d := l.(w := Bind(l.w, identity));
    forall a | 0 <= a < |d.w.artifacts| ensures Current(d.w, a) {
      assert Current(l.w, a);
    }
    StandingsKeep(l, d);
  }

  lemma CommitKeeps(l: Ledger, a: nat, bundle: Option<Bundle>, owned: bool, token: Binding, passed: bool)
    requires Inv(l) && (passed ==> bundle.Some?)
    ensures var d := l.(w := Commit(l.w, a, bundle, owned, token, passed)); Inv(d) && Extends(l, d)
  {
    var d := l.(w := Commit(l.w, a, bundle, owned, token, passed));
    forall k | 0 <= k < |d.w.artifacts| ensures Current(d.w, k) {
      assert Current(l.w, k);
    }
    StandingsKeep(l, d);
  }

  lemma ReleaseKeeps(l: Ledger, a: nat)
    requires Inv(l)
    ensures var d := l.(w := Release(l.w, a)); Inv(d) && Extends(l, d)
  {
    var d := l.(w := Release(l.w, a));
    forall k | 0 <= k < |d.w.artifacts| ensures Current(d.w, k) {
      assert Current(l.w, k);
    }
    StandingsKeep(l, d);
  }

  lemma StartKeeps(l: Ledger, limits: Limits)
    requires Inv(l)
    ensures var d := l.(w := l.w.(limits := Some(limits))); Inv(d) && Extends(l, d)
  {
    var d := l.(w := l.w.(limits := Some(limits)));
    forall k | 0 <= k < |d.w.artifacts| ensures Current(d.w, k) {
      assert Current(l.w, k);
    }
    StandingsKeep(l, d);
  }

  // --------------------------------------------------------------- freezing

  lemma FrozenWorld(l: Ledger)
    requires Inv(l)
    ensures Frozen(l.w)
  {
    forall a | a in l.w.contexts ensures Distinct(ItemIds(l.w.contexts[a].declarations)) {
      assert FrozenOk(l, a);
    }
  }

  /** A selected proof is verified, hence frozen already. */
  lemma EligibleFrozen(l: Ledger, setting: Setting, p: nat)
    requires Inv(l) && Eligible(l.w, setting, p)
    ensures p in l.w.contexts && p in l.when && l.when[p] < |l.w.contexts|
  {
    assert Current(l.w, p);
    assert FrozenOk(l, p);
  }

  function Hold(l: Ledger, a: nat, b: Bundle): Ledger {
    Ledger(l.w.(contexts := l.w.contexts[a := b]), l.when[a := |l.w.contexts|])
  }

  lemma SelectedRecalled(l: Ledger, a: nat, b: Bundle, i: nat)
    requires Inv(l) && a !in l.w.contexts && i < |b.declarations| && Sound(l.w, b.setting, b.declarations, i)
    ensures Recalled(Hold(l, a, b), a, i)
  {
    var d := Hold(l, a, b);
    EligibleFrozen(l, b.setting, b.declarations[i].proof);
    EntryKept(l, d, b.declarations[i].proof);
  }

  lemma NewFrozenOk(l: Ledger, z: Sizes, a: nat, request: seq<nat>, b: Bundle)
    requires Inv(l) && a < |l.w.artifacts| && a in l.w.claimOf && a !in l.w.contexts
    requires Select(l.w, z, l.w.claimOf[a], l.w.artifacts[a].source, request) == Ok(b)
    ensures FrozenOk(Hold(l, a, b), a)
  {
    assert Owned(l.w, a);
    ResolveSound(l.w, b.setting, request);
    forall i | 0 <= i < |b.declarations| ensures Recalled(Hold(l, a, b), a, i) {
      assert Sound(l.w, b.setting, b.declarations, i);
      SelectedRecalled(l, a, b, i);
    }
  }

  lemma HoldExtends(l: Ledger, a: nat, b: Bundle)
    requires Inv(l) && a !in l.w.contexts
    ensures Extends(l, Hold(l, a, b)) && Hold(l, a, b).when.Keys == Hold(l, a, b).w.contexts.Keys
  {
    var d := Hold(l, a, b);
    assert d.w.contexts.Keys == l.w.contexts.Keys + {a};
    assert |d.w.contexts| == |l.w.contexts| + 1;
  }

  lemma HoldOwned(l: Ledger, a: nat, b: Bundle)
    requires Inv(l)
    ensures forall k | 0 <= k < |l.w.artifacts| :: Owned(Hold(l, a, b).w, k) && Current(Hold(l, a, b).w, k)
  {
    forall k | 0 <= k < |l.w.artifacts| ensures Owned(Hold(l, a, b).w, k) && Current(Hold(l, a, b).w, k) {
      assert Owned(l.w, k) && Current(l.w, k);
    }
  }

  lemma HoldKeeps(l: Ledger, a: nat, b: Bundle)
    requires Inv(l) && a !in l.w.contexts && FrozenOk(Hold(l, a, b), a)
    ensures Inv(Hold(l, a, b)) && Extends(l, Hold(l, a, b))
  {
    HoldExtends(l, a, b);
    HoldOwned(l, a, b);
    forall k | k in l.w.contexts ensures FrozenOk(Hold(l, a, b), k) {
      FrozenKept(l, Hold(l, a, b), k);
    }
  }

  lemma FreezeKeeps(l: Ledger, z: Sizes, a: nat, request: seq<nat>)
    requires Inv(l)
    ensures Inv(Freeze(l, z, a, request)) && Extends(l, Freeze(l, z, a, request))
  {
    if Freeze(l, z, a, request) != l {
      var b := Select(l.w, z, l.w.claimOf[a], l.w.artifacts[a].source, request).value;
      NewFrozenOk(l, z, a, request, b);
      HoldKeeps(l, a, b);
    }
  }

  lemma ProposeKeeps(l: Ledger, z: Sizes, statement: string, source: string, setting: Setting, request: seq<nat>)
    requires Inv(l)
    ensures Inv(Propose(l, z, statement, source, setting, request)) && Extends(l, Propose(l, z, statement, source, setting, request))
  {
    var o := Insert(l.w, statement, source, setting);
    if o.Some? {
      InsertKeeps(l, statement, source, setting);
      FreezeKeeps(Ledger(o.value, l.when), z, |l.w.artifacts|, request);
    }
  }

  lemma EnsureKeeps(l: Ledger, z: Sizes, a: nat, token: Binding)
    requires Inv(l)
    ensures Inv(Step(l, z, EEnsure(a, token))) && Extends(l, Step(l, z, EEnsure(a, token)))
  {
    FreezeKeeps(l, z, a, []);
  }

  lemma StepKeeps(l: Ledger, z: Sizes, e: Event)
    requires Inv(l)
    ensures Inv(Step(l, z, e)) && Extends(l, Step(l, z, e))
  {
    match e
    case EPublish(claim) =>
      PublishStep(l, z, claim);
      PublishKeeps(l, claim);
    case EInsert(statement, source, setting) =>
      InsertStep(l, z, statement, source, setting);
      InsertKeeps(l, statement, source, setting);
    case EAttach(c, a) =>
      AttachStep(l, z, c, a);
      AttachKeeps(l, c, a);
    case EPropose(statement, source, setting, request) =>
      ProposeStep(l, z, statement, source, setting, request);
      ProposeKeeps(l, z, statement, source, setting, request);
    case EFreeze(a, request) =>
      FreezeStep(l, z, a, request);
      FreezeKeeps(l, z, a, request);
    case EEnsure(a, token) => EnsureKeeps(l, z, a, token);
    case EBind(identity) =>
      BindStep(l, z, identity);
      BindKeeps(l, identity);
    case ECommit(a, b, owned, token, passed) =>
      CommitStep(l, z, a, b, owned, token, passed);
      CommitKeeps(l, a, Some(b), owned, token, passed);
    case EReject(a, token) =>
      RejectStep(l, z, a, token);
      CommitKeeps(l, a, None, true, token, false);
    case ERelease(a) =>
      ReleaseStep(l, z, a);
      ReleaseKeeps(l, a);
    case EStart(limits) => StartKeeps(l, limits);
  }

  lemma {:induction false} AlwaysInv(z: Sizes, events: seq<Event>)
    ensures Inv(After(z, events))
  {
    if events != [] {
      AlwaysInv(z, events[..|events| - 1]);
      StepKeeps(After(z, events[..|events| - 1]), z, events[|events| - 1]);
    }
  }
}
