/**
 Theorems about a group's formal artifacts, over every history of module Ledger.
 */
module Replay {
  import opened Basics
  import opened Selection
  import opened Bundles
  import opened Ledger
  import opened LedgerHistory

  // -------------------------------------------------- no edit is ever found

  predicate Edited(problem: Problem) {
    problem.EditedProof? || problem.EditedPrerequisite? || problem.Cyclic? || problem.NoClaim?
  }

  /** The proofs being visited were frozen after the one visited now. */
  ghost predicate FrozenLater(l: Ledger, active: set<nat>, id: nat) {
    forall a | a in active :: a in l.when && (id in l.when ==> l.when[id] < l.when[a])
  }

  lemma InspectNeverEdited(l: Ledger, setting: Setting, id: nat)
    requires Inv(l) && Inspect(l.w, setting, id).Some?
    ensures !Edited(Inspect(l.w, setting, id).value)
  {
    if id < |l.w.artifacts| {
      assert Owned(l.w, id);
      if id in l.w.contexts {
        assert FrozenOk(l, id);
      }
    }
  }

  lemma PriorRecalled(l: Ledger, id: nat, p: Item)
    requires Inv(l) && p in Prior(l.w, id)
    ensures id in l.when && p.proof in l.when && l.when[p.proof] < l.when[id]
    ensures p.proof < |l.w.artifacts| && p.proof in l.w.claimOf && p == Entry(l.w, p.proof)
  {
    assert FrozenOk(l, id);
    var i :| 0 <= i < |l.w.contexts[id].declarations| && l.w.contexts[id].declarations[i] == p;
    assert Recalled(l, id, i);
  }

  lemma {:induction false} VisitNeverEdited(l: Ledger, setting: Setting, chosen: seq<Item>, active: set<nat>, id: nat)
    requires Inv(l) && FrozenLater(l, active, id)
    requires Settled(l.w, setting, chosen) && Apart(chosen, active) && |chosen| + |active| <= MAX_DECLARATIONS
    ensures Visit(l.w, setting, chosen, active, id).Err? ==> !Edited(Visit(l.w, setting, chosen, active, id).error)
    decreases MAX_DECLARATIONS - |active|, 0
  {
    if id !in active && !Has(chosen, id) && |chosen| + |active| < MAX_DECLARATIONS {
      InspectIff(l.w, setting, id);
      if Inspect(l.w, setting, id).Some? {
        InspectNeverEdited(l, setting, id);
      } else {
        EligibleFrozen(l, setting, id);
        VisitAllNeverEdited(l, setting, chosen, active + {id}, id, Prior(l.w, id));
      }
    }
  }

  lemma {:induction false} VisitAllNeverEdited(l: Ledger, setting: Setting, chosen: seq<Item>, active: set<nat>, id: nat, prior: seq<Item>)
    requires Inv(l) && id in l.when && (forall a | a in active :: a in l.when && l.when[id] <= l.when[a])
    requires forall p | p in prior :: p in Prior(l.w, id)
    requires Settled(l.w, setting, chosen) && Apart(chosen, active) && |chosen| + |active| <= MAX_DECLARATIONS
    ensures VisitAll(l.w, setting, chosen, active, prior).Err? ==> !Edited(VisitAll(l.w, setting, chosen, active, prior).error)
    decreases MAX_DECLARATIONS - |active|, 1, |prior|
  {
    if prior != [] {
      var front, last := prior[..|prior| - 1], prior[|prior| - 1];
      VisitAllNeverEdited(l, setting, chosen, active, id, front);
      if VisitAll(l.w, setting, chosen, active, front).Ok? {
        VisitAllSound(l.w, setting, chosen, active, front);
        PriorRecalled(l, id, last);
        VisitOneNeverEdited(l, setting, VisitAll(l.w, setting, chosen, active, front).value, active, last);
      }
    }
  }

  lemma {:induction false} VisitOneNeverEdited(l: Ledger, setting: Setting, items: seq<Item>, active: set<nat>, p: Item)
    requires Inv(l) && FrozenLater(l, active, p.proof)
    requires p.proof < |l.w.artifacts| && p.proof in l.w.claimOf && p == Entry(l.w, p.proof)
    requires Settled(l.w, setting, items) && Apart(items, active) && |items| + |active| <= MAX_DECLARATIONS
    ensures VisitOne(l.w, setting, items, active, p).Err? ==> !Edited(VisitOne(l.w, setting, items, active, p).error)
    decreases MAX_DECLARATIONS - |active|, 1, 0
  {
    VisitNeverEdited(l, setting, items, active, p.proof);
    if Visit(l.w, setting, items, active, p.proof).Ok? {
      VisitSound(l.w, setting, items, active, p.proof);
      FoundEntry(l.w, setting, Visit(l.w, setting, items, active, p.proof).value, p.proof);
    }
  }

  lemma {:induction false} ResolveNeverEdited(l: Ledger, setting: Setting, request: seq<nat>)
    requires Inv(l)
    ensures Resolve(l.w, setting, request).Err? ==> !Edited(Resolve(l.w, setting, request).error)
  {
    if request != [] {
      var front := request[..|request| - 1];
      ResolveNeverEdited(l, setting, front);
      if Resolve(l.w, setting, front).Ok? {
        ResolveSound(l.w, setting, front);
        VisitNeverEdited(l, setting, Resolve(l.w, setting, front).value, {}, request[|request| - 1]);
      }
    }
  }

  /** In every history the errors that report an edited, cyclic or unlinked lemma are unreachable,
      both when a selection is made and when a frozen bundle is taken up for a check. */
  lemma NeverEdited(z: Sizes, events: seq<Event>, c: nat, source: string, request: seq<nat>, a: nat, token: Binding)
    requires token.identity.Some?
    ensures var l := After(z, events);
            && (Select(l.w, z, c, source, request).Err? ==> !Edited(Select(l.w, z, c, source, request).error))
            && Ensure(l, z, a, token).1 != Err(EditedFrozenProof)
            && Ensure(l, z, a, token).1 != Err(Historical)
  {
    var l := After(z, events);
    AlwaysInv(z, events);
    if c < |l.w.claims| {
      ResolveNeverEdited(l, l.w.claims[c].setting, request);
    }
    if a < |l.w.artifacts| {
      assert Owned(l.w, a);
      if a in l.w.contexts {
        assert FrozenOk(l, a);
      }
    }
  }

  // --------------------------------------------------------- exact replay

  /** Whatever is added to the tables later, a selection of proofs that were all frozen
      comes out the same whenever it comes out at all. */
  lemma {:induction false} VisitSame(l: Ledger, d: World, setting: Setting, chosen: seq<Item>, active: set<nat>, id: nat)
    requires Inv(l) && Keeps(l.w, d) && |active| <= MAX_DECLARATIONS
    requires Visit(l.w, setting, chosen, active, id).Ok? && Visit(d, setting, chosen, active, id).Ok?
    ensures Visit(l.w, setting, chosen, active, id) == Visit(d, setting, chosen, active, id)
    decreases MAX_DECLARATIONS - |active|, 0
  {
    if !Has(chosen, id) {
      EligibleFrozen(l, setting, id);
      VisitAllSame(l, d, setting, chosen, active + {id}, Prior(l.w, id));
    }
  }

  lemma {:induction false} VisitAllSame(l: Ledger, d: World, setting: Setting, chosen: seq<Item>, active: set<nat>, prior: seq<Item>)
    requires Inv(l) && Keeps(l.w, d) && |active| <= MAX_DECLARATIONS
    requires VisitAll(l.w, setting, chosen, active, prior).Ok? && VisitAll(d, setting, chosen, active, prior).Ok?
    ensures VisitAll(l.w, setting, chosen, active, prior) == VisitAll(d, setting, chosen, active, prior)
    decreases MAX_DECLARATIONS - |active|, 1, |prior|
  {
    if prior != [] {
      var front := prior[..|prior| - 1];
      VisitAllSame(l, d, setting, chosen, active, front);
      VisitSame(l, d, setting, VisitAll(l.w, setting, chosen, active, front).value, active, prior[|prior| - 1].proof);
    }
  }

  lemma {:induction false} ResolveSame(l: Ledger, d: World, setting: Setting, request: seq<nat>)
    requires Inv(l) && Keeps(l.w, d)
    requires Resolve(l.w, setting, request).Ok? && Resolve(d, setting, request).Ok?
    ensures Resolve(l.w, setting, request) == Resolve(d, setting, request)
  {
    if request != [] {
      ResolveSame(l, d, setting, request[..|request| - 1]);
      VisitSame(l, d, setting, Resolve(l.w, setting, request[..|request| - 1]).value, {}, request[|request| - 1]);
    }
  }

  /** In any later tables, selecting again what b selected gives b's declarations or fails. */
  ghost predicate Settles(w: World, b: Bundle) {
    forall d: World {:trigger Keeps(w, d)} | Keeps(w, d) && Resolve(d, b.setting, b.selected).Ok? ::
      Resolve(d, b.setting, b.selected).value == b.declarations
  }

  ghost predicate Replays(w: World) {
    forall a {:trigger w.contexts[a]} | a in w.contexts :: Settles(w, w.contexts[a])
  }

  lemma SettlesLater(w: World, d: World, b: Bundle)
    requires Settles(w, b) && Keeps(w, d)
    ensures Settles(d, b)
  {
    forall e: World | Keeps(d, e) && Resolve(e, b.setting, b.selected).Ok?
      ensures Resolve(e, b.setting, b.selected).value == b.declarations
    {
      KeepsTransitive(w, d, e);
    }
  }

  lemma KeepsTransitive(w: World, d: World, e: World)
    requires Keeps(w, d) && Keeps(d, e)
    ensures Keeps(w, e)
  {
  }

  lemma SelectedSettles(l: Ledger, z: Sizes, c: nat, source: string, request: seq<nat>)
    requires Inv(l) && Select(l.w, z, c, source, request).Ok?
    ensures Settles(l.w, Select(l.w, z, c, source, request).value)
  {
    var b := Select(l.w, z, c, source, request).value;
    forall d: World | Keeps(l.w, d) && Resolve(d, b.setting, b.selected).Ok?
      ensures Resolve(d, b.setting, b.selected).value == b.declarations
    {
      ResolveSame(l, d, b.setting, b.selected);
    }
  }

  lemma FreezeReplays(l: Ledger, z: Sizes, a: nat, request: seq<nat>)
    requires Inv(l) && Replays(l.w)
    ensures Replays(Freeze(l, z, a, request).w)
  {
    var d := Freeze(l, z, a, request);
    FreezeKeeps(l, z, a, request);
    if d != l {
      SelectedSettles(l, z, l.w.claimOf[a], l.w.artifacts[a].source, request);
      forall k | k in d.w.contexts ensures Settles(d.w, d.w.contexts[k]) {
        if k != a {
          assert d.w.contexts[k] == l.w.contexts[k];
        }
        SettlesLater(l.w, d.w, d.w.contexts[k]);
      }
    }
  }

  lemma SameContextsReplay(w: World, d: World)
    requires Replays(w) && Keeps(w, d) && d.contexts == w.contexts
    ensures Replays(d)
  {
    forall k | k in d.contexts ensures Settles(d, d.contexts[k]) {
      SettlesLater(w, d, w.contexts[k]);
    }
  }

  lemma InsertReplays(l: Ledger, statement: string, source: string, setting: Setting)
    requires Inv(l) && Replays(l.w) && Insert(l.w, statement, source, setting).Some?
    ensures var w := Insert(l.w, statement, source, setting).value; Inv(Ledger(w, l.when)) && Replays(w)
  {
    InsertKeeps(l, statement, source, setting);
    SameContextsReplay(l.w, Insert(l.w, statement, source, setting).value);
  }

  lemma ProposeReplays(l: Ledger, z: Sizes, statement: string, source: string, setting: Setting, request: seq<nat>)
    requires Inv(l) && Replays(l.w)
    ensures Replays(Propose(l, z, statement, source, setting, request).w)
  {
    var o := Insert(l.w, statement, source, setting);
    if o.Some? {
      InsertReplays(l, statement, source, setting);
      FreezeReplays(Ledger(o.value, l.when), z, |l.w.artifacts|, request);
    }
  }

  lemma StepReplays(l: Ledger, z: Sizes, e: Event)
    requires Inv(l) && Replays(l.w)
    ensures Replays(Step(l, z, e).w)
  {
    match e
    case EPropose(statement, source, setting, request) => ProposeReplays(l, z, statement, source, setting, request);
    case EFreeze(a, request) => FreezeReplays(l, z, a, request);
    case EEnsure(a, token) => FreezeReplays(l, z, a, []);
    case _ => OtherReplays(l, z, e);
  }

  lemma OtherReplays(l: Ledger, z: Sizes, e: Event)
    requires Inv(l) && Replays(l.w) && !e.EPropose? && !e.EFreeze? && !e.EEnsure?
    ensures Replays(Step(l, z, e).w)
  {
    StepKeeps(l, z, e);
    SameContexts(l, z, e);
    SameContextsReplay(l.w, Step(l, z, e).w);
  }

  lemma SameContexts(l: Ledger, z: Sizes, e: Event)
    requires !e.EPropose? && !e.EFreeze? && !e.EEnsure?
    ensures Step(l, z, e).w.contexts == l.w.contexts
  {
  }

  lemma {:induction false} AlwaysReplays(z: Sizes, events: seq<Event>)
    ensures Replays(After(z, events).w)
  {
    if events != [] {
      var front := events[..|events| - 1];
      AlwaysInv(z, front);
      AlwaysReplays(z, front);
      StepReplays(After(z, front), z, events[|events| - 1]);
    }
  }

  /** Frozen bundles replay: selecting a frozen bundle's request again gives exactly its
      declarations, if and only if each of them is eligible now; otherwise it is refused. */
  lemma FrozenBundlesReplay(z: Sizes, events: seq<Event>, a: nat)
    requires a in After(z, events).w.contexts
    ensures var w := After(z, events).w; var b := w.contexts[a];
            && (Resolve(w, b.setting, b.selected) == Ok(b.declarations)
                <==> forall i | 0 <= i < |b.declarations| :: Eligible(w, b.setting, b.declarations[i].proof))
            && (Resolve(w, b.setting, b.selected).Ok? ==> Resolve(w, b.setting, b.selected).value == b.declarations)
  {
    var l := After(z, events);
    var b := l.w.contexts[a];
    AlwaysInv(z, events);
    AlwaysReplays(z, events);
    assert Keeps(l.w, l.w) && Settles(l.w, b);
    if Resolve(l.w, b.setting, b.selected).Ok? {
      ResolveEligible(l.w, b.setting, b.selected);
    }
    if forall i | 0 <= i < |b.declarations| :: Eligible(l.w, b.setting, b.declarations[i].proof) {
      EligibleAgain(l, a);
      ResolveComplete(l.w, b.setting, b.selected, ItemIds(b.declarations));
    }
  }

  lemma ResolveEligible(w: World, setting: Setting, request: seq<nat>)
    requires Resolve(w, setting, request).Ok?
    ensures var items := Resolve(w, setting, request).value;
            forall i | 0 <= i < |items| :: Eligible(w, setting, items[i].proof)
  {
    var items := Resolve(w, setting, request).value;
    ResolveSound(w, setting, request);
    forall i | 0 <= i < |items| ensures Eligible(w, setting, items[i].proof) {
      assert Sound(w, setting, items, i);
    }
  }

  lemma EligibleAgain(l: Ledger, a: nat)
    requires Inv(l) && a in l.w.contexts
    requires var b := l.w.contexts[a];
             forall i | 0 <= i < |b.declarations| :: Eligible(l.w, b.setting, b.declarations[i].proof)
    ensures Admissible(l.w, l.w.contexts[a].setting, l.w.contexts[a].selected, ItemIds(l.w.contexts[a].declarations))
  {
    var b := l.w.contexts[a];
    assert FrozenOk(l, a);
    forall i | 0 <= i < |b.declarations| ensures Fits(l.w, b.setting, ItemIds(b.declarations)[i], ItemIds(b.declarations)[..i]) {
      RecalledFits(l, a, i);
    }
    forall id | id in b.selected ensures id in ItemIds(b.declarations) {
      assert Has(b.declarations, id);
    }
  }

  lemma RecalledFits(l: Ledger, a: nat, i: nat)
    requires Inv(l) && a in l.w.contexts && i < |l.w.contexts[a].declarations|
    requires Eligible(l.w, l.w.contexts[a].setting, l.w.contexts[a].declarations[i].proof)
    ensures var b := l.w.contexts[a]; Fits(l.w, b.setting, ItemIds(b.declarations)[i], ItemIds(b.declarations)[..i])
  {
    var items := l.w.contexts[a].declarations;
    assert FrozenOk(l, a) && Recalled(l, a, i);
    forall p | p in Prior(l.w, items[i].proof)
      ensures p.proof in ItemIds(items)[..i] && p.proof < |l.w.artifacts| && p.proof in l.w.claimOf && p == Entry(l.w, p.proof)
    {
      PriorRecalled(l, items[i].proof, p);
      var k :| 0 <= k < i && items[..i][k] == p;
      assert ItemIds(items)[..i][k] == p.proof;
    }
  }

  // -------------------------------------------------- what selection refuses

  predicate ValidRequest(w: World, c: nat, request: seq<nat>) {
    && |request| <= MAX_DECLARATIONS && Distinct(request) && c < |w.claims|
    && w.binding.identity.Some? && w.binding.identity.value != ""
  }

  /** The request's proofs resolve, to no more lemmas than the group's configuration allows. */
  predicate Resolvable(w: World, c: nat, request: seq<nat>)
    requires c < |w.claims|
  {
    var r := Resolve(w, w.claims[c].setting, request);
    r.Ok? && (w.limits.Some? ==> |r.value| <= w.limits.value.lemmas)
  }

  /** In every history a valid request that resolves has one way left to fail: its encoding is too
      large. The structure and the depth that validate_bundle checks are never at fault. */
  lemma OnlySizeRefuses(z: Sizes, events: seq<Event>, c: nat, source: string, request: seq<nat>)
    requires ValidRequest(After(z, events).w, c, request) && Resolvable(After(z, events).w, c, request)
    ensures var w := After(z, events).w;
            var b := Assemble(w, c, source, request, Resolve(w, w.claims[c].setting, request).value);
            && (Select(w, z, c, source, request) == Err(Invalid) <==> Encoded(z, b) > ByteLimit(b))
            && (Select(w, z, c, source, request) == Ok(b) <==> Encoded(z, b) <= ByteLimit(b))
  {
    AlwaysInv(z, events);
    FrozenWorld(After(z, events));
    ResolvedWellFormed(After(z, events).w, z, c, source, request);
  }

  // ------------------------------------------------------- verified means now

  /** Each verified artifact carries the verifier identity in force, and its inputs are frozen. */
  lemma VerifiedNow(z: Sizes, events: seq<Event>, a: nat)
    requires a < |After(z, events).w.artifacts| && After(z, events).w.artifacts[a].standing.Verified?
    ensures var w := After(z, events).w;
            && w.binding.identity == Some(w.artifacts[a].standing.identity) && w.artifacts[a].standing.identity != ""
            && a in w.contexts && SameSource(w.contexts[a], w.artifacts[a])
  {
    AlwaysInv(z, events);
    assert Current(After(z, events).w, a) && FrozenOk(After(z, events), a);
  }

  /** The revision counts the changes of identity. */
  lemma {:induction false} RevisionCounts(z: Sizes, before: seq<Event>, later: seq<Event>)
    ensures var b := After(z, before).w.binding; var d := After(z, before + later).w.binding;
            b.revision <= d.revision && (b.revision == d.revision ==> b == d)
  {
    if later == [] {
      PlusNothing(before);
    } else {
      var front := later[..|later| - 1];
      SplitLast(before, later);
      RevisionCounts(z, before, front);
      StepRevision(After(z, before + front), z, later[|later| - 1]);
    }
  }

  lemma StepRevision(l: Ledger, z: Sizes, e: Event)
    ensures l.w.binding.revision <= Step(l, z, e).w.binding.revision
    ensures l.w.binding.revision == Step(l, z, e).w.binding.revision ==> Step(l, z, e).w.binding == l.w.binding
  {
  }

  lemma CommitNeeds(w: World, a: nat, bundle: Option<Bundle>, owned: bool, token: Binding, passed: bool)
    requires Commit(w, a, bundle, owned, token, passed) != w
    ensures w.binding == token && a < |w.artifacts| && w.artifacts[a].standing.Pending?
    ensures bundle.Some? ==> owned && SameInputs(w, a, bundle.value)
  {
  }

  /** A verdict obtained under one binding changes an artifact only if that very binding was in
      force at every moment in between, even when an identity went away and came back; and a checked
      bundle counts only if it is the one frozen for the artifact. */
  lemma CommitsUnchanged(z: Sizes, before: seq<Event>, middle: seq<Event>, rest: seq<Event>,
                         a: nat, bundle: Option<Bundle>, owned: bool, passed: bool)
    requires var w := After(z, before + middle + rest).w;
             Commit(w, a, bundle, owned, After(z, before).w.binding, passed) != w
    ensures After(z, before + middle).w.binding == After(z, before).w.binding
    ensures var w := After(z, before + middle + rest).w;
            && a < |w.artifacts| && w.artifacts[a].standing.Pending?
            && (bundle.Some? ==> owned && SameInputs(w, a, bundle.value))
  {
    CommitNeeds(After(z, before + middle + rest).w, a, bundle, owned, After(z, before).w.binding, passed);
    RevisionCounts(z, before, middle);
    RevisionCounts(z, before + middle, rest);
  }
}
