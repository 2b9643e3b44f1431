/**
 The depth-first selection in a history is a plain concatenation: a frozen bundle already lists
 everything that its lemmas were checked with, in order, so no search goes deeper than one bundle.
 */
module Flat {
  import opened Basics
  import opened Selection
  import opened Bundles
  import opened Ledger
  import opened LedgerHistory
  import opened Replay

  /** The prior items that are not declared yet, in their own order. */
  function Flatten(items: seq<Item>, prior: seq<Item>): seq<Item> {
    if prior == [] then items
    else
      var mid, last := Flatten(items, prior[..|prior| - 1]), prior[|prior| - 1];
      if Has(mid, last.proof) then mid else mid + [last]
  }

  /** A requested proof brings what is missing of its frozen bundle, and then itself. */
  function FlatOne(w: World, items: seq<Item>, id: nat): seq<Item> {
    if Has(items, id) || id >= |w.artifacts| || id !in w.claimOf then items
    else Flatten(items, Prior(w, id)) + [Entry(w, id)]
  }

  function FlatAll(w: World, request: seq<nat>): seq<Item> {
    if request == [] then [] else FlatOne(w, FlatAll(w, request[..|request| - 1]), request[|request| - 1])
  }

  /** The loop over a prior bundle, seen from its last item. */
  lemma AllButLast(w: World, setting: Setting, chosen: seq<Item>, active: set<nat>, prior: seq<Item>)
    requires |active| <= MAX_DECLARATIONS && prior != [] && VisitAll(w, setting, chosen, active, prior).Ok?
    ensures VisitAll(w, setting, chosen, active, prior[..|prior| - 1]).Ok?
    ensures VisitAll(w, setting, chosen, active, prior)
         == VisitOne(w, setting, VisitAll(w, setting, chosen, active, prior[..|prior| - 1]).value, active, prior[|prior| - 1])
  {
  }

  /** Visiting what is declared already changes nothing. */
  lemma {:induction false} VisitAllPresent(w: World, setting: Setting, items: seq<Item>, active: set<nat>, prior: seq<Item>)
    requires |active| <= MAX_DECLARATIONS && VisitAll(w, setting, items, active, prior).Ok?
    requires forall p | p in prior :: p in items
    ensures VisitAll(w, setting, items, active, prior).value == items
  {
    if prior != [] {
      var last := prior[|prior| - 1];
      AllButLast(w, setting, items, active, prior);
      VisitAllPresent(w, setting, items, active, prior[..|prior| - 1]);
      assert last in prior;
      var i :| 0 <= i < |items| && items[i] == last;
      assert Has(items, last.proof);
    }
  }

  lemma {:induction false} VisitAllFlat(l: Ledger, setting: Setting, chosen: seq<Item>, active: set<nat>, id: nat, n: nat)
    requires Inv(l) && id in l.w.contexts && n <= |Prior(l.w, id)|
    requires Settled(l.w, setting, chosen) && Apart(chosen, active) && |chosen| + |active| <= MAX_DECLARATIONS
    requires VisitAll(l.w, setting, chosen, active, Prior(l.w, id)[..n]).Ok?
    ensures VisitAll(l.w, setting, chosen, active, Prior(l.w, id)[..n]).value == Flatten(chosen, Prior(l.w, id)[..n])
  {
    if n > 0 {
      var prior := Prior(l.w, id);
      TakeNext(prior, n - 1);
      AllButLast(l.w, setting, chosen, active, prior[..n]);
      var mid, p := VisitAll(l.w, setting, chosen, active, prior[..n - 1]).value, prior[n - 1];
      VisitAllFlat(l, setting, chosen, active, id, n - 1);
      VisitAllSound(l.w, setting, chosen, active, prior[..n - 1]);
      if !Has(mid, p.proof) {
        PriorFlat(l, setting, mid, active, id, n - 1);
      }
    }
  }

  /** The next item's own lemmas stand before it in the bundle, so only the item itself is added. */
  lemma PriorFlat(l: Ledger, setting: Setting, mid: seq<Item>, active: set<nat>, id: nat, k: nat)
    requires Inv(l) && id in l.w.contexts && k < |Prior(l.w, id)| && |active| <= MAX_DECLARATIONS
    requires (forall q | q in Prior(l.w, id)[..k] :: q in mid) && !Has(mid, Prior(l.w, id)[k].proof)
    requires VisitOne(l.w, setting, mid, active, Prior(l.w, id)[k]).Ok?
    ensures VisitOne(l.w, setting, mid, active, Prior(l.w, id)[k]).value == mid + [Prior(l.w, id)[k]]
  {
    var p := Prior(l.w, id)[k];
    assert FrozenOk(l, id);
    assert Recalled(l, id, k);
    VisitAllPresent(l.w, setting, mid, active + {p.proof}, Prior(l.w, p.proof));
  }

  lemma VisitFlat(l: Ledger, setting: Setting, chosen: seq<Item>, id: nat)
    requires Inv(l) && Settled(l.w, setting, chosen) && |chosen| <= MAX_DECLARATIONS
    requires Visit(l.w, setting, chosen, {}, id).Ok?
    ensures Visit(l.w, setting, chosen, {}, id).value == FlatOne(l.w, chosen, id)
  {
    if !Has(chosen, id) {
      InspectIff(l.w, setting, id);
      if id in l.w.contexts {
        TakeAll(Prior(l.w, id));
        VisitAllFlat(l, setting, chosen, {id}, id, |Prior(l.w, id)|);
      }
    }
  }

  lemma {:induction false} ResolveFlat(l: Ledger, setting: Setting, request: seq<nat>)
    requires Inv(l) && Resolve(l.w, setting, request).Ok?
    ensures Resolve(l.w, setting, request).value == FlatAll(l.w, request)
  {
    if request != [] {
      var front := request[..|request| - 1];
      ResolveFlat(l, setting, front);
      ResolveSound(l.w, setting, front);
      VisitFlat(l, setting, Resolve(l.w, setting, front).value, request[|request| - 1]);
    }
  }

  /** In every history the search declares the requested proofs in request order, each one after the
      items of its frozen bundle that were not declared yet, in that bundle's order. */
  lemma SelectionIsFlat(z: Sizes, events: seq<Event>, setting: Setting, request: seq<nat>)
    requires Resolve(After(z, events).w, setting, request).Ok?
    ensures Resolve(After(z, events).w, setting, request).value == FlatAll(After(z, events).w, request)
  {
    AlwaysInv(z, events);
    ResolveFlat(After(z, events), setting, request);
  }

  // -------------------------------------------------------- when it succeeds

  /** Taking over a bundle whose lemmas are all eligible keeps every lemma behind its own. */
  lemma {:induction false} FlattenSettled(l: Ledger, setting: Setting, items: seq<Item>, id: nat, n: nat)
    requires Inv(l) && id in l.w.contexts && n <= |Prior(l.w, id)| && Settled(l.w, setting, items)
    requires forall p | p in Prior(l.w, id) :: Eligible(l.w, setting, p.proof)
    ensures var mid := Flatten(items, Prior(l.w, id)[..n]);
            && Settled(l.w, setting, mid)
            && (forall p | p in items :: p in mid) && (forall p | p in Prior(l.w, id)[..n] :: p in mid)
            && (forall p | p in mid :: p in items || p in Prior(l.w, id)[..n])
  {
    if n > 0 {
      var prior := Prior(l.w, id);
      TakeNext(prior, n - 1);
      FlattenSettled(l, setting, items, id, n - 1);
      TakeOver(l, setting, Flatten(items, prior[..n - 1]), id, n - 1);
    }
  }

  /** The next item of the bundle is there already, exactly as it is, or can be added. */
  lemma TakeOver(l: Ledger, setting: Setting, mid: seq<Item>, id: nat, k: nat)
    requires Inv(l) && id in l.w.contexts && k < |Prior(l.w, id)| && Settled(l.w, setting, mid)
    requires Eligible(l.w, setting, Prior(l.w, id)[k].proof) && forall p | p in Prior(l.w, id)[..k] :: p in mid
    ensures var p := Prior(l.w, id)[k];
            if Has(mid, p.proof) then p in mid else Settled(l.w, setting, mid + [p])
  {
    var p := Prior(l.w, id)[k];
    assert FrozenOk(l, id);
    assert Recalled(l, id, k);
    if Has(mid, p.proof) {
      var i :| 0 <= i < |mid| && mid[i].proof == p.proof;
      assert Sound(l.w, setting, mid, i);
    } else {
      SettledAppend(l.w, setting, mid, p.proof);
    }
  }

  /** No proof is a lemma of its own bundle. */
  lemma NotItsOwn(l: Ledger, id: nat)
    requires Inv(l) && id in l.w.contexts
    ensures forall p | p in Prior(l.w, id) :: p.proof != id
  {
    assert FrozenOk(l, id);
    forall p | p in Prior(l.w, id) ensures p.proof != id {
      var k :| 0 <= k < |Prior(l.w, id)| && Prior(l.w, id)[k] == p;
      assert Recalled(l, id, k);
    }
  }

  ghost predicate AllEligible(w: World, setting: Setting, request: seq<nat>) {
    forall id | id in request :: Eligible(w, setting, id) && forall p | p in Prior(w, id) :: Eligible(w, setting, p.proof)
  }

  lemma FlatOneSettled(l: Ledger, setting: Setting, items: seq<Item>, id: nat)
    requires Inv(l) && Settled(l.w, setting, items) && AllEligible(l.w, setting, [id])
    ensures var more := FlatOne(l.w, items, id);
            Settled(l.w, setting, more) && Has(more, id) && forall p | p in items :: p in more
  {
    assert id in [id];
    if !Has(items, id) {
      var mid := Flatten(items, Prior(l.w, id));
      TakeAll(Prior(l.w, id));
      if id in l.w.contexts {
        FlattenSettled(l, setting, items, id, |Prior(l.w, id)|);
        NotItsOwn(l, id);
      }
      assert !Has(mid, id);
      SettledAppend(l.w, setting, mid, id);
      assert (mid + [Entry(l.w, id)])[|mid|].proof == id;
    }
  }

  lemma {:induction false} FlatSettled(l: Ledger, setting: Setting, request: seq<nat>)
    requires Inv(l) && AllEligible(l.w, setting, request)
    ensures Settled(l.w, setting, FlatAll(l.w, request)) && forall id | id in request :: Has(FlatAll(l.w, request), id)
  {
    if request != [] {
      var front, last := request[..|request| - 1], request[|request| - 1];
      FlatSettled(l, setting, front);
      FlatOneSettled(l, setting, FlatAll(l.w, front), last);
      forall id | id in request ensures Has(FlatAll(l.w, request), id) {
        if id != last {
          assert request == front + [last];
          var i :| 0 <= i < |FlatAll(l.w, front)| && FlatAll(l.w, front)[i].proof == id;
          assert FlatAll(l.w, front)[i] in FlatAll(l.w, request);
        }
      }
    }
  }

  /** In every history a request resolves if and only if its proofs and the lemmas of their frozen
      bundles are eligible now and are at most eight together. */
  lemma ResolvedIff(l: Ledger, setting: Setting, request: seq<nat>)
    requires Inv(l)
    ensures Resolve(l.w, setting, request).Ok?
       <==> AllEligible(l.w, setting, request) && |FlatAll(l.w, request)| <= MAX_DECLARATIONS
  {
    if Resolve(l.w, setting, request).Ok? {
      ResolveFlat(l, setting, request);
      ResolveSound(l.w, setting, request);
      var items := FlatAll(l.w, request);
      forall id | id in request
        ensures Eligible(l.w, setting, id) && forall p | p in Prior(l.w, id) :: Eligible(l.w, setting, p.proof)
      {
        var i :| 0 <= i < |items| && items[i].proof == id;
        assert Sound(l.w, setting, items, i);
        forall p | p in Prior(l.w, id) ensures Eligible(l.w, setting, p.proof) {
          var j :| 0 <= j < |items| && items[j] == p;
          assert Sound(l.w, setting, items, j);
        }
      }
    }
    if AllEligible(l.w, setting, request) && |FlatAll(l.w, request)| <= MAX_DECLARATIONS {
      var items := FlatAll(l.w, request);
      FlatSettled(l, setting, request);
      SettledAdmissible(l.w, setting, items);
      forall id | id in request ensures id in ItemIds(items) {
        assert Has(items, id);
      }
      assert Admissible(l.w, setting, request, ItemIds(items));
      ResolveIff(l.w, setting, request);
    }
  }

  // ------------------------------------------------------------ what is selected

  /** The proof is verified by the verifier in force, in the claim's own setting, and linked. */
  ghost predicate Usable(w: World, c: nat, id: nat)
    requires c < |w.claims|
  {
    && id < |w.artifacts| && w.artifacts[id].setting == w.claims[c].setting
    && w.binding.identity.Some? && w.artifacts[id].standing == Verified(w.binding.identity.value)
    && id in w.claimOf
  }

  /** item says what the rows of its proof say, and names the proofs of its frozen bundle. */
  ghost predicate Describes(w: World, item: Item)
    requires item.proof < |w.artifacts| && item.proof in w.claimOf
  {
    && item.claim == w.claimOf[item.proof] && item.name == Lemma(item.proof)
    && item.statement == w.artifacts[item.proof].statement && item.source == w.artifacts[item.proof].source
    && (item.proof !in w.contexts ==> item.prerequisites == [])
    && (item.proof in w.contexts ==>
          && |item.prerequisites| == |w.contexts[item.proof].declarations|
          && (forall i | 0 <= i < |item.prerequisites| :: item.prerequisites[i] == w.contexts[item.proof].declarations[i].proof)
          && w.contexts[item.proof].statement == w.artifacts[item.proof].statement
          && w.contexts[item.proof].source == w.artifacts[item.proof].source
          && w.contexts[item.proof].setting == w.artifacts[item.proof].setting)
  }

  /** What a selected bundle says, row by row. */
  lemma SelectedRows(w: World, z: Sizes, c: nat, source: string, request: seq<nat>)
    requires Select(w, z, c, source, request).Ok?
    ensures var b := Select(w, z, c, source, request).value;
            && c < |w.claims| && b.claim == c && b.statement == w.claims[c].statement && b.setting == w.claims[c].setting
            && b.source == source && b.selected == request && Distinct(request) && |b.declarations| <= MAX_DECLARATIONS
            && w.binding.identity == Some(b.identity) && b.identity != "" && b.revision == w.binding.revision
            && (w.limits.None? ==> b.limit.None?)
            && (w.limits.Some? ==> b.limit == Some(w.limits.value.sourceBytes) && |b.declarations| <= w.limits.value.lemmas)
            && (forall id | id in request :: Has(b.declarations, id) && Usable(w, c, id))
            && (forall item | item in b.declarations :: Usable(w, c, item.proof) && Describes(w, item))
  {
    var b := Select(w, z, c, source, request).value;
    ResolveSound(w, b.setting, request);
    forall item | item in b.declarations ensures Usable(w, c, item.proof) && Describes(w, item) {
      var i :| 0 <= i < |b.declarations| && b.declarations[i] == item;
      assert Sound(w, b.setting, b.declarations, i);
    }
    forall id | id in request ensures Usable(w, c, id) {
      var i :| 0 <= i < |b.declarations| && b.declarations[i].proof == id;
      assert b.declarations[i] in b.declarations;
    }
  }

  /** A request with an unusable proof is refused, whatever else it names. */
  lemma UnusableRefused(w: World, z: Sizes, c: nat, source: string, request: seq<nat>, id: nat)
    requires c < |w.claims| && id in request && !Usable(w, c, id)
    ensures Select(w, z, c, source, request).Err?
  {
    if Select(w, z, c, source, request).Ok? {
      SelectedRows(w, z, c, source, request);
    }
  }

  /** The proof and the lemmas of its frozen bundle are usable. */
  ghost predicate AllUsable(w: World, c: nat, id: nat)
    requires c < |w.claims|
  {
    Usable(w, c, id) && (id in w.contexts ==> forall p | p in w.contexts[id].declarations :: Usable(w, c, p.proof))
  }

  lemma EligibleIsUsable(l: Ledger, c: nat, id: nat)
    requires Inv(l) && c < |l.w.claims|
    ensures Eligible(l.w, l.w.claims[c].setting, id) <==> Usable(l.w, c, id)
  {
    if id in l.w.contexts {
      assert FrozenOk(l, id);
    }
  }

  lemma AllEligibleRows(l: Ledger, c: nat, request: seq<nat>)
    requires Inv(l) && c < |l.w.claims|
    ensures AllEligible(l.w, l.w.claims[c].setting, request) <==> forall id | id in request :: AllUsable(l.w, c, id)
  {
    forall id: nat ensures Eligible(l.w, l.w.claims[c].setting, id) <==> Usable(l.w, c, id) {
      EligibleIsUsable(l, c, id);
    }
  }

  /** A JSON list has its elements, a comma after each but the last, and two brackets. */
  lemma {:induction false} ListRule<T>(s: seq<T>, bytes: T -> nat)
    ensures ListBytes(s, bytes) == 2 + Sum(|s|, (i: nat) => if i < |s| then bytes(s[i]) else 0) + Max(0, |s| - 1)
  {
    if s != [] {
      var front := s[..|s| - 1];
      ListRule(front, bytes);
      SumFrame(|front|, (i: nat) => if i < |front| then bytes(front[i]) else 0, (i: nat) => if i < |s| then bytes(s[i]) else 0);
    }
  }

  /** Exactly which requests are selected, in every history, and as what: at most eight different
      proofs for a known claim under a bound verifier, all of them and the lemmas that they were checked
      with usable, few enough, and encoded small enough. */
  lemma SelectedIff(z: Sizes, events: seq<Event>, c: nat, source: string, request: seq<nat>)
    ensures var w := After(z, events).w; var items := FlatAll(w, request); var r := Select(w, z, c, source, request);
            && (r.Ok? <==>
                  && |request| <= 8 && Distinct(request) && c < |w.claims|
                  && w.binding.identity.Some? && w.binding.identity.value != ""
                  && (forall id | id in request :: AllUsable(w, c, id))
                  && |items| <= 8 && (w.limits.Some? ==> |items| <= w.limits.value.lemmas)
                  && var bytes := Encoded(z, Assemble(w, c, source, request, items));
                     bytes <= 32 * 1024 && (w.limits.Some? ==> bytes <= w.limits.value.sourceBytes))
            && (r.Ok? ==> r.value == Assemble(w, c, source, request, items))
  {
    AlwaysInv(z, events);
    var l := After(z, events);
    if ValidRequest(l.w, c, request) {
      ResolvedIff(l, l.w.claims[c].setting, request);
      AllEligibleRows(l, c, request);
      if Resolve(l.w, l.w.claims[c].setting, request).Ok? {
        ResolveFlat(l, l.w.claims[c].setting, request);
        FrozenWorld(l);
        ResolvedWellFormed(l.w, z, c, source, request);
      }
    }
  }

  /** Every lemma in a frozen bundle, in every history, is a proof in that bundle's own setting. */
  lemma FrozenInSetting(z: Sizes, events: seq<Event>, a: nat, i: nat)
    requires var w := After(z, events).w; a in w.contexts && i < |w.contexts[a].declarations|
    ensures var w := After(z, events).w; var item := w.contexts[a].declarations[i];
            && item.proof < |w.artifacts| && w.artifacts[item.proof].setting == w.contexts[a].setting
            && item.proof in w.claimOf && Describes(w, item)
  {
    AlwaysInv(z, events);
    var l := After(z, events);
    assert FrozenOk(l, a);
    assert Recalled(l, a, i);
    var p := l.w.contexts[a].declarations[i].proof;
    assert p in l.w.contexts ==> FrozenOk(l, p);
  }
}
