/**
 Choosing the checked lemmas that a proof may use. selected_bundle resolves a request
 depth first: every chosen proof brings the lemmas that its own frozen bundle lists.
 validate_bundle then inspects the ordered list of declarations.
 */
module Selection {
  import opened Basics

  const MAX_DECLARATIONS := 8
  const MAX_DEPTH := 8
  const MAX_SOURCE_BYTES := 32 * 1024

  /** declaration_name: hashing the proof identifier is an injection. */
  datatype Name = Lemma(proof: nat)

  datatype Setting = Setting(imports: seq<string>, environment: string)

  datatype Claim = Claim(statement: string, setting: Setting)

  datatype Item = Item(claim: nat, proof: nat, name: Name, statement: string, source: string, prerequisites: seq<nat>)

  datatype Standing = Pending | Verified(identity: string) | Refused

  datatype Artifact = Artifact(statement: string, source: string, setting: Setting, standing: Standing)

  datatype Bundle = Bundle(claim: nat, statement: string, source: string, setting: Setting,
                           declarations: seq<Item>, selected: seq<nat>,
                           identity: string, revision: nat, limit: Option<nat>)

  /** The limits of a group whose loop runs in graph mode. */
  datatype Limits = Limits(lemmas: nat, sourceBytes: nat)

  datatype Binding = Binding(identity: Option<string>, revision: nat)

  /** The tables that one group's selection reads; contexts holds the frozen bundles. */
  datatype World = World(claims: seq<Claim>, artifacts: seq<Artifact>, claimOf: map<nat, nat>,
                         contexts: map<nat, Bundle>, binding: Binding, limits: Option<Limits>)

  datatype Problem =
    | InvalidRequest | UnknownClaim | Unbound
    | Cyclic | TooManyDeclarations | UnknownProof | Ineligible | NoClaim | EditedProof | EditedPrerequisite
    | OverConfiguredLimit | Invalid

  predicate Has(items: seq<Item>, id: nat) {
    exists i | 0 <= i < |items| :: items[i].proof == id
  }

  /** The item for this proof. */
  function Find(items: seq<Item>, id: nat): (i: nat)
    requires Has(items, id)
    ensures i < |items| && items[i].proof == id
  {
    if items[|items| - 1].proof == id then |items| - 1 else Find(items[..|items| - 1], id)
  }

  function ItemIds(items: seq<Item>): (ids: seq<nat>)
    ensures |ids| == |items| && forall i | 0 <= i < |items| :: ids[i] == items[i].proof
  {
    seq(|items|, i requires 0 <= i < |items| => items[i].proof)
  }

  predicate Distinct<T(==)>(s: seq<T>) {
    forall i, j | 0 <= i < j < |s| :: s[i] != s[j]
  }

  // -------------------------------------------------------------- one proof

  function Prior(w: World, id: nat): seq<Item> {
    if id in w.contexts then w.contexts[id].declarations else []
  }

  /** What selection writes for this proof today. */
  function Entry(w: World, id: nat): Item
    requires id < |w.artifacts| && id in w.claimOf
  {
    Item(w.claimOf[id], id, Lemma(id), w.artifacts[id].statement, w.artifacts[id].source, ItemIds(Prior(w, id)))
  }

  predicate SameSource(b: Bundle, a: Artifact) {
    b.statement == a.statement && b.source == a.source && b.setting == a.setting
  }

  /** The tests on a proof's own rows, in the order they are made. */
  function Inspect(w: World, setting: Setting, id: nat): Option<Problem> {
    if id >= |w.artifacts| then Some(UnknownProof)
    else if w.binding.identity.None? || w.artifacts[id].standing != Verified(w.binding.identity.value)
            || w.artifacts[id].setting != setting then Some(Ineligible)
    else if id !in w.claimOf then Some(NoClaim)
    else if id in w.contexts && !SameSource(w.contexts[id], w.artifacts[id]) then Some(EditedProof)
    else None
  }

  /** A proof that may be used in this setting: the verifier in force verified it in exactly this
      setting, it is linked to a claim, and nobody edited it after its own context was frozen. */
  predicate Eligible(w: World, setting: Setting, id: nat) {
    && id < |w.artifacts| && w.binding.identity.Some?
    && w.artifacts[id].standing == Verified(w.binding.identity.value)
    && w.artifacts[id].setting == setting
    && id in w.claimOf
    && (id in w.contexts ==>
          && w.contexts[id].statement == w.artifacts[id].statement
          && w.contexts[id].source == w.artifacts[id].source
          && w.contexts[id].setting == w.artifacts[id].setting)
  }

  /** The tests let exactly the eligible proofs through, and name the first reason against the others. */
  lemma InspectIff(w: World, setting: Setting, id: nat)
    ensures Inspect(w, setting, id).None? <==> Eligible(w, setting, id)
    ensures Inspect(w, setting, id) == Some(UnknownProof) <==> id >= |w.artifacts|
    ensures Inspect(w, setting, id) == Some(Ineligible) <==>
              id < |w.artifacts| && !(w.binding.identity.Some? && w.artifacts[id].standing == Verified(w.binding.identity.value)
                                      && w.artifacts[id].setting == setting)
    ensures Inspect(w, setting, id) == Some(NoClaim) ==> id !in w.claimOf
    ensures Inspect(w, setting, id) == Some(EditedProof) ==> id in w.contexts && !SameSource(w.contexts[id], w.artifacts[id])
  {
  }

  // ------------------------------------------------------------- the search

  /** The nested function visit: the declarations after visiting id. */
  function Visit(w: World, setting: Setting, chosen: seq<Item>, active: set<nat>, id: nat): Result<seq<Item>, Problem>
    requires |active| <= MAX_DECLARATIONS
    decreases MAX_DECLARATIONS - |active|, 0
  {
    if id in active then Err(Cyclic)
    else if Has(chosen, id) then Ok(chosen)
    else if |chosen| + |active| >= MAX_DECLARATIONS then Err(TooManyDeclarations)
    else
      match Inspect(w, setting, id)
      case Some(problem) => Err(problem)
      case None =>
        match VisitAll(w, setting, chosen, active + {id}, Prior(w, id))
        case Err(problem) => Err(problem)
        case Ok(items) => Ok(items + [Entry(w, id)])
  }

  /** The loop over a prior bundle: each item is visited, then compared. */
  function VisitAll(w: World, setting: Setting, chosen: seq<Item>, active: set<nat>, prior: seq<Item>)
    : Result<seq<Item>, Problem>
    requires |active| <= MAX_DECLARATIONS
    decreases MAX_DECLARATIONS - |active|, 1, |prior|
  {
    if prior == [] then Ok(chosen)
    else
      match VisitAll(w, setting, chosen, active, prior[..|prior| - 1])
      case Err(problem) => Err(problem)
      case Ok(items) => VisitOne(w, setting, items, active, prior[|prior| - 1])
  }

  function VisitOne(w: World, setting: Setting, items: seq<Item>, active: set<nat>, item: Item)
    : Result<seq<Item>, Problem>
    requires |active| <= MAX_DECLARATIONS
    decreases MAX_DECLARATIONS - |active|, 1, 0
  {
    match Visit(w, setting, items, active, item.proof)
    case Err(problem) => Err(problem)
    case Ok(more) => if item in more then Ok(more) else Err(EditedPrerequisite)
  }

  /** The loop over the request. */
  function Resolve(w: World, setting: Setting, request: seq<nat>): Result<seq<Item>, Problem> {
    if request == [] then Ok([])
    else
      match Resolve(w, setting, request[..|request| - 1])
      case Err(problem) => Err(problem)
      case Ok(items) => Visit(w, setting, items, {}, request[|request| - 1])
  }

  // ------------------------------------------------------------- soundness

  /** Item i describes an eligible proof, and every lemma of its frozen bundle stands before it. */
  ghost predicate Sound(w: World, setting: Setting, items: seq<Item>, i: nat)
    requires i < |items|
  {
    && Eligible(w, setting, items[i].proof)
    && items[i] == Entry(w, items[i].proof)
    && (forall p | p in Prior(w, items[i].proof) :: p in items[..i])
  }

  ghost predicate Settled(w: World, setting: Setting, items: seq<Item>) {
    && (forall i {:trigger Sound(w, setting, items, i)} | 0 <= i < |items| :: Sound(w, setting, items, i))
    && Distinct(ItemIds(items))
  }

  ghost predicate Apart(items: seq<Item>, active: set<nat>) {
    forall i | 0 <= i < |items| :: items[i].proof !in active
  }

  lemma SettledAppend(w: World, setting: Setting, items: seq<Item>, id: nat)
    requires Settled(w, setting, items) && !Has(items, id) && Eligible(w, setting, id)
    requires forall p | p in Prior(w, id) :: p in items
    ensures Settled(w, setting, items + [Entry(w, id)])
  {
    var more := items + [Entry(w, id)];
    forall i | 0 <= i < |more| ensures Sound(w, setting, more, i) {
      assert more[..i] == items[..i];
      assert i < |items| ==> Sound(w, setting, items, i);
      assert items[..|items|] == items;
    }
  }

  lemma {:induction false} VisitSound(w: World, setting: Setting, chosen: seq<Item>, active: set<nat>, id: nat)
    requires Settled(w, setting, chosen) && Apart(chosen, active) && |chosen| + |active| <= MAX_DECLARATIONS
    requires Visit(w, setting, chosen, active, id).Ok?
    ensures var items := Visit(w, setting, chosen, active, id).value;
            Visited(w, setting, chosen, active, items) && Has(items, id)
    decreases MAX_DECLARATIONS - |active|, 0
  {
    if !Has(chosen, id) {
      VisitAllSound(w, setting, chosen, active + {id}, Prior(w, id));
      var items := VisitAll(w, setting, chosen, active + {id}, Prior(w, id)).value;
      InspectIff(w, setting, id);
      SettledAppend(w, setting, items, id);
      assert (items + [Entry(w, id)])[|items|].proof == id;
    }
  }

  /** What a visit leaves behind, besides what it started from. */
  ghost predicate Visited(w: World, setting: Setting, chosen: seq<Item>, active: set<nat>, items: seq<Item>) {
    && chosen <= items && Settled(w, setting, items) && Apart(items, active)
    && |items| + |active| <= MAX_DECLARATIONS
  }

  lemma VisitedAfter(w: World, setting: Setting, chosen: seq<Item>, active: set<nat>, mid: seq<Item>, items: seq<Item>, prior: seq<Item>)
    requires Visited(w, setting, chosen, active, mid) && Visited(w, setting, mid, active, items) && prior != []
    requires (forall p | p in prior[..|prior| - 1] :: p in mid) && prior[|prior| - 1] in items
    ensures Visited(w, setting, chosen, active, items) && forall p | p in prior :: p in items
  {
    assert prior == prior[..|prior| - 1] + [prior[|prior| - 1]];
    assert mid <= items;
    forall p | p in prior ensures p in items {
      if p in mid {
        var i :| 0 <= i < |mid| && mid[i] == p;
        assert items[i] == p;
      }
    }
  }

  lemma {:induction false} VisitAllSound(w: World, setting: Setting, chosen: seq<Item>, active: set<nat>, prior: seq<Item>)
    requires Settled(w, setting, chosen) && Apart(chosen, active) && |chosen| + |active| <= MAX_DECLARATIONS
    requires VisitAll(w, setting, chosen, active, prior).Ok?
    ensures var items := VisitAll(w, setting, chosen, active, prior).value;
            Visited(w, setting, chosen, active, items) && (forall p | p in prior :: p in items)
    decreases MAX_DECLARATIONS - |active|, 1, |prior|
  {
    if prior != [] {
      var front, last := prior[..|prior| - 1], prior[|prior| - 1];
      VisitAllSound(w, setting, chosen, active, front);
      var mid := VisitAll(w, setting, chosen, active, front).value;
      VisitSound(w, setting, mid, active, last.proof);
      VisitedAfter(w, setting, chosen, active, mid, VisitAll(w, setting, chosen, active, prior).value, prior);
    }
  }

  lemma {:induction false} ResolveSound(w: World, setting: Setting, request: seq<nat>)
    requires Resolve(w, setting, request).Ok?
    ensures var items := Resolve(w, setting, request).value;
            && Settled(w, setting, items) && |items| <= MAX_DECLARATIONS && (forall id | id in request :: Has(items, id))
  {
    if request != [] {
      var front := request[..|request| - 1];
      ResolveSound(w, setting, front);
      VisitSound(w, setting, Resolve(w, setting, front).value, {}, request[|request| - 1]);
      forall id | id in request ensures Has(Resolve(w, setting, request).value, id) {
        HasMore(Resolve(w, setting, front).value, Resolve(w, setting, request).value);
        assert request == front + [request[|request| - 1]];
      }
    }
  }

  lemma HasMore(items: seq<Item>, more: seq<Item>)
    requires items <= more
    ensures forall id | Has(items, id) :: Has(more, id)
  {
    forall id | Has(items, id) ensures Has(more, id) {
      var i :| 0 <= i < |items| && items[i].proof == id;
      assert more[i].proof == id;
    }
  }

  // --------------------------------------------------------------- closure

  /** The lemmas that a proof of s was checked with are in s as well. */
  ghost predicate Closed(w: World, s: set<nat>) {
    forall id, p | id in s && p in Prior(w, id) :: p.proof in s
  }

  ghost predicate Within(items: seq<Item>, s: set<nat>) {
    forall i | 0 <= i < |items| :: items[i].proof in s
  }

  lemma {:induction false} VisitWithin(w: World, setting: Setting, chosen: seq<Item>, active: set<nat>, id: nat, s: set<nat>)
    requires |active| <= MAX_DECLARATIONS && Closed(w, s) && Within(chosen, s) && id in s
    requires Visit(w, setting, chosen, active, id).Ok?
    ensures Within(Visit(w, setting, chosen, active, id).value, s)
    decreases MAX_DECLARATIONS - |active|, 0
  {
    if !Has(chosen, id) {
      VisitAllWithin(w, setting, chosen, active + {id}, Prior(w, id), s);
    }
  }

  lemma {:induction false} VisitAllWithin(w: World, setting: Setting, chosen: seq<Item>, active: set<nat>, prior: seq<Item>, s: set<nat>)
    requires |active| <= MAX_DECLARATIONS && Closed(w, s) && Within(chosen, s) && forall p | p in prior :: p.proof in s
    requires VisitAll(w, setting, chosen, active, prior).Ok?
    ensures Within(VisitAll(w, setting, chosen, active, prior).value, s)
    decreases MAX_DECLARATIONS - |active|, 1, |prior|
  {
    if prior != [] {
      var front := prior[..|prior| - 1];
      VisitAllWithin(w, setting, chosen, active, front, s);
      VisitWithin(w, setting, VisitAll(w, setting, chosen, active, front).value, active, prior[|prior| - 1].proof, s);
    }
  }

  lemma {:induction false} ResolveWithin(w: World, setting: Setting, request: seq<nat>, s: set<nat>)
    requires Resolve(w, setting, request).Ok? && Closed(w, s) && forall id | id in request :: id in s
    ensures Within(Resolve(w, setting, request).value, s)
  {
    if request != [] {
      var front := request[..|request| - 1];
      ResolveWithin(w, setting, front, s);
      VisitWithin(w, setting, Resolve(w, setting, front).value, {}, request[|request| - 1], s);
    }
  }

  function IdSet(items: seq<Item>): (s: set<nat>)
    ensures forall id :: id in s <==> Has(items, id)
  {
    set i | 0 <= i < |items| :: items[i].proof
  }

  lemma SettledClosed(w: World, setting: Setting, items: seq<Item>)
    requires Settled(w, setting, items)
    ensures Closed(w, IdSet(items))
  {
    forall id, p | id in IdSet(items) && p in Prior(w, id) ensures p.proof in IdSet(items) {
      var i :| 0 <= i < |items| && items[i].proof == id;
      assert Sound(w, setting, items, i);
      assert p in items[..i];
    }
  }

  /** A successful selection is the least closed set above the request: each proof once, after
      everything it was checked with, and described exactly as its rows are today. */
  lemma ResolveIsLeastClosure(w: World, setting: Setting, request: seq<nat>)
    requires Resolve(w, setting, request).Ok?
    ensures var items := Resolve(w, setting, request).value;
            && Settled(w, setting, items)
            && (forall id | id in request :: id in IdSet(items)) && Closed(w, IdSet(items))
            && (forall s: set<nat> | Closed(w, s) && (forall id | id in request :: id in s) :: IdSet(items) <= s)
  {
    var items := Resolve(w, setting, request).value;
    ResolveSound(w, setting, request);
    SettledClosed(w, setting, items);
    forall s: set<nat> | Closed(w, s) && (forall id | id in request :: id in s) ensures IdSet(items) <= s {
      ResolveWithin(w, setting, request, s);
    }
  }

  // ------------------------------------------------------------ completeness

  /** order lists at most eight eligible proofs, the requested ones among them, each after the
      lemmas of its frozen bundle, all of which are recorded there exactly as they are now. */
  ghost predicate Admissible(w: World, setting: Setting, request: seq<nat>, order: seq<nat>) {
    && |order| <= MAX_DECLARATIONS
    && (forall id | id in request :: id in order)
    && (forall i | 0 <= i < |order| :: Fits(w, setting, order[i], order[..i]))
  }

  ghost predicate Fits(w: World, setting: Setting, id: nat, before: seq<nat>) {
    && Eligible(w, setting, id)
    && Recorded(w, Prior(w, id), before)
  }

  ghost predicate Recorded(w: World, prior: seq<Item>, before: seq<nat>) {
    forall p | p in prior ::
      p.proof in before && p.proof < |w.artifacts| && p.proof in w.claimOf && p == Entry(w, p.proof)
  }

  function Members(order: seq<nat>): (s: set<nat>)
    ensures forall id :: id in s <==> id in order
    ensures |s| <= |order|
  {
    if order == [] then {}
    else
      assert order == order[..|order| - 1] + [order[|order| - 1]];
      Members(order[..|order| - 1]) + {order[|order| - 1]}
  }

  lemma {:induction false} IdCount(items: seq<Item>)
    requires Distinct(ItemIds(items))
    ensures |IdSet(items)| == |items|
  {
    if items != [] {
      var front := items[..|items| - 1];
      forall i, j | 0 <= i < j < |front| ensures ItemIds(front)[i] != ItemIds(front)[j] {
        assert ItemIds(items)[i] != ItemIds(items)[j];
      }
      IdCount(front);
      var last := items[|items| - 1].proof;
      forall i | 0 <= i < |front| ensures front[i].proof != last {
        assert ItemIds(items)[i] != ItemIds(items)[|items| - 1];
      }
      assert IdSet(items) == IdSet(front) + {last} by {
        HasMore(front, items);
        assert items[|items| - 1].proof == last;
      }
    }
  }

  /** The recursion's own limit test lets every proof of an admissible order through. */
  lemma RoomLeft(items: seq<Item>, active: set<nat>, order: seq<nat>, id: nat)
    requires Distinct(ItemIds(items)) && Apart(items, active) && |order| <= MAX_DECLARATIONS
    requires Within(items, Members(order)) && active <= Members(order) && id in order
    requires id !in active && !Has(items, id)
    ensures |items| + |active| < MAX_DECLARATIONS
  {
    IdCount(items);
    assert IdSet(items) <= Members(order) && IdSet(items) !! active;
    Fewer(IdSet(items), active, Members(order), id);
  }

  lemma Fewer(a: set<nat>, b: set<nat>, all: set<nat>, id: nat)
    requires a !! b && a <= all && b <= all && id in all && id !in a && id !in b
    ensures |a| + |b| < |all|
  {
    Smaller(a + b, all - {id});
    assert |a + b| == |a| + |b|;
  }

  lemma {:induction false} Smaller(a: set<nat>, b: set<nat>)
    requires a <= b
    ensures |a| <= |b|
  {
    if a != {} {
      var x :| x in a;
      Smaller(a - {x}, b - {x});
    }
  }

  /** The proofs being visited all come later in the order than the one visited now. */
  ghost predicate Later(active: set<nat>, order: seq<nat>, n: nat)
    requires n <= |order|
  {
    forall id | id in active :: id in order && id !in order[..n]
  }

  lemma LaterWith(active: set<nat>, order: seq<nat>, n: nat)
    requires n < |order| && order[n] !in order[..n] && Later(active, order, n + 1)
    ensures Later(active + {order[n]}, order, n)
  {
    assert order[..n + 1] == order[..n] + [order[n]];
  }

  lemma {:induction false} VisitComplete(w: World, setting: Setting, chosen: seq<Item>, active: set<nat>, order: seq<nat>, n: nat)
    requires Admissible(w, setting, [], order) && n < |order| && order[n] !in order[..n]
    requires Settled(w, setting, chosen) && Apart(chosen, active) && Within(chosen, Members(order))
    requires |chosen| + |active| <= MAX_DECLARATIONS && Later(active, order, n + 1)
    ensures Visit(w, setting, chosen, active, order[n]).Ok?
    decreases MAX_DECLARATIONS - |active|, 0
  {
    var id := order[n];
    assert id in order[..n + 1];
    if !Has(chosen, id) {
      RoomLeft(chosen, active, order, id);
      assert Fits(w, setting, id, order[..n]);
      InspectIff(w, setting, id);
      LaterWith(active, order, n);
      VisitAllComplete(w, setting, chosen, active + {id}, order, n, Prior(w, id));
    }
  }

  lemma {:induction false} VisitAllComplete(w: World, setting: Setting, chosen: seq<Item>, active: set<nat>, order: seq<nat>, n: nat, prior: seq<Item>)
    requires Admissible(w, setting, [], order) && n <= |order|
    requires Settled(w, setting, chosen) && Apart(chosen, active) && Within(chosen, Members(order))
    requires |chosen| + |active| <= MAX_DECLARATIONS && Later(active, order, n)
    requires Recorded(w, prior, order[..n])
    ensures VisitAll(w, setting, chosen, active, prior).Ok?
    decreases MAX_DECLARATIONS - |active|, 1, |prior|
  {
    if prior != [] {
      var front, last := prior[..|prior| - 1], prior[|prior| - 1];
      VisitAllComplete(w, setting, chosen, active, order, n, front);
      VisitAllSound(w, setting, chosen, active, front);
      OrderClosed(w, setting, order);
      VisitAllWithin(w, setting, chosen, active, front, Members(order));
      assert Recorded(w, [last], order[..n]);
      VisitOneComplete(w, setting, VisitAll(w, setting, chosen, active, front).value, active, order, n, last);
    }
  }

  lemma {:induction false} VisitOneComplete(w: World, setting: Setting, items: seq<Item>, active: set<nat>, order: seq<nat>, n: nat, p: Item)
    requires Admissible(w, setting, [], order) && n <= |order|
    requires Settled(w, setting, items) && Apart(items, active) && Within(items, Members(order))
    requires |items| + |active| <= MAX_DECLARATIONS && Later(active, order, n)
    requires Recorded(w, [p], order[..n])
    ensures VisitOne(w, setting, items, active, p).Ok?
    decreases MAX_DECLARATIONS - |active|, 1, 0
  {
    assert p in [p];
    var k := EarlierIndex(active, order, n, p.proof);
    VisitComplete(w, setting, items, active, order, k);
    VisitSound(w, setting, items, active, p.proof);
    FoundEntry(w, setting, Visit(w, setting, items, active, p.proof).value, p.proof);
  }

  lemma EarlierIndex(active: set<nat>, order: seq<nat>, n: nat, id: nat) returns (k: nat)
    requires n <= |order| && id in order[..n] && Later(active, order, n)
    ensures k < n && order[k] == id && id !in order[..k] && Later(active, order, k + 1)
  {
    k := FirstIndex(order[..n], id);
    assert order[..n][..k] == order[..k];
    assert order[..k + 1] == order[..n][..k + 1];
  }

  lemma OrderClosed(w: World, setting: Setting, order: seq<nat>)
    requires Admissible(w, setting, [], order)
    ensures Closed(w, Members(order))
  {
    forall id, p | id in Members(order) && p in Prior(w, id) ensures p.proof in Members(order) {
      var i :| 0 <= i < |order| && order[i] == id;
      assert Fits(w, setting, order[i], order[..i]);
    }
  }

  lemma FoundEntry(w: World, setting: Setting, items: seq<Item>, id: nat)
    requires Settled(w, setting, items) && Has(items, id)
    ensures id < |w.artifacts| && id in w.claimOf && Entry(w, id) in items
  {
    var i :| 0 <= i < |items| && items[i].proof == id;
    assert Sound(w, setting, items, i);
  }

  function FirstIndex(order: seq<nat>, id: nat): (k: nat)
    requires id in order
    ensures k < |order| && order[k] == id && id !in order[..k]
  {
    if order[|order| - 1] == id && id !in order[..|order| - 1] then |order| - 1
    else
      assert order == order[..|order| - 1] + [order[|order| - 1]];
      var k := FirstIndex(order[..|order| - 1], id);
      assert order[..k] == order[..|order| - 1][..k];
      k
  }

  lemma {:induction false} ResolveComplete(w: World, setting: Setting, request: seq<nat>, order: seq<nat>)
    requires Admissible(w, setting, request, order)
    ensures Resolve(w, setting, request).Ok?
  {
    if request != [] {
      var front, last := request[..|request| - 1], request[|request| - 1];
      ResolveComplete(w, setting, front, order);
      ResolveSound(w, setting, front);
      OrderClosed(w, setting, order);
      ResolveWithin(w, setting, front, Members(order));
      VisitComplete(w, setting, Resolve(w, setting, front).value, {}, order, FirstIndex(order, last));
    }
  }

  /** Selection succeeds exactly when some admissible order exists. */
  lemma ResolveIff(w: World, setting: Setting, request: seq<nat>)
    ensures Resolve(w, setting, request).Ok? <==> exists order :: Admissible(w, setting, request, order)
  {
    if Resolve(w, setting, request).Ok? {
      var items := Resolve(w, setting, request).value;
      ResolveSound(w, setting, request);
      SettledAdmissible(w, setting, items);
      assert Admissible(w, setting, request, ItemIds(items)) by {
        forall id | id in request ensures id in ItemIds(items) {
          assert Has(items, id);
        }
      }
    }
    if order :| Admissible(w, setting, request, order) {
      ResolveComplete(w, setting, request, order);
    }
  }

  lemma SettledAdmissible(w: World, setting: Setting, items: seq<Item>)
    requires Settled(w, setting, items) && |items| <= MAX_DECLARATIONS
    ensures Admissible(w, setting, [], ItemIds(items))
  {
    forall i | 0 <= i < |items| ensures Fits(w, setting, ItemIds(items)[i], ItemIds(items)[..i]) {
      assert Sound(w, setting, items, i);
      forall p | p in Prior(w, items[i].proof)
        ensures p.proof in ItemIds(items)[..i] && p.proof < |w.artifacts| && p.proof in w.claimOf && p == Entry(w, p.proof)
      {
        var k :| 0 <= k < i && items[..i][k] == p;
        assert Sound(w, setting, items, k);
        assert ItemIds(items)[..i][k] == p.proof;
      }
    }
  }
}
