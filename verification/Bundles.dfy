/**
 Building and checking a whole bundle: selected_bundle around the search of module
 Selection, with the search itself as the coordinator runs it, on shared mutable lists; and
 validate_bundle, one pass over the declarations.
 */
module Bundles {
  import opened Basics
  import opened Selection

  // ------------------------------------------------------------------ depth

  /** A proof with no prerequisites has depth 1; others are one deeper than their deepest one. */
  function Depth(items: seq<Item>, i: nat): nat
    requires i < |items|
    decreases i, 1, 0
  {
    1 + Deepest(items, i, items[i].prerequisites)
  }

  function Deepest(items: seq<Item>, i: nat, ids: seq<nat>): nat
    requires i < |items|
    decreases i, 0, |ids|
  {
    if ids == [] then 0
    else
      var rest := Deepest(items, i, ids[..|ids| - 1]);
      var last := ids[|ids| - 1];
      if Has(items[..i], last) then Max(rest, Depth(items, Find(items[..i], last))) else rest
  }

  /** A declaration is never deeper than its place in the list. */
  lemma {:induction false} DepthWithinPlace(items: seq<Item>, i: nat)
    requires i < |items|
    ensures Depth(items, i) <= i + 1
    decreases i, 1, 0
  {
    DeepestWithinPlace(items, i, items[i].prerequisites);
  }

  lemma {:induction false} DeepestWithinPlace(items: seq<Item>, i: nat, ids: seq<nat>)
    requires i < |items|
    ensures Deepest(items, i, ids) <= i
    decreases i, 0, |ids|
  {
    if ids != [] {
      DeepestWithinPlace(items, i, ids[..|ids| - 1]);
      var last := ids[|ids| - 1];
      if Has(items[..i], last) {
        DepthWithinPlace(items, Find(items[..i], last));
      }
    }
  }

  /** A declaration is one deeper than its deepest prerequisite, and of depth 1 without any. */
  lemma DepthRule(items: seq<Item>, i: nat)
    requires i < |items| && forall d | d in items[i].prerequisites :: Has(items[..i], d)
    ensures forall d | d in items[i].prerequisites :: Depth(items, Find(items[..i], d)) < Depth(items, i)
    ensures if items[i].prerequisites == [] then Depth(items, i) == 1
            else exists d | d in items[i].prerequisites :: Depth(items, i) == 1 + Depth(items, Find(items[..i], d))
  {
    DeepestOf(items, i, items[i].prerequisites);
  }

  lemma {:induction false} DeepestOf(items: seq<Item>, i: nat, ids: seq<nat>)
    requires i < |items| && forall d | d in ids :: Has(items[..i], d)
    ensures forall d | d in ids :: Depth(items, Find(items[..i], d)) <= Deepest(items, i, ids)
    ensures if ids == [] then Deepest(items, i, ids) == 0
            else exists d | d in ids :: Deepest(items, i, ids) == Depth(items, Find(items[..i], d))
  {
    if ids != [] {
      var front, last := ids[..|ids| - 1], ids[|ids| - 1];
      assert ids == front + [last];
      DeepestOf(items, i, front);
      assert Has(items[..i], last);
      if front != [] {
        var d :| d in front && Deepest(items, i, front) == Depth(items, Find(items[..i], d));
        assert d in ids;
      }
    }
  }

  // ------------------------------------------------------------------- size

  /** Encoded bytes of one item, of one selected identifier, and of all the other fields, which the
      bundle with both lists taken out still has. */
  datatype Sizes = Sizes(item: Item -> nat, id: nat -> nat, rest: Bundle -> nat)

  /** A JSON list: brackets, and a comma between neighbours. */
  function ListBytes<T>(s: seq<T>, bytes: T -> nat): (n: nat)
    ensures n >= 2
  {
    if s == [] then 2
    else if |s| == 1 then 2 + bytes(s[0])
    else ListBytes(s[..|s| - 1], bytes) + 1 + bytes(s[|s| - 1])
  }

  lemma {:induction false} ListBytesGrow<T>(s: seq<T>, t: seq<T>, bytes: T -> nat)
    requires s <= t
    ensures ListBytes(s, bytes) <= ListBytes(t, bytes)
  {
    if s == t {
    } else {
      ListBytesGrow(s, t[..|t| - 1], bytes);
    }
  }

  function Encoded(z: Sizes, b: Bundle): nat {
    z.rest(b.(declarations := [], selected := [])) + ListBytes(b.declarations, z.item) + ListBytes(b.selected, z.id)
  }

  function ByteLimit(b: Bundle): int {
    if b.limit.Some? then Min(MAX_SOURCE_BYTES, b.limit.value) else MAX_SOURCE_BYTES
  }

  // ------------------------------------------------------------- validation

  datatype Fault = NoVerifier | TooMany | Renamed | Duplicate | Unordered | TooDeep | WrongSelection | TooLarge

  predicate Ordered(items: seq<Item>, i: nat)
    requires i < |items|
  {
    Distinct(items[i].prerequisites) && forall d | d in items[i].prerequisites :: Has(items[..i], d)
  }

  /** The declarations say what validate_bundle requires of them, except for their depth. */
  predicate Structured(items: seq<Item>) {
    && |items| <= MAX_DECLARATIONS
    && (forall i | 0 <= i < |items| :: items[i].name == Lemma(items[i].proof))
    && Distinct(ItemIds(items))
    && (forall i {:trigger Ordered(items, i)} | 0 <= i < |items| :: Ordered(items, i))
  }

  predicate Selects(b: Bundle) {
    Distinct(b.selected) && forall id | id in b.selected :: Has(b.declarations, id)
  }

  predicate WellFormed(z: Sizes, b: Bundle) {
    && b.identity != ""
    && Structured(b.declarations)
    && (forall i | 0 <= i < |b.declarations| :: Depth(b.declarations, i) <= MAX_DEPTH)
    && Selects(b)
    && Encoded(z, b) <= ByteLimit(b)
  }

  /** What a valid bundle is, without depths: up to eight declarations under their own names, no proof
      twice, each after its prerequisites, the selected proofs among them, and an encoding within both limits. */
  lemma ValidIff(z: Sizes, b: Bundle)
    ensures WellFormed(z, b)
       <==> && b.identity != "" && |b.declarations| <= 8
            && (forall i | 0 <= i < |b.declarations| ::
                  && b.declarations[i].name == Lemma(b.declarations[i].proof) && Distinct(b.declarations[i].prerequisites)
                  && (forall j | 0 <= j < i :: b.declarations[j].proof != b.declarations[i].proof)
                  && (forall d | d in b.declarations[i].prerequisites :: exists j | 0 <= j < i :: b.declarations[j].proof == d))
            && Distinct(b.selected)
            && (forall id | id in b.selected :: exists i | 0 <= i < |b.declarations| :: b.declarations[i].proof == id)
            && Encoded(z, b) <= 32 * 1024 && (b.limit.Some? ==> Encoded(z, b) <= b.limit.value)
  {
    var items := b.declarations;
    forall i | 0 <= i < |items|
      ensures Depth(items, i) <= i + 1
      ensures Ordered(items, i) <==> Distinct(items[i].prerequisites)
                                     && forall d | d in items[i].prerequisites :: exists j | 0 <= j < i :: items[j].proof == d
    {
      DepthWithinPlace(items, i);
      forall d ensures Has(items[..i], d) <==> exists j | 0 <= j < i :: items[j].proof == d {
        if j :| 0 <= j < i && items[j].proof == d {
          assert items[..i][j].proof == d;
        }
      }
    }
    forall i, j | 0 <= j < i < |items| ensures items[j].proof == ItemIds(items)[j] && items[i].proof == ItemIds(items)[i] {
    }
  }

  /** What each refusal tells the caller. The depth limit of 8 is never the reason: it follows
      from the limit of 8 declarations. */
  predicate Shows(z: Sizes, b: Bundle, fault: Fault) {
    match fault
    case NoVerifier => b.identity == ""
    case TooMany => |b.declarations| > MAX_DECLARATIONS
    case Renamed => exists i | 0 <= i < |b.declarations| :: b.declarations[i].name != Lemma(b.declarations[i].proof)
    case Duplicate => !Distinct(ItemIds(b.declarations))
    case Unordered => exists i | 0 <= i < |b.declarations| :: !Ordered(b.declarations, i)
    case TooDeep => false
    case WrongSelection => !Selects(b)
    case TooLarge => Encoded(z, b) > ByteLimit(b)
  }

  /** The running sets of validate_bundle after the first n declarations. */
  ghost predicate Scanned(items: seq<Item>, n: nat, seen: set<nat>, names: set<Name>, depths: map<nat, nat>)
    requires n <= |items|
  {
    && seen == IdSet(items[..n]) && depths.Keys == seen
    && (forall name :: name in names <==> name.proof in seen)
    && (forall i | 0 <= i < n :: items[i].name == Lemma(items[i].proof))
    && Distinct(ItemIds(items[..n]))
    && (forall i {:trigger Ordered(items, i)} | 0 <= i < n :: Ordered(items, i))
    && (forall i {:trigger Depth(items, i)} | 0 <= i < n :: depths[items[i].proof] == Depth(items, i))
  }

  lemma ScanNext(items: seq<Item>, n: nat, seen: set<nat>, names: set<Name>, depths: map<nat, nat>)
    requires n < |items| && Scanned(items, n, seen, names, depths)
    requires items[n].name == Lemma(items[n].proof) && items[n].proof !in seen && Ordered(items, n)
    ensures Scanned(items, n + 1, seen + {items[n].proof}, names + {items[n].name},
                    depths[items[n].proof := Depth(items, n)])
  {
    DistinctNext(items, n);
    forall id ensures Has(items[..n + 1], id) <==> id in seen + {items[n].proof} {
      HasNext(items, n, id);
    }
    forall i | 0 <= i < n ensures items[i].proof in seen {
      assert items[..n][i].proof == items[i].proof;
    }
  }

  lemma HasNext(items: seq<Item>, n: nat, id: nat)
    requires n < |items|
    ensures Has(items[..n + 1], id) <==> Has(items[..n], id) || items[n].proof == id
  {
    if Has(items[..n + 1], id) && items[n].proof != id {
      var i :| 0 <= i < n + 1 && items[..n + 1][i].proof == id;
      assert items[..n][i].proof == id;
    }
    if Has(items[..n], id) {
      var i :| 0 <= i < n && items[..n][i].proof == id;
      assert items[..n + 1][i].proof == id;
    }
    if items[n].proof == id {
      assert items[..n + 1][n].proof == id;
    }
  }

  lemma DistinctNext(items: seq<Item>, n: nat)
    requires n < |items| && Distinct(ItemIds(items[..n])) && !Has(items[..n], items[n].proof)
    ensures Distinct(ItemIds(items[..n + 1]))
  {
    var ids := ItemIds(items[..n + 1]);
    forall i, j | 0 <= i < j < n + 1 ensures ids[i] != ids[j] {
      assert items[..n][i].proof == items[i].proof;
      if j < n {
        assert ItemIds(items[..n])[i] != ItemIds(items[..n])[j];
      }
    }
  }

  lemma NotDistinct(items: seq<Item>, n: nat)
    requires n < |items| && Has(items[..n], items[n].proof)
    ensures !Distinct(ItemIds(items))
  {
    var i :| 0 <= i < n && items[..n][i].proof == items[n].proof;
    assert ItemIds(items)[i] == ItemIds(items)[n];
  }

  /** 1 + max(depths[p] for p in dependencies) */
  method DepthOf(items: seq<Item>, n: nat, seen: set<nat>, names: set<Name>, depths: map<nat, nat>) returns (depth: nat)
    requires n < |items| && Scanned(items, n, seen, names, depths) && Ordered(items, n)
    ensures depth == Depth(items, n)
  {
    var ids := items[n].prerequisites;
    var deepest := 0;
    for k := 0 to |ids|
      invariant deepest == Deepest(items, n, ids[..k])
    {
      assert ids[..k + 1][..k] == ids[..k];
      assert Has(items[..n], ids[k]);
      var i := Find(items[..n], ids[k]);
      assert depths[items[i].proof] == Depth(items, i);
      if depths[ids[k]] > deepest {
        deepest := depths[ids[k]];
      }
    }
    assert ids[..|ids|] == ids;
    depth := 1 + deepest;
  }

  /** validate_bundle */
  method Validate(z: Sizes, b: Bundle) returns (fault: Option<Fault>)
    ensures fault.None? <==> WellFormed(z, b)
    ensures fault.Some? ==> Shows(z, b, fault.value)
  {
    if b.identity == "" {
      return Some(NoVerifier);
    }
    var items := b.declarations;
    if |items| > MAX_DECLARATIONS {
      return Some(TooMany);
    }
    var seen: set<nat>, names: set<Name>, depths: map<nat, nat> := {}, {}, map[];
    for n := 0 to |items|
      invariant Scanned(items, n, seen, names, depths)
    {
      var item := items[n];
      if item.name != Lemma(item.proof) {
        return Some(Renamed);
      }
      if item.proof in seen || item.name in names {
        NotDistinct(items, n);
        return Some(Duplicate);
      }
      if !Distinct(item.prerequisites) || !(forall d | d in item.prerequisites :: d in seen) {
        assert !Ordered(items, n);
        return Some(Unordered);
      }
      assert Ordered(items, n);
      var depth := DepthOf(items, n, seen, names, depths);
      DepthWithinPlace(items, n);
      if depth > MAX_DEPTH {  // would be TooDeep
        assert false;
      }
      ScanNext(items, n, seen, names, depths);
      seen, names, depths := seen + {item.proof}, names + {item.name}, depths[item.proof := depth];
    }
    assert items[..|items|] == items;
    forall i | 0 <= i < |items| ensures Depth(items, i) <= MAX_DEPTH {
      DepthWithinPlace(items, i);
    }
    if !Distinct(b.selected) || !(forall id | id in b.selected :: id in seen) {
      return Some(WrongSelection);
    }
    if Encoded(z, b) > ByteLimit(b) {
      return Some(TooLarge);
    }
    fault := None;
  }

  // --------------------------------------------------------- selected_bundle

  function Assemble(w: World, c: nat, source: string, request: seq<nat>, items: seq<Item>): Bundle
    requires c < |w.claims| && w.binding.identity.Some?
  {
    Bundle(c, w.claims[c].statement, source, w.claims[c].setting, items, request,
           w.binding.identity.value, w.binding.revision,
           if w.limits.Some? then Some(w.limits.value.sourceBytes) else None)
  }

  function Select(w: World, z: Sizes, c: nat, source: string, request: seq<nat>): Result<Bundle, Problem> {
    if |request| > MAX_DECLARATIONS || !Distinct(request) then Err(InvalidRequest)
    else if c >= |w.claims| then Err(UnknownClaim)
    else if w.binding.identity.None? || w.binding.identity.value == "" then Err(Unbound)
    else
      match Resolve(w, w.claims[c].setting, request)
      case Err(problem) => Err(problem)
      case Ok(items) =>
        var b := Assemble(w, c, source, request, items);
        if w.limits.Some? && |items| > w.limits.value.lemmas then Err(OverConfiguredLimit)
        else if !WellFormed(z, b) then Err(Invalid)
        else Ok(b)
  }

  /** Frozen bundles were validated, so none of them lists a proof twice. */
  ghost predicate Frozen(w: World) {
    forall id | id in w.contexts :: Distinct(ItemIds(w.contexts[id].declarations))
  }

  /** What selection resolves has the structure that validate_bundle demands. */
  lemma SettledStructured(w: World, setting: Setting, items: seq<Item>)
    requires Frozen(w) && Settled(w, setting, items) && |items| <= MAX_DECLARATIONS
    ensures Structured(items)
  {
    forall i | 0 <= i < |items| ensures items[i].name == Lemma(items[i].proof) && Ordered(items, i) {
      assert Sound(w, setting, items, i);
      SoundOrdered(w, setting, items, i);
    }
  }

  lemma SoundOrdered(w: World, setting: Setting, items: seq<Item>, i: nat)
    requires Frozen(w) && i < |items| && Sound(w, setting, items, i)
    ensures Ordered(items, i)
  {
    var prior := Prior(w, items[i].proof);
    forall d | d in items[i].prerequisites ensures Has(items[..i], d) {
      var k :| 0 <= k < |prior| && prior[k].proof == d;
      assert prior[k] in items[..i];
    }
  }

  /** A selection of frozen proofs that resolves can fail only on its size: it is well formed if
      and only if its encoding fits, whatever the depth of its prerequisites. */
  lemma ResolvedWellFormed(w: World, z: Sizes, c: nat, source: string, request: seq<nat>)
    requires Frozen(w) && c < |w.claims| && w.binding.identity.Some? && w.binding.identity.value != ""
    requires |request| <= MAX_DECLARATIONS && Distinct(request)
    requires Resolve(w, w.claims[c].setting, request).Ok?
    ensures var b := Assemble(w, c, source, request, Resolve(w, w.claims[c].setting, request).value);
            WellFormed(z, b) <==> Encoded(z, b) <= ByteLimit(b)
  {
    var items := Resolve(w, w.claims[c].setting, request).value;
    ResolveSound(w, w.claims[c].setting, request);
    SettledStructured(w, w.claims[c].setting, items);
    forall i | 0 <= i < |items| ensures Depth(items, i) <= MAX_DEPTH {
      DepthWithinPlace(items, i);
    }
  }

  // ------------------------------------------------------- dropping the last

  lemma {:induction false} ResolvePrefix(w: World, setting: Setting, request: seq<nat>, n: nat)
    requires n <= |request| && Resolve(w, setting, request).Ok?
    ensures Resolve(w, setting, request[..n]).Ok?
    ensures Resolve(w, setting, request[..n]).value <= Resolve(w, setting, request).value
  {
    if n == |request| {
      assert request[..n] == request;
    } else {
      var front := request[..|request| - 1];
      assert front[..n] == request[..n];
      ResolvePrefix(w, setting, front, n);
      ResolveSound(w, setting, front);
      VisitSound(w, setting, Resolve(w, setting, front).value, {}, request[|request| - 1]);
    }
  }

  lemma {:induction false} StructuredPrefix(items: seq<Item>, n: nat)
    requires Structured(items) && n <= |items|
    ensures Structured(items[..n])
  {
    forall i | 0 <= i < n ensures Ordered(items[..n], i) {
      assert Ordered(items, i) && items[..n][..i] == items[..i];
    }
    var ids := ItemIds(items[..n]);
    forall i, j | 0 <= i < j < n ensures ids[i] != ids[j] {
      assert ItemIds(items)[i] != ItemIds(items)[j];
    }
  }

  /** Popping selected proofs off the end never fails, and keeps what stays exactly as it was:
      the declarations of the shorter request are a prefix of the longer one's. */
  lemma SelectPrefix(w: World, z: Sizes, c: nat, source: string, request: seq<nat>, n: nat)
    requires n <= |request| && Select(w, z, c, source, request).Ok?
    ensures var b := Select(w, z, c, source, request[..n]);
            && b.Ok? && b.value.selected == request[..n]
            && b.value.declarations <= Select(w, z, c, source, request).value.declarations
            && Encoded(z, b.value) <= Encoded(z, Select(w, z, c, source, request).value)
  {
    var setting := w.claims[c].setting;
    var items := Resolve(w, setting, request).value;
    ResolvePrefix(w, setting, request, n);
    var fewer := Resolve(w, setting, request[..n]).value;
    assert fewer == items[..|fewer|];
    StructuredPrefix(items, |fewer|);
    forall i | 0 <= i < |fewer| ensures Depth(fewer, i) <= MAX_DEPTH {
      DepthWithinPlace(fewer, i);
    }
    ListBytesGrow(fewer, items, z.item);
    ListBytesGrow(request[..n], request, z.id);
    ResolveSound(w, setting, request[..n]);
    assert Distinct(request[..n]);
    assert Selects(Assemble(w, c, source, request[..n], fewer));
  }

  // -------------------------------------------------- the search as it is run

  /** An error in the loop over a prior bundle ends it. */
  lemma {:induction false} VisitAllFails(w: World, setting: Setting, chosen: seq<Item>, active: set<nat>, prior: seq<Item>, k: nat)
    requires |active| <= MAX_DECLARATIONS && k <= |prior| && VisitAll(w, setting, chosen, active, prior[..k]).Err?
    ensures VisitAll(w, setting, chosen, active, prior) == VisitAll(w, setting, chosen, active, prior[..k])
    decreases |prior|
  {
    if k == |prior| {
      assert prior[..k] == prior;
    } else {
      var front := prior[..|prior| - 1];
      assert front[..k] == prior[..k];
      VisitAllFails(w, setting, chosen, active, front, k);
    }
  }

  lemma VisitAllNext(w: World, setting: Setting, chosen: seq<Item>, active: set<nat>, prior: seq<Item>, k: nat, items: seq<Item>)
    requires |active| <= MAX_DECLARATIONS && k < |prior| && VisitAll(w, setting, chosen, active, prior[..k]) == Ok(items)
    ensures VisitAll(w, setting, chosen, active, prior[..k + 1]) == VisitOne(w, setting, items, active, prior[k])
    ensures VisitOne(w, setting, items, active, prior[k]).Err? ==>
              VisitAll(w, setting, chosen, active, prior) == VisitOne(w, setting, items, active, prior[k])
  {
    assert prior[..k + 1][..k] == prior[..k];
    if VisitOne(w, setting, items, active, prior[k]).Err? {
      VisitAllFails(w, setting, chosen, active, prior, k + 1);
    }
  }

  /** Visiting never chooses a proof that is being visited. */
  lemma {:induction false} VisitApart(w: World, setting: Setting, chosen: seq<Item>, active: set<nat>, id: nat)
    requires |active| <= MAX_DECLARATIONS && Apart(chosen, active) && Visit(w, setting, chosen, active, id).Ok?
    ensures Apart(Visit(w, setting, chosen, active, id).value, active)
    decreases MAX_DECLARATIONS - |active|, 0
  {
    if !Has(chosen, id) {
      VisitAllApart(w, setting, chosen, active + {id}, Prior(w, id));
    }
  }

  lemma {:induction false} VisitAllApart(w: World, setting: Setting, chosen: seq<Item>, active: set<nat>, prior: seq<Item>)
    requires |active| <= MAX_DECLARATIONS && Apart(chosen, active) && VisitAll(w, setting, chosen, active, prior).Ok?
    ensures Apart(VisitAll(w, setting, chosen, active, prior).value, active)
    decreases MAX_DECLARATIONS - |active|, 1, |prior|
  {
    if prior != [] {
      var front := prior[..|prior| - 1];
      VisitAllApart(w, setting, chosen, active, front);
      VisitApart(w, setting, VisitAll(w, setting, chosen, active, front).value, active, prior[|prior| - 1].proof);
    }
  }

  /** selected maps each declared proof to its declaration. */
  ghost predicate Indexes(selected: map<nat, Item>, items: seq<Item>) {
    && |selected| == |items|
    && (forall i {:trigger items[i]} | 0 <= i < |items| ::
          items[i].proof in selected && selected[items[i].proof] == items[i])
    && (forall id | id in selected :: selected[id] in items && selected[id].proof == id)
  }

  lemma IndexesHas(selected: map<nat, Item>, items: seq<Item>, id: nat)
    requires Indexes(selected, items)
    ensures id in selected <==> Has(items, id)
  {
    if id in selected {
      var i :| 0 <= i < |items| && items[i] == selected[id];
    }
  }

  lemma IndexesAppend(selected: map<nat, Item>, items: seq<Item>, item: Item)
    requires Indexes(selected, items) && item.proof !in selected
    ensures Indexes(selected[item.proof := item], items + [item])
  {
    var more := selected[item.proof := item];
    assert more.Keys == selected.Keys + {item.proof};
    assert (items + [item])[|items|] == item;
    forall id | id in more ensures more[id] in items + [item] {
    }
  }

  /** A proof that is neither visited nor declared, with room for it. */
  lemma VisitBeyond(w: World, setting: Setting, chosen: seq<Item>, active: set<nat>, id: nat)
    requires id !in active && !Has(chosen, id) && |chosen| + |active| < MAX_DECLARATIONS
    ensures Inspect(w, setting, id).Some? ==> Visit(w, setting, chosen, active, id) == Err(Inspect(w, setting, id).value)
    ensures Inspect(w, setting, id).None? ==>
              var more := VisitAll(w, setting, chosen, active + {id}, Prior(w, id));
              Visit(w, setting, chosen, active, id)
              == if more.Err? then Err(more.error) else Ok(more.value + [Entry(w, id)])
  {
  }

  /** The lists that the nested function visit shares between its calls. */
  class Selector {
    const w: World
    const setting: Setting
    var declarations: seq<Item>
    var selected: map<nat, Item>
    var active: set<nat>

    ghost predicate Valid()
      reads this
    {
      Indexes(selected, declarations) && |active| <= MAX_DECLARATIONS && Apart(declarations, active)
    }

    constructor (w: World, setting: Setting)
      ensures Valid() && declarations == [] && active == {} && this.w == w && this.setting == setting
    {
      this.w, this.setting := w, setting;
      declarations, selected, active := [], map[], {};
    }

    /** visit */
    method VisitProof(id: nat) returns (problem: Option<Problem>)
      requires Valid()
      modifies this
      ensures match Visit(w, setting, old(declarations), old(active), id)
              case Err(e) => problem == Some(e)
              case Ok(items) => problem.None? && Valid() && declarations == items && active == old(active) && Has(items, id)
      decreases MAX_DECLARATIONS - |active|, 0
    {
      IndexesHas(selected, declarations, id);
      if id in active {
        return Some(Cyclic);
      }
      if id in selected {
        return None;
      }
      if |selected| + |active| >= MAX_DECLARATIONS {
        return Some(TooManyDeclarations);
      }
      VisitBeyond(w, setting, declarations, active, id);
      active := active + {id};
      problem := InspectProof(id);
      if problem.Some? {
        return;
      }
      problem := VisitItems(Prior(w, id));
      if problem.Some? {
        return;
      }
      InspectIff(w, setting, id);
      Finish(id);
      assert active == old(active);
    }

    /** The tests of visit on the proof's own rows. */
    method InspectProof(id: nat) returns (problem: Option<Problem>)
      ensures problem == Inspect(w, setting, id)
    {
      if id >= |w.artifacts| {
        return Some(UnknownProof);
      }
      var artifact := w.artifacts[id];
      if w.binding.identity.None? || !artifact.standing.Verified? || artifact.standing.identity != w.binding.identity.value
         || artifact.setting.imports != setting.imports || artifact.setting.environment != setting.environment {
        return Some(Ineligible);
      }
      if id !in w.claimOf {
        return Some(NoClaim);
      }
      if id in w.contexts {
        var prior := w.contexts[id];
        if prior.statement != artifact.statement || prior.source != artifact.source || prior.setting != artifact.setting {
          return Some(EditedProof);
        }
      }
      problem := None;
    }

    /** The end of visit: the proof is declared and no longer active. */
    method Finish(id: nat)
      requires Valid() && id in active && Eligible(w, setting, id)
      modifies this
      ensures Valid() && declarations == old(declarations) + [Entry(w, id)] && active == old(active) - {id}
      ensures Has(declarations, id)
    {
      var item := Entry(w, id);
      IndexesHas(selected, declarations, id);
      IndexesAppend(selected, declarations, item);
      selected := selected[id := item];
      declarations := declarations + [item];
      active := active - {id};
      assert declarations[|declarations| - 1].proof == id;
    }

    /** for item in prior["declarations"] */
    method VisitItems(prior: seq<Item>) returns (problem: Option<Problem>)
      requires Valid()
      modifies this
      ensures match VisitAll(w, setting, old(declarations), old(active), prior)
              case Err(e) => problem == Some(e)
              case Ok(items) => problem.None? && Valid() && declarations == items && active == old(active)
      decreases MAX_DECLARATIONS - |active|, 1
    {
      assert prior[..|prior|] == prior;
      for k := 0 to |prior|
        invariant Valid() && active == old(active)
        invariant VisitAll(w, setting, old(declarations), old(active), prior[..k]) == Ok(declarations)
      {
        VisitAllNext(w, setting, old(declarations), old(active), prior, k, declarations);
        problem := VisitProof(prior[k].proof);
        if problem.Some? {
          return;
        }
        IndexesHas(selected, declarations, prior[k].proof);
        if selected[prior[k].proof] != prior[k] {
          return Some(EditedPrerequisite);
        }
      }
      problem := None;
    }
  }

  lemma {:induction false} ResolveNext(w: World, setting: Setting, request: seq<nat>, k: nat, items: seq<Item>)
    requires k < |request| && Resolve(w, setting, request[..k]) == Ok(items)
    ensures Resolve(w, setting, request[..k + 1]) == Visit(w, setting, items, {}, request[k])
    ensures Visit(w, setting, items, {}, request[k]).Err? ==>
              Resolve(w, setting, request) == Visit(w, setting, items, {}, request[k])
  {
    assert request[..k + 1][..k] == request[..k];
    if Visit(w, setting, items, {}, request[k]).Err? {
      ResolveFails(w, setting, request, k + 1);
    }
  }

  lemma {:induction false} ResolveFails(w: World, setting: Setting, request: seq<nat>, k: nat)
    requires k <= |request| && Resolve(w, setting, request[..k]).Err?
    ensures Resolve(w, setting, request) == Resolve(w, setting, request[..k])
  {
    if k == |request| {
      assert request[..k] == request;
    } else {
      var front := request[..|request| - 1];
      assert front[..k] == request[..k];
      ResolveFails(w, setting, front, k);
    }
  }

  /** selected_bundle */
  method SelectBundle(w: World, z: Sizes, c: nat, source: string, request: seq<nat>) returns (r: Result<Bundle, Problem>)
    ensures r == Select(w, z, c, source, request)
  {
    if |request| > MAX_DECLARATIONS || !Distinct(request) {
      return Err(InvalidRequest);
    }
    if c >= |w.claims| {
      return Err(UnknownClaim);
    }
    if w.binding.identity.None? || w.binding.identity.value == "" {
      return Err(Unbound);
    }
    var search := new Selector(w, w.claims[c].setting);
    for k := 0 to |request|
      invariant search.Valid() && search.active == {}
      invariant Resolve(w, w.claims[c].setting, request[..k]) == Ok(search.declarations)
    {
      ResolveNext(w, w.claims[c].setting, request, k, search.declarations);
      var problem := search.VisitProof(request[k]);
      if problem.Some? {
        return Err(problem.value);
      }
    }
    assert request[..|request|] == request;
    var b := Assemble(w, c, source, request, search.declarations);
    if w.limits.Some? && |search.declarations| > w.limits.value.lemmas {
      return Err(OverConfiguredLimit);
    }
    var fault := Validate(z, b);
    r := if fault.Some? then Err(Invalid) else Ok(b);
  }
}
