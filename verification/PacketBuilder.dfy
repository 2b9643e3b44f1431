/**
 build_packet: evidence is included, categories and lemmas are admitted, and the draft is
 pruned in place. What module Packets proves about these steps holds of the result.
 */
module PacketBuilder {
  import opened Basics
  import opened Selection
  import opened Bundles
  import opened Packets

  // --------------------------------------------------------- trigger evidence

  /** How _include_trigger_evidence adds a row: at the end or the front unless it is there, or
      to a list of its own. */
  datatype Manner = AtEnd | AtFront | Listed

  function IncludeOne(rows: seq<Row>, row: Row, id: nat, how: Manner): seq<Row> {
    if how.Listed? then rows + [row]
    else if exists r | r in rows :: r.id == Some(id) then rows
    else if how.AtEnd? then rows + [row] else [row] + rows
  }

  /** table holds the rows that may be selected: an identifier outside it is an error. */
  function Include(rows: seq<Row>, ids: seq<nat>, table: map<nat, Row>, how: Manner): Option<seq<Row>> {
    if ids == [] then Some(rows)
    else
      match Include(rows, ids[..|ids| - 1], table, how)
      case None => None
      case Some(more) =>
        var id := ids[|ids| - 1];
        if id in table then Some(IncludeOne(more, table[id], id, how)) else None
  }

  predicate Shows(rows: seq<Row>, id: nat) {
    exists r | r in rows :: r.id == Some(id)
  }

  lemma {:induction false} IncludeShows(rows: seq<Row>, ids: seq<nat>, table: map<nat, Row>, how: Manner)
    requires forall id | id in table :: table[id].id == Some(id)
    requires Include(rows, ids, table, how).Some?
    ensures forall id | id in ids || Shows(rows, id) :: Shows(Include(rows, ids, table, how).value, id)
  {
    if ids != [] {
      var front, id := ids[..|ids| - 1], ids[|ids| - 1];
      assert ids == front + [id];
      IncludeShows(rows, front, table, how);
      var before := Include(rows, front, table, how).value;
      var after := IncludeOne(before, table[id], id, how);
      forall i: nat | Shows(before, i) || i == id ensures Shows(after, i) {
        if Shows(before, i) {
          var r :| r in before && r.id == Some(i);
          assert r in after;
        } else {
          assert table[id] in after;
        }
      }
    }
  }

  /** How rows are ranked, measured and limited in each category. */
  datatype Allowance = Allowance(ranks: Ranks, bytes: seq<Row> -> nat, limit: Category -> nat)

  // --------------------------------------------------------- admitting lemmas

  function Briefs(e: Env, items: seq<Item>): (rows: seq<Row>)
    ensures |rows| == |items|
    ensures forall i | 0 <= i < |items| :: rows[i] == e.quote(items[i])
  {
    seq(|items|, i requires 0 <= i < |items| => e.quote(items[i]))
  }

  /** May this proof join the selection? */
  predicate Joins(e: Env, selected: seq<nat>, id: nat) {
    && Chosen(e, selected + [id]).Ok?
    && e.bounds.lemmaBytes(Briefs(e, Chosen(e, selected + [id]).value.declarations)) <= e.bounds.lemmaLimit
  }

  function Picked(e: Env, ids: seq<nat>): seq<nat> {
    if ids == [] then []
    else
      var selected := Picked(e, ids[..|ids| - 1]);
      if Joins(e, selected, ids[|ids| - 1]) then selected + [ids[|ids| - 1]] else selected
  }

  lemma PickedNext(e: Env, ids: seq<nat>, i: nat)
    requires i < |ids|
    ensures Picked(e, ids[..i + 1])
         == if Joins(e, Picked(e, ids[..i]), ids[i]) then Picked(e, ids[..i]) + [ids[i]] else Picked(e, ids[..i])
  {
    TakeNext(ids, i);
  }

  lemma {:induction false} PickedChosen(e: Env, ids: seq<nat>)
    requires Chosen(e, []).Ok?
    ensures Chosen(e, Picked(e, ids)).Ok?
  {
    if ids != [] {
      PickedChosen(e, ids[..|ids| - 1]);
    }
  }

  /** The lemmas of a draft are picked greedily from the first eight candidates, and all others counted. */
  ghost predicate PicksFrom(e: Env, candidates: seq<nat>, unseen: nat, bound: bool, d: Draft) {
    var tried := candidates[..Min(MAX_SELECTIONS, |candidates|)];
    && d.manifest.Some? == bound
    && d.selected == (if bound then Picked(e, tried) else [])
    && d.packet.omittedLemmas == unseen + Max(0, |candidates| - MAX_SELECTIONS) + |tried| - |d.selected|
  }

  lemma NothingChosen(e: Env)
    requires Chosen(e, []).Ok?
    ensures Chosen(e, []).value.declarations == []
  {
  }

  class Builder {
    var lemmas: seq<Row>
    var untrusted: map<Category, seq<Row>>
    var omitted: map<Category, int>
    var omittedLemmas: int
    var selected: seq<nat>
    var manifest: Option<Bundle>

    function View(): Draft
      reads this
    {
      Draft(Packet(lemmas, untrusted, omitted, omittedLemmas), selected, manifest)
    }

    constructor (omitted: map<Category, int>)
      requires forall c: Category :: c in omitted
      ensures lemmas == [] && selected == [] && manifest == None
      ensures forall c: Category :: Untouched(c, omitted[c])
    {
      lemmas, selected, manifest, omittedLemmas := [], [], None, 0;
      untrusted := map c | c in omitted :: [];
      this.omitted := omitted;
    }

    /** One category of _admit_categories. */
    method AdmitCategory(e: Env, a: Allowance, c: Category, graph: seq<Row>) returns (ok: bool)
      requires c in untrusted && untrusted[c] == [] && c in omitted
      modifies this`untrusted, this`omitted
      ensures !ok ==> Overflows(e, a, c, graph)
      ensures ok ==> && c in untrusted && untrusted == old(untrusted)[c := untrusted[c]]
                     && c in omitted && omitted == old(omitted)[c := omitted[c]]
                     && Takes(e, a, graph, c, untrusted[c], omitted[c] - old(omitted)[c])
    {
      var rows, bytes, limit := Sorted(Rank(e, a.ranks), graph), a.bytes, a.limit(c);
      var dest, left := [], 0;
      for i := 0 to |rows|
        invariant untrusted == old(untrusted) && omitted == old(omitted)
        invariant Admit(e, c, bytes, limit, rows[..i]) == Some(Intake(dest, left))
      {
        AdmitNext(e, c, bytes, limit, rows, i);
        if bytes(dest + [rows[i]]) <= limit {
          dest := dest + [rows[i]];
        } else {
          if IsRequired(e, c, rows[i]) {
            return false;
          }
          left := left + 1;
        }
      }
      assert rows[..|rows|] == rows;
      untrusted := untrusted[c := dest];
      omitted := omitted[c := omitted[c] + left];
      ok := true;
    }

    /** _admit_lemmas: each candidate joins with its whole closure, or is left out. */
    method AdmitLemmas(e: Env, candidates: seq<nat>, unseen: nat, bound: bool) returns (ok: bool)
      requires lemmas == [] && selected == [] && manifest == None
      requires !bound ==> candidates == []
      modifies this`lemmas, this`selected, this`manifest, this`omittedLemmas
      ensures ok <==> bound ==> Chosen(e, []).Ok?
      ensures ok ==> Consistent(e, View())
      ensures ok ==> PicksFrom(e, candidates, unseen, bound, View())
    {
      omittedLemmas := unseen + Max(0, |candidates| - MAX_SELECTIONS);
      if !bound {
        return true;
      }
      var chosen := SelectBundle(e.w, e.z, e.claim, "", []);
      if chosen.Err? {
        return false;
      }
      NothingChosen(e);
      manifest := Some(chosen.value);
      var tried := candidates[..Min(MAX_SELECTIONS, |candidates|)];
      TryLemmas(e, tried);
      Annotate(e);
      ok := true;
    }

    /** The loop over the candidates. */
    method TryLemmas(e: Env, tried: seq<nat>)
      requires manifest.Some? && Chosen(e, selected) == Ok(manifest.value)
      requires selected == [] && lemmas == Briefs(e, manifest.value.declarations)
      modifies this`lemmas, this`selected, this`manifest, this`omittedLemmas
      ensures manifest.Some? && Chosen(e, selected) == Ok(manifest.value)
      ensures lemmas == Briefs(e, manifest.value.declarations)
      ensures selected == Picked(e, tried) && omittedLemmas == old(omittedLemmas) + |tried| - |selected|
    {
      TakeAll(tried);
      for i := 0 to |tried|
        invariant manifest.Some? && Chosen(e, selected) == Ok(manifest.value)
        invariant selected == Picked(e, tried[..i])
        invariant omittedLemmas == old(omittedLemmas) + i - |selected|
        invariant lemmas == Briefs(e, manifest.value.declarations)
      {
        PickedNext(e, tried, i);
        TryLemma(e, tried[i]);
      }
    }

    /** One candidate of _admit_lemmas. */
    method TryLemma(e: Env, id: nat)
      requires manifest.Some? && Chosen(e, selected) == Ok(manifest.value)
      requires lemmas == Briefs(e, manifest.value.declarations)
      modifies this`lemmas, this`selected, this`manifest, this`omittedLemmas
      ensures manifest.Some? && Chosen(e, selected) == Ok(manifest.value)
      ensures lemmas == Briefs(e, manifest.value.declarations)
      ensures selected == if Joins(e, old(selected), id) then old(selected) + [id] else old(selected)
      ensures omittedLemmas == old(omittedLemmas) + if Joins(e, old(selected), id) then 0 else 1
    {
      var trial := SelectBundle(e.w, e.z, e.claim, "", selected + [id]);
      if trial.Err? {
        omittedLemmas := omittedLemmas + 1;
        return;
      }
      var rows := Briefs(e, trial.value.declarations);
      if e.bounds.lemmaBytes(rows) > e.bounds.lemmaLimit {
        omittedLemmas := omittedLemmas + 1;
        return;
      }
      selected := selected + [id];
      manifest := Some(trial.value);
      lemmas := rows;
    }

    /** for row in checked_lemmas: row["provenance"] = ... */
    method Annotate(e: Env)
      requires manifest.Some? && lemmas == Briefs(e, manifest.value.declarations)
      modifies this`lemmas
      ensures lemmas == Rows(e, manifest.value.declarations)
    {
      var brief := lemmas;
      for i := 0 to |brief|
        invariant |lemmas| == |brief|
        invariant forall j | 0 <= j < i :: lemmas[j] == e.annotate(brief[j])
        invariant forall j | i <= j < |brief| :: lemmas[j] == brief[j]
      {
        lemmas := lemmas[i := e.annotate(lemmas[i])];
      }
    }

    /** The loop over removal_order. */
    method FindVictim(e: Env) returns (v: Victim)
      ensures v == Next(e, View().packet)
    {
      var p := View().packet;
      if LemmasFit(e.bounds, p) {
        for i := 0 to |ORDER|
          invariant FirstDroppable(e, p, 0) == FirstDroppable(e, p, i)
        {
          if Droppable(e, p, ORDER[i]) {
            return FromRows(ORDER[i]);
          }
        }
      }
      v := if lemmas != [] then FromLemmas else Nothing;
    }

    method PopRow(c: Category)
      requires c in untrusted && untrusted[c] != []
      modifies this`untrusted, this`omitted
      ensures View() == old(View()).(packet := DropRow(old(View()).packet, c))
    {
      untrusted := untrusted[c := untrusted[c][..|untrusted[c]| - 1]];
      omitted := omitted[c := (if c in omitted then omitted[c] else 0) + 1];
    }

    /** The last selected proof goes, with the lemmas that only it brought. */
    method PopLemmas(e: Env) returns (ok: bool)
      requires selected != []
      modifies this`selected, this`lemmas, this`omittedLemmas, this`manifest
      ensures ok <==> Chosen(e, old(selected)[..|old(selected)| - 1]).Ok?
      ensures ok ==>
                && selected == old(selected)[..|old(selected)| - 1] && Chosen(e, selected).Ok?
                && View() == Draft(DropLemmas(old(View()).packet, Chosen(e, selected).value), selected, Some(Chosen(e, selected).value))
    {
      selected := selected[..|selected| - 1];
      var trial := SelectBundle(e.w, e.z, e.claim, "", selected);
      if trial.Err? {
        return false;
      }
      omittedLemmas := omittedLemmas + |lemmas| - |trial.value.declarations|;
      lemmas := Keep(lemmas, trial.value.declarations);
      manifest := Some(trial.value);
      ok := true;
    }

    /** The body of the while loop; false where it raises. */
    method DropOne(e: Env) returns (ok: bool)
      modifies this
      ensures ok <==> Shrink(e, old(View())).Some?
      ensures ok ==> Some(View()) == Shrink(e, old(View()))
    {
      var v := FindVictim(e);
      if v.FromRows? {
        PopRow(v.category);
        ok := true;
      } else if v.Nothing? || selected == [] {
        ok := false;
      } else {
        ok := PopLemmas(e);
      }
    }

    /** _prune_packet */
    method Prune(e: Env) returns (ok: bool)
      modifies this
      ensures ok <==> Pruned(e, old(View())).Some?
      ensures ok ==> Some(View()) == Pruned(e, old(View()))
    {
      while !WithinBounds(e.bounds, View().packet)
        invariant Pruned(e, View()) == Pruned(e, old(View()))
        decreases Size(View())
      {
        ghost var before := View();
        ok := DropOne(e);
        if !ok {
          return false;
        }
        ShrinkSmaller(e, before);
      }
      ok := true;
    }

    /** Category c holds what admission takes from the graph's rows; omitted counts the rest. */
    ghost predicate Admitted(e: Env, a: Allowance, rows: seq<Row>, c: Category, before: int)
      reads this
    {
      c in untrusted && c in omitted && Takes(e, a, rows, c, untrusted[c], omitted[c] - before)
    }

    ghost predicate Untouched(c: Category, before: int)
      reads this
    {
      c in untrusted && untrusted[c] == [] && c in omitted && omitted[c] == before
    }

    /** _admit_categories: one category after another, in any order; each in rank order. */
    method AdmitCategories(e: Env, a: Allowance, graph: map<Category, seq<Row>>, before: map<Category, int>) returns (ok: bool)
      requires forall c: Category :: c in graph && c in before && Untouched(c, before[c])
      modifies this`untrusted, this`omitted
      ensures ok ==> forall c: Category :: Admitted(e, a, graph[c], c, before[c])
      ensures !ok ==> exists c: Category :: Overflows(e, a, c, graph[c])
    {
      var rest: set<Category> := set c: Category | c in graph;
      while rest != {}
        invariant forall c: Category :: if c in rest then Untouched(c, before[c]) else Admitted(e, a, graph[c], c, before[c])
        decreases |rest|
      {
        var c :| c in rest;
        var fine := AdmitCategory(e, a, c, graph[c]);
        if !fine {
          return false;
        }
        rest := rest - {c};
      }
      ok := true;
    }
  }

  /** dest is what admission takes from the category's rows, in rank order, leaving out left rows. */
  ghost predicate Takes(e: Env, a: Allowance, rows: seq<Row>, c: Category, dest: seq<Row>, left: int) {
    var intake := Admit(e, c, a.bytes, a.limit(c), Sorted(Rank(e, a.ranks), rows));
    intake.Some? && dest == intake.value.rows && left == intake.value.omitted
  }

  /** A required row does not fit into its category's budget. */
  predicate Overflows(e: Env, a: Allowance, c: Category, rows: seq<Row>) {
    Admit(e, c, a.bytes, a.limit(c), Sorted(Rank(e, a.ranks), rows)).None?
  }

  lemma AdmitNext(e: Env, c: Category, bytes: seq<Row> -> nat, limit: nat, rows: seq<Row>, i: nat)
    requires i < |rows| && Admit(e, c, bytes, limit, rows[..i]).Some?
    ensures var intake := Admit(e, c, bytes, limit, rows[..i]).value;
            && Admit(e, c, bytes, limit, rows[..i + 1])
               == (if bytes(intake.rows + [rows[i]]) <= limit then Some(Intake(intake.rows + [rows[i]], intake.omitted))
                   else if IsRequired(e, c, rows[i]) then None
                   else Some(Intake(intake.rows, intake.omitted + 1)))
            && (Admit(e, c, bytes, limit, rows[..i + 1]).None? ==> Admit(e, c, bytes, limit, rows).None?)
  {
    assert rows[..i + 1][..i] == rows[..i];
    if Admit(e, c, bytes, limit, rows[..i + 1]).None? {
      AdmitFails(e, c, bytes, limit, rows, i + 1);
    }
  }

  lemma {:induction false} AdmitFails(e: Env, c: Category, bytes: seq<Row> -> nat, limit: nat, rows: seq<Row>, i: nat)
    requires i <= |rows| && Admit(e, c, bytes, limit, rows[..i]).None?
    ensures Admit(e, c, bytes, limit, rows).None?
  {
    if i == |rows| {
      assert rows[..i] == rows;
    } else {
      assert rows[..|rows| - 1][..i] == rows[..i];
      AdmitFails(e, c, bytes, limit, rows[..|rows| - 1], i);
    }
  }

  // ------------------------------------------------------------ whole packets

  /** What the caller asks to be kept: identifiers, the rows they may name, and how rows are added. */
  datatype Evidence = Evidence(ids: seq<nat>, table: map<nat, Row>, how: Manner)

  ghost predicate Named(v: Evidence) {
    forall id | id in v.table :: v.table[id].id == Some(id)
  }

  /** _include_trigger_evidence, over all categories. */
  function IncludeAll(graph: map<Category, seq<Row>>, asked: map<Category, Evidence>): map<Category, seq<Row>>
    requires forall c | c in graph :: c in asked && Include(graph[c], asked[c].ids, asked[c].table, asked[c].how).Some?
  {
    map c | c in graph :: Include(graph[c], asked[c].ids, asked[c].table, asked[c].how).value
  }

  predicate Known(graph: map<Category, seq<Row>>, asked: map<Category, Evidence>) {
    forall c | c in graph :: c in asked && Include(graph[c], asked[c].ids, asked[c].table, asked[c].how).Some?
  }

  /** An asked row that is admitted and required is still shown after pruning. */
  lemma StillShown(e: Env, c: Category, d: Draft, q: Draft, id: nat)
    requires From(e, d, q) && id in Required(e, c) && Shows(d.packet.untrusted[c], id)
    ensures Shows(q.packet.untrusted[c], id)
  {
    assert Trimmed(e, c, d.packet, q.packet);
    var i :| 0 <= i < |d.packet.untrusted[c]| && d.packet.untrusted[c][i].id == Some(id);
    assert IsRequired(e, c, d.packet.untrusted[c][i]);
    assert q.packet.untrusted[c][i] == d.packet.untrusted[c][i];
  }

  /** Admission shows every required row of the graph, in front of the others. */
  lemma TakesRequired(e: Env, a: Allowance, rows: seq<Row>, c: Category, dest: seq<Row>, left: int)
    requires OwnIds(e, c, rows) && a.bytes([]) <= a.limit(c) && Takes(e, a, rows, c, dest, left)
    ensures RequiredFirst(e, c, dest) && |dest| + left == |rows|
    ensures forall id | id in Required(e, c) && Shows(rows, id) :: Shows(dest, id)
  {
    var sorted := Sorted(Rank(e, a.ranks), rows);
    SortedRows(Rank(e, a.ranks), rows);
    SortedRequiredFirst(e, a.ranks, c, rows);
    AdmitKeeps(e, c, a.bytes, a.limit(c), sorted);
    forall id | id in Required(e, c) && Shows(rows, id) ensures Shows(dest, id) {
      var r :| r in rows && r.id == Some(id);
      assert r in sorted && IsRequired(e, c, r);
    }
  }

  /** Everything the caller of build_packet relies on: the packet fits its bounds, shows every piece
      of trigger evidence, and advertises exactly the lemmas of the manifest that is frozen with it. */
  ghost predicate Delivered(e: Env, asked: map<Category, Evidence>, d: Draft) {
    && Whole(d.packet) && Consistent(e, d)
    && e.bounds.lemmaBytes(d.packet.lemmas) <= e.bounds.lemmaLimit && e.bounds.packetBytes(d.packet) <= e.bounds.packetLimit
    && e.bounds.promptCost(d.packet, 0) <= e.bounds.inputLimit
    && e.bounds.promptCost(d.packet, e.bounds.outputTokens) <= e.bounds.contextLimit
    && (forall c: Category, id: nat | c in asked && id in asked[c].ids :: Shows(d.packet.untrusted[c], id))
  }

  /** The draft shows what was asked for, in categories that can be pruned from the end. */
  ghost predicate Complete(e: Env, asked: map<Category, Evidence>, d: Draft) {
    Ready(e, d) && forall c: Category, id: nat | c in asked && id in asked[c].ids :: Shows(d.packet.untrusted[c], id)
  }

  /** What build_packet is called with, and the rows it reads. */
  datatype Request = Request(graph: map<Category, seq<Row>>, omitted: map<Category, int>,
                             asked: map<Category, Evidence>, candidates: seq<nat>, unseen: nat, bound: bool)

  /** Identifiers are unique across tables, required is what was asked for, empty lists fit, and
      without a bound verifier no artifact is a candidate. */
  ghost predicate Proper(e: Env, a: Allowance, q: Request) {
    && (forall c: Category :: c in q.graph && c in q.omitted && c in q.asked && Named(q.asked[c]) && a.bytes([]) <= a.limit(c))
    && (forall c: Category :: Required(e, c) == set id | id in q.asked[c].ids)
    && (Known(q.graph, q.asked) ==> forall c: Category :: OwnIds(e, c, IncludeAll(q.graph, q.asked)[c]))
    && (!q.bound ==> q.candidates == [])
  }

  /** Evidence that does not exist, a required row that overflows its category, or a focus claim
      whose empty selection is refused. */
  ghost predicate Refused(e: Env, a: Allowance, q: Request) {
    || !Known(q.graph, q.asked)
    || (exists c: Category | c in q.graph :: Overflows(e, a, c, IncludeAll(q.graph, q.asked)[c]))
    || (q.bound && Chosen(e, []).Err?)
  }

  /** d is the draft before pruning: each category holds what admission takes from the included
      rows, and the lemmas are picked from the candidates. */
  ghost predicate DraftOf(e: Env, a: Allowance, q: Request, d: Draft) {
    Filled(e, a, q, d) && Consistent(e, d) && PicksFrom(e, q.candidates, q.unseen, q.bound, d)
  }

  ghost predicate Filled(e: Env, a: Allowance, q: Request, d: Draft) {
    Known(q.graph, q.asked) && Fills(e, a, q, IncludeAll(q.graph, q.asked), d)
  }

  /** A request has one draft. */
  lemma OneDraft(e: Env, a: Allowance, q: Request, d: Draft, f: Draft)
    requires DraftOf(e, a, q, d) && DraftOf(e, a, q, f)
    ensures d == f
  {
    SamePackets(d.packet, f.packet);
  }

  /** The categories of included evidence; false where a required row overflows. */
  method FillCategories(e: Env, a: Allowance, q: Request, rows: map<Category, seq<Row>>, b: Builder) returns (ok: bool)
    requires forall c: Category :: c in rows && c in q.omitted && b.Untouched(c, q.omitted[c])
    modifies b`untrusted, b`omitted
    ensures ok ==> Fills(e, a, q, rows, b.View())
    ensures !ok ==> exists c: Category :: Overflows(e, a, c, rows[c])
  {
    ok := b.AdmitCategories(e, a, rows, q.omitted);
    if ok {
      forall c: Category
        ensures c in b.untrusted && c in b.omitted && Takes(e, a, rows[c], c, b.untrusted[c], b.omitted[c] - q.omitted[c])
      {
        assert b.Admitted(e, a, rows[c], c, q.omitted[c]);
      }
    }
  }

  ghost predicate Fills(e: Env, a: Allowance, q: Request, rows: map<Category, seq<Row>>, d: Draft) {
    forall c: Category ::
      && c in rows && c in q.omitted && c in d.packet.untrusted && c in d.packet.omitted
      && Takes(e, a, rows[c], c, d.packet.untrusted[c], d.packet.omitted[c] - q.omitted[c])
  }

  lemma OverflowRefused(e: Env, a: Allowance, q: Request)
    requires Known(q.graph, q.asked) && forall c: Category :: c in q.graph
    requires exists c: Category :: Overflows(e, a, c, IncludeAll(q.graph, q.asked)[c])
    ensures Refused(e, a, q)
  {
  }

  /** build_packet up to pruning: evidence, categories, lemmas. */
  method BuildDraft(e: Env, a: Allowance, q: Request) returns (ok: bool, b: Builder)
    requires forall c: Category :: c in q.graph && c in q.omitted
    requires !q.bound ==> q.candidates == []
    ensures fresh(b)
    ensures if ok then DraftOf(e, a, q, b.View()) else Refused(e, a, q)
  {
    b := new Builder(q.omitted);
    if !Known(q.graph, q.asked) {
      return false, b;
    }
    ok := FillCategories(e, a, q, IncludeAll(q.graph, q.asked), b);
    if ok {
      ghost var filled := b.View();
      ok := b.AdmitLemmas(e, q.candidates, q.unseen, q.bound);
      SameFilled(e, a, q, filled, b.View());
    } else {
      OverflowRefused(e, a, q);
    }
  }

  lemma SameFilled(e: Env, a: Allowance, q: Request, d: Draft, f: Draft)
    requires Filled(e, a, q, d) && f.packet.untrusted == d.packet.untrusted && f.packet.omitted == d.packet.omitted
    ensures Filled(e, a, q, f)
  {
  }

  /** A request that has a draft is not refused. */
  lemma DraftedNotRefused(e: Env, a: Allowance, q: Request, d: Draft)
    requires DraftOf(e, a, q, d)
    ensures !Refused(e, a, q)
  {
    if q.bound {
      SelectPrefix(e.w, e.z, e.claim, "", d.selected, 0);
      assert d.selected[..0] == [];
    }
    forall c: Category | c in q.graph ensures !Overflows(e, a, c, IncludeAll(q.graph, q.asked)[c]) {
      assert Takes(e, a, IncludeAll(q.graph, q.asked)[c], c, d.packet.untrusted[c], d.packet.omitted[c] - q.omitted[c]);
    }
  }

  lemma DraftComplete(e: Env, a: Allowance, q: Request, d: Draft)
    requires Proper(e, a, q) && DraftOf(e, a, q, d)
    ensures Complete(e, q.asked, d)
  {
    DraftReady(e, a, IncludeAll(q.graph, q.asked), q.omitted, d);
    AskedShown(e, q.graph, q.asked, d);
  }

  lemma AskedShown(e: Env, graph: map<Category, seq<Row>>, asked: map<Category, Evidence>, d: Draft)
    requires forall c: Category :: c in graph && c in asked && Named(asked[c]) && c in d.packet.untrusted
    requires forall c: Category :: Required(e, c) == set id | id in asked[c].ids
    requires Known(graph, asked)
    requires forall c: Category, id | id in Required(e, c) && Shows(IncludeAll(graph, asked)[c], id) :: Shows(d.packet.untrusted[c], id)
    ensures forall c: Category, id: nat | id in asked[c].ids :: Shows(d.packet.untrusted[c], id)
  {
    forall c: Category, id: nat | id in asked[c].ids ensures Shows(d.packet.untrusted[c], id) {
      IncludeShows(graph[c], asked[c].ids, asked[c].table, asked[c].how);
      assert id in Required(e, c);
    }
  }

  lemma PrunedDelivered(e: Env, asked: map<Category, Evidence>, d: Draft)
    requires Quotes(e) && e.bounds.lemmaBytes([]) <= e.bounds.lemmaLimit && Complete(e, asked, d)
    requires forall c | c in asked :: Required(e, c) == set id | id in asked[c].ids
    ensures Pruned(e, d).Some? ==> Delivered(e, asked, Pruned(e, d).value)
    ensures Pruned(e, d).None? ==> !WithinBounds(e.bounds, Bare(e, d.packet))
  {
    PruneCorrect(e, d);
    if Pruned(e, d).Some? {
      forall c: Category, id: nat | c in asked && id in asked[c].ids
        ensures Shows(Pruned(e, d).value.packet.untrusted[c], id)
      {
        StillShown(e, c, d, Pruned(e, d).value, id);
      }
    }
  }

  /** build_packet: nothing if the request is refused, else its draft, pruned. What it delivers fits,
      shows all evidence and matches its manifest; it fails on a draft only if that draft does not fit
      even without lemmas and with only its required rows. */
  method BuildPacket(e: Env, a: Allowance, q: Request) returns (r: Option<Draft>)
    requires Proper(e, a, q) && Quotes(e) && e.bounds.lemmaBytes([]) <= e.bounds.lemmaLimit
    ensures Refused(e, a, q) ==> r.None?
    ensures !Refused(e, a, q) ==> exists d :: DraftOf(e, a, q, d) && r == Pruned(e, d)
                                              && (r.None? ==> !WithinBounds(e.bounds, Bare(e, d.packet)))
    ensures r.Some? ==> Delivered(e, q.asked, r.value)
  {
    var ok, b := BuildDraft(e, a, q);
    if !ok {
      return None;
    }
    ghost var draft := b.View();
    DraftedNotRefused(e, a, q, draft);
    DraftComplete(e, a, q, draft);
    PrunedDelivered(e, q.asked, draft);
    ok := b.Prune(e);
    r := if ok then Some(b.View()) else None;
    assert r == Pruned(e, draft);
  }

  lemma DraftReady(e: Env, a: Allowance, rows: map<Category, seq<Row>>, before: map<Category, int>, d: Draft)
    requires Consistent(e, d)
    requires forall c: Category :: && c in rows && c in before && OwnIds(e, c, rows[c]) && a.bytes([]) <= a.limit(c)
                                   && c in d.packet.untrusted && c in d.packet.omitted
                                   && Takes(e, a, rows[c], c, d.packet.untrusted[c], d.packet.omitted[c] - before[c])
    ensures Ready(e, d)
    ensures forall c: Category, id | id in Required(e, c) && Shows(rows[c], id) :: Shows(d.packet.untrusted[c], id)
  {
    forall c: Category
      ensures RequiredFirst(e, c, d.packet.untrusted[c])
      ensures forall id | id in Required(e, c) && Shows(rows[c], id) :: Shows(d.packet.untrusted[c], id)
    {
      TakesRequired(e, a, rows[c], c, d.packet.untrusted[c], d.packet.omitted[c] - before[c]);
    }
  }
}
