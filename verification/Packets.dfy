/**
 Context packets: the evidence rows and checked lemmas that fit a model's input. Rows are
 admitted in rank order within a budget for each category; then whole rows and lemma closures
 are dropped until the packet and the prompt around it fit.
 */
module Packets {
  import opened Basics
  import opened Selection
  import opened Bundles

  const MAX_SELECTIONS := 8

  /** A quoted row; some tables have no identifier column. */
  datatype Row = Row(id: Option<nat>, body: string)

  /** The categories in the order in which rows are dropped; lemmas come after all of them. */
  datatype Category =
    | Outcomes | Publications | Tasks | Artifacts | Messages
    | TargetVerdicts | RejectedArtifacts | Reviews | Relationships | Claims

  const ORDER: seq<Category> := [Outcomes, Publications, Tasks, Artifacts, Messages,
                                 TargetVerdicts, RejectedArtifacts, Reviews, Relationships, Claims]

  datatype Packet = Packet(lemmas: seq<Row>, untrusted: map<Category, seq<Row>>,
                           omitted: map<Category, int>, omittedLemmas: int)

  /** Every category has its list of rows and its counter. */
  ghost predicate Whole(p: Packet) {
    forall c: Category :: c in p.untrusted && c in p.omitted
  }

  /** The four tests of the pruning loop. The sizes of the encodings are arbitrary functions. */
  datatype Bounds = Bounds(lemmaBytes: seq<Row> -> nat, lemmaLimit: nat,
                           packetBytes: Packet -> nat, packetLimit: nat,
                           promptCost: (Packet, nat) -> nat, inputLimit: nat,
                           outputTokens: nat, contextLimit: nat)

  predicate LemmasFit(b: Bounds, p: Packet) {
    b.lemmaBytes(p.lemmas) <= b.lemmaLimit
  }

  predicate WithinBounds(b: Bounds, p: Packet) {
    && LemmasFit(b, p)
    && b.packetBytes(p) <= b.packetLimit
    && b.promptCost(p, 0) <= b.inputLimit
    && b.promptCost(p, b.outputTokens) <= b.contextLimit
  }

  /** What the packet is built from. An item is quoted as a row with the item's proof as its
      identifier, and gets its provenance once all lemmas are admitted. */
  datatype Env = Env(w: World, z: Sizes, claim: nat, bounds: Bounds, required: map<Category, set<nat>>,
                     quote: Item -> Row, annotate: Row -> Row)

  function Required(e: Env, c: Category): set<nat> {
    if c in e.required then e.required[c] else {}
  }

  predicate IsRequired(e: Env, c: Category, row: Row) {
    row.id.Some? && row.id.value in Required(e, c)
  }

  ghost predicate Quotes(e: Env) {
    (forall item :: e.quote(item).id == Some(item.proof)) && (forall row :: e.annotate(row).id == row.id)
  }

  function Rows(e: Env, items: seq<Item>): (rows: seq<Row>)
    ensures |rows| == |items|
    ensures forall i | 0 <= i < |items| :: rows[i] == e.annotate(e.quote(items[i]))
  {
    seq(|items|, i requires 0 <= i < |items| => e.annotate(e.quote(items[i])))
  }

  /** The manifest of a list of selected proofs. */
  function Chosen(e: Env, selected: seq<nat>): Result<Bundle, Problem> {
    Select(e.w, e.z, e.claim, "", selected)
  }

  // ---------------------------------------------------------------- pruning

  datatype Victim = FromRows(category: Category) | FromLemmas | Nothing

  predicate Droppable(e: Env, p: Packet, c: Category) {
    c in p.untrusted && p.untrusted[c] != [] && !IsRequired(e, c, p.untrusted[c][|p.untrusted[c]| - 1])
  }

  /** The for loop over the removal order, from position i on. */
  function FirstDroppable(e: Env, p: Packet, i: nat): (v: Victim)
    requires i <= |ORDER|
    ensures v.FromRows? ==> Droppable(e, p, v.category)
    ensures !v.FromRows? ==> forall j | i <= j < |ORDER| :: !Droppable(e, p, ORDER[j])
    ensures v.FromLemmas? ==> p.lemmas != []
    ensures v.Nothing? ==> p.lemmas == []
    decreases |ORDER| - i
  {
    if i == |ORDER| then (if p.lemmas != [] then FromLemmas else Nothing)
    else if Droppable(e, p, ORDER[i]) then FromRows(ORDER[i])
    else FirstDroppable(e, p, i + 1)
  }

  function Next(e: Env, p: Packet): Victim {
    if LemmasFit(e.bounds, p) then FirstDroppable(e, p, 0)
    else if p.lemmas != [] then FromLemmas else Nothing
  }

  function DropRow(p: Packet, c: Category): Packet
    requires c in p.untrusted && p.untrusted[c] != []
  {
    p.(untrusted := p.untrusted[c := p.untrusted[c][..|p.untrusted[c]| - 1]],
       omitted := p.omitted[c := (if c in p.omitted then p.omitted[c] else 0) + 1])
  }

  /** [row for row in rows if row["proof_id"] in remaining] */
  function Keep(rows: seq<Row>, items: seq<Item>): seq<Row> {
    if rows == [] then []
    else
      var rest := Keep(rows[..|rows| - 1], items);
      var last := rows[|rows| - 1];
      if last.id.Some? && Has(items, last.id.value) then rest + [last] else rest
  }

  function DropLemmas(p: Packet, manifest: Bundle): Packet {
    p.(lemmas := Keep(p.lemmas, manifest.declarations),
       omittedLemmas := p.omittedLemmas + |p.lemmas| - |manifest.declarations|)
  }

  datatype Draft = Draft(packet: Packet, selected: seq<nat>, manifest: Option<Bundle>)

  /** One pass of the loop; None when nothing can be dropped. */
  function Shrink(e: Env, d: Draft): Option<Draft> {
    match Next(e, d.packet)
    case FromRows(c) => Some(d.(packet := DropRow(d.packet, c)))
    case FromLemmas =>
      if d.selected == [] then None
      else
        var selected := d.selected[..|d.selected| - 1];
        (match Chosen(e, selected)
         case Err(_) => None
         case Ok(b) => Some(Draft(DropLemmas(d.packet, b), selected, Some(b))))
    case Nothing => None
  }

  function TotalRows(p: Packet, n: nat): nat
    requires n <= |ORDER|
  {
    if n == 0 then 0 else TotalRows(p, n - 1) + if ORDER[n - 1] in p.untrusted then |p.untrusted[ORDER[n - 1]]| else 0
  }

  function Size(d: Draft): nat {
    |d.selected| + TotalRows(d.packet, |ORDER|)
  }

  lemma OrderDistinct(i: nat, j: nat)
    requires i < |ORDER| && j < |ORDER| && ORDER[i] == ORDER[j]
    ensures i == j
  {
  }

  lemma {:induction false} TotalDrop(p: Packet, i: nat, n: nat)
    requires i < |ORDER| && n <= |ORDER| && ORDER[i] in p.untrusted && p.untrusted[ORDER[i]] != []
    ensures TotalRows(DropRow(p, ORDER[i]), n) == TotalRows(p, n) - if i < n then 1 else 0
  {
    if n > 0 {
      TotalDrop(p, i, n - 1);
      if ORDER[n - 1] == ORDER[i] {
        OrderDistinct(n - 1, i);
      }
    }
  }

  lemma {:induction false} TotalSame(p: Packet, q: Packet, n: nat)
    requires n <= |ORDER| && p.untrusted == q.untrusted
    ensures TotalRows(p, n) == TotalRows(q, n)
  {
    if n > 0 {
      TotalSame(p, q, n - 1);
    }
  }

  function Position(c: Category): (i: nat)
    ensures i < |ORDER| && ORDER[i] == c
  {
    match c
    case Outcomes => 0
    case Publications => 1
    case Tasks => 2
    case Artifacts => 3
    case Messages => 4
    case TargetVerdicts => 5
    case RejectedArtifacts => 6
    case Reviews => 7
    case Relationships => 8
    case Claims => 9
  }

  /** Each pass removes a row or a selected proof. */
  lemma ShrinkSmaller(e: Env, d: Draft)
    requires Shrink(e, d).Some?
    ensures Size(Shrink(e, d).value) < Size(d)
  {
    match Next(e, d.packet)
    case FromRows(c) =>
      var i := Position(c);
      TotalDrop(d.packet, i, |ORDER|);
    case FromLemmas => TotalSame(d.packet, Shrink(e, d).value.packet, |ORDER|);
    case Nothing =>
  }

  /** _prune_packet: the first draft that fits, or None for its error. */
  function Pruned(e: Env, d: Draft): Option<Draft>
    decreases Size(d)
  {
    if WithinBounds(e.bounds, d.packet) then Some(d)
    else
      match Shrink(e, d)
      case None => None
      case Some(next) =>
        ShrinkSmaller(e, d);
        Pruned(e, next)
  }

  // ------------------------------------------------------------ correctness

  /** The lemmas of the packet are the manifest's declarations, in order. */
  ghost predicate Consistent(e: Env, d: Draft) {
    if d.manifest.Some?
    then Chosen(e, d.selected) == Ok(d.manifest.value) && d.packet.lemmas == Rows(e, d.manifest.value.declarations)
    else d.selected == [] && d.packet.lemmas == []
  }

  /** Required rows stand before all others in their category. */
  ghost predicate RequiredFirst(e: Env, c: Category, rows: seq<Row>) {
    forall i, j | 0 <= i < j < |rows| :: IsRequired(e, c, rows[j]) ==> IsRequired(e, c, rows[i])
  }

  ghost predicate Ready(e: Env, d: Draft) {
    && Whole(d.packet) && Consistent(e, d)
    && forall c: Category {:trigger d.packet.untrusted[c]} :: RequiredFirst(e, c, d.packet.untrusted[c])
  }

  /** What dropping from the end preserves in one category. */
  ghost predicate Trimmed(e: Env, c: Category, p: Packet, q: Packet)
    requires Whole(p) && Whole(q)
  {
    && q.untrusted[c] <= p.untrusted[c]
    && q.omitted[c] + |q.untrusted[c]| == p.omitted[c] + |p.untrusted[c]|
    && (forall i | 0 <= i < |p.untrusted[c]| :: IsRequired(e, c, p.untrusted[c][i]) ==> i < |q.untrusted[c]|)
  }

  ghost predicate From(e: Env, d: Draft, q: Draft) {
    && Whole(d.packet) && Whole(q.packet)
    && q.selected <= d.selected
    && q.packet.omittedLemmas + |q.packet.lemmas| == d.packet.omittedLemmas + |d.packet.lemmas|
    && forall c: Category {:trigger Trimmed(e, c, d.packet, q.packet)} :: Trimmed(e, c, d.packet, q.packet)
  }

  lemma FromTransitive(e: Env, d: Draft, q: Draft, r: Draft)
    requires From(e, d, q) && From(e, q, r)
    ensures From(e, d, r)
  {
    forall c: Category ensures Trimmed(e, c, d.packet, r.packet) {
      assert Trimmed(e, c, d.packet, q.packet) && Trimmed(e, c, q.packet, r.packet);
    }
  }

  lemma DropRowKeeps(e: Env, d: Draft, c: Category)
    requires Ready(e, d) && Droppable(e, d.packet, c)
    ensures var q := d.(packet := DropRow(d.packet, c)); Ready(e, q) && From(e, d, q)
  {
    var q := d.(packet := DropRow(d.packet, c));
    forall k: Category ensures Trimmed(e, k, d.packet, q.packet) && RequiredFirst(e, k, q.packet.untrusted[k]) {
      assert RequiredFirst(e, k, d.packet.untrusted[k]);
    }
  }

  lemma {:induction false} KeepPrefix(e: Env, items: seq<Item>, fewer: seq<Item>, n: nat)
    requires Quotes(e) && Distinct(ItemIds(items)) && fewer <= items && |fewer| <= n <= |items|
    ensures Keep(Rows(e, items)[..n], fewer) == Rows(e, fewer)
  {
    if n == |fewer| {
      assert Rows(e, items)[..n] == Rows(e, fewer);
      KeepAll(Rows(e, fewer), fewer);
    } else {
      KeepPrefix(e, items, fewer, n - 1);
      var rows := Rows(e, items)[..n];
      assert rows[..n - 1] == Rows(e, items)[..n - 1];
      forall i | 0 <= i < |fewer| ensures fewer[i].proof != items[n - 1].proof {
        assert ItemIds(items)[i] != ItemIds(items)[n - 1];
      }
    }
  }

  lemma {:induction false} KeepAll(rows: seq<Row>, items: seq<Item>)
    requires forall i | 0 <= i < |rows| :: rows[i].id.Some? && Has(items, rows[i].id.value)
    ensures Keep(rows, items) == rows
  {
    if rows != [] {
      KeepAll(rows[..|rows| - 1], items);
      assert rows[..|rows| - 1] + [rows[|rows| - 1]] == rows;
    }
  }

  /** Dropping the last selected proof always succeeds, and leaves the lemmas equal to the
      manifest's declarations. */
  lemma DropLemmasKeeps(e: Env, d: Draft)
    requires Quotes(e) && Ready(e, d) && d.packet.lemmas != []
    ensures d.selected != []
    ensures var selected := d.selected[..|d.selected| - 1];
            && Chosen(e, selected).Ok?
            && var q := Draft(DropLemmas(d.packet, Chosen(e, selected).value), selected, Some(Chosen(e, selected).value));
               Ready(e, q) && From(e, d, q)
  {
    var n := |d.selected| - 1;
    var items := d.manifest.value.declarations;
    SelectPrefix(e.w, e.z, e.claim, "", d.selected, n);
    var b := Chosen(e, d.selected[..n]).value;
    KeepPrefix(e, items, b.declarations, |items|);
    assert Rows(e, items)[..|items|] == Rows(e, items);
    var q := Draft(DropLemmas(d.packet, b), d.selected[..n], Some(b));
    forall c: Category ensures Trimmed(e, c, d.packet, q.packet) {
    }
  }

  lemma ShrinkKeeps(e: Env, d: Draft)
    requires Quotes(e) && Ready(e, d)
    ensures Shrink(e, d).Some? ==> Ready(e, Shrink(e, d).value) && From(e, d, Shrink(e, d).value)
    ensures Shrink(e, d).None? ==> Next(e, d.packet).Nothing?
  {
    match Next(e, d.packet)
    case FromRows(c) => DropRowKeeps(e, d, c);
    case FromLemmas => DropLemmasKeeps(e, d);
    case Nothing =>
  }

  /** How many rows stand up to the last required one. */
  function Lead(e: Env, c: Category, rows: seq<Row>): (n: nat)
    ensures n <= |rows|
    ensures forall i | n <= i < |rows| :: !IsRequired(e, c, rows[i])
    ensures n > 0 ==> IsRequired(e, c, rows[n - 1])
  {
    if rows == [] then 0
    else if IsRequired(e, c, rows[|rows| - 1]) then |rows|
    else Lead(e, c, rows[..|rows| - 1])
  }

  /** The smallest packet that pruning can reach: no lemmas and only required rows. */
  function Bare(e: Env, p: Packet): Packet {
    Packet([],
           map c | c in p.untrusted :: p.untrusted[c][..Lead(e, c, p.untrusted[c])],
           map c | c in p.omitted && c in p.untrusted :: p.omitted[c] + |p.untrusted[c]| - Lead(e, c, p.untrusted[c]),
           p.omittedLemmas + |p.lemmas|)
  }

  lemma LeadUnique(e: Env, c: Category, rows: seq<Row>, n: nat)
    requires n <= |rows| && (forall i | n <= i < |rows| :: !IsRequired(e, c, rows[i])) && (n > 0 ==> IsRequired(e, c, rows[n - 1]))
    ensures n == Lead(e, c, rows)
  {
  }

  /** Trimming a category leaves its required rows where they are. */
  lemma LeadKept(e: Env, c: Category, p: Packet, q: Packet)
    requires Whole(p) && Whole(q) && Trimmed(e, c, p, q)
    ensures Lead(e, c, q.untrusted[c]) == Lead(e, c, p.untrusted[c])
  {
    var n := Lead(e, c, p.untrusted[c]);
    assert n <= |q.untrusted[c]|;
    forall i | n <= i < |q.untrusted[c]| ensures !IsRequired(e, c, q.untrusted[c][i]) {
      assert q.untrusted[c][i] == p.untrusted[c][i];
    }
    assert n > 0 ==> q.untrusted[c][n - 1] == p.untrusted[c][n - 1];
    LeadUnique(e, c, q.untrusted[c], n);
  }

  /** Two whole packets are equal when they agree on each category. */
  lemma SamePackets(p: Packet, q: Packet)
    requires Whole(p) && Whole(q) && p.lemmas == q.lemmas && p.omittedLemmas == q.omittedLemmas
    requires forall c: Category :: p.untrusted[c] == q.untrusted[c] && p.omitted[c] == q.omitted[c]
    ensures p == q
  {
    assert p.untrusted == q.untrusted && p.omitted == q.omitted;
  }

  lemma BareAt(e: Env, p: Packet, c: Category)
    requires Whole(p)
    ensures c in Bare(e, p).untrusted && Bare(e, p).untrusted[c] == p.untrusted[c][..Lead(e, c, p.untrusted[c])]
    ensures c in Bare(e, p).omitted && Bare(e, p).omitted[c] == p.omitted[c] + |p.untrusted[c]| - Lead(e, c, p.untrusted[c])
  {
  }

  lemma BareKept(e: Env, d: Draft, q: Draft)
    requires From(e, d, q)
    ensures Bare(e, q.packet) == Bare(e, d.packet)
  {
    var p, r := Bare(e, d.packet), Bare(e, q.packet);
    forall c: Category
      ensures c in p.untrusted && c in r.untrusted && c in p.omitted && c in r.omitted
      ensures r.untrusted[c] == p.untrusted[c] && r.omitted[c] == p.omitted[c]
    {
      assert Trimmed(e, c, d.packet, q.packet);
      BareAt(e, d.packet, c);
      BareAt(e, q.packet, c);
      LeadKept(e, c, d.packet, q.packet);
    }
    SamePackets(r, p);
  }

  /** Where nothing can be dropped, only the required rows are left. */
  lemma StuckIsBare(e: Env, d: Draft)
    requires Ready(e, d) && e.bounds.lemmaBytes([]) <= e.bounds.lemmaLimit && Next(e, d.packet).Nothing?
    ensures d.packet == Bare(e, d.packet)
  {
    var p := Bare(e, d.packet);
    forall c: Category
      ensures c in p.untrusted && c in p.omitted
      ensures p.untrusted[c] == d.packet.untrusted[c] && p.omitted[c] == d.packet.omitted[c]
    {
      var i := Position(c);
      assert !Droppable(e, d.packet, ORDER[i]);
      BareAt(e, d.packet, c);
      LeadUnique(e, c, d.packet.untrusted[c], |d.packet.untrusted[c]|);
    }
    SamePackets(p, d.packet);
  }

  /** Pruning is correct for arbitrary sizes. What it returns fits all four bounds, still has every
      required row, advertises exactly the manifest's declarations, and accounts for all it dropped;
      it fails only if the packet without lemmas and with only required rows does not fit. */
  lemma {:induction false} PruneCorrect(e: Env, d: Draft)
    requires Quotes(e) && Ready(e, d) && e.bounds.lemmaBytes([]) <= e.bounds.lemmaLimit
    ensures Pruned(e, d).Some? ==>
              WithinBounds(e.bounds, Pruned(e, d).value.packet) && Ready(e, Pruned(e, d).value) && From(e, d, Pruned(e, d).value)
    ensures Pruned(e, d).None? ==> !WithinBounds(e.bounds, Bare(e, d.packet))
    decreases Size(d)
  {
    if WithinBounds(e.bounds, d.packet) {
      FromRefl(e, d);
    } else {
      ShrinkKeeps(e, d);
      if Shrink(e, d).Some? {
        var next := Shrink(e, d).value;
        ShrinkSmaller(e, d);
        PruneCorrect(e, next);
        BareKept(e, d, next);
        if Pruned(e, next).Some? {
          FromTransitive(e, d, next, Pruned(e, next).value);
        }
      } else {
        StuckIsBare(e, d);
      }
    }
  }

  lemma FromRefl(e: Env, d: Draft)
    requires Whole(d.packet)
    ensures From(e, d, d)
  {
    forall c: Category ensures Trimmed(e, c, d.packet, d.packet) {
    }
  }

  /** Dropping more never makes a packet stop fitting. */
  ghost predicate Monotone(e: Env) {
    forall d: Draft, q: Draft {:trigger From(e, d, q)} | From(e, d, q) && WithinBounds(e.bounds, d.packet) :: WithinBounds(e.bounds, q.packet)
  }

  /** For sizes that do shrink, the condition is exact. */
  lemma PruneIff(e: Env, d: Draft)
    requires Quotes(e) && Ready(e, d) && Monotone(e)
    requires e.bounds.lemmaBytes([]) <= e.bounds.lemmaLimit
    ensures Pruned(e, d).Some? <==> WithinBounds(e.bounds, Bare(e, d.packet))
  {
    PruneCorrect(e, d);
    if Pruned(e, d).Some? {
      var q := Pruned(e, d).value;
      BareKept(e, d, q);
      BareFrom(e, q);
      assert WithinBounds(e.bounds, Draft(Bare(e, q.packet), [], None).packet);
    }
  }

  lemma BareFrom(e: Env, d: Draft)
    requires Whole(d.packet)
    ensures From(e, d, Draft(Bare(e, d.packet), [], None))
  {
    forall c: Category
      ensures c in Bare(e, d.packet).untrusted && c in Bare(e, d.packet).omitted
    {
      BareAt(e, d.packet, c);
    }
    forall c: Category ensures Trimmed(e, c, d.packet, Bare(e, d.packet)) {
      BareAt(e, d.packet, c);
    }
  }

  // --------------------------------------------------------------- admission

  /** Rank: rows whose identifier is required anywhere come first; the rest of the key is a
      deterministic order that is left open. */
  datatype Ranks = Ranks(grade: Row -> nat, tie: Row -> int)

  predicate Pertinent(e: Env, row: Row) {
    exists c: Category :: IsRequired(e, c, row)
  }

  function Grade(e: Env, k: Ranks, row: Row): int {
    if Pertinent(e, row) then -1 else k.grade(row)
  }

  function Rank(e: Env, k: Ranks): Row -> (int, int) {
    (row: Row) => (Grade(e, k, row), k.tie(row))
  }

  predicate AtMost(a: (int, int), b: (int, int)) {
    a.0 < b.0 || (a.0 == b.0 && a.1 <= b.1)
  }

  function InsertRow(rank: Row -> (int, int), row: Row, rows: seq<Row>): seq<Row> {
    if rows == [] then [row]
    else if AtMost(rank(rows[|rows| - 1]), rank(row)) then rows + [row]
    else InsertRow(rank, row, rows[..|rows| - 1]) + [rows[|rows| - 1]]
  }

  /** sorted(rows, key=rank) */
  function Sorted(rank: Row -> (int, int), rows: seq<Row>): seq<Row> {
    if rows == [] then [] else InsertRow(rank, rows[|rows| - 1], Sorted(rank, rows[..|rows| - 1]))
  }

  ghost predicate InRankOrder(rank: Row -> (int, int), rows: seq<Row>) {
    forall i, j | 0 <= i < j < |rows| :: AtMost(rank(rows[i]), rank(rows[j]))
  }

  lemma {:induction false} InsertRowMembers(rank: Row -> (int, int), row: Row, rows: seq<Row>)
    ensures |InsertRow(rank, row, rows)| == |rows| + 1
    ensures forall r :: r in InsertRow(rank, row, rows) <==> r in rows || r == row
  {
    if rows != [] {
      assert rows == rows[..|rows| - 1] + [rows[|rows| - 1]];
      InsertRowMembers(rank, row, rows[..|rows| - 1]);
    }
  }

  lemma {:induction false} InsertRowSorted(rank: Row -> (int, int), row: Row, rows: seq<Row>)
    requires InRankOrder(rank, rows)
    ensures InRankOrder(rank, InsertRow(rank, row, rows))
  {
    if rows != [] {
      var front, last := rows[..|rows| - 1], rows[|rows| - 1];
      if AtMost(rank(last), rank(row)) {
        forall i | 0 <= i < |rows| ensures AtMost(rank(rows[i]), rank(row)) {
        }
      } else {
        InsertRowSorted(rank, row, front);
        InsertRowMembers(rank, row, front);
        forall r | r in InsertRow(rank, row, front) ensures AtMost(rank(r), rank(last)) {
          assert r in front ==> exists i | 0 <= i < |front| :: rows[i] == r;
        }
      }
    }
  }

  lemma {:induction false} SortedRows(rank: Row -> (int, int), rows: seq<Row>)
    ensures InRankOrder(rank, Sorted(rank, rows)) && |Sorted(rank, rows)| == |rows|
    ensures forall r :: r in Sorted(rank, rows) <==> r in rows
  {
    if rows != [] {
      var front := rows[..|rows| - 1];
      assert rows == front + [rows[|rows| - 1]];
      SortedRows(rank, front);
      InsertRowSorted(rank, rows[|rows| - 1], Sorted(rank, front));
      InsertRowMembers(rank, rows[|rows| - 1], Sorted(rank, front));
    }
  }

  /** Identifiers are unique across tables: where a category has required rows, no other row of it
      has an identifier that is required elsewhere. */
  ghost predicate OwnIds(e: Env, c: Category, rows: seq<Row>) {
    Required(e, c) != {} ==> forall row | row in rows && Pertinent(e, row) :: IsRequired(e, c, row)
  }

  lemma SortedRequiredFirst(e: Env, k: Ranks, c: Category, rows: seq<Row>)
    requires OwnIds(e, c, rows)
    ensures RequiredFirst(e, c, Sorted(Rank(e, k), rows))
  {
    SortedRows(Rank(e, k), rows);
    var sorted := Sorted(Rank(e, k), rows);
    forall i, j | 0 <= i < j < |sorted| && IsRequired(e, c, sorted[j]) ensures IsRequired(e, c, sorted[i]) {
      assert AtMost(Rank(e, k)(sorted[i]), Rank(e, k)(sorted[j]));
      assert Pertinent(e, sorted[j]) && Pertinent(e, sorted[i]);
      assert sorted[i] in sorted && sorted[i] in rows;
    }
  }

  datatype Intake = Intake(rows: seq<Row>, omitted: nat)

  /** One category of _admit_categories: rows in rank order, each if it fits; None when a required
      row does not. */
  function Admit(e: Env, c: Category, bytes: seq<Row> -> nat, limit: nat, rows: seq<Row>): Option<Intake> {
    if rows == [] then Some(Intake([], 0))
    else
      match Admit(e, c, bytes, limit, rows[..|rows| - 1])
      case None => None
      case Some(intake) =>
        var row := rows[|rows| - 1];
        if bytes(intake.rows + [row]) <= limit then Some(Intake(intake.rows + [row], intake.omitted))
        else if IsRequired(e, c, row) then None
        else Some(Intake(intake.rows, intake.omitted + 1))
  }

  /** What is kept of the first rows, and what is known of it. */
  ghost predicate Kept(e: Env, c: Category, bytes: seq<Row> -> nat, limit: nat, rows: seq<Row>, intake: Intake) {
    && bytes(intake.rows) <= limit && |intake.rows| + intake.omitted == |rows|
    && RequiredFirst(e, c, intake.rows)
    && (forall row | row in intake.rows :: row in rows)
    && (forall row | row in rows && IsRequired(e, c, row) :: row in intake.rows)
  }

  lemma AllRequired(e: Env, c: Category, rows: seq<Row>)
    requires rows != [] && RequiredFirst(e, c, rows) && IsRequired(e, c, rows[|rows| - 1])
    ensures forall r | r in rows :: IsRequired(e, c, r)
  {
  }

  lemma KeptNext(e: Env, c: Category, bytes: seq<Row> -> nat, limit: nat, rows: seq<Row>, row: Row, intake: Intake)
    requires RequiredFirst(e, c, rows + [row]) && Kept(e, c, bytes, limit, rows, intake)
    ensures bytes(intake.rows + [row]) <= limit ==>
              Kept(e, c, bytes, limit, rows + [row], Intake(intake.rows + [row], intake.omitted))
    ensures !IsRequired(e, c, row) ==> Kept(e, c, bytes, limit, rows + [row], Intake(intake.rows, intake.omitted + 1))
  {
    if IsRequired(e, c, row) {
      AllRequired(e, c, rows + [row]);
      forall r | r in intake.rows ensures IsRequired(e, c, r) {
        assert r in rows + [row];
      }
    }
  }

  /** Admission keeps the order, counts what it leaves out, and never leaves out a required row. */
  lemma {:induction false} AdmitKeeps(e: Env, c: Category, bytes: seq<Row> -> nat, limit: nat, rows: seq<Row>)
    requires RequiredFirst(e, c, rows) && Admit(e, c, bytes, limit, rows).Some? && bytes([]) <= limit
    ensures Kept(e, c, bytes, limit, rows, Admit(e, c, bytes, limit, rows).value)
  {
    if rows != [] {
      var front, row := rows[..|rows| - 1], rows[|rows| - 1];
      assert rows == front + [row];
      AdmitKeeps(e, c, bytes, limit, front);
      KeptNext(e, c, bytes, limit, front, row, Admit(e, c, bytes, limit, front).value);
    }
  }

}
