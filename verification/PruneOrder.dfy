/**
 In which order a packet is cut down: lemmas while they are too large on their own, then rows,
 category by category, and lemmas again only when no row is left to drop. Nothing is dropped
 from a packet that fits.
 */
module PruneOrder {
  import opened Basics
  import opened Selection
  import opened Bundles
  import opened Packets

  ghost predicate Lost(d: Draft, q: Draft, c: Category)
    requires Whole(d.packet) && Whole(q.packet)
  {
    |q.packet.untrusted[c]| < |d.packet.untrusted[c]|
  }

  /** Of this category only the rows up to the last required one are left. */
  ghost predicate CutDown(e: Env, d: Draft, q: Draft, c: Category)
    requires Whole(d.packet) && Whole(q.packet)
  {
    |q.packet.untrusted[c]| == Lead(e, c, d.packet.untrusted[c])
  }

  lemma {:induction false} FirstIsFirst(e: Env, p: Packet, i: nat)
    requires i <= |ORDER| && FirstDroppable(e, p, i).FromRows?
    ensures forall k | i <= k < Position(FirstDroppable(e, p, i).category) :: !Droppable(e, p, ORDER[k])
    decreases |ORDER| - i
  {
    if Droppable(e, p, ORDER[i]) {
      OrderDistinct(i, Position(ORDER[i]));
    } else {
      FirstIsFirst(e, p, i + 1);
    }
  }

  lemma NotDroppable(e: Env, d: Draft, c: Category)
    requires Ready(e, d) && !Droppable(e, d.packet, c)
    ensures |d.packet.untrusted[c]| == Lead(e, c, d.packet.untrusted[c])
  {
    LeadUnique(e, c, d.packet.untrusted[c], |d.packet.untrusted[c]|);
  }

  /** A category that is cut down stays as it is. */
  lemma CutStays(e: Env, d: Draft, q: Draft, c: Category)
    requires From(e, d, q) && |d.packet.untrusted[c]| == Lead(e, c, d.packet.untrusted[c])
    ensures CutDown(e, d, q, c)
  {
    assert Trimmed(e, c, d.packet, q.packet);
  }

  lemma CutLater(e: Env, d: Draft, next: Draft, q: Draft, c: Category)
    requires From(e, d, next) && From(e, next, q) && CutDown(e, next, q, c)
    ensures CutDown(e, d, q, c)
  {
    assert Trimmed(e, c, d.packet, next.packet);
    LeadKept(e, c, d.packet, next.packet);
  }

  /** One pass of pruning, with what is known of it. */
  lemma OnePass(e: Env, d: Draft)
    requires Quotes(e) && Ready(e, d) && e.bounds.lemmaBytes([]) <= e.bounds.lemmaLimit
    requires !WithinBounds(e.bounds, d.packet) && Pruned(e, d).Some?
    ensures Shrink(e, d).Some? && Pruned(e, d) == Pruned(e, Shrink(e, d).value)
    ensures Ready(e, Shrink(e, d).value) && From(e, d, Shrink(e, d).value)
    ensures Size(Shrink(e, d).value) < Size(d)
    ensures From(e, Shrink(e, d).value, Pruned(e, d).value) && Ready(e, Pruned(e, d).value)
  {
    ShrinkKeeps(e, d);
    ShrinkSmaller(e, d);
    PruneCorrect(e, Shrink(e, d).value);
  }

  /** Rows go in category order: a category loses rows only after all earlier ones are cut down. */
  lemma {:induction false} RowsInOrder(e: Env, d: Draft, i: nat, j: nat)
    requires Quotes(e) && Ready(e, d) && e.bounds.lemmaBytes([]) <= e.bounds.lemmaLimit
    requires i < j < |ORDER| && Pruned(e, d).Some? && Whole(Pruned(e, d).value.packet)
    requires Lost(d, Pruned(e, d).value, ORDER[j])
    ensures CutDown(e, d, Pruned(e, d).value, ORDER[i])
    decreases Size(d)
  {
    var q := Pruned(e, d).value;
    OnePass(e, d);
    var next := Shrink(e, d).value;
    if Lost(next, q, ORDER[j]) {
      RowsInOrder(e, next, i, j);
      CutLater(e, d, next, q, ORDER[i]);
    } else {
      LostNow(e, d, next, ORDER[j]);
      OrderDistinct(j, Position(ORDER[j]));
      FirstIsFirst(e, d.packet, 0);
      NotDroppable(e, d, ORDER[i]);
      FromTransitive(e, d, next, q);
      CutStays(e, d, q, ORDER[i]);
    }
  }

  /** The pass in which a category loses a row found that category first. */
  lemma LostNow(e: Env, d: Draft, next: Draft, c: Category)
    requires Ready(e, d) && Shrink(e, d) == Some(next) && Whole(next.packet) && Lost(d, next, c)
    ensures LemmasFit(e.bounds, d.packet) && FirstDroppable(e, d.packet, 0) == FromRows(c)
  {
  }

  // ------------------------------------------------------------------ lemmas

  /** Do the lemmas of the first n selected proofs fit on their own? */
  ghost predicate FitsWith(e: Env, d: Draft, n: nat)
    requires n <= |d.selected|
  {
    d.manifest.Some? ==>
      Chosen(e, d.selected[..n]).Ok?
      && e.bounds.lemmaBytes(Rows(e, Chosen(e, d.selected[..n]).value.declarations)) <= e.bounds.lemmaLimit
  }

  lemma FitsNow(e: Env, d: Draft)
    requires Ready(e, d) && e.bounds.lemmaBytes([]) <= e.bounds.lemmaLimit
    ensures FitsWith(e, d, |d.selected|) <==> LemmasFit(e.bounds, d.packet)
  {
    TakeAll(d.selected);
  }

  /** Dropping rows, or proofs from the end, leaves the shorter selections what they were. */
  lemma FitsSame(e: Env, d: Draft, next: Draft, k: nat)
    requires next.selected <= d.selected && k <= |next.selected| && (next.manifest.Some? <==> d.manifest.Some?)
    ensures FitsWith(e, next, k) <==> FitsWith(e, d, k)
  {
    assert next.selected[..k] == d.selected[..k];
  }

  lemma PassKinds(e: Env, d: Draft)
    requires Quotes(e) && Ready(e, d) && Shrink(e, d).Some? && e.bounds.lemmaBytes([]) <= e.bounds.lemmaLimit
    ensures var next := Shrink(e, d).value;
            && (next.manifest.Some? <==> d.manifest.Some?)
            && (next.selected == d.selected ==> next.packet.lemmas == d.packet.lemmas)
            && (next.selected != d.selected ==> d.selected != [] && next.selected == d.selected[..|d.selected| - 1])
            && (!LemmasFit(e.bounds, d.packet) ==>
                  next.selected != d.selected && next.packet.untrusted == d.packet.untrusted && next.packet.omitted == d.packet.omitted)
            && (LemmasFit(e.bounds, d.packet) && next.selected != d.selected ==>
                  forall c: Category :: |d.packet.untrusted[c]| == Lead(e, c, d.packet.untrusted[c]))
  {
    var next := Shrink(e, d).value;
    if LemmasFit(e.bounds, d.packet) && next.selected != d.selected {
      forall c: Category ensures |d.packet.untrusted[c]| == Lead(e, c, d.packet.untrusted[c]) {
        assert !Droppable(e, d.packet, ORDER[Position(c)]);
        NotDroppable(e, d, c);
      }
    }
    if next.selected != d.selected {
      assert |next.selected| < |d.selected|;
    } else {
      assert next.manifest == d.manifest;
    }
  }

  /** b is d with fewer selected proofs and all its rows: the first such draft whose lemmas fit. */
  ghost predicate LemmasCut(e: Env, d: Draft, b: Draft) {
    && b.selected <= d.selected && Ready(e, b) && LemmasFit(e.bounds, b.packet)
    && b.packet.untrusted == d.packet.untrusted && b.packet.omitted == d.packet.omitted
    && (forall k | |b.selected| < k <= |d.selected| :: !FitsWith(e, d, k))
  }

  lemma LemmasCutNext(e: Env, d: Draft, next: Draft, b: Draft)
    requires LemmasCut(e, next, b) && d.selected != [] && next.selected == d.selected[..|d.selected| - 1]
    requires (next.manifest.Some? <==> d.manifest.Some?) && !FitsWith(e, d, |d.selected|)
    requires next.packet.untrusted == d.packet.untrusted && next.packet.omitted == d.packet.omitted
    ensures LemmasCut(e, d, b)
  {
    forall k | |b.selected| < k <= |d.selected| ensures !FitsWith(e, d, k) {
      if k < |d.selected| {
        FitsSame(e, d, next, k);
        assert !FitsWith(e, next, k);
      }
    }
    assert b.selected <= d.selected;
  }

  /** While the lemmas are too large on their own, selected proofs go and no row does: pruning d is
      pruning the first draft with all of d's rows whose lemmas fit. */
  lemma {:induction false} LemmasInOrder(e: Env, d: Draft) returns (b: Draft)
    requires Quotes(e) && Ready(e, d) && e.bounds.lemmaBytes([]) <= e.bounds.lemmaLimit && Pruned(e, d).Some?
    ensures LemmasCut(e, d, b) && Pruned(e, d) == Pruned(e, b) && From(e, d, b)
    ensures LemmasFit(e.bounds, d.packet) ==> b == d
    decreases Size(d)
  {
    FitsNow(e, d);
    if LemmasFit(e.bounds, d.packet) {
      b := d;
      FromRefl(e, d);
    } else {
      OnePass(e, d);
      PassKinds(e, d);
      var next := Shrink(e, d).value;
      b := LemmasInOrder(e, next);
      LemmasCutNext(e, d, next, b);
      FromTransitive(e, d, next, b);
    }
  }

  /** From a draft whose lemmas fit, a proof goes only when every category is cut down. */
  lemma {:induction false} RowsBeforeLemmas(e: Env, d: Draft)
    requires Quotes(e) && Ready(e, d) && e.bounds.lemmaBytes([]) <= e.bounds.lemmaLimit && Pruned(e, d).Some?
    requires LemmasFit(e.bounds, d.packet) && |Pruned(e, d).value.selected| < |d.selected|
    ensures Whole(Pruned(e, d).value.packet) && forall c: Category :: CutDown(e, d, Pruned(e, d).value, c)
    decreases Size(d)
  {
    OnePass(e, d);
    PassKinds(e, d);
    var next, q := Shrink(e, d).value, Pruned(e, d).value;
    if next.selected == d.selected {
      RowsBeforeLemmas(e, next);
      CutAtEnd(e, d, next, q, true);
    } else {
      CutAtEnd(e, d, next, q, false);
    }
  }

  lemma CutAtEnd(e: Env, d: Draft, next: Draft, q: Draft, more: bool)
    requires From(e, d, next) && From(e, next, q)
    requires more ==> forall c: Category :: CutDown(e, next, q, c)
    ensures more ==> forall c: Category :: CutDown(e, d, q, c)
    ensures (forall c: Category :: |d.packet.untrusted[c]| == Lead(e, c, d.packet.untrusted[c]))
            ==> forall c: Category :: CutDown(e, d, q, c)
  {
    FromTransitive(e, d, next, q);
    if more {
      forall c: Category ensures CutDown(e, d, q, c) {
        CutLater(e, d, next, q, c);
      }
    }
    if forall c: Category :: |d.packet.untrusted[c]| == Lead(e, c, d.packet.untrusted[c]) {
      forall c: Category ensures CutDown(e, d, q, c) {
        CutStays(e, d, q, c);
      }
    }
  }

  // -------------------------------------------------------------------- end

  /** q is p without the last row of one category, which is not required, and which is counted. */
  ghost predicate RowLess(e: Env, p: Draft, q: Draft, c: Category)
    requires Whole(p.packet) && Whole(q.packet)
  {
    && p.packet.untrusted[c] != [] && p.packet.untrusted[c][..|p.packet.untrusted[c]| - 1] == q.packet.untrusted[c]
    && !IsRequired(e, c, p.packet.untrusted[c][|p.packet.untrusted[c]| - 1])
    && q.packet.omitted[c] == p.packet.omitted[c] + 1
    && (forall k: Category | k != c ::
          q.packet.untrusted[k] == p.packet.untrusted[k] && q.packet.omitted[k] == p.packet.omitted[k])
    && q.selected == p.selected && q.manifest == p.manifest
    && q.packet.lemmas == p.packet.lemmas && q.packet.omittedLemmas == p.packet.omittedLemmas
  }

  /** q is p without its last selected proof. */
  ghost predicate ProofLess(p: Draft, q: Draft) {
    && p.selected != [] && q.selected == p.selected[..|p.selected| - 1]
    && q.packet.untrusted == p.packet.untrusted && q.packet.omitted == p.packet.omitted
    && q.packet.omittedLemmas + |q.packet.lemmas| == p.packet.omittedLemmas + |p.packet.lemmas|
  }

  ghost predicate OneLess(e: Env, p: Draft, q: Draft)
    requires Whole(p.packet) && Whole(q.packet)
  {
    ProofLess(p, q) || exists c: Category :: RowLess(e, p, q, c)
  }

  lemma PassIsOneLess(e: Env, d: Draft)
    requires Quotes(e) && Ready(e, d) && Shrink(e, d).Some?
    ensures Whole(Shrink(e, d).value.packet) && OneLess(e, d, Shrink(e, d).value)
  {
    ShrinkKeeps(e, d);
    match Next(e, d.packet)
    case FromRows(c) => assert RowLess(e, d, Shrink(e, d).value, c);
    case FromLemmas => assert ProofLess(d, Shrink(e, d).value);
    case Nothing =>
  }

  /** Pruning stops as soon as the packet fits: a draft that fits is returned as it is, and otherwise
      the draft one row or one proof earlier did not fit. */
  lemma {:induction false} StopsAtFirstFit(e: Env, d: Draft) returns (p: Draft)
    requires Quotes(e) && Ready(e, d) && e.bounds.lemmaBytes([]) <= e.bounds.lemmaLimit && Pruned(e, d).Some?
    ensures WithinBounds(e.bounds, d.packet) ==> Pruned(e, d) == Some(d)
    ensures !WithinBounds(e.bounds, d.packet) ==>
              && From(e, d, p) && !WithinBounds(e.bounds, p.packet)
              && Whole(Pruned(e, d).value.packet) && OneLess(e, p, Pruned(e, d).value)
    decreases Size(d)
  {
    p := d;
    if !WithinBounds(e.bounds, d.packet) {
      OnePass(e, d);
      PassIsOneLess(e, d);
      var next := Shrink(e, d).value;
      if WithinBounds(e.bounds, next.packet) {
        FromRefl(e, d);
      } else {
        p := StopsAtFirstFit(e, next);
        FromTransitive(e, d, next, p);
      }
    }
  }

  /** The order of pruning, for arbitrary sizes and without its steps. First proofs go until the lemmas
      fit on their own, and no row; the rest is as if that draft b had been pruned. If b fits it is the
      result, and otherwise one row or proof more would not fit. A further proof goes only when all rows
      that may go are gone, and a category loses a row only when no category before it can. */
  lemma PruneKeepsOrder(e: Env, d: Draft) returns (b: Draft)
    requires Quotes(e) && Ready(e, d) && e.bounds.lemmaBytes([]) <= e.bounds.lemmaLimit && Pruned(e, d).Some?
    ensures LemmasCut(e, d, b) && (LemmasFit(e.bounds, d.packet) ==> b == d)
    ensures WithinBounds(e.bounds, b.packet) ==> Pruned(e, d) == Some(b)
    ensures var q := Pruned(e, d).value;
            && Whole(q.packet) && From(e, b, q)
            && (!WithinBounds(e.bounds, b.packet) ==>
                  exists p :: From(e, b, p) && !WithinBounds(e.bounds, p.packet) && OneLess(e, p, q))
            && (|q.selected| < |b.selected| ==> forall c: Category :: CutDown(e, d, q, c))
            && (forall i, j | 0 <= i < j < |ORDER| && Lost(d, q, ORDER[j]) :: CutDown(e, d, q, ORDER[i]))
  {
    var q := Pruned(e, d).value;
    FitsNow(e, d);
    b := LemmasInOrder(e, d);
    PruneCorrect(e, b);
    var p := StopsAtFirstFit(e, b);
    if |q.selected| < |b.selected| {
      RowsBeforeLemmas(e, b);
      forall c: Category ensures CutDown(e, d, q, c) {
        CutLater(e, d, b, q, c);
      }
    }
    forall i, j | 0 <= i < j < |ORDER| && Lost(d, q, ORDER[j]) ensures CutDown(e, d, q, ORDER[i]) {
      RowsInOrder(e, d, i, j);
    }
  }
}
