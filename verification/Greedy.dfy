/**
 Admission into a packet is greedy: each row and each checked lemma is taken exactly if it still fits
 behind the ones taken before it.
 */
module Greedy {
  import opened Basics
  import opened Selection
  import opened Bundles
  import opened Packets
  import opened PacketBuilder

  /** The elements of s that were picked, in order. */
  function Taken<T>(s: seq<T>, picks: seq<bool>): (taken: seq<T>)
    requires |picks| == |s|
    ensures |taken| <= |s|
  {
    if s == [] then []
    else Taken(s[..|s| - 1], picks[..|s| - 1]) + if picks[|s| - 1] then [s[|s| - 1]] else []
  }

  lemma TakenNext<T>(s: seq<T>, picks: seq<bool>, e: T, pick: bool)
    requires |picks| == |s|
    ensures Taken(s + [e], picks + [pick]) == Taken(s, picks) + if pick then [e] else []
    ensures forall i | 0 <= i <= |s| :: (s + [e])[..i] == s[..i] && (picks + [pick])[..i] == picks[..i]
  {
    AppendParts(s, e);
    AppendParts(picks, pick);
  }

  // -------------------------------------------------------------------- ranks

  /** The rows of one rank, in order. */
  function Alike(rank: Row -> (int, int), rows: seq<Row>, key: (int, int)): seq<Row> {
    if rows == [] then []
    else Alike(rank, rows[..|rows| - 1], key) + if rank(rows[|rows| - 1]) == key then [rows[|rows| - 1]] else []
  }

  lemma AlikeNext(rank: Row -> (int, int), rows: seq<Row>, row: Row, key: (int, int))
    ensures Alike(rank, rows + [row], key) == Alike(rank, rows, key) + if rank(row) == key then [row] else []
  {
    AppendParts(rows, row);
  }

  /** A row is inserted behind those of its own rank. */
  lemma {:induction false} InsertStable(rank: Row -> (int, int), row: Row, rows: seq<Row>, key: (int, int))
    ensures Alike(rank, InsertRow(rank, row, rows), key) == Alike(rank, rows + [row], key)
  {
    AlikeNext(rank, rows, row, key);
    if rows == [] {
      assert [] + [row] == [row];
    } else if !AtMost(rank(rows[|rows| - 1]), rank(row)) {
      var front, last := rows[..|rows| - 1], rows[|rows| - 1];
      InsertStable(rank, row, front, key);
      AlikeNext(rank, front, row, key);
      AlikeNext(rank, InsertRow(rank, row, front), last, key);
    }
  }

  /** sorted has the rows by grade, then by tie-break, and those of the same rank as they stood before. */
  ghost predicate SortedBy(rank: Row -> (int, int), rows: seq<Row>, sorted: seq<Row>) {
    && (forall i, j | 0 <= i < j < |sorted| ::
          var a, b := rank(sorted[i]), rank(sorted[j]); a.0 < b.0 || (a.0 == b.0 && a.1 <= b.1))
    && (forall key :: Alike(rank, sorted, key) == Alike(rank, rows, key))
    && (forall row :: row in sorted <==> row in rows)
  }

  lemma {:induction false} SortedStable(rank: Row -> (int, int), rows: seq<Row>, key: (int, int))
    ensures Alike(rank, Sorted(rank, rows), key) == Alike(rank, rows, key)
  {
    if rows != [] {
      var front, last := rows[..|rows| - 1], rows[|rows| - 1];
      SortedStable(rank, front, key);
      InsertStable(rank, last, Sorted(rank, front), key);
      AlikeNext(rank, Sorted(rank, front), last, key);
    }
  }

  lemma SortedRule(rank: Row -> (int, int), rows: seq<Row>)
    ensures SortedBy(rank, rows, Sorted(rank, rows))
  {
    var sorted := Sorted(rank, rows);
    SortedRows(rank, rows);
    forall key ensures Alike(rank, sorted, key) == Alike(rank, rows, key) {
      SortedStable(rank, rows, key);
    }
    forall i, j | 0 <= i < j < |sorted|
      ensures var a, b := rank(sorted[i]), rank(sorted[j]); a.0 < b.0 || (a.0 == b.0 && a.1 <= b.1)
    {
      assert AtMost(rank(sorted[i]), rank(sorted[j]));
    }
  }

  // --------------------------------------------------------------------- rows

  /** Each row is taken exactly if it fits behind the rows taken before it. */
  ghost predicate TakesWhatFits(rows: seq<Row>, picks: seq<bool>, bytes: seq<Row> -> nat, limit: nat)
    requires |picks| == |rows|
  {
    forall i {:trigger picks[i]} | 0 <= i < |rows| :: picks[i] <==> bytes(Taken(rows[..i], picks[..i]) + [rows[i]]) <= limit
  }

  /** A row joins those that were taken if it fits behind them; a required one must. */
  function Joined(e: Env, c: Category, bytes: seq<Row> -> nat, limit: nat, before: Intake, row: Row): Option<Intake> {
    if bytes(before.rows + [row]) <= limit then Some(Intake(before.rows + [row], before.omitted))
    else if IsRequired(e, c, row) then None
    else Some(Intake(before.rows, before.omitted + 1))
  }

  /** What the last row adds to an admission. */
  lemma AdmitLast(e: Env, c: Category, bytes: seq<Row> -> nat, limit: nat, front: seq<Row>, row: Row)
    ensures var before := Admit(e, c, bytes, limit, front);
            Admit(e, c, bytes, limit, front + [row]) == if before.None? then None else Joined(e, c, bytes, limit, before.value, row)
  {
    AppendParts(front, row);
    AdmitStep(e, c, bytes, limit, front + [row]);
  }

  lemma AdmitStep(e: Env, c: Category, bytes: seq<Row> -> nat, limit: nat, rows: seq<Row>)
    requires rows != []
    ensures var before := Admit(e, c, bytes, limit, rows[..|rows| - 1]);
            Admit(e, c, bytes, limit, rows)
            == if before.None? then None else Joined(e, c, bytes, limit, before.value, rows[|rows| - 1])
  {
  }

  ghost predicate NoneMissed(e: Env, c: Category, rows: seq<Row>, picks: seq<bool>)
    requires |picks| == |rows|
  {
    forall i | 0 <= i < |rows| :: IsRequired(e, c, rows[i]) ==> picks[i]
  }

  ghost function AdmittedAs(e: Env, c: Category, rows: seq<Row>, picks: seq<bool>): Option<Intake>
    requires |picks| == |rows|
  {
    if NoneMissed(e, c, rows, picks) then Some(Intake(Taken(rows, picks), |rows| - |Taken(rows, picks)|)) else None
  }

  lemma AdmittedNext(e: Env, c: Category, bytes: seq<Row> -> nat, limit: nat, rows: seq<Row>, picks: seq<bool>, row: Row)
    requires |picks| == |rows| && Admit(e, c, bytes, limit, rows) == AdmittedAs(e, c, rows, picks)
    ensures var pick := bytes(Taken(rows, picks) + [row]) <= limit;
            Admit(e, c, bytes, limit, rows + [row]) == AdmittedAs(e, c, rows + [row], picks + [pick])
  {
    var pick := bytes(Taken(rows, picks) + [row]) <= limit;
    AdmitLast(e, c, bytes, limit, rows, row);
    TakenNext(rows, picks, row, pick);
    AllOrLast(e, c, rows, picks, row, pick);
    PlusNothing(Taken(rows, picks));
  }

  /** A category is admitted if no required row is left out; then it holds what fits, in rank order, and
      counts what does not. */
  lemma {:induction false} AdmitIsGreedy(e: Env, c: Category, bytes: seq<Row> -> nat, limit: nat, rows: seq<Row>) returns (picks: seq<bool>)
    ensures |picks| == |rows| && TakesWhatFits(rows, picks, bytes, limit)
    ensures Admit(e, c, bytes, limit, rows) == AdmittedAs(e, c, rows, picks)
  {
    picks := [];
    if rows != [] {
      var front, row := rows[..|rows| - 1], rows[|rows| - 1];
      var before := AdmitIsGreedy(e, c, bytes, limit, front);
      AdmittedNext(e, c, bytes, limit, front, before, row);
      TakesOneMore(front, before, row, bytes, limit);
      picks := before + [bytes(Taken(front, before) + [row]) <= limit];
      assert rows == front + [row];
    }
  }

  lemma TakesOneMore(rows: seq<Row>, picks: seq<bool>, row: Row, bytes: seq<Row> -> nat, limit: nat)
    requires |picks| == |rows| && TakesWhatFits(rows, picks, bytes, limit)
    ensures var pick := bytes(Taken(rows, picks) + [row]) <= limit;
            TakesWhatFits(rows + [row], picks + [pick], bytes, limit)
  {
    var pick := bytes(Taken(rows, picks) + [row]) <= limit;
    var more, next := rows + [row], picks + [pick];
    TakenNext(rows, picks, row, pick);
    TakeAll(rows);
    TakeAll(picks);
    forall i {:trigger next[i]} | 0 <= i < |more| ensures next[i] <==> bytes(Taken(more[..i], next[..i]) + [more[i]]) <= limit {
      if i < |rows| {
        assert picks[i] == next[i] && rows[i] == more[i];
      } else {
        assert more[i] == row && next[i] == pick;
      }
    }
  }

  lemma AllOrLast(e: Env, c: Category, rows: seq<Row>, picks: seq<bool>, row: Row, pick: bool)
    requires |picks| == |rows|
    ensures NoneMissed(e, c, rows + [row], picks + [pick]) <==> NoneMissed(e, c, rows, picks) && (IsRequired(e, c, row) ==> pick)
  {
    var more, next := rows + [row], picks + [pick];
    if NoneMissed(e, c, more, next) {
      assert more[|rows|] == row && next[|rows|] == pick;
      forall i | 0 <= i < |rows| ensures IsRequired(e, c, rows[i]) ==> picks[i] {
        assert more[i] == rows[i] && next[i] == picks[i];
      }
    }
  }

  // ------------------------------------------------------------------- lemmas

  /** A proof joins exactly if selecting it behind the ones taken before succeeds, with all the lemmas
      that it needs, and their rows fit. */
  ghost predicate TakesWhatJoins(e: Env, ids: seq<nat>, picks: seq<bool>)
    requires |picks| == |ids|
  {
    forall i {:trigger picks[i]} | 0 <= i < |ids| ::
      var trial := Select(e.w, e.z, e.claim, "", Taken(ids[..i], picks[..i]) + [ids[i]]);
      picks[i] <==> trial.Ok? && e.bounds.lemmaBytes(Briefs(e, trial.value.declarations)) <= e.bounds.lemmaLimit
  }

  lemma {:induction false} PickedIsGreedy(e: Env, ids: seq<nat>) returns (picks: seq<bool>)
    ensures |picks| == |ids| && TakesWhatJoins(e, ids, picks) && Picked(e, ids) == Taken(ids, picks)
  {
    picks := [];
    if ids != [] {
      var front, id := ids[..|ids| - 1], ids[|ids| - 1];
      var before := PickedIsGreedy(e, front);
      var pick := Joins(e, Taken(front, before), id);
      picks := before + [pick];
      assert ids == front + [id];
      TakenNext(front, before, id, pick);
      JoinsOneMore(e, front, before, id);
    }
  }

  lemma JoinsOneMore(e: Env, ids: seq<nat>, picks: seq<bool>, id: nat)
    requires |picks| == |ids| && TakesWhatJoins(e, ids, picks)
    ensures TakesWhatJoins(e, ids + [id], picks + [Joins(e, Taken(ids, picks), id)])
  {
    var pick := Joins(e, Taken(ids, picks), id);
    var more, next := ids + [id], picks + [pick];
    TakenNext(ids, picks, id, pick);
    TakeAll(ids);
    TakeAll(picks);
    forall i {:trigger next[i]} | 0 <= i < |more|
      ensures var trial := Select(e.w, e.z, e.claim, "", Taken(more[..i], next[..i]) + [more[i]]);
              next[i] <==> trial.Ok? && e.bounds.lemmaBytes(Briefs(e, trial.value.declarations)) <= e.bounds.lemmaLimit
    {
      if i < |ids| {
        assert picks[i] == next[i] && ids[i] == more[i];
      } else {
        assert more[i] == id && next[i] == pick;
      }
    }
  }

  /** The whole of a draft before pruning: each category holds the ranked rows that fit, every row left
      out is counted, and the lemmas are the greedy choice among the first eight candidates. */
  lemma DraftIsGreedy(e: Env, a: Allowance, q: Request, d: Draft, c: Category) returns (rows: seq<Row>, picks: seq<bool>, joins: seq<bool>)
    requires DraftOf(e, a, q, d) && c in q.graph
    ensures |picks| == |rows| && TakesWhatFits(rows, picks, a.bytes, a.limit(c))
    ensures SortedBy(Rank(e, a.ranks), IncludeAll(q.graph, q.asked)[c], rows)
    ensures d.packet.untrusted[c] == Taken(rows, picks)
    ensures d.packet.omitted[c] - q.omitted[c] == |rows| - |Taken(rows, picks)|
    ensures var tried := q.candidates[..Min(8, |q.candidates|)];
            && |joins| == |tried| && TakesWhatJoins(e, tried, joins)
            && d.selected == (if q.bound then Taken(tried, joins) else [])
  {
    var included := IncludeAll(q.graph, q.asked)[c];
    rows := Sorted(Rank(e, a.ranks), included);
    SortedRule(Rank(e, a.ranks), included);
    picks := AdmitIsGreedy(e, c, a.bytes, a.limit(c), rows);
    joins := PickedIsGreedy(e, q.candidates[..Min(8, |q.candidates|)]);
  }

  // ----------------------------------------------------------------- evidence

  /** Including evidence fails exactly for an identifier that names no row. */
  lemma {:induction false} IncludedIff(rows: seq<Row>, ids: seq<nat>, table: map<nat, Row>, how: Manner)
    ensures Include(rows, ids, table, how).Some? <==> forall id | id in ids :: id in table
  {
    if ids != [] {
      var front, id := ids[..|ids| - 1], ids[|ids| - 1];
      assert ids == front + [id];
      IncludedIff(rows, front, table, how);
    }
  }

  /** The rows that inclusion adds: for a list of its own every asked row in order, and otherwise, once
      each, the asked rows that were not there. */
  ghost predicate Added(rows: seq<Row>, ids: seq<nat>, table: map<nat, Row>, how: Manner, added: seq<Row>)
    requires forall id | id in ids :: id in table
  {
    if how.Listed? then |added| == |ids| && forall i | 0 <= i < |ids| :: added[i] == table[ids[i]]
    else
      && (forall row | row in added :: exists id | id in ids :: row == table[id] && !PacketBuilder.Shows(rows, id))
      && (forall id | id in ids && !PacketBuilder.Shows(rows, id) :: table[id] in added)
      && (forall i, j | 0 <= i < j < |added| :: added[i].id != added[j].id)
  }

  /** What was there stays as it was and in its order: added rows stand behind it, or in front of it. */
  lemma {:induction false} IncludedRows(rows: seq<Row>, ids: seq<nat>, table: map<nat, Row>, how: Manner) returns (added: seq<Row>)
    requires forall id | id in table :: table[id].id == Some(id)
    requires forall id | id in ids :: id in table
    ensures Include(rows, ids, table, how) == Some(if how.AtFront? then added + rows else rows + added)
    ensures Added(rows, ids, table, how, added)
  {
    added := [];
    if ids == [] {
      PlusNothing(rows);
      assert [] + rows == rows;
    } else {
      var front, id := ids[..|ids| - 1], ids[|ids| - 1];
      assert ids == front + [id];
      var before := IncludedRows(rows, front, table, how);
      if how.Listed? {
        added := before + [table[id]];
        assert rows + before + [table[id]] == rows + added;
      } else {
        added := IncludedNext(rows, front, id, table, how, before);
      }
    }
  }

  lemma ShownIn(rows: seq<Row>, more: seq<Row>, id: nat)
    ensures PacketBuilder.Shows(rows + more, id) <==> PacketBuilder.Shows(rows, id) || PacketBuilder.Shows(more, id)
    ensures PacketBuilder.Shows(more + rows, id) <==> PacketBuilder.Shows(rows, id) || PacketBuilder.Shows(more, id)
  {
    if PacketBuilder.Shows(rows, id) {
      var r :| r in rows && r.id == Some(id);
      assert r in rows + more && r in more + rows;
    }
    if PacketBuilder.Shows(more, id) {
      var r :| r in more && r.id == Some(id);
      assert r in rows + more && r in more + rows;
    }
  }

  lemma IncludedNext(rows: seq<Row>, ids: seq<nat>, id: nat, table: map<nat, Row>, how: Manner, before: seq<Row>) returns (added: seq<Row>)
    requires !how.Listed? && (forall i | i in table :: table[i].id == Some(i)) && id in table
    requires (forall i | i in ids :: i in table) && Added(rows, ids, table, how, before)
    ensures var now := if how.AtFront? then before + rows else rows + before;
            IncludeOne(now, table[id], id, how) == if how.AtFront? then added + rows else rows + added
    ensures Added(rows, ids + [id], table, how, added)
  {
    ShownIn(rows, before, id);
    if PacketBuilder.Shows(rows, id) || PacketBuilder.Shows(before, id) {
      added := before;
      if !PacketBuilder.Shows(rows, id) {
        var r :| r in before && r.id == Some(id);
        assert r == table[id];
      }
    } else {
      added := if how.AtFront? then [table[id]] + before else before + [table[id]];
      assert [table[id]] + (before + rows) == [table[id]] + before + rows;
      assert rows + before + [table[id]] == rows + (before + [table[id]]);
      forall row | row in before ensures row.id != Some(id) {
      }
    }
    forall row | row in added ensures exists i | i in ids + [id] :: row == table[i] && !PacketBuilder.Shows(rows, i) {
      if row in before {
        var i :| i in ids && row == table[i] && !PacketBuilder.Shows(rows, i);
        assert i in ids + [id];
      } else {
        assert id in ids + [id];
      }
    }
  }
}
