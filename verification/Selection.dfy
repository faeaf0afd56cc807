/** Selection recomputed from persisted recommendation rows. */
module Selection {
  import opened Domain
  import Erv
  import opened Ranking
  import opened Seqs

  /** One persisted recommendation; probability and confidence are NUMERIC(7,6) columns. */
  datatype Row = Row(
    action: ActionType,
    rank: nat,
    probability: real,
    expectedRecovered: int,
    expectedValue: int,
    confidence: real,
    eligible: bool,
    requiresApproval: bool)

  /** Rounding to six decimal places on the way into the database. */
  function Round6(value: real): real {
    Erv.RoundHalfUp(value * 1000000.0) as real / 1000000.0
  }

  function ToRow(r: Ranked): Row {
    Row(r.candidate.action, r.rank, Round6(r.candidate.probability), r.candidate.expectedRecovered,
        r.candidate.expectedValue, Round6(r.candidate.confidence), r.candidate.eligible,
        r.candidate.requiresApproval)
  }

  function Persist(ranked: seq<Ranked>): (rows: seq<Row>)
    ensures |rows| == |ranked|
    ensures forall i :: 0 <= i < |rows| ==> rows[i] == ToRow(ranked[i])
  {
    seq(|ranked|, i requires 0 <= i < |ranked| => ToRow(ranked[i]))
  }

  function ToRanked(row: Row): Ranked {
    Ranked(Candidate(row.action, row.probability, row.expectedRecovered, row.expectedValue, row.confidence,
                     row.eligible, row.requiresApproval, OperationalBurden(row.action)), row.rank)
  }

  function Restore(rows: seq<Row>): (ranked: seq<Ranked>)
    ensures |ranked| == |rows|
    ensures forall i :: 0 <= i < |rows| ==> ranked[i] == ToRanked(rows[i])
  {
    seq(|rows|, i requires 0 <= i < |rows| => ToRanked(rows[i]))
  }

  function InsertByRank(row: Row, sorted: seq<Row>): seq<Row> {
    if sorted == [] || row.rank <= sorted[0].rank then [row] + sorted
    else [sorted[0]] + InsertByRank(row, sorted[1..])
  }

  function SortByRank(rows: seq<Row>): (r: seq<Row>)
  {
    if rows == [] then [] else InsertByRank(rows[0], SortByRank(rows[1..]))
  }

  /** Last row carrying the action, as a dictionary built front to back would keep it. */
  function RowFor(rows: seq<Row>, action: ActionType): (r: Option<Row>)
    ensures r.Some? ==> r.value.action == action && r.value in rows
    ensures r.None? ==> forall row :: row in rows ==> row.action != action
  {
    if rows == [] then None
    else if rows[|rows| - 1].action == action then Some(rows[|rows| - 1])
    else RowFor(rows[..|rows| - 1], action)
  }

  /** The row the executor will accept, or None. */
  function SelectCandidateRow(rows: seq<Row>): Option<Row> {
    var ordered := SortByRank(rows);
    var selected := SelectRecommendation(Restore(ordered));
    if selected.None? then None else RowFor(ordered, selected.value.candidate.action)
  }

  // ------------------------------------------------------------ sorting by rank

  predicate RankSorted(rows: seq<Row>) {
    forall i, j :: 0 <= i < j < |rows| ==> rows[i].rank <= rows[j].rank
  }

  predicate DistinctRanks(rows: seq<Row>) {
    forall i, j :: 0 <= i < j < |rows| ==> rows[i].rank != rows[j].rank
  }

  lemma {:induction false} InsertByRankSorted(row: Row, sorted: seq<Row>)
    requires RankSorted(sorted)
    ensures RankSorted(InsertByRank(row, sorted))
  {
    if sorted != [] && row.rank > sorted[0].rank {
      InsertByRankSorted(row, sorted[1..]);
      InsertByRankMembers(row, sorted[1..]);
      PrependLeast(sorted[0], InsertByRank(row, sorted[1..]));
    } else {
      PrependLeast(row, sorted);
    }
  }

  lemma PrependLeast(row: Row, sorted: seq<Row>)
    requires RankSorted(sorted)
    requires forall r :: r in sorted ==> row.rank <= r.rank
    ensures RankSorted([row] + sorted)
  {
  }

  lemma {:induction false} InsertByRankMembers(row: Row, sorted: seq<Row>)
    ensures multiset(InsertByRank(row, sorted)) == multiset{row} + multiset(sorted)
    ensures forall r :: r in InsertByRank(row, sorted) ==> r == row || r in sorted
  {
    if sorted != [] && row.rank > sorted[0].rank {
      assert sorted == [sorted[0]] + sorted[1..];
      InsertByRankMembers(row, sorted[1..]);
    }
  }

  lemma {:induction false} SortByRankSorts(rows: seq<Row>)
    ensures RankSorted(SortByRank(rows))
    ensures multiset(SortByRank(rows)) == multiset(rows)
  {
    if rows != [] {
      SortByRankSorts(rows[1..]);
      InsertByRankSorted(rows[0], SortByRank(rows[1..]));
      InsertByRankMembers(rows[0], SortByRank(rows[1..]));
      assert rows == [rows[0]] + rows[1..];
    }
  }

  /** A rank-sorted list is determined by its rows when ranks do not repeat. */
  lemma {:induction false} RankSortedUnique(xs: seq<Row>, ys: seq<Row>)
    requires RankSorted(xs) && RankSorted(ys) && DistinctRanks(xs)
    requires multiset(xs) == multiset(ys)
    ensures xs == ys
  {
    SameLength(xs, ys);
    if xs != [] {
      FirstByRankAgrees(xs, ys);
      TailsAgree(xs, ys);
      RankSortedUnique(xs[1..], ys[1..]);
      assert xs == [xs[0]] + xs[1..] && ys == [ys[0]] + ys[1..];
    }
  }

  lemma FirstByRankAgrees(xs: seq<Row>, ys: seq<Row>)
    requires RankSorted(xs) && RankSorted(ys) && DistinctRanks(xs)
    requires multiset(xs) == multiset(ys) && xs != [] && ys != []
    ensures xs[0] == ys[0]
  {
    assert xs[0] in multiset(ys) && ys[0] in multiset(xs);
    var i :| 0 <= i < |xs| && xs[i] == ys[0];
    var j :| 0 <= j < |ys| && ys[j] == xs[0];
    assert xs[0].rank == ys[0].rank;
  }

  // ------------------------------------------------------------ stability

  /** Persisting and restoring changes neither eligibility, nor value, nor action. */
  lemma {:induction false} RestoredFirst(ranked: seq<Ranked>, p: Candidate -> bool)
    requires p == Selectable || p == EligibleStop
    ensures var restored := FirstWhere(Restore(Persist(ranked)), p);
            var original := FirstWhere(ranked, p);
            && restored.Some? == original.Some?
            && (original.Some? ==> restored.value.candidate.action == original.value.candidate.action
                                   && restored.value.rank == original.value.rank)
  {
    if ranked != [] {
      var restored := Restore(Persist(ranked));
      assert p(restored[0].candidate) == p(ranked[0].candidate);
      assert restored[1..] == Restore(Persist(ranked[1..]));
      RestoredFirst(ranked[1..], p);
    }
  }

  /** Ranked lists as analysis produces them: ranks 1..n, no action twice. */
  predicate Canonical(ranked: seq<Ranked>) {
    && (forall i :: 0 <= i < |ranked| ==> ranked[i].rank == i + 1)
    && (forall i, j :: 0 <= i < j < |ranked| ==> ranked[i].candidate.action != ranked[j].candidate.action)
  }

  lemma SortRestoresPersisted(ranked: seq<Ranked>, rows: seq<Row>)
    requires Canonical(ranked) && multiset(rows) == multiset(Persist(ranked))
    ensures SortByRank(rows) == Persist(ranked)
  {
    SortByRankSorts(rows);
    RankSortedUnique(Persist(ranked), SortByRank(rows));
  }

  lemma {:induction false} RowForDistinct(rows: seq<Row>, i: nat)
    requires i < |rows|
    requires forall j, k :: 0 <= j < k < |rows| ==> rows[j].action != rows[k].action
    ensures RowFor(rows, rows[i].action) == Some(rows[i])
  {
    if i != |rows| - 1 {
      RowForDistinct(rows[..|rows| - 1], i);
    }
  }

  /**
   * Re-selecting from the stored rows, in whatever order the query returns
   * them and after both columns were rounded, finds the row of the action that
   * analysis selected.
   */
  lemma SelectionSurvivesPersistence(ranked: seq<Ranked>, rows: seq<Row>)
    requires Canonical(ranked) && multiset(rows) == multiset(Persist(ranked))
    ensures SelectRecommendation(ranked).None? ==> SelectCandidateRow(rows).None?
    ensures SelectRecommendation(ranked).Some? ==>
              SelectCandidateRow(rows) == Some(ToRow(SelectRecommendation(ranked).value))
  {
    SortRestoresPersisted(ranked, rows);
    RestoredFirst(ranked, Selectable);
    RestoredFirst(ranked, EligibleStop);
    var selected := SelectRecommendation(ranked);
    if selected.Some? {
      var i :| 0 <= i < |ranked| && ranked[i] == selected.value;
      RowForDistinct(Persist(ranked), i);
    }
  }

  /** Whatever the stored rows are, a selected row is eligible and executable when its action is stored once. */
  lemma SelectedRowIsAdmissible(rows: seq<Row>)
    requires forall i, j :: 0 <= i < j < |rows| ==> rows[i].action != rows[j].action
    ensures SelectCandidateRow(rows).Some? ==>
              var row := SelectCandidateRow(rows).value;
              row in rows && row.eligible && IsExecutable(row.action)
  {
    var ordered := SortByRank(rows);
    SortByRankSorts(rows);
    var selected := SelectRecommendation(Restore(ordered));
    if selected.Some? {
      var i :| 0 <= i < |ordered| && ToRanked(ordered[i]) == selected.value;
      DistinctUnderPermutation(rows, ordered);
      RowForDistinct(ordered, i);
      assert ordered[i] in multiset(rows);
    }
  }

  lemma DistinctUnderPermutation(rows: seq<Row>, ordered: seq<Row>)
    requires forall i, j :: 0 <= i < j < |rows| ==> rows[i].action != rows[j].action
    requires multiset(rows) == multiset(ordered)
    ensures forall i, j :: 0 <= i < j < |ordered| ==> ordered[i].action != ordered[j].action
  {
    forall i, j | 0 <= i < j < |ordered| ensures ordered[i].action != ordered[j].action {
      assert ordered[i] in multiset(rows) && ordered[j] in multiset(rows);
      var k :| 0 <= k < |rows| && rows[k] == ordered[i];
      var l :| 0 <= l < |rows| && rows[l] == ordered[j];
      OnlyOnceRow(rows, k);
      SingleOccurrence(ordered, i, j);
    }
  }

  lemma OnlyOnceRow(rows: seq<Row>, k: nat)
    requires forall i, j :: 0 <= i < j < |rows| ==> rows[i].action != rows[j].action
    requires k < |rows|
    ensures multiset(rows)[rows[k]] == 1
  {
    assert rows == rows[..k] + [rows[k]] + rows[k + 1..];
    assert rows[k] !in rows[..k] && rows[k] !in rows[k + 1..];
  }

  // ------------------------------------------------------------ approval after rounding

  /** A threshold stored with six decimals. */
  predicate OnGrid(threshold: real) {
    threshold == Round6(threshold)
  }

  /**
   * The executor compares the stored confidence, analysis the exact one. On a
   * stored threshold rounding can only hide the low-confidence reason, and it
   * does so exactly for confidences within half a step below the threshold.
   */
  lemma RoundedConfidenceGap(confidence: real, threshold: real)
    requires OnGrid(threshold)
    ensures Round6(confidence) < threshold ==> confidence < threshold
    ensures confidence < threshold && !(Round6(confidence) < threshold)
       <==> threshold - 0.0000005 <= confidence < threshold
  {
    var m := Erv.RoundHalfUp(threshold * 1000000.0);
    var k := Erv.RoundHalfUp(confidence * 1000000.0);
    assert threshold * 1000000.0 == m as real;
    assert Round6(confidence) < threshold <==> k < m;
    assert k < m <==> confidence * 1000000.0 + 0.5 < m as real;
  }
}
