/** Deterministic candidate ranking and selection of the action to offer. */
module Ranking {
  import opened Domain
  import Erv
  import opened Seqs

  /** Scored candidate prior to ranking. */
  datatype Candidate = Candidate(
    action: ActionType,
    probability: real,
    expectedRecovered: int,
    expectedValue: int,
    confidence: real,
    eligible: bool,
    requiresApproval: bool,
    burden: nat)

  datatype Ranked = Ranked(candidate: Candidate, rank: nat)

  function OperationalBurden(action: ActionType): nat {
    match action
    case Wait => 0
    case RequestAlternatePaymentMethod => 1
    case CreatePaymentLink => 2
    case RetrySameMethod => 3
    case SendRecoveryMessage => 4
    case EscalateToHuman => 5
    case Stop => 6
  }

  /** Position in the fixed action priority list. */
  function ActionPriority(action: ActionType): nat {
    match action
    case Wait => 0
    case RequestAlternatePaymentMethod => 1
    case CreatePaymentLink => 2
    case RetrySameMethod => 3
    case SendRecoveryMessage => 4
    case EscalateToHuman => 5
    case Stop => 6
  }

  /** Strict order of the five-part sort key: eligibility, value, probability, burden, priority. */
  predicate Before(a: Candidate, b: Candidate) {
    if a.eligible != b.eligible then a.eligible
    else if a.expectedValue != b.expectedValue then a.expectedValue > b.expectedValue
    else if a.probability != b.probability then a.probability > b.probability
    else if a.burden != b.burden then a.burden < b.burden
    else ActionPriority(a.action) < ActionPriority(b.action)
  }

  /** Stable insertion: a new element goes ahead of everything its key does not follow. */
  function Insert(c: Candidate, sorted: seq<Candidate>): seq<Candidate> {
    if sorted == [] || !Before(sorted[0], c) then [c] + sorted
    else [sorted[0]] + Insert(c, sorted[1..])
  }

  function Sort(candidates: seq<Candidate>): seq<Candidate> {
    if candidates == [] then [] else Insert(candidates[0], Sort(candidates[1..]))
  }

  function Number(ordered: seq<Candidate>): (r: seq<Ranked>)
    ensures |r| == |ordered|
    ensures forall i :: 0 <= i < |r| ==> r[i] == Ranked(ordered[i], i + 1)
  {
    seq(|ordered|, i requires 0 <= i < |ordered| => Ranked(ordered[i], i + 1))
  }

  function Rank(candidates: seq<Candidate>): seq<Ranked> {
    Number(Sort(candidates))
  }

  method RankCandidates(candidates: seq<Candidate>) returns (ranked: seq<Ranked>)
    ensures ranked == Rank(candidates)
  {
    var ordered := Sort(candidates);
    ranked := [];
    for index := 0 to |ordered|
      invariant ranked == Number(ordered)[..index]
    {
      ranked := ranked + [Ranked(ordered[index], index + 1)];
    }
  }

  predicate DistinctActions(candidates: seq<Candidate>) {
    forall i, j :: 0 <= i < j < |candidates| ==> candidates[i].action != candidates[j].action
  }

  predicate Sorted(candidates: seq<Candidate>) {
    forall i, j :: 0 <= i < j < |candidates| ==> !Before(candidates[j], candidates[i])
  }

  // ------------------------------------------------------------ the order

  /** The key order is a strict total order on candidates of different action types. */
  lemma KeyOrderIsStrictAndTotal(a: Candidate, b: Candidate, c: Candidate)
    ensures !Before(a, a)
    ensures Before(a, b) ==> !Before(b, a)
    ensures Before(a, b) && Before(b, c) ==> Before(a, c)
    ensures a.action != b.action ==> Before(a, b) || Before(b, a)
    ensures !Before(a, b) && !Before(b, c) ==> !Before(a, c)
  {
  }

  lemma {:induction false} InsertSorted(c: Candidate, sorted: seq<Candidate>)
    requires Sorted(sorted)
    ensures Sorted(Insert(c, sorted))
    ensures multiset(Insert(c, sorted)) == multiset{c} + multiset(sorted)
  {
    if sorted != [] && Before(sorted[0], c) {
      assert sorted == [sorted[0]] + sorted[1..];
      InsertSorted(c, sorted[1..]);
      var tail := Insert(c, sorted[1..]);
      forall j | 0 <= j < |tail| ensures !Before(tail[j], sorted[0]) {
        assert tail[j] in multiset(tail);
        assert tail[j] == c || tail[j] in sorted[1..];
      }
    } else if sorted != [] {
      forall j | 0 <= j < |sorted| ensures !Before(sorted[j], c) {
        KeyOrderIsStrictAndTotal(sorted[j], sorted[0], c);
      }
    }
  }

  lemma {:induction false} SortSorts(candidates: seq<Candidate>)
    ensures Sorted(Sort(candidates))
    ensures multiset(Sort(candidates)) == multiset(candidates)
  {
    if candidates != [] {
      SortSorts(candidates[1..]);
      InsertSorted(candidates[0], Sort(candidates[1..]));
      assert candidates == [candidates[0]] + candidates[1..];
    }
  }

  /** Two sorted lists of the same distinct candidates are the same list. */
  lemma {:induction false} SortedUnique(xs: seq<Candidate>, ys: seq<Candidate>)
    requires Sorted(xs) && Sorted(ys) && DistinctActions(xs)
    requires multiset(xs) == multiset(ys)
    ensures xs == ys
  {
    SameLength(xs, ys);
    if xs != [] {
      HeadsAgree(xs, ys);
      TailsAgree(xs, ys);
      SortedUnique(xs[1..], ys[1..]);
      assert xs == [xs[0]] + xs[1..] && ys == [ys[0]] + ys[1..];
    }
  }

  lemma HeadsAgree(xs: seq<Candidate>, ys: seq<Candidate>)
    requires Sorted(xs) && Sorted(ys) && DistinctActions(xs)
    requires multiset(xs) == multiset(ys) && xs != [] && ys != []
    ensures xs[0] == ys[0]
  {
    assert xs[0] in multiset(ys) && ys[0] in multiset(xs);
    var i :| 0 <= i < |xs| && xs[i] == ys[0];
    var j :| 0 <= j < |ys| && ys[j] == xs[0];
    if i != 0 {
      assert !Before(xs[i], xs[0]);
      assert j != 0 ==> !Before(ys[j], ys[0]);
      KeyOrderIsStrictAndTotal(xs[0], xs[i], xs[0]);
    }
  }

  lemma {:induction false} PermutationKeepsDistinct(xs: seq<Candidate>, ys: seq<Candidate>)
    requires DistinctActions(xs) && multiset(xs) == multiset(ys)
    ensures DistinctActions(ys)
  {
    forall i, j | 0 <= i < j < |ys| ensures ys[i].action != ys[j].action {
      assert ys[i] in multiset(xs) && ys[j] in multiset(xs);
      var k :| 0 <= k < |xs| && xs[k] == ys[i];
      var l :| 0 <= l < |xs| && xs[l] == ys[j];
      OnlyOnce(xs, k);
      SingleOccurrence(ys, i, j);
    }
  }

  lemma OnlyOnce(xs: seq<Candidate>, k: nat)
    requires DistinctActions(xs) && k < |xs|
    ensures multiset(xs)[xs[k]] == 1
  {
    assert xs == xs[..k] + [xs[k]] + xs[k + 1..];
    assert xs[k] !in xs[..k] && xs[k] !in xs[k + 1..];
  }

  // ------------------------------------------------------------ ranking theorems

  /** The ranked list does not depend on the order in which candidates were scored. */
  lemma RankingIsCanonical(xs: seq<Candidate>, ys: seq<Candidate>)
    requires DistinctActions(xs) && multiset(xs) == multiset(ys)
    ensures Rank(xs) == Rank(ys)
  {
    SortSorts(xs);
    SortSorts(ys);
    PermutationKeepsDistinct(xs, Sort(xs));
    SortedUnique(Sort(xs), Sort(ys));
  }

  /** Ranks are 1..n over a permutation of the input, and no ineligible candidate precedes an eligible one. */
  lemma RankingShape(candidates: seq<Candidate>)
    ensures var ranked := Rank(candidates);
            && |ranked| == |candidates|
            && multiset(seq(|ranked|, i requires 0 <= i < |ranked| => ranked[i].candidate)) == multiset(candidates)
            && (forall i :: 0 <= i < |ranked| ==> ranked[i].rank == i + 1)
            && (forall i, j :: 0 <= i < j < |ranked| && ranked[j].candidate.eligible ==> ranked[i].candidate.eligible)
            && (forall i, j :: 0 <= i < j < |ranked| && ranked[i].candidate.eligible == ranked[j].candidate.eligible
                  ==> ranked[i].candidate.expectedValue >= ranked[j].candidate.expectedValue)
  {
    SortSorts(candidates);
    var ordered := Sort(candidates);
    assert |ordered| == |multiset(ordered)| == |candidates|;
    var ranked := Rank(candidates);
    assert seq(|ranked|, i requires 0 <= i < |ranked| => ranked[i].candidate) == ordered;
    forall i, j | 0 <= i < j < |ordered|
      ensures ordered[j].eligible ==> ordered[i].eligible
      ensures ordered[i].eligible == ordered[j].eligible ==> ordered[i].expectedValue >= ordered[j].expectedValue
    {
      assert !Before(ordered[j], ordered[i]);
    }
  }

  /** The order in which actions are tried when nothing else tells two candidates apart. */
  const TRIED: seq<ActionType> :=
    [Wait, RequestAlternatePaymentMethod, CreatePaymentLink, RetrySameMethod, SendRecoveryMessage, EscalateToHuman,
     Stop]

  predicate TriedNoLater(a: ActionType, b: ActionType) {
    exists k, l :: 0 <= k <= l < |TRIED| && TRIED[k] == a && TRIED[l] == b
  }

  lemma TriedInOrder(a: ActionType, b: ActionType)
    ensures ActionPriority(a) < |TRIED| && TRIED[ActionPriority(a)] == a
    ensures ActionPriority(a) <= ActionPriority(b) ==> TriedNoLater(a, b)
  {
    if ActionPriority(a) <= ActionPriority(b) {
      assert TRIED[ActionPriority(b)] == b;
    }
  }

  /** A candidate may stand before another: each key decides only where the ones before it are equal. */
  predicate MayPrecede(a: Candidate, b: Candidate) {
    && (b.eligible ==> a.eligible)
    && (a.eligible == b.eligible ==> a.expectedValue >= b.expectedValue)
    && (a.eligible == b.eligible && a.expectedValue == b.expectedValue ==> a.probability >= b.probability)
    && (a.eligible == b.eligible && a.expectedValue == b.expectedValue && a.probability == b.probability ==>
          a.burden <= b.burden)
    && ((&& a.eligible == b.eligible && a.expectedValue == b.expectedValue && a.probability == b.probability
         && a.burden == b.burden) ==> TriedNoLater(a.action, b.action))
  }

  lemma NotAfter(a: Candidate, b: Candidate)
    requires !Before(b, a)
    ensures MayPrecede(a, b)
  {
    TriedInOrder(a.action, b.action);
  }

  /** Eligible first, then larger value, then larger probability, then smaller burden, then the fixed order. */
  lemma RankingFollowsKeys(candidates: seq<Candidate>, i: nat, j: nat)
    requires i < j < |Rank(candidates)|
    ensures MayPrecede(Rank(candidates)[i].candidate, Rank(candidates)[j].candidate)
  {
    SortSorts(candidates);
    NotAfter(Sort(candidates)[i], Sort(candidates)[j]);
  }

  /** Eligible candidates whose exact values differ by more than 5/2 are ranked in exact order. */
  lemma ExactOrderIsRanked(candidates: seq<Candidate>, amount: nat, contacts: nat, i: nat, j: nat)
    requires DistinctActions(candidates)
    requires forall c :: c in candidates ==> 0.0 <= c.probability <= 1.0
    requires forall c :: c in candidates ==> c.expectedValue == Erv.Value(c.action, amount, c.probability, contacts)
    requires |Rank(candidates)| == |candidates| && i < |candidates| && j < |candidates| && i != j
    requires var a, b := Rank(candidates)[i].candidate, Rank(candidates)[j].candidate;
             && a.eligible && b.eligible
             && Erv.ExactValue(a.action, amount, a.probability, contacts)
                - Erv.ExactValue(b.action, amount, b.probability, contacts) > 2.5
    ensures Rank(candidates)[i].rank < Rank(candidates)[j].rank
  {
    RankingShape(candidates);
    SortSorts(candidates);
    PermutationKeepsDistinct(candidates, Sort(candidates));
    var ordered := Sort(candidates);
    var a, b := ordered[i], ordered[j];
    assert a in multiset(candidates) && b in multiset(candidates);
    assert a.action != b.action;
    Erv.RoundingKeepsOrder(a.action, a.probability, b.action, b.probability, amount, contacts);
  }

  // ------------------------------------------------------------ selection

  predicate Selectable(c: Candidate) {
    c.eligible && c.action != Stop && IsExecutable(c.action) && c.expectedValue > 0
  }

  predicate EligibleStop(c: Candidate) {
    c.action == Stop && c.eligible
  }

  function FirstWhere(ranked: seq<Ranked>, p: Candidate -> bool): (r: Option<Ranked>)
    ensures r.Some? ==> p(r.value.candidate) && r.value in ranked
    ensures r.None? ==> forall i :: 0 <= i < |ranked| ==> !p(ranked[i].candidate)
  {
    if ranked == [] then None
    else if p(ranked[0].candidate) then Some(ranked[0])
    else FirstWhere(ranked[1..], p)
  }

  /** First selectable candidate, else the first eligible STOP, else nothing. */
  function SelectRecommendation(ranked: seq<Ranked>): (r: Option<Ranked>)
    ensures r.Some? ==> r.value in ranked && r.value.candidate.eligible && IsExecutable(r.value.candidate.action)
  {
    var positive := FirstWhere(ranked, Selectable);
    if positive.Some? then positive else FirstWhere(ranked, EligibleStop)
  }

  lemma {:induction false} FirstIsLeast(ranked: seq<Ranked>, p: Candidate -> bool, i: nat)
    requires i < |ranked| && p(ranked[i].candidate)
    ensures FirstWhere(ranked, p).Some?
    ensures exists k :: 0 <= k <= i && FirstWhere(ranked, p) == Some(ranked[k])
  {
    if !p(ranked[0].candidate) {
      FirstIsLeast(ranked[1..], p, i - 1);
      var k :| 0 <= k <= i - 1 && FirstWhere(ranked[1..], p) == Some(ranked[1..][k]);
      assert ranked[1..][k] == ranked[k + 1];
    } else {
      assert FirstWhere(ranked, p) == Some(ranked[0]);
    }
  }

  /** No more valuable, and if as valuable no more probable, and if as probable no less burden. */
  predicate NoBetter(c: Candidate, best: Candidate) {
    && c.expectedValue <= best.expectedValue
    && (c.expectedValue == best.expectedValue ==> c.probability <= best.probability)
    && (c.expectedValue == best.expectedValue && c.probability == best.probability ==> c.burden >= best.burden)
  }

  /**
   * The selected intervention has the largest expected value among everything
   * the system may and can do, and that value is positive; among those of the
   * same value it is most probable to succeed, among those the least burden.
   * STOP is selected only when nothing of positive value is left.
   */
  lemma SelectionIsOptimal(candidates: seq<Candidate>)
    ensures var ranked := Rank(candidates);
            var selected := SelectRecommendation(ranked);
            && (selected.Some? && selected.value.candidate.action != Stop ==>
                  && selected.value.candidate in candidates
                  && selected.value.candidate.expectedValue > 0
                  && forall c :: c in candidates && c.eligible && IsExecutable(c.action) && c.action != Stop
                       ==> NoBetter(c, selected.value.candidate))
            && (selected.None? || selected.value.candidate.action == Stop <==>
                  forall c :: c in candidates && c.eligible && IsExecutable(c.action) && c.action != Stop
                    ==> c.expectedValue <= 0)
  {
    SelectedIsFirst(candidates);
    forall c | c in candidates && Selectable(c)
      ensures FirstWhere(Rank(candidates), Selectable).Some?
      ensures NoBetter(c, FirstWhere(Rank(candidates), Selectable).value.candidate)
    {
      FirstIsLargest(candidates, c);
    }
  }

  /** What is selected comes from the candidates, and is not STOP iff something was selectable. */
  lemma SelectedIsFirst(candidates: seq<Candidate>)
    ensures var first := FirstWhere(Rank(candidates), Selectable);
            && (first.Some? ==> first.value.candidate in candidates && Selectable(first.value.candidate)
                                && SelectRecommendation(Rank(candidates)) == first)
            && (first.None? ==> SelectRecommendation(Rank(candidates)).None?
                                || SelectRecommendation(Rank(candidates)).value.candidate.action == Stop)
  {
    SortSorts(candidates);
    var first := FirstWhere(Rank(candidates), Selectable);
    if first.Some? {
      var i :| 0 <= i < |Rank(candidates)| && Rank(candidates)[i] == first.value;
      assert Sort(candidates)[i] in multiset(Sort(candidates));
    }
  }

  lemma FirstIsLargest(candidates: seq<Candidate>, c: Candidate)
    requires c in candidates && Selectable(c)
    ensures FirstWhere(Rank(candidates), Selectable).Some?
    ensures NoBetter(c, FirstWhere(Rank(candidates), Selectable).value.candidate)
  {
    SortSorts(candidates);
    var ordered, ranked := Sort(candidates), Rank(candidates);
    assert c in multiset(ordered);
    var i :| 0 <= i < |ordered| && ordered[i] == c;
    FirstIsLeast(ranked, Selectable, i);
    var k :| 0 <= k <= i && FirstWhere(ranked, Selectable) == Some(ranked[k]);
    assert k < i ==> !Before(ordered[i], ordered[k]);
  }

  /** Selection finds something as soon as an eligible STOP is among the candidates. */
  lemma StopMakesSelectionTotal(candidates: seq<Candidate>, c: Candidate)
    requires c in candidates && c.action == Stop && c.eligible
    ensures SelectRecommendation(Rank(candidates)).Some?
  {
    SortSorts(candidates);
    assert c in multiset(Sort(candidates));
    var i :| 0 <= i < |Sort(candidates)| && Sort(candidates)[i] == c;
    FirstIsLeast(Rank(candidates), EligibleStop, i);
  }
}
