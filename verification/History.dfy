/** Payment-history features: windows that end strictly before the failure. */
module History {
  import opened Domain
  import opened Seqs
  import Text

  datatype Snapshot = Snapshot(createdAt: Option<int>, status: string, method_: Option<string>)

  /** Absent counts are the source's "missing" flags; the rate is missing too when nothing was attempted. */
  datatype Features = Features(
    successes90: Option<nat>,
    failed30: Option<nat>,
    successRate: Option<real>,
    sameMethod: bool,
    alternateMethod: bool)

  const DAY := 86_400
  const UNKNOWN_METHOD := "unknown"

  function NormalizedMethod(name: Option<string>): string {
    if name.None? || Text.Strip(name.value) == "" then UNKNOWN_METHOD else Text.Lower(Text.Strip(name.value))
  }

  predicate Succeeded(t: Snapshot) {
    Text.Lower(t.status) == "captured" || Text.Lower(t.status) == "paid" || Text.Lower(t.status) == "success"
  }

  predicate FailedPayment(t: Snapshot) {
    Text.Lower(t.status) == "failed"
  }

  predicate IsEligible(t: Snapshot, failureAt: int) {
    t.createdAt.Some? && t.createdAt.value < failureAt
  }

  predicate Since(t: Snapshot, start: int) {
    t.createdAt.Some? && t.createdAt.value >= start
  }

  function EligibleAt(failureAt: int): Snapshot -> bool {
    (t: Snapshot) => IsEligible(t, failureAt)
  }

  function AttemptIn90(failureAt: int): Snapshot -> bool {
    (t: Snapshot) => Since(t, failureAt - 90 * DAY)
  }

  function FailureIn30(failureAt: int): Snapshot -> bool {
    (t: Snapshot) => Since(t, failureAt - 30 * DAY) && FailedPayment(t)
  }

  function SuccessIn90(failureAt: int): Snapshot -> bool {
    (t: Snapshot) => Since(t, failureAt - 90 * DAY) && Succeeded(t)
  }

  function Select(txns: seq<Snapshot>, p: Snapshot -> bool): seq<Snapshot> {
    if txns == [] then []
    else Select(txns[..|txns| - 1], p) + (if p(txns[|txns| - 1]) then [txns[|txns| - 1]] else [])
  }

  function Eligible(txns: seq<Snapshot>, failureAt: int): seq<Snapshot> {
    Select(txns, EligibleAt(failureAt))
  }

  method EligibleTransactions(txns: seq<Snapshot>, failureAt: int) returns (eligible: seq<Snapshot>)
    ensures eligible == Eligible(txns, failureAt)
  {
    eligible := [];
    for i := 0 to |txns|
      invariant eligible == Eligible(txns[..i], failureAt)
    {
      assert txns[..i + 1][..i] == txns[..i];
      if txns[i].createdAt.None? {
        continue;
      }
      if txns[i].createdAt.value >= failureAt {
        continue;
      }
      eligible := eligible + [txns[i]];
    }
    assert txns[..|txns|] == txns;
  }

  function Attempts90(eligible: seq<Snapshot>, failureAt: int): seq<Snapshot> {
    Select(eligible, AttemptIn90(failureAt))
  }

  function Failed30(eligible: seq<Snapshot>, failureAt: int): seq<Snapshot> {
    Select(eligible, FailureIn30(failureAt))
  }

  function Successes90(eligible: seq<Snapshot>, failureAt: int): seq<Snapshot> {
    Select(Attempts90(eligible, failureAt), Succeeded)
  }

  function FeaturesOf(eligible: seq<Snapshot>, failureAt: int, name: Option<string>): Features {
    if eligible == [] then Features(None, None, None, false, false)
    else
      var attempts := Attempts90(eligible, failureAt);
      var successes := Successes90(eligible, failureAt);
      var wanted := NormalizedMethod(name);
      Features(
        Some(|successes|),
        Some(|Failed30(eligible, failureAt)|),
        if |attempts| == 0 then None else Some(|successes| as real / |attempts| as real),
        exists t :: t in attempts && Succeeded(t) && NormalizedMethod(t.method_) == wanted && wanted != UNKNOWN_METHOD,
        exists t :: t in successes && Succeeded(t) && NormalizedMethod(t.method_) != wanted
                    && NormalizedMethod(t.method_) != UNKNOWN_METHOD)
  }

  function HistoryFeatures(txns: seq<Snapshot>, failureAt: int, name: Option<string>): Features {
    FeaturesOf(Eligible(txns, failureAt), failureAt, name)
  }

  // ------------------------------------------------------------ filters and multisets

  lemma {:induction false} SelectAppend(xs: seq<Snapshot>, ys: seq<Snapshot>, p: Snapshot -> bool)
    ensures Select(xs + ys, p) == Select(xs, p) + Select(ys, p)
  {
    if ys == [] {
      assert xs + ys == xs;
    } else {
      SelectAppend(xs, ys[..|ys| - 1], p);
      assert (xs + ys)[..|xs + ys| - 1] == xs + ys[..|ys| - 1];
    }
  }

  lemma {:induction false} SelectMultiset(xs: seq<Snapshot>, p: Snapshot -> bool, t: Snapshot)
    ensures multiset(Select(xs, p))[t] == if p(t) then multiset(xs)[t] else 0
  {
    if xs != [] {
      SelectMultiset(xs[..|xs| - 1], p, t);
      assert xs == xs[..|xs| - 1] + [xs[|xs| - 1]];
    }
  }

  lemma SelectUnderPermutation(xs: seq<Snapshot>, ys: seq<Snapshot>, p: Snapshot -> bool)
    requires multiset(xs) == multiset(ys)
    ensures multiset(Select(xs, p)) == multiset(Select(ys, p))
    ensures |Select(xs, p)| == |Select(ys, p)|
    ensures forall t :: t in Select(xs, p) <==> t in Select(ys, p)
  {
    forall t: Snapshot
      ensures multiset(Select(xs, p))[t] == multiset(Select(ys, p))[t]
    {
      SelectMultiset(xs, p, t);
      SelectMultiset(ys, p, t);
    }
    SameLength(Select(xs, p), Select(ys, p));
    assert forall t :: t in Select(xs, p) <==> t in multiset(Select(xs, p));
    assert forall t :: t in Select(ys, p) <==> t in multiset(Select(ys, p));
  }

  /** Disjoint filters inside a third one together select no more than it does. */
  lemma {:induction false} SelectDisjoint(xs: seq<Snapshot>, p: Snapshot -> bool, q: Snapshot -> bool,
                                          r: Snapshot -> bool)
    requires forall t :: (p(t) || q(t) ==> r(t)) && !(p(t) && q(t))
    ensures |Select(xs, p)| + |Select(xs, q)| <= |Select(xs, r)|
  {
    if xs != [] {
      SelectDisjoint(xs[..|xs| - 1], p, q, r);
    }
  }

  /** Selecting the successes among the attempts is selecting both at once. */
  lemma {:induction false} SuccessesAreSelected(xs: seq<Snapshot>, failureAt: int)
    ensures Successes90(xs, failureAt) == Select(xs, SuccessIn90(failureAt))
  {
    if xs != [] {
      var front, last := xs[..|xs| - 1], xs[|xs| - 1];
      SuccessesAreSelected(front, failureAt);
      SelectAppend(Attempts90(front, failureAt), if AttemptIn90(failureAt)(last) then [last] else [], Succeeded);
      SelectOne(last, Succeeded);
    }
  }

  lemma SelectOne(t: Snapshot, p: Snapshot -> bool)
    ensures Select([t], p) == if p(t) then [t] else []
  {
    assert [t][..0] == [];
  }

  lemma {:induction false} SelectMembers(xs: seq<Snapshot>, p: Snapshot -> bool)
    ensures |Select(xs, p)| <= |xs|
    ensures forall t :: t in Select(xs, p) <==> t in xs && p(t)
  {
    if xs != [] {
      SelectMembers(xs[..|xs| - 1], p);
      assert xs == xs[..|xs| - 1] + [xs[|xs| - 1]];
    }
  }

  // ------------------------------------------------------------ results

  /** The features depend on the multiset of eligible transactions only. */
  lemma FeaturesUnderPermutation(xs: seq<Snapshot>, ys: seq<Snapshot>, failureAt: int, name: Option<string>)
    requires multiset(xs) == multiset(ys)
    ensures FeaturesOf(xs, failureAt, name) == FeaturesOf(ys, failureAt, name)
  {
    SameLength(xs, ys);
    SelectUnderPermutation(xs, ys, AttemptIn90(failureAt));
    SelectUnderPermutation(xs, ys, FailureIn30(failureAt));
    SelectUnderPermutation(Attempts90(xs, failureAt), Attempts90(ys, failureAt), Succeeded);
  }

  /** The order in which the transactions are read does not matter. */
  lemma HistoryIsOrderIndependent(xs: seq<Snapshot>, ys: seq<Snapshot>, failureAt: int, name: Option<string>)
    requires multiset(xs) == multiset(ys)
    ensures HistoryFeatures(xs, failureAt, name) == HistoryFeatures(ys, failureAt, name)
  {
    SelectUnderPermutation(xs, ys, EligibleAt(failureAt));
    FeaturesUnderPermutation(Eligible(xs, failureAt), Eligible(ys, failureAt), failureAt, name);
  }

  /** Undated transactions, and ones at or after the failure, change no feature wherever they are added. */
  lemma HistoryNeverLooksAhead(before: seq<Snapshot>, later: seq<Snapshot>, after: seq<Snapshot>,
                               failureAt: int, name: Option<string>)
    requires forall t :: t in later ==> t.createdAt.None? || t.createdAt.value >= failureAt
    ensures HistoryFeatures(before + later + after, failureAt, name) == HistoryFeatures(before + after, failureAt, name)
  {
    assert Eligible(before + later + after, failureAt) == Eligible(before + after, failureAt) by {
      var p := EligibleAt(failureAt);
      SelectAppend(before + later, after, p);
      SelectAppend(before, later, p);
      SelectAppend(before, after, p);
      NothingSelected(later, p);
    }
  }

  lemma {:induction false} NothingSelected(xs: seq<Snapshot>, p: Snapshot -> bool)
    requires forall t :: t in xs ==> !p(t)
    ensures Select(xs, p) == []
  {
    if xs != [] {
      NothingSelected(xs[..|xs| - 1], p);
    }
  }

  lemma WindowCounts(eligible: seq<Snapshot>, failureAt: int)
    ensures |Successes90(eligible, failureAt)| + |Failed30(eligible, failureAt)| <= |Attempts90(eligible, failureAt)|
    ensures |Attempts90(eligible, failureAt)| <= |eligible|
  {
    SelectMembers(eligible, AttemptIn90(failureAt));
    SuccessesAreSelected(eligible, failureAt);
    SelectDisjoint(eligible, SuccessIn90(failureAt), FailureIn30(failureAt), AttemptIn90(failureAt));
  }

  /** Successes and recent failures are disjoint parts of the attempts, and both are missing together. */
  lemma HistoryBounds(txns: seq<Snapshot>, failureAt: int, name: Option<string>)
    ensures var eligible := Eligible(txns, failureAt);
            var attempts := Attempts90(eligible, failureAt);
            var f := HistoryFeatures(txns, failureAt, name);
            && (f.successes90.Some? <==> eligible != []) && (f.failed30.Some? <==> eligible != [])
            && (f.successes90.Some? ==> f.successes90.value + f.failed30.value <= |attempts| <= |eligible| <= |txns|)
  {
    SelectMembers(txns, EligibleAt(failureAt));
    WindowCounts(Eligible(txns, failureAt), failureAt);
  }

  /** The success rate is present iff something was attempted, and is the proportion it claims to be. */
  lemma RateIsProportion(txns: seq<Snapshot>, failureAt: int, name: Option<string>)
    ensures var attempts := Attempts90(Eligible(txns, failureAt), failureAt);
            var f := HistoryFeatures(txns, failureAt, name);
            && (f.successRate.Some? <==> attempts != [])
            && (f.successRate.Some? ==>
                  0.0 <= f.successRate.value <= 1.0 && (f.successRate.value == 0.0 <==> f.successes90.value == 0))
  {
    var eligible := Eligible(txns, failureAt);
    WindowCounts(eligible, failureAt);
    SelectMembers(eligible, AttemptIn90(failureAt));
    QuotientBounds(|Successes90(eligible, failureAt)|, |Attempts90(eligible, failureAt)|);
  }

  lemma QuotientBounds(successes: nat, attempts: nat)
    requires successes <= attempts
    ensures attempts > 0 ==> 0.0 <= successes as real / attempts as real <= 1.0
    ensures attempts > 0 ==> (successes as real / attempts as real == 0.0 <==> successes == 0)
  {
  }

  /** A method flag is only raised by a success inside the 90-day window. */
  lemma FlagsNeedSuccess(txns: seq<Snapshot>, failureAt: int, name: Option<string>)
    ensures var f := HistoryFeatures(txns, failureAt, name);
            f.sameMethod || f.alternateMethod ==> f.successes90.Some? && f.successes90.value > 0
  {
    SelectMembers(Attempts90(Eligible(txns, failureAt), failureAt), Succeeded);
  }

  /** Transactions older than 90 days only decide whether there is a history at all. */
  lemma OldHistoryIsSilent(txns: seq<Snapshot>, old_: Snapshot, failureAt: int, name: Option<string>)
    requires old_.createdAt.Some? && old_.createdAt.value < failureAt - 90 * DAY
    ensures var f, g := HistoryFeatures(txns, failureAt, name), HistoryFeatures(txns + [old_], failureAt, name);
            if Eligible(txns, failureAt) != [] then g == f
            else g == Features(Some(0), Some(0), None, false, false)
  {
    var eligible := Eligible(txns, failureAt);
    assert Eligible(txns + [old_], failureAt) == eligible + [old_] by {
      SelectAppend(txns, [old_], EligibleAt(failureAt));
      SelectOne(old_, EligibleAt(failureAt));
    }
    assert Attempts90(eligible + [old_], failureAt) == Attempts90(eligible, failureAt) by {
      SelectAppend(eligible, [old_], AttemptIn90(failureAt));
      SelectOne(old_, AttemptIn90(failureAt));
    }
    assert Failed30(eligible + [old_], failureAt) == Failed30(eligible, failureAt) by {
      SelectAppend(eligible, [old_], FailureIn30(failureAt));
      SelectOne(old_, FailureIn30(failureAt));
    }
    SelectMembers([], Succeeded);
  }

  // ------------------------------------------------------------ the features, counted directly

  /** Selecting twice is selecting what both filters let through. */
  lemma {:induction false} SelectTwice(xs: seq<Snapshot>, p: Snapshot -> bool, q: Snapshot -> bool, r: Snapshot -> bool)
    requires forall t :: r(t) <==> p(t) && q(t)
    ensures Select(Select(xs, p), q) == Select(xs, r)
  {
    if xs != [] {
      var front, last := xs[..|xs| - 1], xs[|xs| - 1];
      SelectTwice(front, p, q, r);
      SelectAppend(Select(front, p), if p(last) then [last] else [], q);
      SelectOne(last, q);
    }
  }

  function Positions(xs: seq<Snapshot>, p: Snapshot -> bool): set<int> {
    set i | 0 <= i < |xs| && p(xs[i])
  }

  lemma {:induction false} SelectCounts(xs: seq<Snapshot>, p: Snapshot -> bool)
    ensures |Select(xs, p)| == |Positions(xs, p)|
  {
    if xs == [] {
      assert Positions(xs, p) == {};
    } else {
      var front, last := xs[..|xs| - 1], xs[|xs| - 1];
      SelectCounts(front, p);
      assert Positions(xs, p) == Positions(front, p) + (if p(last) then {|xs| - 1} else {});
    }
  }

  /** Dated in the ninety days before the failure. */
  predicate Recent(t: Snapshot, failureAt: int) {
    t.createdAt.Some? && failureAt - 7_776_000 <= t.createdAt.value < failureAt
  }

  predicate PaidFor(status: string) {
    Text.Lower(status) == "captured" || Text.Lower(status) == "paid" || Text.Lower(status) == "success"
  }

  /** Failed in the thirty days before the failure. */
  predicate FailedLately(t: Snapshot, failureAt: int) {
    t.createdAt.Some? && failureAt - 2_592_000 <= t.createdAt.value < failureAt && Text.Lower(t.status) == "failed"
  }

  function RecentAt(failureAt: int): Snapshot -> bool {
    (t: Snapshot) => Recent(t, failureAt)
  }

  function PaidAt(failureAt: int): Snapshot -> bool {
    (t: Snapshot) => Recent(t, failureAt) && PaidFor(t.status)
  }

  function FailedAt(failureAt: int): Snapshot -> bool {
    (t: Snapshot) => FailedLately(t, failureAt)
  }

  lemma SelectionsAre(txns: seq<Snapshot>, failureAt: int)
    ensures var eligible := Eligible(txns, failureAt);
            && Attempts90(eligible, failureAt) == Select(txns, RecentAt(failureAt))
            && Successes90(eligible, failureAt) == Select(txns, PaidAt(failureAt))
            && Failed30(eligible, failureAt) == Select(txns, FailedAt(failureAt))
  {
    SelectTwice(txns, EligibleAt(failureAt), AttemptIn90(failureAt), RecentAt(failureAt));
    SelectTwice(txns, RecentAt(failureAt), Succeeded, PaidAt(failureAt));
    SelectTwice(txns, EligibleAt(failureAt), FailureIn30(failureAt), FailedAt(failureAt));
  }

  predicate NothingBefore(txns: seq<Snapshot>, failureAt: int) {
    forall t :: t in txns ==> t.createdAt.None? || t.createdAt.value >= failureAt
  }

  lemma NothingBeforeExactly(txns: seq<Snapshot>, failureAt: int)
    ensures Eligible(txns, failureAt) == [] <==> NothingBefore(txns, failureAt)
  {
    SelectMembers(txns, EligibleAt(failureAt));
    if NothingBefore(txns, failureAt) {
      NothingSelected(txns, EligibleAt(failureAt));
    } else {
      var t :| t in txns && t.createdAt.Some? && t.createdAt.value < failureAt;
      assert t in Eligible(txns, failureAt);
    }
  }

  /**
   * The numbers counted over the positions of the customer's transactions:
   * missing exactly without one before the failure, and else the payments and
   * attempts of ninety days and the failures of thirty.
   */
  lemma CountsExactly(txns: seq<Snapshot>, failureAt: int, name: Option<string>)
    ensures var f := HistoryFeatures(txns, failureAt, name);
            var paid, tried := |Positions(txns, PaidAt(failureAt))|, |Positions(txns, RecentAt(failureAt))|;
            if NothingBefore(txns, failureAt) then f == Features(None, None, None, false, false)
            else && f.successes90 == Some(paid) && f.failed30 == Some(|Positions(txns, FailedAt(failureAt))|)
                 && f.successRate == (if tried == 0 then None else Some(paid as real / tried as real))
  {
    NothingBeforeExactly(txns, failureAt);
    SelectionsAre(txns, failureAt);
    SelectCounts(txns, RecentAt(failureAt));
    SelectCounts(txns, PaidAt(failureAt));
    SelectCounts(txns, FailedAt(failureAt));
  }

  /** A recent payment by the same known method, or by another known one. */
  lemma FlagsExactly(txns: seq<Snapshot>, failureAt: int, name: Option<string>)
    ensures HistoryFeatures(txns, failureAt, name).sameMethod
       <==> exists t :: t in txns && Recent(t, failureAt) && PaidFor(t.status)
                        && NormalizedMethod(t.method_) == NormalizedMethod(name) && NormalizedMethod(name) != "unknown"
    ensures HistoryFeatures(txns, failureAt, name).alternateMethod
       <==> exists t :: t in txns && Recent(t, failureAt) && PaidFor(t.status)
                        && NormalizedMethod(t.method_) != NormalizedMethod(name)
                        && NormalizedMethod(t.method_) != "unknown"
  {
    NothingBeforeExactly(txns, failureAt);
    SelectionsAre(txns, failureAt);
    SelectMembers(txns, RecentAt(failureAt));
    SelectMembers(txns, PaidAt(failureAt));
  }
}
