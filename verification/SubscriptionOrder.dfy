/** Exactly when the delivery order of a subscription's events matters. */
module SubscriptionOrder {
  import opened Domain
  import opened EventOrdering
  import opened Seqs

  /** Every delivery order of the same events ends in the same row. */
  ghost predicate Converges(row: Record, events: seq<SubscriptionEvent>) {
    forall ys: seq<SubscriptionEvent> :: multiset(ys) == multiset(events) ==>
      DeliverSubscription(row, ys) == DeliverSubscription(row, events)
  }

  predicate Fresh(row: Record, e: SubscriptionEvent) {
    !Stale(row.at, Some(e.at))
  }

  /** A fresh event that no other event is later than. */
  predicate Latest(row: Record, events: seq<SubscriptionEvent>, late: SubscriptionEvent) {
    late in events && Fresh(row, late) && forall e :: e in events ==> e.at <= late.at
  }

  /** What, delivered earlier, changes whether a pending event is applied to the row. */
  function Deciding(row: Record): SubscriptionKind {
    if row.status == ACTIVE then HaltedKind else ChargedKind
  }

  /** The latest time carries a halt and something else. */
  predicate HaltTies(events: seq<SubscriptionEvent>, late: SubscriptionEvent) {
    late.kind == HaltedKind && exists e :: e in events && e.at == late.at && e.kind != HaltedKind
  }

  /** The latest event is pending, and a fresh event of the deciding kind may come before it or after. */
  predicate PendingDecided(row: Record, events: seq<SubscriptionEvent>, late: SubscriptionEvent) {
    && late.kind == PendingKind && SubscriptionEvent(ChargedKind, late.at) !in events
    && exists e :: e in events && Fresh(row, e) && e.kind == Deciding(row)
  }

  ghost predicate OrderMatters(row: Record, events: seq<SubscriptionEvent>) {
    exists late :: Latest(row, events, late) && (HaltTies(events, late) || PendingDecided(row, events, late))
  }

  // ------------------------------------------------------------ delivering in parts

  lemma {:induction false} DeliverAppend(row: Record, xs: seq<SubscriptionEvent>, ys: seq<SubscriptionEvent>)
    ensures DeliverSubscription(row, xs + ys) == DeliverSubscription(DeliverSubscription(row, xs), ys)
  {
    if ys == [] {
      assert xs + ys == xs;
    } else {
      DeliverAppend(row, xs, ys[..|ys| - 1]);
      assert (xs + ys)[..|xs + ys| - 1] == xs + ys[..|ys| - 1];
    }
  }

  lemma {:induction false} DeliverRepeated(row: Record, xs: seq<SubscriptionEvent>, x: SubscriptionEvent)
    requires xs != [] && forall e :: e in xs ==> e == x
    ensures DeliverSubscription(row, xs) == ApplySubscription(row, x).0
  {
    var front, last := xs[..|xs| - 1], xs[|xs| - 1];
    assert xs == front + [last];
    assert last in xs;
    if front == [] {
      assert DeliverSubscription(row, front) == row;
    } else {
      assert forall e :: e in front ==> e in xs;
      DeliverRepeated(row, front, x);
    }
  }

  /** Nothing newer than the row and no tie that would be applied: the row stays. */
  lemma {:induction false} SettledStays(row: Record, xs: seq<SubscriptionEvent>)
    requires row.at.Some? && forall e :: e in xs ==> e.at < row.at.value
    ensures DeliverSubscription(row, xs) == row
  {
    if xs != [] {
      SettledStays(row, xs[..|xs| - 1]);
      assert xs[|xs| - 1] in xs;
    }
  }

  /** A row only takes on times of delivered events. */
  lemma {:induction false} TimeNotReached(row: Record, xs: seq<SubscriptionEvent>, at: int)
    requires row.at != Some(at) && forall e :: e in xs ==> e.at != at
    ensures DeliverSubscription(row, xs).at != Some(at)
  {
    if xs != [] {
      TimeNotReached(row, xs[..|xs| - 1], at);
      assert xs[|xs| - 1] in xs;
    }
  }

  // ------------------------------------------------------------ where the order does not matter

  /** `top` is applied whenever it arrives, and nothing delivered after it is. */
  predicate Dominates(row: Record, events: seq<SubscriptionEvent>, top: SubscriptionEvent) {
    && Fresh(row, top)
    && (forall e :: e in events ==> e.at <= top.at)
    && (forall e :: e in events && e.at == top.at ==> e == top || (top.kind == ChargedKind && e.kind == PendingKind))
    && (top.kind == PendingKind ==>
          row.status != ACTIVE && forall e :: e in events && Fresh(row, e) ==> e.kind != ChargedKind)
  }

  lemma {:induction false} DominantEnds(row: Record, events: seq<SubscriptionEvent>, top: SubscriptionEvent)
    requires Dominates(row, events, top)
    ensures var end := DeliverSubscription(row, events);
            && (row.at.Some? ==> end.at.Some? && row.at.value <= end.at.value)
            && (if top in events then end == Record(SubscriptionStatus(top.kind), Some(top.at))
                else Fresh(end, top) && (top.kind == PendingKind ==> end.status != ACTIVE))
  {
    if events != [] {
      var front, last := events[..|events| - 1], events[|events| - 1];
      assert events == front + [last];
      assert last in events;
      DominantEnds(row, front, top);
    }
  }

  /** On an active row pending events are ignored until a halt arrives, and charges move the time forward. */
  lemma {:induction false} ActiveRowEnds(row: Record, events: seq<SubscriptionEvent>)
    requires row.status == ACTIVE
    requires forall e :: e in events && Fresh(row, e) ==> e.kind != HaltedKind
    ensures var end := DeliverSubscription(row, events);
            && end.status == ACTIVE && (row.at.Some? ==> end.at.Some? && row.at.value <= end.at.value)
            && (forall e :: e in events && Fresh(row, e) && e.kind == ChargedKind ==>
                  end.at.Some? && e.at <= end.at.value)
            && (end == row
                || exists e :: e in events && Fresh(row, e) && e.kind == ChargedKind && end.at == Some(e.at))
  {
    if events != [] {
      var front, last := events[..|events| - 1], events[|events| - 1];
      assert events == front + [last];
      assert last in events;
      ActiveRowEnds(row, front);
    }
  }

  lemma {:induction false} AllStale(row: Record, events: seq<SubscriptionEvent>)
    requires forall e :: e in events ==> !Fresh(row, e)
    ensures DeliverSubscription(row, events) == row
  {
    if events != [] {
      AllStale(row, events[..|events| - 1]);
      assert events[|events| - 1] in events;
    }
  }

  lemma {:induction false} LatestExists(row: Record, events: seq<SubscriptionEvent>) returns (late: SubscriptionEvent)
    requires exists e :: e in events && Fresh(row, e)
    ensures Latest(row, events, late)
  {
    var front, last := events[..|events| - 1], events[|events| - 1];
    assert events == front + [last];
    if exists e :: e in front && Fresh(row, e) {
      late := LatestExists(row, front);
      if last.at > late.at {
        late := last;
      }
    } else {
      late := last;
    }
  }

  /** Unless the order matters, either some event dominates or the row is active and stays so. */
  lemma OneEnd(row: Record, xs: seq<SubscriptionEvent>, ys: seq<SubscriptionEvent>)
    requires !OrderMatters(row, xs) && forall e :: e in xs <==> e in ys
    ensures DeliverSubscription(row, xs) == DeliverSubscription(row, ys)
  {
    if exists e :: e in xs && Fresh(row, e) {
      var late := LatestExists(row, xs);
      var charge, halt := SubscriptionEvent(ChargedKind, late.at), SubscriptionEvent(HaltedKind, late.at);
      assert halt in xs ==> Latest(row, xs, halt) && !HaltTies(xs, halt);
      assert !PendingDecided(row, xs, late);
      if late.kind == PendingKind && charge !in xs && halt !in xs && row.status == ACTIVE {
        ActiveRowEnds(row, xs);
        ActiveRowEnds(row, ys);
      } else {
        var top := if charge in xs then charge else if halt in xs then halt else late;
        DominantEnds(row, xs, top);
        DominantEnds(row, ys, top);
      }
    } else {
      AllStale(row, xs);
      AllStale(row, ys);
    }
  }

  // ------------------------------------------------------------ where it does

  /** A halt and something else at the latest time: whichever comes last stays. */
  lemma TiesDiverge(row: Record, events: seq<SubscriptionEvent>, late: SubscriptionEvent)
    requires Latest(row, events, late) && HaltTies(events, late)
    ensures !Converges(row, events)
  {
    var other :| other in events && other.at == late.at && other.kind != HaltedKind;
    var halts, same, others := PartedTwice(events, late, other);
    var haltLast, otherLast := (others + same) + halts, (others + halts) + same;
    assert multiset(haltLast) == multiset(others) + multiset(same) + multiset(halts);
    assert multiset(otherLast) == multiset(others) + multiset(halts) + multiset(same);
    LastOfTwo(row, others, same, other, halts, late);
    LastOfTwo(row, others, halts, late, same, other);
    assert DeliverSubscription(row, haltLast) != DeliverSubscription(row, otherLast);
  }

  lemma {:induction false} BeforeLatest(row: Record, xs: seq<SubscriptionEvent>, at: int)
    requires !Stale(row.at, Some(at)) && forall e :: e in xs ==> e.at <= at
    ensures !Stale(DeliverSubscription(row, xs).at, Some(at))
  {
    if xs != [] {
      BeforeLatest(row, xs[..|xs| - 1], at);
      assert xs[|xs| - 1] in xs;
    }
  }

  /** Two kinds at the latest time, one of them halted: the kind delivered last is the one that stays. */
  lemma LastOfTwo(row: Record, others: seq<SubscriptionEvent>, first: seq<SubscriptionEvent>, a: SubscriptionEvent,
                  second: seq<SubscriptionEvent>, b: SubscriptionEvent)
    requires first != [] && second != []
    requires (forall e :: e in first ==> e == a) && (forall e :: e in second ==> e == b)
    requires a.at == b.at && (a.kind == HaltedKind <==> b.kind != HaltedKind)
    requires Fresh(row, a) && forall e :: e in others ==> e.at <= a.at
    ensures DeliverSubscription(row, (others + first) + second) == Record(SubscriptionStatus(b.kind), Some(b.at))
  {
    DeliverAppend(row, others + first, second);
    DeliverAppend(row, others, first);
    var before := DeliverSubscription(row, others);
    BeforeLatest(row, others, a.at);
    DeliverRepeated(before, first, a);
    DeliverRepeated(ApplySubscription(before, a).0, second, b);
  }

  /** A pending event that is latest alone: with a deciding event fresh, it can be made to apply or not. */
  lemma PendingDiverges(row: Record, events: seq<SubscriptionEvent>, late: SubscriptionEvent)
    requires Latest(row, events, late) && PendingDecided(row, events, late)
    requires SubscriptionEvent(HaltedKind, late.at) !in events
    ensures !Converges(row, events)
  {
    var early :| early in events && Fresh(row, early) && early.kind == Deciding(row);
    assert early.at < late.at;
    var earlies, lates, others := PartedTwice(events, early, late);
    var earlyFirst, lateFirst := earlies + (lates + others), lates + (earlies + others);
    assert multiset(earlyFirst) == multiset(earlies) + multiset(lates) + multiset(others);
    assert multiset(lateFirst) == multiset(lates) + multiset(earlies) + multiset(others);
    OthersAreEarlier(events, late, others);
    DecidedBefore(row, earlies, early, lates, late, others);
    DecidedAfter(row, earlies, early, lates, late, others);
    assert DeliverSubscription(row, earlyFirst) != DeliverSubscription(row, lateFirst);
  }

  lemma OthersAreEarlier(events: seq<SubscriptionEvent>, late: SubscriptionEvent, others: seq<SubscriptionEvent>)
    requires late.kind == PendingKind && forall e :: e in events ==> e.at <= late.at
    requires SubscriptionEvent(ChargedKind, late.at) !in events && SubscriptionEvent(HaltedKind, late.at) !in events
    requires forall e :: e in others ==> e in events && e != late
    ensures forall e :: e in others ==> e.at < late.at
  {
    forall e | e in others
      ensures e.at < late.at
    {
      assert e in events;
      assert e == SubscriptionEvent(e.kind, e.at);
    }
  }

  /** Delivered first, the deciding event settles whether the pending one applies: it does iff the row was active. */
  lemma DecidedBefore(row: Record, earlies: seq<SubscriptionEvent>, early: SubscriptionEvent,
                      lates: seq<SubscriptionEvent>, late: SubscriptionEvent, others: seq<SubscriptionEvent>)
    requires earlies != [] && (forall e :: e in earlies ==> e == early)
    requires lates != [] && (forall e :: e in lates ==> e == late)
    requires Fresh(row, early) && early.kind == Deciding(row) && late.kind == PendingKind && early.at < late.at
    requires forall e :: e in others ==> e.at < late.at
    ensures var end := DeliverSubscription(row, earlies + (lates + others));
            end.at == Some(late.at) <==> row.status == ACTIVE
  {
    DeliverAppend(row, earlies, lates + others);
    DeliverRepeated(row, earlies, early);
    var decided := ApplySubscription(row, early).0;
    assert decided == Record(SubscriptionStatus(early.kind), Some(early.at));
    DeliverAppend(decided, lates, others);
    DeliverRepeated(decided, lates, late);
    if row.status == ACTIVE {
      SettledStays(ApplySubscription(decided, late).0, others);
    } else {
      TimeNotReached(decided, others, late.at);
    }
  }

  /** Delivered after the pending one, it no longer decides: the pending event applied iff the row was not active. */
  lemma DecidedAfter(row: Record, earlies: seq<SubscriptionEvent>, early: SubscriptionEvent,
                     lates: seq<SubscriptionEvent>, late: SubscriptionEvent, others: seq<SubscriptionEvent>)
    requires forall e :: e in earlies ==> e == early
    requires lates != [] && (forall e :: e in lates ==> e == late)
    requires Fresh(row, early) && late.kind == PendingKind && early.at < late.at
    requires forall e :: e in others ==> e.at < late.at
    ensures var end := DeliverSubscription(row, lates + (earlies + others));
            end.at == Some(late.at) <==> row.status != ACTIVE
  {
    DeliverAppend(row, lates, earlies + others);
    DeliverRepeated(row, lates, late);
    var after := ApplySubscription(row, late).0;
    if row.status == ACTIVE {
      assert after == row;
      TimeNotReached(row, earlies + others, late.at);
    } else {
      SettledStays(after, earlies + others);
    }
  }

  // ------------------------------------------------------------ the exact condition

  /**
   * The end of a subscription depends on the delivery order exactly when the
   * latest time carries a halt and something else, or the latest event is
   * pending and a fresh event of the deciding kind is among the others.
   */
  lemma ConvergesExactly(row: Record, events: seq<SubscriptionEvent>)
    ensures Converges(row, events) <==> !OrderMatters(row, events)
  {
    if OrderMatters(row, events) {
      var late :| Latest(row, events, late) && (HaltTies(events, late) || PendingDecided(row, events, late));
      var halt := SubscriptionEvent(HaltedKind, late.at);
      if HaltTies(events, late) {
        TiesDiverge(row, events, late);
      } else if halt in events {
        assert late in events && late.kind != HaltedKind;
        TiesDiverge(row, events, halt);
      } else {
        PendingDiverges(row, events, late);
      }
    } else {
      forall ys: seq<SubscriptionEvent> | multiset(ys) == multiset(events)
        ensures DeliverSubscription(row, ys) == DeliverSubscription(row, events)
      {
        assert forall e :: e in events <==> e in multiset(events);
        assert forall e :: e in ys <==> e in multiset(ys);
        OneEnd(row, events, ys);
      }
    }
  }

  /** With distinct times only the pending condition is left. */
  lemma DistinctTimesConvergeExactly(row: Record, events: seq<SubscriptionEvent>)
    requires DistinctTimes(events)
    ensures Converges(row, events)
       <==> forall late :: Latest(row, events, late) && late.kind == PendingKind ==>
              forall e :: e in events && Fresh(row, e) ==> e.kind != Deciding(row)
  {
    ConvergesExactly(row, events);
    forall late | Latest(row, events, late)
      ensures !HaltTies(events, late)
      ensures late.kind == PendingKind ==> SubscriptionEvent(ChargedKind, late.at) !in events
    {
    }
  }

  /** A charge at 1 and a pending at 2 on a halted row: the order of delivery decides. */
  lemma PendingBreaksConvergence()
    ensures !Converges(Record(HALTED, None), [SubscriptionEvent(ChargedKind, 1), SubscriptionEvent(PendingKind, 2)])
  {
    var row := Record(HALTED, None);
    var charge, pending := SubscriptionEvent(ChargedKind, 1), SubscriptionEvent(PendingKind, 2);
    assert charge in [charge, pending] && pending in [charge, pending];
    assert Latest(row, [charge, pending], pending) && PendingDecided(row, [charge, pending], pending);
    ConvergesExactly(row, [charge, pending]);
  }
}
