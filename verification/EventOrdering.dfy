/** Which provider events are applied to a payment or a subscription row, and where any delivery order ends. */
module EventOrdering {
  import opened Domain
  import opened Seqs

  const CAPTURED := "captured"
  const FAILED := "failed"
  const ACTIVE := "active"
  const PENDING := "pending"
  const HALTED := "halted"

  /** A provider row: its status and the time of the event that set it. */
  datatype Record = Record(status: string, at: Option<int>)

  predicate Stale(current: Option<int>, new_: Option<int>) {
    current.Some? && new_.Some? && new_.value < current.value
  }

  // ------------------------------------------------------------ payments

  function PaymentRank(status: string): nat {
    if status == "created" then 1
    else if status == "authorized" then 2
    else if status == FAILED then 3
    else if status == CAPTURED then 4
    else 0
  }

  predicate ShouldApplyPayment(current: Record, status: string, at: Option<int>) {
    if current.status == CAPTURED && status == FAILED then false
    else if status == CAPTURED then true
    else if Stale(current.at, at) then false
    else PaymentRank(status) >= PaymentRank(current.status)
  }

  datatype PaymentEvent = PaymentFailed(at: int) | PaymentCaptured(at: int)

  function PaymentStatus(e: PaymentEvent): string {
    if e.PaymentCaptured? then CAPTURED else FAILED
  }

  /** The row after one delivery, and whether the delivery was applied. */
  function ApplyPayment(row: Option<Record>, status: string, at: int): (Record, bool) {
    if row.None? then (Record(status, Some(at)), true)
    else if ShouldApplyPayment(row.value, status, Some(at)) then (Record(status, Some(at)), true)
    else (row.value, false)
  }

  /** A payment's row together with the number of cases opened for it. */
  datatype PaymentState = PaymentState(row: Option<Record>, cases: nat)

  function DeliverPayment(s: PaymentState, e: PaymentEvent): PaymentState {
    var (row, applied) := ApplyPayment(s.row, PaymentStatus(e), e.at);
    var opens := e.PaymentFailed? && applied && row.status != CAPTURED && s.cases == 0;
    PaymentState(Some(row), if opens then 1 else s.cases)
  }

  function DeliverPayments(s: PaymentState, events: seq<PaymentEvent>): PaymentState {
    if events == [] then s
    else DeliverPayment(DeliverPayments(s, events[..|events| - 1]), events[|events| - 1])
  }

  const UNSEEN := PaymentState(None, 0)

  predicate HasCapture(events: seq<PaymentEvent>) {
    exists i :: 0 <= i < |events| && events[i].PaymentCaptured?
  }

  /**
   * In every delivery order the payment ends captured iff some delivery was a
   * capture; a case is opened iff the very first delivery was a failure, and
   * then only one.
   */
  lemma {:induction false} CaptureWins(events: seq<PaymentEvent>)
    requires events != []
    ensures var s := DeliverPayments(UNSEEN, events);
            && s.row.Some? && s.row.value.at.Some?
            && s.row.value.status == (if HasCapture(events) then CAPTURED else FAILED)
            && s.cases == (if events[0].PaymentFailed? then 1 else 0)
  {
    var front := events[..|events| - 1];
    if front == [] {
      assert DeliverPayments(UNSEEN, front) == UNSEEN;
      assert HasCapture(events) <==> events[0].PaymentCaptured?;
    } else {
      CaptureWins(front);
      CaptureAtEnd(front, events[|events| - 1]);
      assert events == front + [events[|events| - 1]];
    }
  }

  lemma CaptureAtEnd(front: seq<PaymentEvent>, last: PaymentEvent)
    ensures HasCapture(front + [last]) <==> HasCapture(front) || last.PaymentCaptured?
  {
    assert (front + [last])[|front|] == last;
    assert forall i :: 0 <= i < |front| ==> (front + [last])[i] == front[i];
  }

  /** The delivery that opens the case never comes after a capture. */
  lemma NoCaseAfterCapture(events: seq<PaymentEvent>, e: PaymentEvent)
    requires HasCapture(events)
    ensures DeliverPayments(UNSEEN, events + [e]).cases == DeliverPayments(UNSEEN, events).cases
    ensures DeliverPayments(UNSEEN, events + [e]).row.value.status == CAPTURED
  {
    CaptureWins(events);
    CaptureWins(events + [e]);
    var i :| 0 <= i < |events| && events[i].PaymentCaptured?;
    assert (events + [e])[i].PaymentCaptured?;
  }

  lemma CaptureInAnyOrder(xs: seq<PaymentEvent>, ys: seq<PaymentEvent>)
    requires multiset(xs) == multiset(ys)
    ensures HasCapture(xs) ==> HasCapture(ys)
  {
    if HasCapture(xs) {
      var i :| 0 <= i < |xs| && xs[i].PaymentCaptured?;
      assert xs[i] in multiset(xs);
      assert xs[i] in ys;
    }
  }

  /** Reordering the deliveries of a payment never changes where its status ends. */
  lemma PaymentStatusConverges(xs: seq<PaymentEvent>, ys: seq<PaymentEvent>)
    requires xs != [] && multiset(xs) == multiset(ys)
    ensures DeliverPayments(UNSEEN, xs).row.value.status == DeliverPayments(UNSEEN, ys).row.value.status
  {
    SameLength(xs, ys);
    CaptureInAnyOrder(xs, ys);
    CaptureInAnyOrder(ys, xs);
    CaptureWins(xs);
    CaptureWins(ys);
  }

  /** Time of the last delivered capture, or else the latest failure. */
  function SettledAt(events: seq<PaymentEvent>): int
    requires events != []
  {
    var last, front := events[|events| - 1], events[..|events| - 1];
    if last.PaymentCaptured? || front == [] then last.at
    else if HasCapture(front) || SettledAt(front) > last.at then SettledAt(front)
    else last.at
  }

  lemma {:induction false} StoredTime(events: seq<PaymentEvent>)
    requires events != []
    ensures DeliverPayments(UNSEEN, events).row.value.at == Some(SettledAt(events))
  {
    var front := events[..|events| - 1];
    CaptureWins(events);
    if front == [] {
      assert DeliverPayments(UNSEEN, front) == UNSEEN;
    } else {
      StoredTime(front);
      CaptureWins(front);
    }
  }

  /** Every delivery order leaves the same event time on the row. */
  ghost predicate TimeConverges(events: seq<PaymentEvent>)
    requires events != []
  {
    forall ys: seq<PaymentEvent> :: multiset(ys) == multiset(events) ==> StoredAt(ys) == StoredAt(events)
  }

  function StoredAt(events: seq<PaymentEvent>): Option<int> {
    var row := DeliverPayments(UNSEEN, events).row;
    if row.None? then None else row.value.at
  }

  predicate CapturesAgree(events: seq<PaymentEvent>) {
    forall e, f :: e in events && f in events && e.PaymentCaptured? && f.PaymentCaptured? ==> e.at == f.at
  }

  /** The stored event time depends on the delivery order exactly when two captures carry different times. */
  lemma TimeConvergesExactly(events: seq<PaymentEvent>)
    requires events != []
    ensures TimeConverges(events) <==> CapturesAgree(events)
  {
    if CapturesAgree(events) {
      forall ys: seq<PaymentEvent> | multiset(ys) == multiset(events)
        ensures StoredAt(ys) == StoredAt(events)
      {
        SameLength(events, ys);
        AgreeingTimes(events, ys);
        StoredTime(events);
        StoredTime(ys);
      }
    } else {
      var e, f :| e in events && f in events && e.PaymentCaptured? && f.PaymentCaptured? && e.at != f.at;
      var xs, ys := MovedLast(events, e), MovedLast(events, f);
      StoredTime(xs);
      StoredTime(ys);
      assert StoredAt(xs) == Some(e.at) && StoredAt(ys) == Some(f.at);
      assert multiset(xs) == multiset(events) && multiset(ys) == multiset(events);
    }
  }

  /** Where the settled time comes from: some capture, or without one the latest failure. */
  lemma {:induction false} SettledAtSource(events: seq<PaymentEvent>)
    requires events != []
    ensures HasCapture(events) ==> exists e :: e in events && e.PaymentCaptured? && e.at == SettledAt(events)
    ensures !HasCapture(events) ==>
              && (exists e :: e in events && e.at == SettledAt(events))
              && forall e :: e in events ==> e.at <= SettledAt(events)
  {
    var last, front := events[|events| - 1], events[..|events| - 1];
    assert events == front + [last];
    if front != [] {
      SettledAtSource(front);
      CaptureAtEnd(front, last);
    } else {
      assert HasCapture(events) <==> events[0].PaymentCaptured?;
    }
    assert last in events;
  }

  lemma AgreeingTimes(xs: seq<PaymentEvent>, ys: seq<PaymentEvent>)
    requires xs != [] && ys != [] && multiset(xs) == multiset(ys) && CapturesAgree(xs)
    ensures SettledAt(xs) == SettledAt(ys)
  {
    SettledAtSource(xs);
    SettledAtSource(ys);
    CaptureInAnyOrder(xs, ys);
    CaptureInAnyOrder(ys, xs);
    assert forall e :: e in xs <==> e in multiset(xs);
    assert forall e :: e in ys <==> e in multiset(ys);
  }

  // ------------------------------------------------------------ subscriptions

  datatype SubscriptionKind = PendingKind | ChargedKind | HaltedKind

  datatype SubscriptionEvent = SubscriptionEvent(kind: SubscriptionKind, at: int)

  function SubscriptionStatus(kind: SubscriptionKind): string {
    match kind
    case PendingKind => PENDING
    case ChargedKind => ACTIVE
    case HaltedKind => HALTED
  }

  predicate ShouldApplySubscription(current: Record, kind: SubscriptionKind, at: Option<int>) {
    if Stale(current.at, at) then false
    else if kind == ChargedKind then true
    else !(current.status == ACTIVE && kind == PendingKind)
  }

  function ApplySubscription(row: Record, e: SubscriptionEvent): (Record, bool) {
    if ShouldApplySubscription(row, e.kind, Some(e.at)) then (Record(SubscriptionStatus(e.kind), Some(e.at)), true)
    else (row, false)
  }

  function DeliverSubscription(row: Record, events: seq<SubscriptionEvent>): Record {
    if events == [] then row
    else ApplySubscription(DeliverSubscription(row, events[..|events| - 1]), events[|events| - 1]).0
  }

  /** The stored event time of a subscription never goes back, whatever is delivered. */
  lemma {:induction false} SubscriptionTimeIsMonotone(row: Record, events: seq<SubscriptionEvent>,
                                                      more: seq<SubscriptionEvent>)
    ensures var before, after := DeliverSubscription(row, events), DeliverSubscription(row, events + more);
            before.at.Some? ==> after.at.Some? && before.at.value <= after.at.value
  {
    if more == [] {
      assert events + more == events;
    } else {
      var shorter := more[..|more| - 1];
      SubscriptionTimeIsMonotone(row, events, shorter);
      assert (events + more)[..|events + more| - 1] == events + shorter;
    }
  }

  predicate NoPending(events: seq<SubscriptionEvent>) {
    forall i :: 0 <= i < |events| ==> events[i].kind != PendingKind
  }

  /** Without pending events the row ends at an event of the latest time, or untouched when all were stale. */
  lemma {:induction false} EndsAtLatest(row: Record, events: seq<SubscriptionEvent>)
    requires NoPending(events)
    ensures var end := DeliverSubscription(row, events);
            && (forall e :: e in events ==> end.at.Some? && e.at <= end.at.value)
            && (|| (end == row && forall e :: e in events ==> Stale(row.at, Some(e.at)))
                || (!Stale(row.at, end.at)
                    && exists e :: e in events && end == Record(SubscriptionStatus(e.kind), Some(e.at))))
  {
    if events != [] {
      var front, last := events[..|events| - 1], events[|events| - 1];
      EndsAtLatest(row, front);
      assert events == front + [last];
      assert last in events;
    }
  }

  predicate DistinctTimes(events: seq<SubscriptionEvent>) {
    forall e, f :: e in events && f in events && e.at == f.at ==> e == f
  }

  /** Charged and halted events at distinct times end in the latest one, in every delivery order. */
  lemma SubscriptionConverges(row: Record, xs: seq<SubscriptionEvent>, ys: seq<SubscriptionEvent>)
    requires multiset(xs) == multiset(ys) && NoPending(xs) && DistinctTimes(xs)
    ensures DeliverSubscription(row, xs) == DeliverSubscription(row, ys)
    ensures forall e :: e in xs && !Stale(row.at, Some(e.at)) && (forall f :: f in xs ==> f.at <= e.at) ==>
              DeliverSubscription(row, xs) == Record(SubscriptionStatus(e.kind), Some(e.at))
  {
    assert forall e :: e in xs <==> e in multiset(xs);
    assert forall e :: e in ys <==> e in multiset(ys);
    forall i | 0 <= i < |ys|
      ensures ys[i].kind != PendingKind
    {
      assert ys[i] in xs;
    }
    EndsAtLatest(row, xs);
    EndsAtLatest(row, ys);
  }
}
