/** At-least-once, crash-interrupted delivery: retries, conservation of money and the rows of one payment. */
module Deliveries {
  import opened Domain
  import opened Registry
  import opened Cases
  import opened Protocol
  import opened CaseInvariants
  import opened CaseRuns
  import opened EventOrdering
  import opened Store
  import opened StoreTheorems
  import Policy
  import Text

  // ------------------------------------------------------------ retries

  lemma HandlersKeepWebhooks(s: Store, e: Envelope, known: bool)
    ensures Handle(s, e, known).Done? ==> Handle(s, e, known).store.webhooks == s.webhooks
  {
  }

  /** A completed event stays completed, and delivering it again changes nothing. */
  lemma {:induction false} CompleteIsForever(s: Store, policy: Policy.MerchantPolicyRow, ops: seq<Op>, d: Delivery)
    requires IsComplete(s, d.eventId)
    ensures IsComplete(RunStore(s, policy, ops), d.eventId)
    ensures Deliver(RunStore(s, policy, ops), d) == RunStore(s, policy, ops)
  {
    if ops != [] {
      var before, op := RunStore(s, policy, ops[..|ops| - 1]), ops[|ops| - 1];
      CompleteIsForever(s, policy, ops[..|ops| - 1], d);
      if op.Delivered? {
        HandlersKeepWebhooks(Claimed(before, op.delivery.eventId), op.delivery.envelope, op.delivery.customerKnown);
      }
    }
  }

  /**
   * What marking is for: every later delivery of the event is silent, whatever
   * it carries, and every other event is claimed and handled as if nothing had
   * been marked.
   */
  lemma MarkSilencesOnlyItsEvent(s: Store, eventId: string, disposition: Disposition, d: Delivery)
    ensures d.eventId == eventId ==> Deliver(MarkedAs(s, eventId, disposition), d) == MarkedAs(s, eventId, disposition)
    ensures d.eventId != eventId ==>
              Deliver(MarkedAs(s, eventId, disposition), d) == MarkedAs(Deliver(s, d), eventId, disposition)
  {
    if d.eventId != eventId && !IsComplete(s, d.eventId) {
      var marked := MarkedAs(s, eventId, disposition);
      assert Claimed(marked, d.eventId) == MarkedAs(Claimed(s, d.eventId), eventId, disposition);
      HandlersIgnoreMarks(Claimed(s, d.eventId), eventId, disposition, d.envelope, d.customerKnown);
      HandlersKeepWebhooks(Claimed(s, d.eventId), d.envelope, d.customerKnown);
      HandlersKeepWebhooks(Claimed(marked, d.eventId), d.envelope, d.customerKnown);
      MarksCommute(Handle(Claimed(s, d.eventId), d.envelope, d.customerKnown), eventId, disposition, d.eventId);
    }
  }

  lemma MarksCommute(h: Handled, a: string, x: Disposition, b: string)
    requires a != b
    ensures h.Done? ==>
              MarkedAs(MarkedAs(h.store, a, x), b, h.disposition) == MarkedAs(MarkedAs(h.store, b, h.disposition), a, x)
  {
  }

  function MarkedResult(h: Handled, eventId: string, disposition: Disposition): Handled {
    match h
    case Raised => Raised
    case Done(t, d, committed) => Done(MarkedAs(t, eventId, disposition), d, committed)
  }

  lemma HandlersIgnoreMarks(s: Store, eventId: string, disposition: Disposition, e: Envelope, known: bool)
    ensures Handle(MarkedAs(s, eventId, disposition), e, known)
         == MarkedResult(Handle(s, e, known), eventId, disposition)
  {
    match e.kind
    case PaymentFailedEvent => FailedIgnoresMarks(s, eventId, disposition, e, known);
    case PaymentCapturedEvent => CapturedIgnoresMarks(s, eventId, disposition, e, known);
    case SubscriptionPendingEvent => PendingIgnoresMarks(s, eventId, disposition, e);
    case SubscriptionChargedEvent => ChargedIgnoresMarks(s, eventId, disposition, e);
    case SubscriptionHaltedEvent => HaltedIgnoresMarks(s, eventId, disposition, e);
    case PaymentLinkPaidEvent => LinkPaidIgnoresMarks(s, eventId, disposition, e);
    case OtherEvent =>
  }

  lemma FailedIgnoresMarks(s: Store, eventId: string, disposition: Disposition, e: Envelope, known: bool)
    ensures HandlePaymentFailed(MarkedAs(s, eventId, disposition), e, known)
         == MarkedResult(HandlePaymentFailed(s, e, known), eventId, disposition)
  {
  }

  lemma CapturedIgnoresMarks(s: Store, eventId: string, disposition: Disposition, e: Envelope, known: bool)
    ensures HandlePaymentCaptured(MarkedAs(s, eventId, disposition), e, known)
         == MarkedResult(HandlePaymentCaptured(s, e, known), eventId, disposition)
  {
    if e.payment.Some? && e.createdAt.Some? {
      var up := UpsertTransaction(s, e.payment.value, CAPTURED, e.createdAt.value, known);
      if up.Upserted? && CaseByTransaction(up.store.cases, e.payment.value.id).Some? {
        ResolveIgnoresMarks(up.store, eventId, disposition, CaseByTransaction(up.store.cases, e.payment.value.id).value,
                            e.payment.value, e.createdAt.value);
      }
    }
  }

  lemma ResolveIgnoresMarks(s: Store, eventId: string, disposition: Disposition, id: nat, payment: PaymentEntity,
                            at: int)
    requires id < |s.cases|
    ensures ResolveAt(MarkedAs(s, eventId, disposition), id, payment, at)
         == MarkedResult(ResolveAt(s, id, payment, at), eventId, disposition)
  {
  }

  lemma PendingIgnoresMarks(s: Store, eventId: string, disposition: Disposition, e: Envelope)
    ensures HandleSubscriptionPending(MarkedAs(s, eventId, disposition), e)
         == MarkedResult(HandleSubscriptionPending(s, e), eventId, disposition)
  {
  }

  lemma ChargedIgnoresMarks(s: Store, eventId: string, disposition: Disposition, e: Envelope)
    ensures HandleSubscriptionCharged(MarkedAs(s, eventId, disposition), e)
         == MarkedResult(HandleSubscriptionCharged(s, e), eventId, disposition)
  {
    if e.subscription.Some? && e.payment.Some? && e.createdAt.Some? {
      var subscription := e.subscription.value;
      var up := UpsertSubscription(s, subscription.id, ChargedKind, e.createdAt.value);
      if up.Upserted? {
        var found := CaseByKey(up.store.cases, SubscriptionKey(subscription.id, subscription.cycleKey));
        if found.Some? {
          ResolveIgnoresMarks(up.store, eventId, disposition, found.value, e.payment.value, e.createdAt.value);
        }
      }
    }
  }

  lemma HaltedIgnoresMarks(s: Store, eventId: string, disposition: Disposition, e: Envelope)
    ensures HandleSubscriptionHalted(MarkedAs(s, eventId, disposition), e)
         == MarkedResult(HandleSubscriptionHalted(s, e), eventId, disposition)
  {
  }

  lemma LinkPaidIgnoresMarks(s: Store, eventId: string, disposition: Disposition, e: Envelope)
    ensures HandleLinkPaid(MarkedAs(s, eventId, disposition), e)
         == MarkedResult(HandleLinkPaid(s, e), eventId, disposition)
  {
    if e.link.Some? && e.payment.Some? && e.createdAt.Some? && ReferenceExists(s, e.link.value) {
      ResolveIgnoresMarks(s, eventId, disposition, e.link.value.caseId, e.payment.value, e.createdAt.value);
    }
  }

  lemma SameEntry<K, V>(m: map<K, V>, k: K)
    requires k in m
    ensures m[k := m[k]] == m
  {
  }

  /** An inner commit leaves the case RECOVERED; resolving it again is a quiet success. */
  lemma ResolveAgain(s: Store, id: nat, payment: PaymentEntity, at: int)
    requires id < |s.cases|
    requires ResolveAt(s, id, payment, at).Done? && ResolveAt(s, id, payment, at).committed
    ensures var r := ResolveAt(s, id, payment, at);
            && r.disposition == Processed
            && ResolveAt(r.store, id, payment, at) == Done(r.store, Processed, false)
            && r.store.transactions == s.transactions && r.store.subscriptions == s.subscriptions
            && |r.store.cases| == |s.cases|
            && forall i :: 0 <= i < |s.cases| ==>
                 && r.store.cases[i].sourceKey == s.cases[i].sourceKey
                 && r.store.cases[i].transactionId == s.cases[i].transactionId
  {
    var t := ResolveAt(s, id, payment, at).store;
    assert t.cases[id := t.cases[id]] == t.cases;
    assert t.cases[id].status == Recovered;
  }

  lemma CapturedAgain(s: Store, e: Envelope, known: bool)
    requires KeysOk(s.cases)
    requires HandlePaymentCaptured(s, e, known).Done? && HandlePaymentCaptured(s, e, known).committed
    ensures var r := HandlePaymentCaptured(s, e, known);
            r.disposition == Processed && HandlePaymentCaptured(r.store, e, known) == Done(r.store, Processed, false)
  {
    var payment, at := e.payment.value, e.createdAt.value;
    var up := UpsertTransaction(s, payment, CAPTURED, at, known);
    var id := CaseByTransaction(up.store.cases, payment.id).value;
    var r := ResolveAt(up.store, id, payment, at);
    ResolveAgain(up.store, id, payment, at);
    assert KeysOk(r.store.cases);
    OneCasePerTransaction(r.store.cases, id, payment.id);
    SameEntry(r.store.transactions, payment.id);
  }

  lemma ChargedAgain(s: Store, e: Envelope)
    requires KeysOk(s.cases)
    requires HandleSubscriptionCharged(s, e).Done? && HandleSubscriptionCharged(s, e).committed
    ensures var r := HandleSubscriptionCharged(s, e);
            r.disposition == Processed && HandleSubscriptionCharged(r.store, e) == Done(r.store, Processed, false)
  {
    var subscription, payment, at := e.subscription.value, e.payment.value, e.createdAt.value;
    var up := UpsertSubscription(s, subscription.id, ChargedKind, at);
    var id := CaseByKey(up.store.cases, SubscriptionKey(subscription.id, subscription.cycleKey)).value;
    var r := ResolveAt(up.store, id, payment, at);
    ResolveAgain(up.store, id, payment, at);
    assert KeysOk(r.store.cases);
    OneCasePerKey(r.store.cases, id);
    var row := r.store.subscriptions[subscription.id];
    ChargedTwice(s, subscription.id, at);
  }

  lemma ChargedTwice(s: Store, subscriptionId: string, at: int)
    requires subscriptionId in s.subscriptions
    ensures var t := UpsertSubscription(s, subscriptionId, ChargedKind, at).store;
            forall u: Store :: u.subscriptions == t.subscriptions ==>
              && UpsertSubscription(u, subscriptionId, ChargedKind, at).Upserted?
              && UpsertSubscription(u, subscriptionId, ChargedKind, at).store == u
  {
    var t := UpsertSubscription(s, subscriptionId, ChargedKind, at).store;
    SameEntry(t.subscriptions, subscriptionId);
  }

  lemma LinkPaidAgain(s: Store, e: Envelope)
    requires HandleLinkPaid(s, e).Done? && HandleLinkPaid(s, e).committed
    ensures var r := HandleLinkPaid(s, e);
            r.disposition == Processed && HandleLinkPaid(r.store, e) == Done(r.store, Processed, false)
  {
    ResolveAgain(s, e.link.value.caseId, e.payment.value, e.createdAt.value);
  }

  /**
   * A process that dies between the commit inside a transition and the final
   * commit of the webhook leaves nothing a redelivery does not put right: the
   * interrupted delivery followed by a retry ends where one whole delivery does.
   */
  lemma CrashIsInvisible(s: Store, d: Delivery)
    requires KeysOk(s.cases)
    ensures Deliver(Deliver(s, d.(crash := true)), d.(crash := false)) == Deliver(s, d.(crash := false))
  {
    var claimed := Claimed(s, d.eventId);
    var r := Handle(claimed, d.envelope, d.customerKnown);
    if !IsComplete(s, d.eventId) && r.Done? && r.committed {
      HandlersKeepWebhooks(claimed, d.envelope, d.customerKnown);
      HandledAgain(claimed, d.envelope, d.customerKnown);
      SameEntry(r.store.webhooks, d.eventId);
      assert Claimed(r.store, d.eventId) == r.store;
    }
  }

  lemma HandledAgain(s: Store, e: Envelope, known: bool)
    requires KeysOk(s.cases) && Handle(s, e, known).Done? && Handle(s, e, known).committed
    ensures var r := Handle(s, e, known);
            r.disposition == Processed && Handle(r.store, e, known) == Done(r.store, Processed, false)
  {
    match e.kind
    case PaymentCapturedEvent => CapturedAgain(s, e, known);
    case SubscriptionChargedEvent => ChargedAgain(s, e);
    case PaymentLinkPaidEvent => LinkPaidAgain(s, e);
    case _ =>
  }

  // ------------------------------------------------------------ verified payments always go through

  /** A verified payment never fails, and recovers the case exactly when it is open and the money matches. */
  lemma VerifiedPaymentRecoversExactly(c: CaseState, policy: Policy.MerchantPolicyRow,
                                       amount: int, currency: string, paymentId: string, at: int)
    requires Inv(c, policy)
    ensures var v := ResolveSuccess(c, amount, currency, paymentId, at);
            && v.Verified?
            && (v.committed <==> !IsTerminal(c.status) && MoneyMatches(c, amount, currency))
            && (v.committed ==> v.case_.status == Recovered && v.case_.outcome == Some(Outcome(amount, paymentId, at)))
            && (!v.committed ==> v.case_.status == c.status && v.case_.outcome == c.outcome)
  {
    if !IsTerminal(c.status) && MoneyMatches(c, amount, currency) {
      OpenCaseRecovers(c, paymentId, at);
    }
  }

  lemma OpenCaseRecovers(c: CaseState, paymentId: string, at: int)
    requires !IsTerminal(c.status) && c.outcome.None? && c.amountAtRisk > 0
    ensures var r := Transition(Settled(c, c.amountAtRisk, paymentId, at), c.version, PaymentVerified,
                                ContextAt(at).(reason := "PAYMENT_VERIFIED"));
            r.Success? && r.value.status == Recovered && r.value.outcome == Some(Outcome(c.amountAtRisk, paymentId, at))
  {
  }

  function PaymentDelivery(kind: EventKind, eventId: string, payment: PaymentEntity, at: int): Delivery {
    Delivery(eventId, Envelope(kind, Some(at), Some(payment), None, None), true, false)
  }

  /**
   * A payment fails, which opens a case, and is then captured with the same
   * amount and currency: the case is RECOVERED iff the currency arrived in
   * normalized form, because it is stored as received but compared normalized.
   */
  lemma CaptureAfterFailure(s: Store, payment: PaymentEntity, failureId: string, captureId: string, at: int, later: int)
    requires KeysOk(s.cases) && payment.amount > 0 && failureId != captureId
    requires payment.id !in s.transactions && CaseByKey(s.cases, PaymentKey(payment.id)).None?
    requires failureId !in s.webhooks && captureId !in s.webhooks
    ensures var failed := Deliver(s, PaymentDelivery(PaymentFailedEvent, failureId, payment, at));
            var t := Deliver(failed, PaymentDelivery(PaymentCapturedEvent, captureId, payment, later));
            && |t.cases| == |s.cases| + 1
            && t.transactions[payment.id].record == Record(CAPTURED, Some(later))
            && t.cases[|s.cases|].status
               == if payment.currency == NormalizedCurrency(payment.currency) then Recovered else Detected
  {
    var failed := Deliver(s, PaymentDelivery(PaymentFailedEvent, failureId, payment, at));
    var c := NewCase(PaymentKey(payment.id), Some(payment.id), payment.amount, payment.currency);
    FailureOpens(s, payment, failureId, at);
    KeysOkAppended(s.cases, c);
    CaptureResolves(failed, |s.cases|, payment, captureId, later);
  }

  lemma CaptureResolves(s: Store, id: nat, payment: PaymentEntity, eventId: string, at: int)
    requires KeysOk(s.cases) && payment.amount > 0 && eventId !in s.webhooks
    requires id < |s.cases| && payment.id in s.transactions
    requires s.cases[id] == NewCase(PaymentKey(payment.id), Some(payment.id), payment.amount, payment.currency)
    ensures var t := Deliver(s, PaymentDelivery(PaymentCapturedEvent, eventId, payment, at));
            && |t.cases| == |s.cases| && payment.id in t.transactions
            && t.transactions[payment.id].record == Record(CAPTURED, Some(at))
            && t.cases[id].status
               == if payment.currency == NormalizedCurrency(payment.currency) then Recovered else Detected
  {
    var c := s.cases[id];
    OneCasePerTransaction(s.cases, id, payment.id);
    if MoneyMatches(c, payment.amount, payment.currency) {
      OpenCaseRecovers(c, payment.id, at);
    }
  }

  lemma FailureOpens(s: Store, payment: PaymentEntity, eventId: string, at: int)
    requires payment.amount > 0 && eventId !in s.webhooks
    requires payment.id !in s.transactions && CaseByKey(s.cases, PaymentKey(payment.id)).None?
    ensures var c := NewCase(PaymentKey(payment.id), Some(payment.id), payment.amount, payment.currency);
            var row := Transaction(Record(FAILED, Some(at)), payment.amount, payment.currency);
            Deliver(s, PaymentDelivery(PaymentFailedEvent, eventId, payment, at))
            == s.(cases := s.cases + [c], transactions := s.transactions[payment.id := row],
                  webhooks := s.webhooks[eventId := Complete(Processed)])
  {
    var done := Complete(Processed);
    assert s.webhooks[eventId := Received][eventId := done] == s.webhooks[eventId := done];
  }

  lemma KeysOkAppended(cases: seq<CaseState>, c: CaseState)
    requires KeysOk(cases) && CaseByKey(cases, c.sourceKey).None? && KeyOk(c.sourceKey, c.transactionId)
    ensures KeysOk(cases + [c])
  {
  }

  /** A currency is its own normalized form iff it has no lower-case letter and no space at either end. */
  lemma NormalizedExactly(currency: string)
    ensures currency == NormalizedCurrency(currency) <==> !Text.HasLower(currency) && !Text.SpaceAtEnds(currency)
  {
    Text.NormalizedKeeps(currency);
  }

  /** Hence a payment whose currency arrives otherwise leaves its case open although it was captured in full. */
  lemma UnnormalizedStaysOpen(s: Store, payment: PaymentEntity, failureId: string, captureId: string,
                              at: int, later: int)
    requires KeysOk(s.cases) && payment.amount > 0 && failureId != captureId
    requires payment.id !in s.transactions && CaseByKey(s.cases, PaymentKey(payment.id)).None?
    requires failureId !in s.webhooks && captureId !in s.webhooks
    ensures var failed := Deliver(s, PaymentDelivery(PaymentFailedEvent, failureId, payment, at));
            var t := Deliver(failed, PaymentDelivery(PaymentCapturedEvent, captureId, payment, later));
            && |t.cases| == |s.cases| + 1 && t.transactions[payment.id].record.status == CAPTURED
            && (t.cases[|s.cases|].status == Detected
                <==> Text.HasLower(payment.currency) || Text.SpaceAtEnds(payment.currency))
  {
    CaptureAfterFailure(s, payment, failureId, captureId, at, later);
    NormalizedExactly(payment.currency);
  }

  /** The rupee's code in lower case is such a currency. */
  lemma LowerCaseRupee()
    ensures Text.HasLower("inr") && NormalizedCurrency("inr") == "INR"
  {
    assert 'a' <= "inr"[0] <= 'z';
    assert NormalizedCurrency("inr") == "INR";
  }

  // ------------------------------------------------------------ conservation of money

  function Opened(cases: seq<CaseState>): int {
    if cases == [] then 0 else Opened(cases[..|cases| - 1]) + cases[|cases| - 1].amountAtRisk
  }

  /** The dashboard's revenue at risk: amounts of the cases that are not terminal. */
  function AtRisk(cases: seq<CaseState>): int {
    if cases == [] then 0
    else
      AtRisk(cases[..|cases| - 1])
      + (if IsTerminal(cases[|cases| - 1].status) then 0 else cases[|cases| - 1].amountAtRisk)
  }

  /** The dashboard's recovered revenue: amounts of the recorded outcomes. */
  function RecoveredRevenue(cases: seq<CaseState>): int {
    if cases == [] then 0
    else
      RecoveredRevenue(cases[..|cases| - 1])
      + (if cases[|cases| - 1].outcome.Some? then cases[|cases| - 1].outcome.value.amount else 0)
  }

  function WrittenOff(cases: seq<CaseState>): int {
    if cases == [] then 0
    else
      WrittenOff(cases[..|cases| - 1])
      + (if cases[|cases| - 1].status == Failed || cases[|cases| - 1].status == Stopped
         then cases[|cases| - 1].amountAtRisk else 0)
  }

  lemma {:induction false} SumsAgree(cases: seq<CaseState>)
    requires forall i :: 0 <= i < |cases| ==> MoneyOk(cases[i])
    ensures Opened(cases) == AtRisk(cases) + RecoveredRevenue(cases) + WrittenOff(cases)
  {
    if cases != [] {
      SumsAgree(cases[..|cases| - 1]);
    }
  }

  /** Everything ever opened is at risk, recovered or written off, after every run. */
  lemma MoneyIsConserved(s: Store, policy: Policy.MerchantPolicyRow, ops: seq<Op>)
    requires StoreInv(s, policy)
    ensures var cases := RunStore(s, policy, ops).cases;
            Opened(cases) == AtRisk(cases) + RecoveredRevenue(cases) + WrittenOff(cases)
  {
    RunKeepsStore(s, policy, ops);
    var cases := RunStore(s, policy, ops).cases;
    forall i | 0 <= i < |cases|
      ensures MoneyOk(cases[i])
    {
      LivingInv(cases[i], policy);
    }
    SumsAgree(cases);
  }

  /** An operation adds money only by opening a case, and then exactly that case's amount. */
  lemma OnlyOpeningAddsMoney(s: Store, policy: Policy.MerchantPolicyRow, op: Op)
    requires StoreInv(s, policy)
    ensures var t := Step(s, policy, op);
            || (|t.cases| == |s.cases| && Opened(t.cases) == Opened(s.cases))
            || (&& |t.cases| == |s.cases| + 1
                && Opened(t.cases) == Opened(s.cases) + t.cases[|s.cases|].amountAtRisk
                && t.cases[|s.cases|].status == Detected)
  {
    var t := Step(s, policy, op);
    var change := StepChanges(s, policy, op);
    match change
    case Same =>
    case Opened(o) => assert t.cases[..|t.cases| - 1] == s.cases;
    case Advanced(id, step) =>
      NextExtends(s.cases[id], policy, step);
      OpenedUpdate(s.cases, id, t.cases[id]);
  }

  lemma {:induction false} OpenedUpdate(cases: seq<CaseState>, id: nat, c: CaseState)
    requires id < |cases| && c.amountAtRisk == cases[id].amountAtRisk
    ensures Opened(cases[id := c]) == Opened(cases)
  {
    var updated := cases[id := c];
    if id < |cases| - 1 {
      OpenedUpdate(cases[..|cases| - 1], id, c);
      assert updated[..|cases| - 1] == cases[..|cases| - 1][id := c];
    } else {
      assert updated[..|cases| - 1] == cases[..|cases| - 1];
    }
  }
}
