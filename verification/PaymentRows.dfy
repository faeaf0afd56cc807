/** The row and the case of one payment follow the event-ordering fold, whatever else happens around them. */
module PaymentRows {
  import opened Domain
  import opened Cases
  import opened Protocol
  import opened CaseRuns
  import opened EventOrdering
  import opened Store
  import opened StoreTheorems
  import Policy

  /** One payment as the fold sees it: its row, and whether a case was opened for it. */
  function View(s: Store, paymentId: string): PaymentState {
    PaymentState(if paymentId in s.transactions then Some(s.transactions[paymentId].record) else None,
                 if CaseByKey(s.cases, PaymentKey(paymentId)).Some? then 1 else 0)
  }

  predicate Commits(s: Store, d: Delivery) {
    && !IsComplete(s, d.eventId)
    && var r := Handle(Claimed(s, d.eventId), d.envelope, d.customerKnown);
       r.Done? && (!d.crash || r.committed)
  }

  /** The payment event an envelope carries for this payment, once it is handled. */
  function Carried(s: Store, e: Envelope, known: bool, paymentId: string): Option<PaymentEvent> {
    if e.payment.None? || e.payment.value.id != paymentId || e.createdAt.None? then None
    else if paymentId !in s.transactions && !known then None
    else if e.kind == PaymentFailedEvent then Some(EventOrdering.PaymentFailed(e.createdAt.value))
    else if e.kind == PaymentCapturedEvent then Some(PaymentCaptured(e.createdAt.value))
    else None
  }

  /** The payment event a committed operation carries for this payment, if any. */
  function Effect(s: Store, op: Op, paymentId: string): Option<PaymentEvent> {
    if !op.Delivered? || !Commits(s, op.delivery) then None
    else Carried(s, op.delivery.envelope, op.delivery.customerKnown, paymentId)
  }

  /** The committed payment events of a run, in the order they took effect. */
  function Effects(s: Store, policy: Policy.MerchantPolicyRow, ops: seq<Op>, paymentId: string): seq<PaymentEvent> {
    if ops == [] then []
    else
      var front := ops[..|ops| - 1];
      Effects(s, policy, front, paymentId)
      + match Effect(RunStore(s, policy, front), ops[|ops| - 1], paymentId)
        case None => []
        case Some(e) => [e]
  }

  ghost predicate SameKeys(before: seq<CaseState>, after: seq<CaseState>) {
    |after| == |before| && forall i :: 0 <= i < |before| ==> after[i].sourceKey == before[i].sourceKey
  }

  lemma SameKeysSameView(before: seq<CaseState>, after: seq<CaseState>, key: string)
    requires SameKeys(before, after)
    ensures CaseByKey(after, key).Some? <==> CaseByKey(before, key).Some?
  {
  }

  lemma AppendedKeyView(before: seq<CaseState>, c: CaseState, key: string)
    ensures CaseByKey(before + [c], key).Some? <==> CaseByKey(before, key).Some? || c.sourceKey == key
  {
    assert (before + [c])[..|before + [c]| - 1] == before;
  }

  lemma ResolveKeepsKeys(s: Store, policy: Policy.MerchantPolicyRow, id: nat, payment: PaymentEntity, at: int)
    requires id < |s.cases| && ResolveAt(s, id, payment, at).Done?
    ensures SameKeys(s.cases, ResolveAt(s, id, payment, at).store.cases)
  {
    NextExtends(s.cases[id], policy, VerifiedPaymentStep(payment.amount, payment.currency, payment.id, at));
  }

  lemma FailedView(s: Store, e: Envelope, known: bool, paymentId: string)
    requires HandlePaymentFailed(s, e, known).Done?
    ensures View(HandlePaymentFailed(s, e, known).store, paymentId)
         == if e.payment.value.id == paymentId && (paymentId in s.transactions || known)
            then DeliverPayment(View(s, paymentId), EventOrdering.PaymentFailed(e.createdAt.value))
            else View(s, paymentId)
  {
    var payment := e.payment.value;
    var up := UpsertTransaction(s, payment, FAILED, e.createdAt.value, known);
    KeysNeverCollide(payment.id, paymentId, "", "");
    if up.Upserted? && up.applied {
      var row := up.store.transactions[payment.id];
      AppendedKeyView(s.cases, NewCase(PaymentKey(payment.id), Some(payment.id), row.amount, row.currency),
                      PaymentKey(paymentId));
    }
  }

  lemma CapturedView(s: Store, policy: Policy.MerchantPolicyRow, e: Envelope, known: bool, paymentId: string)
    requires HandlePaymentCaptured(s, e, known).Done?
    ensures View(HandlePaymentCaptured(s, e, known).store, paymentId)
         == if e.payment.value.id == paymentId && (paymentId in s.transactions || known)
            then DeliverPayment(View(s, paymentId), PaymentCaptured(e.createdAt.value))
            else View(s, paymentId)
  {
    var payment := e.payment.value;
    var up := UpsertTransaction(s, payment, CAPTURED, e.createdAt.value, known);
    if up.Upserted? {
      var found := CaseByTransaction(up.store.cases, payment.id);
      if found.Some? {
        ResolveKeepsKeys(up.store, policy, found.value, payment, e.createdAt.value);
        SameKeysSameView(s.cases, ResolveAt(up.store, found.value, payment, e.createdAt.value).store.cases,
                         PaymentKey(paymentId));
      }
    }
  }

  lemma PendingView(s: Store, e: Envelope, paymentId: string)
    requires HandleSubscriptionPending(s, e).Done?
    ensures View(HandleSubscriptionPending(s, e).store, paymentId) == View(s, paymentId)
  {
    var subscription := e.subscription.value;
    var up := UpsertSubscription(s, subscription.id, PendingKind, e.createdAt.value);
    if up.Upserted? && up.applied {
      var row := up.store.subscriptions[subscription.id];
      var key := SubscriptionKey(subscription.id, subscription.cycleKey);
      KeysNeverCollide(paymentId, paymentId, subscription.id, subscription.cycleKey);
      AppendedKeyView(s.cases, NewCase(key, None, row.amount, row.currency), PaymentKey(paymentId));
    }
  }

  lemma ChargedView(s: Store, policy: Policy.MerchantPolicyRow, e: Envelope, paymentId: string)
    requires HandleSubscriptionCharged(s, e).Done?
    ensures View(HandleSubscriptionCharged(s, e).store, paymentId) == View(s, paymentId)
  {
    var subscription, payment := e.subscription.value, e.payment.value;
    if payment.status == CAPTURED {
      var up := UpsertSubscription(s, subscription.id, ChargedKind, e.createdAt.value);
      if up.Upserted? {
        var found := CaseByKey(up.store.cases, SubscriptionKey(subscription.id, subscription.cycleKey));
        if found.Some? {
          ResolveKeepsKeys(up.store, policy, found.value, payment, e.createdAt.value);
          SameKeysSameView(s.cases, ResolveAt(up.store, found.value, payment, e.createdAt.value).store.cases,
                           PaymentKey(paymentId));
        }
      }
    }
  }

  lemma LinkPaidView(s: Store, policy: Policy.MerchantPolicyRow, e: Envelope, paymentId: string)
    requires HandleLinkPaid(s, e).Done?
    ensures View(HandleLinkPaid(s, e).store, paymentId) == View(s, paymentId)
  {
    if ReferenceExists(s, e.link.value) {
      ResolveKeepsKeys(s, policy, e.link.value.caseId, e.payment.value, e.createdAt.value);
      SameKeysSameView(s.cases, HandleLinkPaid(s, e).store.cases, PaymentKey(paymentId));
    }
  }

  function Moved(view: PaymentState, event: Option<PaymentEvent>): PaymentState {
    match event
    case None => view
    case Some(e) => DeliverPayment(view, e)
  }

  lemma HandledView(s: Store, policy: Policy.MerchantPolicyRow, e: Envelope, known: bool, paymentId: string)
    requires Handle(s, e, known).Done?
    ensures View(Handle(s, e, known).store, paymentId) == Moved(View(s, paymentId), Carried(s, e, known, paymentId))
  {
    match e.kind
    case PaymentFailedEvent => FailedView(s, e, known, paymentId);
    case PaymentCapturedEvent => CapturedView(s, policy, e, known, paymentId);
    case SubscriptionPendingEvent => PendingView(s, e, paymentId);
    case SubscriptionChargedEvent => ChargedView(s, policy, e, paymentId);
    case PaymentLinkPaidEvent => LinkPaidView(s, policy, e, paymentId);
    case _ =>
  }

  /** An operation moves the payment's view by exactly the event it carries. */
  lemma StepView(s: Store, policy: Policy.MerchantPolicyRow, op: Op, paymentId: string)
    ensures View(Step(s, policy, op), paymentId) == Moved(View(s, paymentId), Effect(s, op, paymentId))
  {
    match op
    case OnCase(id, step) =>
      if id < |s.cases| && !step.VerifiedPaymentStep? {
        NextExtends(s.cases[id], policy, step);
        SameKeysSameView(s.cases, Step(s, policy, op).cases, PaymentKey(paymentId));
      }
    case Delivered(d) =>
      if Commits(s, d) {
        var claimed := Claimed(s, d.eventId);
        HandledView(claimed, policy, d.envelope, d.customerKnown, paymentId);
        assert View(claimed, paymentId) == View(s, paymentId);
      }
  }

  /** The fold over the committed events of a payment gives its row and its case after any run of the whole store. */
  lemma {:induction false} RunView(s: Store, policy: Policy.MerchantPolicyRow, ops: seq<Op>, paymentId: string)
    ensures View(RunStore(s, policy, ops), paymentId)
         == DeliverPayments(View(s, paymentId), Effects(s, policy, ops, paymentId))
  {
    if ops != [] {
      var front := ops[..|ops| - 1];
      RunView(s, policy, front, paymentId);
      StepView(RunStore(s, policy, front), policy, ops[|ops| - 1], paymentId);
      var earlier := Effects(s, policy, front, paymentId);
      var effect := Effect(RunStore(s, policy, front), ops[|ops| - 1], paymentId);
      if effect.Some? {
        assert (earlier + [effect.value])[..|earlier + [effect.value]| - 1] == earlier;
      } else {
        assert earlier + [] == earlier;
      }
    }
  }

  /**
   * A payment nobody had seen ends captured iff some capture took effect, and
   * has a case iff the first event to take effect was a failure.
   */
  lemma PaymentEndsCaptured(s: Store, policy: Policy.MerchantPolicyRow, ops: seq<Op>, paymentId: string)
    requires paymentId !in s.transactions && CaseByKey(s.cases, PaymentKey(paymentId)).None?
    ensures var t, events := RunStore(s, policy, ops), Effects(s, policy, ops, paymentId);
            && (paymentId in t.transactions <==> events != [])
            && (events != [] ==>
                  && t.transactions[paymentId].record.status == (if HasCapture(events) then CAPTURED else FAILED)
                  && (CaseByKey(t.cases, PaymentKey(paymentId)).Some? <==> events[0].PaymentFailed?))
  {
    RunView(s, policy, ops, paymentId);
    var events := Effects(s, policy, ops, paymentId);
    if events != [] {
      CaptureWins(events);
    }
  }
}
