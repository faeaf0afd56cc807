/** All rows of one merchant, and what a webhook delivery or a service call does to them. */
module Store {
  import opened Domain
  import opened Cases
  import opened Protocol
  import opened EventOrdering
  import Policy

  datatype WebhookStatus = Received | Complete(disposition: Disposition)

  datatype Transaction = Transaction(record: Record, amount: int, currency: string)

  datatype Subscription = Subscription(record: Record, amount: int, currency: string)

  datatype Store = Store(
    cases: seq<CaseState>,
    transactions: map<string, Transaction>,
    subscriptions: map<string, Subscription>,
    webhooks: map<string, WebhookStatus>)

  // ------------------------------------------------------------ envelopes

  datatype EventKind =
    | PaymentFailedEvent | PaymentCapturedEvent | SubscriptionPendingEvent | SubscriptionChargedEvent
    | SubscriptionHaltedEvent | PaymentLinkPaidEvent | OtherEvent

  datatype PaymentEntity = PaymentEntity(id: string, amount: int, currency: string, status: string)

  datatype SubscriptionEntity = SubscriptionEntity(id: string, cycleKey: string)

  /** The reference carried by a paid link: absent, nobody's, or that of one action row. */
  datatype LinkReference = NoReference | ForeignReference | ReferenceTo(caseId: nat, index: nat)

  datatype Envelope = Envelope(
    kind: EventKind,
    createdAt: Option<int>,
    payment: Option<PaymentEntity>,
    subscription: Option<SubscriptionEntity>,
    link: Option<LinkReference>)

  /** One delivery attempt; `crash` kills the process before its final commit. */
  datatype Delivery = Delivery(eventId: string, envelope: Envelope, customerKnown: bool, crash: bool)

  // ------------------------------------------------------------ keys and lookups

  const PAYMENT_KEY_PREFIX := "razorpay:payment_failed:"
  const SUBSCRIPTION_KEY_PREFIX := "razorpay:subscription_pending:"

  function PaymentKey(paymentId: string): string {
    PAYMENT_KEY_PREFIX + paymentId
  }

  function SubscriptionKey(subscriptionId: string, cycleKey: string): string {
    SUBSCRIPTION_KEY_PREFIX + subscriptionId + ":" + cycleKey
  }

  function CaseByKey(cases: seq<CaseState>, key: string): (r: Option<nat>)
    ensures r.Some? ==> r.value < |cases| && cases[r.value].sourceKey == key
    ensures r.None? ==> forall i :: 0 <= i < |cases| ==> cases[i].sourceKey != key
  {
    if cases == [] then None
    else if cases[|cases| - 1].sourceKey == key then Some(|cases| - 1)
    else CaseByKey(cases[..|cases| - 1], key)
  }

  /** The newest case of a transaction. */
  function CaseByTransaction(cases: seq<CaseState>, transactionId: string): (r: Option<nat>)
    ensures r.Some? ==> r.value < |cases| && cases[r.value].transactionId == Some(transactionId)
    ensures r.None? ==> forall i :: 0 <= i < |cases| ==> cases[i].transactionId != Some(transactionId)
  {
    if cases == [] then None
    else if cases[|cases| - 1].transactionId == Some(transactionId) then Some(|cases| - 1)
    else CaseByTransaction(cases[..|cases| - 1], transactionId)
  }

  /** Only link rows carry a provider reference. */
  predicate ReferenceExists(s: Store, reference: LinkReference) {
    && reference.ReferenceTo?
    && reference.caseId < |s.cases| && reference.index < |s.cases[reference.caseId].actions|
    && UsesPaymentLink(s.cases[reference.caseId].actions[reference.index].action)
  }

  // ------------------------------------------------------------ handlers

  /** `committed` says the store was already committed once, with the webhook row still RECEIVED. */
  datatype Handled = Done(store: Store, disposition: Disposition, committed: bool) | Raised

  function OpenCase(s: Store, key: string, transactionId: Option<string>, amount: int, currency: string): Store
    requires amount >= 0
  {
    if CaseByKey(s.cases, key).Some? then s
    else s.(cases := s.cases + [NewCase(key, transactionId, amount, currency)])
  }

  function ResolveAt(s: Store, id: nat, payment: PaymentEntity, at: int): Handled
    requires id < |s.cases|
  {
    match ResolveSuccess(s.cases[id], payment.amount, payment.currency, payment.id, at)
    case VerificationRaised => Raised
    case Verified(c, disposition, committed) => Done(s.(cases := s.cases[id := c]), disposition, committed)
  }

  /** None when no customer can be correlated; a non-positive amount violates the table's constraint. */
  datatype Upsert = Uncorrelated | Rejected | Upserted(store: Store, applied: bool)

  function UpsertTransaction(s: Store, payment: PaymentEntity, status: string, at: int, customerKnown: bool): Upsert {
    var current := if payment.id in s.transactions then Some(s.transactions[payment.id].record) else None;
    var (record, applied) := ApplyPayment(current, status, at);
    if current.None? && !customerKnown then Uncorrelated
    else if !applied then Upserted(s, false)
    else if payment.amount <= 0 then Rejected
    else
      var row := Transaction(record, payment.amount, payment.currency);
      Upserted(s.(transactions := s.transactions[payment.id := row]), true)
  }

  function UpsertSubscription(s: Store, subscriptionId: string, kind: SubscriptionKind, at: int): Upsert {
    if subscriptionId !in s.subscriptions then Uncorrelated
    else
      var row := s.subscriptions[subscriptionId];
      var (record, applied) := ApplySubscription(row.record, EventOrdering.SubscriptionEvent(kind, at));
      Upserted(s.(subscriptions := s.subscriptions[subscriptionId := row.(record := record)]), applied)
  }

  function HandlePaymentFailed(s: Store, e: Envelope, customerKnown: bool): Handled {
    if e.payment.None? || e.createdAt.None? then Raised
    else
      var payment := e.payment.value;
      match UpsertTransaction(s, payment, FAILED, e.createdAt.value, customerKnown)
      case Uncorrelated => Done(s, Ignored(InsufficientFinancialEvidence), false)
      case Rejected => Raised
      case Upserted(t, applied) =>
        if !applied then Done(t, Ignored(StaleWebhook), false)
        else
          var row := t.transactions[payment.id];
          Done(OpenCase(t, PaymentKey(payment.id), Some(payment.id), row.amount, row.currency), Processed, false)
  }

  function HandlePaymentCaptured(s: Store, e: Envelope, customerKnown: bool): Handled {
    if e.payment.None? || e.createdAt.None? then Raised
    else
      var payment := e.payment.value;
      match UpsertTransaction(s, payment, CAPTURED, e.createdAt.value, customerKnown)
      case Uncorrelated => Done(s, Ignored(InsufficientFinancialEvidence), false)
      case Rejected => Raised
      case Upserted(t, _) =>
        var found := CaseByTransaction(t.cases, payment.id);
        if found.None? then Done(t, Processed, false) else ResolveAt(t, found.value, payment, e.createdAt.value)
  }

  function HandleSubscriptionPending(s: Store, e: Envelope): Handled {
    if e.subscription.None? || e.createdAt.None? then Raised
    else
      var subscription := e.subscription.value;
      match UpsertSubscription(s, subscription.id, PendingKind, e.createdAt.value)
      case Uncorrelated => Done(s, Ignored(InsufficientFinancialEvidence), false)
      case Rejected => Raised
      case Upserted(t, applied) =>
        if !applied then Done(t, Ignored(StaleWebhook), false)
        else
          var row := t.subscriptions[subscription.id];
          if row.amount <= 0 then Raised
          else
            Done(OpenCase(t, SubscriptionKey(subscription.id, subscription.cycleKey), None, row.amount, row.currency),
                 Processed, false)
  }

  function HandleSubscriptionCharged(s: Store, e: Envelope): Handled {
    if e.subscription.None? || e.payment.None? then Raised
    else if e.payment.value.status != CAPTURED then Done(s, Ignored(InsufficientPaymentEvidence), false)
    else if e.createdAt.None? then Raised
    else
      var subscription := e.subscription.value;
      match UpsertSubscription(s, subscription.id, ChargedKind, e.createdAt.value)
      case Uncorrelated => Done(s, Processed, false)
      case Rejected => Raised
      case Upserted(t, _) =>
        var found := CaseByKey(t.cases, SubscriptionKey(subscription.id, subscription.cycleKey));
        if found.None? then Done(t, Processed, false)
        else ResolveAt(t, found.value, e.payment.value, e.createdAt.value)
  }

  function HandleSubscriptionHalted(s: Store, e: Envelope): Handled {
    if e.subscription.None? || e.createdAt.None? then Raised
    else
      match UpsertSubscription(s, e.subscription.value.id, HaltedKind, e.createdAt.value)
      case Uncorrelated => Done(s, Ignored(InsufficientFinancialEvidence), false)
      case Rejected => Raised
      case Upserted(t, _) => Done(t, Processed, false)
  }

  function HandleLinkPaid(s: Store, e: Envelope): Handled {
    if e.link.None? || e.payment.None? then Raised
    else if !ReferenceExists(s, e.link.value) then Done(s, Ignored(UncorrelatedPaymentLink), false)
    else if e.createdAt.None? then Raised
    else ResolveAt(s, e.link.value.caseId, e.payment.value, e.createdAt.value)
  }

  function Handle(s: Store, e: Envelope, customerKnown: bool): Handled {
    match e.kind
    case PaymentFailedEvent => HandlePaymentFailed(s, e, customerKnown)
    case PaymentCapturedEvent => HandlePaymentCaptured(s, e, customerKnown)
    case SubscriptionPendingEvent => HandleSubscriptionPending(s, e)
    case SubscriptionChargedEvent => HandleSubscriptionCharged(s, e)
    case SubscriptionHaltedEvent => HandleSubscriptionHalted(s, e)
    case PaymentLinkPaidEvent => HandleLinkPaid(s, e)
    case OtherEvent => Done(s, Ignored(UnsupportedEvent), false)
  }

  // ------------------------------------------------------------ ingestion

  predicate IsComplete(s: Store, eventId: string) {
    eventId in s.webhooks && s.webhooks[eventId].Complete?
  }

  function Claimed(s: Store, eventId: string): Store {
    s.(webhooks := s.webhooks[eventId := Received])
  }

  /** The store with one event marked as handled. */
  function MarkedAs(s: Store, eventId: string, disposition: Disposition): Store {
    s.(webhooks := s.webhooks[eventId := Complete(disposition)])
  }

  /** What is committed after one delivery attempt. */
  function Deliver(s: Store, d: Delivery): Store {
    if IsComplete(s, d.eventId) then s
    else
      match Handle(Claimed(s, d.eventId), d.envelope, d.customerKnown)
      case Raised => s
      case Done(t, disposition, committed) =>
        if !d.crash then MarkedAs(t, d.eventId, disposition)
        else if committed then t
        else s
  }

  // ------------------------------------------------------------ runs

  /** A service call on one case, or a delivery; verified payments arrive by delivery only. */
  datatype Op = OnCase(id: nat, step: CaseStep) | Delivered(delivery: Delivery)

  function Step(s: Store, policy: Policy.MerchantPolicyRow, op: Op): Store {
    match op
    case OnCase(id, step) =>
      if id >= |s.cases| || step.VerifiedPaymentStep? then s
      else s.(cases := s.cases[id := Next(s.cases[id], policy, step)])
    case Delivered(d) => Deliver(s, d)
  }

  function RunStore(s: Store, policy: Policy.MerchantPolicyRow, ops: seq<Op>): Store {
    if ops == [] then s else Step(RunStore(s, policy, ops[..|ops| - 1]), policy, ops[|ops| - 1])
  }
}
