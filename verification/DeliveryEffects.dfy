/** What each kind of webhook does to every row of the store, when it raises, and how its event is marked. */
module DeliveryEffects {
  import opened Domain
  import opened Cases
  import opened Protocol
  import opened CaseInvariants
  import opened EventOrdering
  import opened Store
  import opened StoreTheorems
  import opened Deliveries
  import opened PaymentRows
  import opened Redeliveries
  import opened VerifiedPayments
  import opened CaseOpenings
  import Policy

  // ------------------------------------------------------------ lookups, by fields

  /** The payment has a row, or a customer is known for it. */
  predicate Correlated(s: Store, e: Envelope, known: bool) {
    e.payment.Some? && (e.payment.value.id in s.transactions || known)
  }

  predicate KnownSubscription(s: Store, e: Envelope) {
    e.subscription.Some? && e.subscription.value.id in s.subscriptions
  }

  predicate IsLink(action: ActionType) {
    action == CreatePaymentLink || action == RequestAlternatePaymentMethod
  }

  /** The reference names a link row of an existing case. */
  predicate NamesLink(cases: seq<CaseState>, e: Envelope) {
    && e.link.Some? && e.link.value.ReferenceTo?
    && e.link.value.caseId < |cases| && e.link.value.index < |cases[e.link.value.caseId].actions|
    && IsLink(cases[e.link.value.caseId].actions[e.link.value.index].action)
  }

  /** The case a verified payment is about, by the fields of the case. */
  predicate IsAbout(cases: seq<CaseState>, e: Envelope, id: nat)
    requires id < |cases|
  {
    match e.kind
    case PaymentCapturedEvent => e.payment.Some? && cases[id].transactionId == Some(e.payment.value.id)
    case SubscriptionChargedEvent =>
      e.subscription.Some?
      && cases[id].sourceKey
         == "razorpay:subscription_pending:" + e.subscription.value.id + ":" + e.subscription.value.cycleKey
    case PaymentLinkPaidEvent => NamesLink(cases, e) && e.link.value.caseId == id
    case _ => false
  }

  ghost predicate AboutNone(cases: seq<CaseState>, e: Envelope) {
    forall id :: 0 <= id < |cases| ==> !IsAbout(cases, e, id)
  }

  // ------------------------------------------------------------ when a delivery raises

  /** The payload lacks what its handler needs, or reports an amount its row may not hold. */
  predicate Unusable(s: Store, e: Envelope, known: bool) {
    match e.kind
    case PaymentFailedEvent =>
      e.payment.None? || e.createdAt.None?
      || (FailureFor(s, e, known, e.payment.value.id) && e.payment.value.amount <= 0)
    case PaymentCapturedEvent =>
      e.payment.None? || e.createdAt.None? || (Correlated(s, e, known) && e.payment.value.amount <= 0)
    case SubscriptionPendingEvent => e.subscription.None? || e.createdAt.None?
    case SubscriptionHaltedEvent => e.subscription.None? || e.createdAt.None?
    case SubscriptionChargedEvent =>
      e.subscription.None? || e.payment.None? || (e.payment.value.status == "captured" && e.createdAt.None?)
    case PaymentLinkPaidEvent => e.link.None? || e.payment.None? || (NamesLink(s.cases, e) && e.createdAt.None?)
    case OtherEvent => false
  }

  lemma ResolvingNeverRaises(s: Store, policy: Policy.MerchantPolicyRow, id: nat, payment: PaymentEntity, at: int)
    requires id < |s.cases| && Inv(s.cases[id], policy)
    ensures ResolveAt(s, id, payment, at).Done?
  {
    MoneyDecides(s.cases[id], policy, payment.amount, payment.currency, payment.id, at);
  }

  lemma CaptureRaises(s: Store, policy: Policy.MerchantPolicyRow, e: Envelope, known: bool)
    requires CasesInv(s, policy) && e.kind == PaymentCapturedEvent
    ensures HandlePaymentCaptured(s, e, known).Raised? <==> Unusable(s, e, known)
  {
    if e.payment.Some? && e.createdAt.Some? {
      var up := UpsertTransaction(s, e.payment.value, CAPTURED, e.createdAt.value, known);
      if up.Upserted? && CaseByTransaction(up.store.cases, e.payment.value.id).Some? {
        ResolvingNeverRaises(up.store, policy, CaseByTransaction(up.store.cases, e.payment.value.id).value,
                             e.payment.value, e.createdAt.value);
      }
    }
  }

  lemma ChargeRaises(s: Store, policy: Policy.MerchantPolicyRow, e: Envelope, known: bool)
    requires CasesInv(s, policy) && e.kind == SubscriptionChargedEvent
    ensures HandleSubscriptionCharged(s, e).Raised? <==> Unusable(s, e, known)
  {
    if e.subscription.Some? && e.payment.Some? && e.createdAt.Some? {
      var subscription := e.subscription.value;
      var up := UpsertSubscription(s, subscription.id, ChargedKind, e.createdAt.value);
      if up.Upserted? && CaseByKey(up.store.cases, SubscriptionKey(subscription.id, subscription.cycleKey)).Some? {
        ResolvingNeverRaises(up.store, policy,
                             CaseByKey(up.store.cases, SubscriptionKey(subscription.id, subscription.cycleKey)).value,
                             e.payment.value, e.createdAt.value);
      }
    }
  }

  lemma PaidLinkRaises(s: Store, policy: Policy.MerchantPolicyRow, e: Envelope, known: bool)
    requires CasesInv(s, policy) && e.kind == PaymentLinkPaidEvent
    ensures HandleLinkPaid(s, e).Raised? <==> Unusable(s, e, known)
  {
    if e.payment.Some? && e.createdAt.Some? && NamesLink(s.cases, e) {
      ResolvingNeverRaises(s, policy, e.link.value.caseId, e.payment.value, e.createdAt.value);
    }
  }

  /** In a store that runs can reach, a delivery raises exactly when its payload is unusable. */
  lemma RaisesExactly(s: Store, policy: Policy.MerchantPolicyRow, e: Envelope, known: bool)
    requires StoreInv(s, policy)
    ensures Handle(s, e, known).Raised? <==> Unusable(s, e, known)
  {
    StoreCasesInv(s, policy);
    match e.kind
    case PaymentCapturedEvent => CaptureRaises(s, policy, e, known);
    case SubscriptionChargedEvent => ChargeRaises(s, policy, e, known);
    case PaymentLinkPaidEvent => PaidLinkRaises(s, policy, e, known);
    case _ =>
  }

  // ------------------------------------------------------------ what a verified payment does to the cases

  /** What the payment makes of the case it is about. */
  ghost predicate Settles(c: CaseState, d: CaseState, payment: PaymentEntity, at: int) {
    if PaysInFull(c, payment.amount, payment.currency) && !IsTerminal(c.status)
    then PaidOff(c, d, payment.amount, payment.id, at)
    else if PaysInFull(c, payment.amount, payment.currency) && c.status != Recovered
    then d == c.(audits := c.audits + [ReconciliationRequired(c.status)])
    else d == c
  }

  /** Only the case the payment is about changes. */
  ghost predicate SettlesOnly(s: Store, t: Store, e: Envelope)
    requires e.payment.Some? && e.createdAt.Some?
  {
    && |t.cases| == |s.cases|
    && forall id :: 0 <= id < |s.cases| ==>
         if IsAbout(s.cases, e, id) then Settles(s.cases[id], t.cases[id], e.payment.value, e.createdAt.value)
         else t.cases[id] == s.cases[id]
  }

  lemma ResolvedSettles(s: Store, policy: Policy.MerchantPolicyRow, id: nat, payment: PaymentEntity, at: int)
    requires id < |s.cases| && Inv(s.cases[id], policy)
    ensures var h := ResolveAt(s, id, payment, at);
            && h.Done? && |h.store.cases| == |s.cases| && h.store == s.(cases := h.store.cases)
            && Settles(s.cases[id], h.store.cases[id], payment, at)
            && forall other :: 0 <= other < |s.cases| && other != id ==> h.store.cases[other] == s.cases[other]
  {
    MoneyDecides(s.cases[id], policy, payment.amount, payment.currency, payment.id, at);
  }

  /** A capture writes the payment's row, whatever it held, and settles the payment's case. */
  lemma CaptureEffect(s: Store, policy: Policy.MerchantPolicyRow, e: Envelope, known: bool)
    requires CasesInv(s, policy) && KeysOk(s.cases) && e.kind == PaymentCapturedEvent
    requires HandlePaymentCaptured(s, e, known).Done? && Correlated(s, e, known)
    ensures var t := HandlePaymentCaptured(s, e, known).store;
            var row := Transaction(Record("captured", e.createdAt), e.payment.value.amount, e.payment.value.currency);
            && t == s.(cases := t.cases, transactions := s.transactions[e.payment.value.id := row])
            && SettlesOnly(s, t, e)
  {
    var payment, at := e.payment.value, e.createdAt.value;
    var row := Transaction(Record("captured", e.createdAt), payment.amount, payment.currency);
    var up := s.(transactions := s.transactions[payment.id := row]);
    assert UpsertTransaction(s, payment, CAPTURED, at, known) == Upserted(up, true);
    var found := CaseByTransaction(s.cases, payment.id);
    if found.Some? {
      ResolvedSettlesOnly(up, policy, e, found.value);
    }
  }

  lemma ResolvedSettlesOnly(s: Store, policy: Policy.MerchantPolicyRow, e: Envelope, id: nat)
    requires id < |s.cases| && Inv(s.cases[id], policy) && KeysOk(s.cases) && IsAbout(s.cases, e, id)
    requires e.payment.Some? && e.createdAt.Some?
    ensures var h := ResolveAt(s, id, e.payment.value, e.createdAt.value);
            h.Done? && h.store == s.(cases := h.store.cases) && SettlesOnly(s, h.store, e)
  {
    ResolvedSettles(s, policy, id, e.payment.value, e.createdAt.value);
    OnlyOneIsAbout(s.cases, e, id);
  }

  /** Two cases are never about the same payment. */
  lemma OnlyOneIsAbout(cases: seq<CaseState>, e: Envelope, id: nat)
    requires KeysOk(cases) && id < |cases| && IsAbout(cases, e, id)
    ensures forall other :: 0 <= other < |cases| && IsAbout(cases, e, other) ==> other == id
  {
  }

  /** A charge with a captured payment settles the cycle's case; the subscription row follows its own rule. */
  lemma ChargeEffect(s: Store, policy: Policy.MerchantPolicyRow, e: Envelope)
    requires CasesInv(s, policy) && KeysOk(s.cases) && e.kind == SubscriptionChargedEvent
    requires HandleSubscriptionCharged(s, e).Done? && KnownSubscription(s, e) && e.payment.Some?
    requires e.payment.value.status == "captured"
    ensures e.createdAt.Some?
    ensures var t := HandleSubscriptionCharged(s, e).store;
            var row := s.subscriptions[e.subscription.value.id];
            var newer := row.record.at.None? || row.record.at.value <= e.createdAt.value;
            && t == s.(cases := t.cases,
                       subscriptions := if newer
                                        then s.subscriptions[e.subscription.value.id :=
                                                             row.(record := Record("active", e.createdAt))]
                                        else s.subscriptions)
            && SettlesOnly(s, t, e)
  {
    var subscription, at := e.subscription.value, e.createdAt.value;
    ChargeWritesRow(s, subscription.id, at);
    var up := UpsertSubscription(s, subscription.id, ChargedKind, at).store;
    var found := CaseByKey(s.cases, SubscriptionKey(subscription.id, subscription.cycleKey));
    if found.Some? {
      ResolvedSettlesOnly(up, policy, e, found.value);
    }
  }

  lemma ChargeWritesRow(s: Store, id: string, at: int)
    requires id in s.subscriptions
    ensures var row := s.subscriptions[id];
            var newer := row.record.at.None? || row.record.at.value <= at;
            var up := UpsertSubscription(s, id, ChargedKind, at);
            && up.Upserted?
            && up.store == s.(subscriptions := if newer
                                               then s.subscriptions[id := row.(record := Record("active", Some(at)))]
                                               else s.subscriptions)
  {
    SameRowKept(s, id);
  }

  lemma SameRowKept(s: Store, id: string)
    requires id in s.subscriptions
    ensures s.subscriptions[id := s.subscriptions[id].(record := s.subscriptions[id].record)] == s.subscriptions
  {
    assert s.subscriptions[id].(record := s.subscriptions[id].record) == s.subscriptions[id];
  }

  /** A paid link settles the case of the row it refers to and writes no provider row. */
  lemma PaidLinkEffect(s: Store, policy: Policy.MerchantPolicyRow, e: Envelope)
    requires CasesInv(s, policy) && e.kind == PaymentLinkPaidEvent
    requires HandleLinkPaid(s, e).Done? && NamesLink(s.cases, e)
    ensures e.payment.Some? && e.createdAt.Some?
    ensures var t := HandleLinkPaid(s, e).store; t == s.(cases := t.cases) && SettlesOnly(s, t, e)
  {
    ResolvedSettles(s, policy, e.link.value.caseId, e.payment.value, e.createdAt.value);
  }

  /** A halted event touches nothing but the row of its subscription. */
  lemma HaltEffect(s: Store, e: Envelope)
    requires HandleSubscriptionHalted(s, e).Done?
    ensures e.subscription.Some? && e.createdAt.Some?
    ensures var t := HandleSubscriptionHalted(s, e).store;
            if !KnownSubscription(s, e) then t == s
            else
              var row := s.subscriptions[e.subscription.value.id];
              if row.record.at.None? || row.record.at.value <= e.createdAt.value
              then t == s.(subscriptions := s.subscriptions[e.subscription.value.id :=
                                                            row.(record := Record("halted", e.createdAt))])
              else t == s
  {
    if KnownSubscription(s, e) {
      SameRowKept(s, e.subscription.value.id);
    }
  }

  // ------------------------------------------------------------ how the event is marked

  ghost predicate MarksSettlement(cases: seq<CaseState>, e: Envelope, disposition: Disposition)
    requires e.payment.Some?
  {
    && (AboutNone(cases, e) ==> disposition == Processed)
    && forall id :: 0 <= id < |cases| && IsAbout(cases, e, id) ==>
         var c := cases[id];
         disposition == if c.status == Recovered then Processed
                        else if !PaysInFull(c, e.payment.value.amount, e.payment.value.currency)
                        then Ignored(MoneyMismatch)
                        else if IsTerminal(c.status) then Ignored(TerminalReconciliation)
                        else Processed
  }

  /** The disposition a handled event is marked with, by the fields of the payload and the rows it meets. */
  ghost predicate MarkedRight(s: Store, e: Envelope, known: bool, disposition: Disposition) {
    match e.kind
    case PaymentFailedEvent =>
      disposition == if !Correlated(s, e, known) then Ignored(InsufficientFinancialEvidence)
                     else if FailureFor(s, e, known, e.payment.value.id) then Processed
                     else Ignored(StaleWebhook)
    case PaymentCapturedEvent =>
      if !Correlated(s, e, known) then disposition == Ignored(InsufficientFinancialEvidence)
      else MarksSettlement(s.cases, e, disposition)
    case SubscriptionPendingEvent =>
      disposition == if !KnownSubscription(s, e) then Ignored(InsufficientFinancialEvidence)
                     else if PendingFor(s, e, e.subscription.value.id, e.subscription.value.cycleKey) then Processed
                     else Ignored(StaleWebhook)
    case SubscriptionHaltedEvent =>
      disposition == if !KnownSubscription(s, e) then Ignored(InsufficientFinancialEvidence) else Processed
    case SubscriptionChargedEvent =>
      if e.payment.None? || e.payment.value.status != "captured"
      then disposition == Ignored(InsufficientPaymentEvidence)
      else if !KnownSubscription(s, e) then disposition == Processed
      else MarksSettlement(s.cases, e, disposition)
    case PaymentLinkPaidEvent =>
      if !NamesLink(s.cases, e) then disposition == Ignored(UncorrelatedPaymentLink)
      else e.payment.Some? && MarksSettlement(s.cases, e, disposition)
    case OtherEvent => disposition == Ignored(UnsupportedEvent)
  }

  lemma ResolvedMarks(s: Store, policy: Policy.MerchantPolicyRow, e: Envelope, id: nat)
    requires id < |s.cases| && Inv(s.cases[id], policy) && KeysOk(s.cases) && IsAbout(s.cases, e, id)
    requires e.payment.Some? && e.createdAt.Some?
    ensures ResolveAt(s, id, e.payment.value, e.createdAt.value).Done?
    ensures MarksSettlement(s.cases, e, ResolveAt(s, id, e.payment.value, e.createdAt.value).disposition)
  {
    var payment, at := e.payment.value, e.createdAt.value;
    MoneyDecides(s.cases[id], policy, payment.amount, payment.currency, payment.id, at);
    OnlyOneIsAbout(s.cases, e, id);
  }

  lemma CaptureMarks(s: Store, policy: Policy.MerchantPolicyRow, e: Envelope, known: bool)
    requires CasesInv(s, policy) && KeysOk(s.cases) && e.kind == PaymentCapturedEvent
    requires HandlePaymentCaptured(s, e, known).Done?
    ensures MarkedRight(s, e, known, HandlePaymentCaptured(s, e, known).disposition)
  {
    if Correlated(s, e, known) {
      var up := UpsertTransaction(s, e.payment.value, CAPTURED, e.createdAt.value, known);
      var found := CaseByTransaction(up.store.cases, e.payment.value.id);
      if found.Some? {
        ResolvedMarks(up.store, policy, e, found.value);
      }
    }
  }

  lemma ChargeMarks(s: Store, policy: Policy.MerchantPolicyRow, e: Envelope, known: bool)
    requires CasesInv(s, policy) && KeysOk(s.cases) && e.kind == SubscriptionChargedEvent
    requires HandleSubscriptionCharged(s, e).Done?
    ensures MarkedRight(s, e, known, HandleSubscriptionCharged(s, e).disposition)
  {
    if e.payment.value.status == CAPTURED && KnownSubscription(s, e) {
      var subscription := e.subscription.value;
      var up := UpsertSubscription(s, subscription.id, ChargedKind, e.createdAt.value);
      var found := CaseByKey(up.store.cases, SubscriptionKey(subscription.id, subscription.cycleKey));
      if found.Some? {
        ResolvedMarks(up.store, policy, e, found.value);
      }
    }
  }

  lemma PaidLinkMarks(s: Store, policy: Policy.MerchantPolicyRow, e: Envelope, known: bool)
    requires CasesInv(s, policy) && KeysOk(s.cases) && e.kind == PaymentLinkPaidEvent && HandleLinkPaid(s, e).Done?
    ensures MarkedRight(s, e, known, HandleLinkPaid(s, e).disposition)
  {
    if NamesLink(s.cases, e) {
      ResolvedMarks(s, policy, e, e.link.value.caseId);
    }
  }

  /** Every handled event is marked by the table above. */
  lemma MarksExactly(s: Store, policy: Policy.MerchantPolicyRow, e: Envelope, known: bool)
    requires StoreInv(s, policy) && Handle(s, e, known).Done?
    ensures MarkedRight(s, e, known, Handle(s, e, known).disposition)
  {
    StoreCasesInv(s, policy);
    match e.kind
    case PaymentCapturedEvent => CaptureMarks(s, policy, e, known);
    case SubscriptionChargedEvent => ChargeMarks(s, policy, e, known);
    case PaymentLinkPaidEvent => PaidLinkMarks(s, policy, e, known);
    case _ => OthersMark(s, e, known);
  }

  lemma OthersMark(s: Store, e: Envelope, known: bool)
    requires Handle(s, e, known).Done?
    requires e.kind != PaymentCapturedEvent && e.kind != SubscriptionChargedEvent && e.kind != PaymentLinkPaidEvent
    ensures MarkedRight(s, e, known, Handle(s, e, known).disposition)
  {
  }

  /** A failure that its payment takes writes the payment's row; any other changes nothing. */
  lemma FailureEffect(s: Store, e: Envelope, known: bool)
    requires e.kind == PaymentFailedEvent && HandlePaymentFailed(s, e, known).Done?
    ensures e.payment.Some? && e.createdAt.Some?
    ensures var t := HandlePaymentFailed(s, e, known).store;
            var row := Transaction(Record("failed", e.createdAt), e.payment.value.amount, e.payment.value.currency);
            if FailureFor(s, e, known, e.payment.value.id)
            then t == s.(cases := t.cases, transactions := s.transactions[e.payment.value.id := row])
            else t == s
  {
  }

  /** A pending event that its subscription takes writes the subscription's row; any other changes nothing. */
  lemma PendingEffect(s: Store, e: Envelope)
    requires e.kind == SubscriptionPendingEvent && HandleSubscriptionPending(s, e).Done?
    ensures e.subscription.Some? && e.createdAt.Some?
    ensures var t, id := HandleSubscriptionPending(s, e).store, e.subscription.value.id;
            if PendingFor(s, e, id, e.subscription.value.cycleKey)
            then t == s.(cases := t.cases,
                         subscriptions := s.subscriptions[id :=
                                            s.subscriptions[id].(record := Record("pending", e.createdAt))])
            else t == s
  {
    if KnownSubscription(s, e) {
      SameRowKept(s, e.subscription.value.id);
    }
  }

  // ------------------------------------------------------------ one delivery as a whole

  /**
   * A delivery that is not cut short: nothing at all when its event was handled
   * before or its payload is unusable, and else exactly one event marked, as
   * the table says, together with what its handler wrote.
   */
  lemma DeliveryMarksOnce(s: Store, policy: Policy.MerchantPolicyRow, d: Delivery)
    requires StoreInv(s, policy) && !d.crash
    ensures var t := Deliver(s, d);
            if IsComplete(s, d.eventId) || Unusable(s, d.envelope, d.customerKnown) then t == s
            else && d.eventId in t.webhooks && t.webhooks[d.eventId].Complete?
                 && MarkedRight(s, d.envelope, d.customerKnown, t.webhooks[d.eventId].disposition)
                 && t.webhooks == s.webhooks[d.eventId := t.webhooks[d.eventId]]
  {
    if !IsComplete(s, d.eventId) {
      var claimed := Claimed(s, d.eventId);
      ClaimKeepsInv(s, policy, d.eventId);
      RaisesExactly(claimed, policy, d.envelope, d.customerKnown);
      if Handle(claimed, d.envelope, d.customerKnown).Done? {
        MarksExactly(claimed, policy, d.envelope, d.customerKnown);
        HandlersKeepWebhooks(claimed, d.envelope, d.customerKnown);
        SameRowsSameMark(s, claimed, d.envelope, d.customerKnown,
                         Handle(claimed, d.envelope, d.customerKnown).disposition);
        MarkOverClaim(s.webhooks, d.eventId, Complete(Handle(claimed, d.envelope, d.customerKnown).disposition));
      }
    }
  }

  lemma ClaimKeepsInv(s: Store, policy: Policy.MerchantPolicyRow, eventId: string)
    requires StoreInv(s, policy)
    ensures StoreInv(Claimed(s, eventId), policy)
  {
  }

  lemma SameRowsSameMark(s: Store, t: Store, e: Envelope, known: bool, disposition: Disposition)
    requires t == s.(webhooks := t.webhooks) && MarkedRight(t, e, known, disposition)
    ensures MarkedRight(s, e, known, disposition)
  {
  }

  lemma MarkOverClaim(webhooks: map<string, WebhookStatus>, eventId: string, mark: WebhookStatus)
    ensures webhooks[eventId := Received][eventId := mark] == webhooks[eventId := mark]
  {
  }
}
