/** What holds of all rows together after any run of deliveries, service calls and crashes. */
module StoreTheorems {
  import opened Domain
  import opened Cases
  import opened Protocol
  import opened CaseInvariants
  import opened CaseRuns
  import opened EventOrdering
  import opened Store
  import Policy

  // ------------------------------------------------------------ what one operation does to the cases

  datatype Change = Same | Opened(opening: Opening) | Advanced(id: nat, step: CaseStep)

  /** A new case has a fresh key, a positive amount, and a key that tells its origin. */
  ghost predicate OpeningOk(cases: seq<CaseState>, o: Opening) {
    && o.amount > 0
    && (forall i :: 0 <= i < |cases| ==> cases[i].sourceKey != o.sourceKey)
    && KeyOk(o.sourceKey, o.transactionId)
  }

  ghost predicate KeyOk(key: string, transactionId: Option<string>) {
    match transactionId
    case Some(id) => key == PaymentKey(id)
    case None => forall id :: key != PaymentKey(id)
  }

  ghost predicate Changes(before: seq<CaseState>, after: seq<CaseState>, policy: Policy.MerchantPolicyRow,
                          change: Change) {
    match change
    case Same => after == before
    case Opened(o) =>
      OpeningOk(before, o) && after == before + [NewCase(o.sourceKey, o.transactionId, o.amount, o.currency)]
    case Advanced(id, step) => id < |before| && after == before[id := Next(before[id], policy, step)]
  }

  /** Payment keys and subscription keys never meet, and a payment key names its payment. */
  lemma KeysNeverCollide(paymentId: string, otherPayment: string, subscriptionId: string, cycleKey: string)
    ensures PaymentKey(paymentId) != SubscriptionKey(subscriptionId, cycleKey)
    ensures PaymentKey(paymentId) == PaymentKey(otherPayment) ==> paymentId == otherPayment
  {
    assert PaymentKey(paymentId)[9] == 'p';
    assert SubscriptionKey(subscriptionId, cycleKey)[9] == 's';
    assert PaymentKey(paymentId)[|PAYMENT_KEY_PREFIX|..] == paymentId;
    assert PaymentKey(otherPayment)[|PAYMENT_KEY_PREFIX|..] == otherPayment;
  }

  ghost predicate TablesOk(s: Store) {
    && (forall id :: id in s.transactions ==> s.transactions[id].amount > 0)
    && (forall id :: id in s.subscriptions ==> s.subscriptions[id].amount > 0)
  }

  lemma OpenCaseChanges(s: Store, policy: Policy.MerchantPolicyRow, o: Opening) returns (change: Change)
    requires o.amount > 0 && KeyOk(o.sourceKey, o.transactionId)
    ensures Changes(s.cases, OpenCase(s, o.sourceKey, o.transactionId, o.amount, o.currency).cases, policy, change)
  {
    change := if CaseByKey(s.cases, o.sourceKey).Some? then Same else Opened(o);
  }

  lemma ResolveChanges(s: Store, policy: Policy.MerchantPolicyRow, id: nat, payment: PaymentEntity, at: int)
    requires id < |s.cases| && ResolveAt(s, id, payment, at).Done?
    ensures Changes(s.cases, ResolveAt(s, id, payment, at).store.cases, policy,
                    Advanced(id, VerifiedPaymentStep(payment.amount, payment.currency, payment.id, at)))
  {
  }

  lemma FailedChanges(s: Store, policy: Policy.MerchantPolicyRow, e: Envelope, known: bool) returns (change: Change)
    requires TablesOk(s) && HandlePaymentFailed(s, e, known).Done?
    ensures var t := HandlePaymentFailed(s, e, known).store;
            Changes(s.cases, t.cases, policy, change) && TablesOk(t)
  {
    change := Same;
    var payment := e.payment.value;
    var up := UpsertTransaction(s, payment, FAILED, e.createdAt.value, known);
    if up.Upserted? && up.applied {
      var row := up.store.transactions[payment.id];
      var o := Opening(PaymentKey(payment.id), Some(payment.id), row.amount, row.currency);
      change := OpenCaseChanges(up.store, policy, o);
    }
  }

  lemma CapturedChanges(s: Store, policy: Policy.MerchantPolicyRow, e: Envelope, known: bool) returns (change: Change)
    requires TablesOk(s) && HandlePaymentCaptured(s, e, known).Done?
    ensures var t := HandlePaymentCaptured(s, e, known).store;
            Changes(s.cases, t.cases, policy, change) && TablesOk(t)
  {
    change := Same;
    var payment := e.payment.value;
    var up := UpsertTransaction(s, payment, CAPTURED, e.createdAt.value, known);
    if up.Upserted? && CaseByTransaction(up.store.cases, payment.id).Some? {
      var id := CaseByTransaction(up.store.cases, payment.id).value;
      ResolveChanges(up.store, policy, id, payment, e.createdAt.value);
      change := Advanced(id, VerifiedPaymentStep(payment.amount, payment.currency, payment.id, e.createdAt.value));
    }
  }

  lemma PendingChanges(s: Store, policy: Policy.MerchantPolicyRow, e: Envelope) returns (change: Change)
    requires TablesOk(s) && HandleSubscriptionPending(s, e).Done?
    ensures var t := HandleSubscriptionPending(s, e).store;
            Changes(s.cases, t.cases, policy, change) && TablesOk(t)
  {
    change := Same;
    var subscription := e.subscription.value;
    var up := UpsertSubscription(s, subscription.id, PendingKind, e.createdAt.value);
    if up.Upserted? && up.applied {
      var row := up.store.subscriptions[subscription.id];
      var key := SubscriptionKey(subscription.id, subscription.cycleKey);
      forall id
        ensures key != PaymentKey(id)
      {
        KeysNeverCollide(id, id, subscription.id, subscription.cycleKey);
      }
      change := OpenCaseChanges(up.store, policy, Opening(key, None, row.amount, row.currency));
    }
  }

  lemma ChargedChanges(s: Store, policy: Policy.MerchantPolicyRow, e: Envelope) returns (change: Change)
    requires TablesOk(s) && HandleSubscriptionCharged(s, e).Done?
    ensures var t := HandleSubscriptionCharged(s, e).store;
            Changes(s.cases, t.cases, policy, change) && TablesOk(t)
  {
    change := Same;
    var subscription, payment := e.subscription.value, e.payment.value;
    if payment.status == CAPTURED {
      var up := UpsertSubscription(s, subscription.id, ChargedKind, e.createdAt.value);
      if up.Upserted? && CaseByKey(up.store.cases, SubscriptionKey(subscription.id, subscription.cycleKey)).Some? {
        var id := CaseByKey(up.store.cases, SubscriptionKey(subscription.id, subscription.cycleKey)).value;
        ResolveChanges(up.store, policy, id, payment, e.createdAt.value);
        change := Advanced(id, VerifiedPaymentStep(payment.amount, payment.currency, payment.id, e.createdAt.value));
      }
    }
  }

  lemma LinkPaidChanges(s: Store, policy: Policy.MerchantPolicyRow, e: Envelope) returns (change: Change)
    requires TablesOk(s) && HandleLinkPaid(s, e).Done?
    ensures var t := HandleLinkPaid(s, e).store;
            Changes(s.cases, t.cases, policy, change) && TablesOk(t)
  {
    change := Same;
    if ReferenceExists(s, e.link.value) {
      ResolveChanges(s, policy, e.link.value.caseId, e.payment.value, e.createdAt.value);
      change := Advanced(e.link.value.caseId, VerifiedPaymentStep(e.payment.value.amount, e.payment.value.currency,
                                                                  e.payment.value.id, e.createdAt.value));
    }
  }

  lemma HandleChanges(s: Store, policy: Policy.MerchantPolicyRow, e: Envelope, known: bool) returns (change: Change)
    requires TablesOk(s) && Handle(s, e, known).Done?
    ensures var t := Handle(s, e, known).store;
            Changes(s.cases, t.cases, policy, change) && TablesOk(t)
  {
    match e.kind
    case PaymentFailedEvent => change := FailedChanges(s, policy, e, known);
    case PaymentCapturedEvent => change := CapturedChanges(s, policy, e, known);
    case SubscriptionPendingEvent => change := PendingChanges(s, policy, e);
    case SubscriptionChargedEvent => change := ChargedChanges(s, policy, e);
    case SubscriptionHaltedEvent => change := Same;
    case PaymentLinkPaidEvent => change := LinkPaidChanges(s, policy, e);
    case OtherEvent => change := Same;
  }

  /** Every operation leaves the cases alone, opens one fresh case, or advances one case by one protocol step. */
  lemma StepChanges(s: Store, policy: Policy.MerchantPolicyRow, op: Op) returns (change: Change)
    requires TablesOk(s)
    ensures Changes(s.cases, Step(s, policy, op).cases, policy, change) && TablesOk(Step(s, policy, op))
  {
    change := Same;
    match op
    case OnCase(id, step) =>
      if id < |s.cases| && !step.VerifiedPaymentStep? {
        change := Advanced(id, step);
      }
    case Delivered(d) =>
      var claimed := Claimed(s, d.eventId);
      if !IsComplete(s, d.eventId) && Handle(claimed, d.envelope, d.customerKnown).Done? {
        var handled := HandleChanges(claimed, policy, d.envelope, d.customerKnown);
        if !d.crash || Handle(claimed, d.envelope, d.customerKnown).committed {
          change := handled;
        }
      }
  }

  // ------------------------------------------------------------ the store invariant

  /** The case is one that its own opening and some protocol steps lead to. */
  ghost predicate Lives(c: CaseState, policy: Policy.MerchantPolicyRow) {
    exists o: Opening, steps: seq<CaseStep> :: o.amount > 0 && c == Reached(o, policy, steps)
  }

  ghost predicate StoreInv(s: Store, policy: Policy.MerchantPolicyRow) {
    && (forall i :: 0 <= i < |s.cases| ==> Lives(s.cases[i], policy))
    && KeysOk(s.cases)
    && TablesOk(s)
  }

  /** Source keys are unique and tell which payment, if any, a case is about. */
  ghost predicate KeysOk(cases: seq<CaseState>) {
    && (forall i :: 0 <= i < |cases| ==> KeyOk(cases[i].sourceKey, cases[i].transactionId))
    && (forall i, j :: 0 <= i < j < |cases| ==> cases[i].sourceKey != cases[j].sourceKey)
  }

  lemma OpenedLives(o: Opening, policy: Policy.MerchantPolicyRow)
    requires o.amount > 0
    ensures Lives(NewCase(o.sourceKey, o.transactionId, o.amount, o.currency), policy)
  {
    assert Reached(o, policy, []) == NewCase(o.sourceKey, o.transactionId, o.amount, o.currency);
  }

  lemma NextLives(c: CaseState, policy: Policy.MerchantPolicyRow, step: CaseStep)
    requires Lives(c, policy)
    ensures Lives(Next(c, policy, step), policy)
  {
    var o: Opening, steps: seq<CaseStep> :| o.amount > 0 && c == Reached(o, policy, steps);
    assert (steps + [step])[..|steps + [step]| - 1] == steps;
    assert Reached(o, policy, steps + [step]) == Next(c, policy, step);
  }

  lemma ChangeKeeps(s: Store, t: Store, policy: Policy.MerchantPolicyRow, change: Change)
    requires StoreInv(s, policy) && TablesOk(t) && Changes(s.cases, t.cases, policy, change)
    ensures StoreInv(t, policy)
  {
    match change
    case Same =>
    case Opened(o) => OpenedLives(o, policy);
    case Advanced(id, step) =>
      NextLives(s.cases[id], policy, step);
      NextExtends(s.cases[id], policy, step);
  }

  /** In every run each case is a case of the protocol, opened under a key of its own. */
  lemma {:induction false} RunKeepsStore(s: Store, policy: Policy.MerchantPolicyRow, ops: seq<Op>)
    requires StoreInv(s, policy)
    ensures StoreInv(RunStore(s, policy, ops), policy)
  {
    if ops != [] {
      var before := RunStore(s, policy, ops[..|ops| - 1]);
      RunKeepsStore(s, policy, ops[..|ops| - 1]);
      var change := StepChanges(before, policy, ops[|ops| - 1]);
      ChangeKeeps(before, RunStore(s, policy, ops), policy, change);
    }
  }

  lemma DeliveryKeepsStore(s: Store, policy: Policy.MerchantPolicyRow, d: Delivery)
    requires StoreInv(s, policy)
    ensures StoreInv(Deliver(s, d), policy)
  {
    var change := StepChanges(s, policy, Delivered(d));
    ChangeKeeps(s, Deliver(s, d), policy, change);
  }

  lemma LivingInv(c: CaseState, policy: Policy.MerchantPolicyRow)
    requires Lives(c, policy)
    ensures Inv(c, policy)
  {
    var o: Opening, steps: seq<CaseStep> :| o.amount > 0 && c == Reached(o, policy, steps);
    ReachedInv(o, policy, steps);
  }

  /** A transaction has at most one case, so looking up its newest case finds the only one. */
  lemma OneCasePerTransaction(cases: seq<CaseState>, i: nat, transactionId: string)
    requires KeysOk(cases) && i < |cases| && cases[i].transactionId == Some(transactionId)
    ensures CaseByTransaction(cases, transactionId) == Some(i)
    ensures CaseByKey(cases, PaymentKey(transactionId)) == Some(i)
  {
    OneCasePerKey(cases, i);
    var found := CaseByTransaction(cases, transactionId).value;
    assert cases[found].sourceKey == cases[i].sourceKey;
  }

  lemma OneCasePerKey(cases: seq<CaseState>, i: nat)
    requires KeysOk(cases) && i < |cases|
    ensures CaseByKey(cases, cases[i].sourceKey) == Some(i)
  {
    var found := CaseByKey(cases, cases[i].sourceKey).value;
    assert cases[found].sourceKey == cases[i].sourceKey;
  }

  // ------------------------------------------------------------ exactly-once recovery

  /**
   * After any deliveries, with duplicates and crashes, a case has an outcome iff
   * it is RECOVERED, worth its amount at risk; and no continuation changes it.
   */
  lemma RecoveredExactlyOnce(s: Store, policy: Policy.MerchantPolicyRow, ops: seq<Op>, more: seq<Op>, id: nat)
    requires StoreInv(s, policy)
    requires id < |RunStore(s, policy, ops).cases|
    ensures var c := RunStore(s, policy, ops).cases[id];
            && (c.outcome.Some? <==> c.status == Recovered)
            && (c.outcome.Some? ==> c.outcome.value.amount == c.amountAtRisk)
            && var t := RunStore(RunStore(s, policy, ops), policy, more);
               && id < |t.cases|
               && (c.outcome.Some? ==> t.cases[id].status == Recovered && t.cases[id].outcome == c.outcome)
  {
    RunKeepsStore(s, policy, ops);
    var t := RunStore(s, policy, ops);
    LivingInv(t.cases[id], policy);
    CasesOnlyGrow(t, policy, more, id);
    RunKeepsStore(t, policy, more);
    LivingInv(RunStore(t, policy, more).cases[id], policy);
  }

  lemma {:induction false} CasesOnlyGrow(s: Store, policy: Policy.MerchantPolicyRow, ops: seq<Op>, id: nat)
    requires StoreInv(s, policy) && id < |s.cases|
    ensures var t := RunStore(s, policy, ops);
            && id < |t.cases| && t.cases[id].amountAtRisk == s.cases[id].amountAtRisk
            && t.cases[id].sourceKey == s.cases[id].sourceKey
            && (s.cases[id].outcome.Some? ==> t.cases[id].outcome == s.cases[id].outcome)
  {
    if ops != [] {
      var before := RunStore(s, policy, ops[..|ops| - 1]);
      CasesOnlyGrow(s, policy, ops[..|ops| - 1], id);
      RunKeepsStore(s, policy, ops[..|ops| - 1]);
      var change := StepChanges(before, policy, ops[|ops| - 1]);
      if change.Advanced? {
        NextExtends(before.cases[change.id], policy, change.step);
      }
    }
  }
}
