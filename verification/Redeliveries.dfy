/** A delivery that dies after its inner commit, other operations, and then the provider's retry. */
module Redeliveries {
  import opened Domain
  import opened Cases
  import opened Protocol
  import opened CaseInvariants
  import opened CaseRuns
  import opened EventOrdering
  import opened Store
  import opened StoreTheorems
  import opened Deliveries
  import Policy

  /** The crash comes after a recovery was committed, so that the delivery leaves a trace. */
  predicate Survives(s: Store, d: Delivery) {
    && !IsComplete(s, d.eventId)
    && var r := Handle(Claimed(s, d.eventId), d.envelope, d.customerKnown);
       r.Done? && r.committed
  }

  function Crashed(s: Store, d: Delivery): Store {
    Deliver(s, d.(crash := true))
  }

  function Retried(s: Store, d: Delivery): Store {
    Deliver(s, d.(crash := false))
  }

  lemma CrashLeavesTrace(s: Store, d: Delivery)
    ensures !Survives(s, d) ==> Crashed(s, d) == s
    ensures Survives(s, d) ==>
              Crashed(s, d) == Handle(Claimed(s, d.eventId), d.envelope, d.customerKnown).store
  {
  }

  // ------------------------------------------------------------ what a recovered case is remembered by

  /** Everything the handler of this envelope looks up leads to the case with this outcome. */
  predicate Remembers(s: Store, e: Envelope, id: nat) {
    && id < |s.cases| && s.cases[id].outcome.Some? && e.payment.Some? && e.createdAt.Some?
    && match e.kind
       case PaymentCapturedEvent =>
         && e.payment.value.amount > 0 && e.payment.value.id in s.transactions
         && s.cases[id].transactionId == Some(e.payment.value.id)
       case SubscriptionChargedEvent =>
         && e.payment.value.status == CAPTURED && e.subscription.Some? && e.subscription.value.id in s.subscriptions
         && s.cases[id].sourceKey == SubscriptionKey(e.subscription.value.id, e.subscription.value.cycleKey)
       case PaymentLinkPaidEvent => e.link.Some? && ReferenceExists(s, e.link.value) && e.link.value.caseId == id
       case _ => false
  }

  ghost predicate Kept(c: CaseState, d: CaseState) {
    && d.sourceKey == c.sourceKey && d.transactionId == c.transactionId
    && d.amountAtRisk == c.amountAtRisk && d.currency == c.currency
    && (c.outcome.Some? ==> d.outcome == c.outcome)
    && |c.actions| <= |d.actions|
    && forall i :: 0 <= i < |c.actions| ==> d.actions[i].action == c.actions[i].action
  }

  /** Cases and provider rows are never removed, and cases keep what they are found by. */
  ghost predicate Grows(s: Store, t: Store) {
    && |s.cases| <= |t.cases| && (forall i :: 0 <= i < |s.cases| ==> Kept(s.cases[i], t.cases[i]))
    && (forall id :: id in s.transactions ==> id in t.transactions)
    && (forall id :: id in s.subscriptions ==> id in t.subscriptions)
  }

  lemma CasesKept(s: Store, t: Store, policy: Policy.MerchantPolicyRow, change: Change)
    requires Changes(s.cases, t.cases, policy, change)
    ensures |s.cases| <= |t.cases| && forall i :: 0 <= i < |s.cases| ==> Kept(s.cases[i], t.cases[i])
  {
    if change.Advanced? {
      NextExtends(s.cases[change.id], policy, change.step);
    }
  }

  ghost predicate RowsKept(s: Store, t: Store) {
    && (forall id :: id in s.transactions ==> id in t.transactions)
    && (forall id :: id in s.subscriptions ==> id in t.subscriptions)
  }

  lemma ResolveKeepsRows(s: Store, id: nat, payment: PaymentEntity, at: int)
    requires id < |s.cases| && ResolveAt(s, id, payment, at).Done?
    ensures var t := ResolveAt(s, id, payment, at).store;
            t.transactions == s.transactions && t.subscriptions == s.subscriptions
  {
  }

  lemma HandlersKeepRows(s: Store, e: Envelope, known: bool)
    requires Handle(s, e, known).Done?
    ensures RowsKept(s, Handle(s, e, known).store)
  {
    match e.kind
    case PaymentFailedEvent =>
    case PaymentCapturedEvent => CapturedKeepsRows(s, e, known);
    case SubscriptionPendingEvent =>
    case SubscriptionChargedEvent => ChargedKeepsRows(s, e);
    case SubscriptionHaltedEvent =>
    case PaymentLinkPaidEvent => LinkPaidKeepsRows(s, e);
    case OtherEvent =>
  }

  lemma CapturedKeepsRows(s: Store, e: Envelope, known: bool)
    requires HandlePaymentCaptured(s, e, known).Done?
    ensures RowsKept(s, HandlePaymentCaptured(s, e, known).store)
  {
    var payment := e.payment.value;
    var up := UpsertTransaction(s, payment, CAPTURED, e.createdAt.value, known);
    if up.Upserted? && CaseByTransaction(up.store.cases, payment.id).Some? {
      ResolveKeepsRows(up.store, CaseByTransaction(up.store.cases, payment.id).value, payment, e.createdAt.value);
    }
  }

  lemma ChargedKeepsRows(s: Store, e: Envelope)
    requires HandleSubscriptionCharged(s, e).Done?
    ensures RowsKept(s, HandleSubscriptionCharged(s, e).store)
  {
    if e.payment.value.status == CAPTURED {
      var subscription := e.subscription.value;
      var up := UpsertSubscription(s, subscription.id, ChargedKind, e.createdAt.value);
      if up.Upserted? {
        var found := CaseByKey(up.store.cases, SubscriptionKey(subscription.id, subscription.cycleKey));
        if found.Some? {
          ResolveKeepsRows(up.store, found.value, e.payment.value, e.createdAt.value);
        }
      }
    }
  }

  lemma LinkPaidKeepsRows(s: Store, e: Envelope)
    requires HandleLinkPaid(s, e).Done?
    ensures RowsKept(s, HandleLinkPaid(s, e).store)
  {
    if ReferenceExists(s, e.link.value) {
      ResolveKeepsRows(s, e.link.value.caseId, e.payment.value, e.createdAt.value);
    }
  }

  lemma StepGrows(s: Store, policy: Policy.MerchantPolicyRow, op: Op)
    requires TablesOk(s)
    ensures Grows(s, Step(s, policy, op))
  {
    var change := StepChanges(s, policy, op);
    CasesKept(s, Step(s, policy, op), policy, change);
    if op.Delivered? {
      var d := op.delivery;
      var claimed := Claimed(s, d.eventId);
      if !IsComplete(s, d.eventId) && Handle(claimed, d.envelope, d.customerKnown).Done? {
        HandlersKeepRows(claimed, d.envelope, d.customerKnown);
      }
    }
  }

  lemma {:induction false} RunGrows(s: Store, policy: Policy.MerchantPolicyRow, ops: seq<Op>)
    requires StoreInv(s, policy)
    ensures Grows(s, RunStore(s, policy, ops))
  {
    if ops != [] {
      var front := ops[..|ops| - 1];
      RunGrows(s, policy, front);
      RunKeepsStore(s, policy, front);
      StepGrows(RunStore(s, policy, front), policy, ops[|ops| - 1]);
    }
  }

  lemma RememberedForGood(s: Store, t: Store, e: Envelope, id: nat)
    requires Remembers(s, e, id) && Grows(s, t)
    ensures Remembers(t, e, id) && t.cases[id].outcome == s.cases[id].outcome
  {
    assert Kept(s.cases[id], t.cases[id]);
  }

  // ------------------------------------------------------------ the trace, and the retry that finds it

  function OutcomeOf(e: Envelope): Option<Outcome>
    requires e.payment.Some? && e.createdAt.Some?
  {
    Some(Outcome(e.payment.value.amount, e.payment.value.id, e.createdAt.value))
  }

  /** What a committed recovery leaves: one case, open before, with this payment as its outcome. */
  ghost predicate Recovers(s: Store, t: Store, e: Envelope, id: nat) {
    && id < |s.cases| && !IsTerminal(s.cases[id].status)
    && Remembers(t, e, id) && t.cases[id].status == Recovered && t.cases[id].outcome == OutcomeOf(e)
  }

  lemma ResolveRecovers(s: Store, policy: Policy.MerchantPolicyRow, id: nat, payment: PaymentEntity, at: int)
    requires id < |s.cases| && Inv(s.cases[id], policy)
    requires ResolveAt(s, id, payment, at).Done? && ResolveAt(s, id, payment, at).committed
    ensures var t := ResolveAt(s, id, payment, at).store;
            && !IsTerminal(s.cases[id].status) && |t.cases| == |s.cases| && t.cases[id].status == Recovered
            && t.cases[id].outcome == Some(Outcome(payment.amount, payment.id, at))
            && t.cases[id].sourceKey == s.cases[id].sourceKey
            && t.cases[id].transactionId == s.cases[id].transactionId
            && t.transactions == s.transactions && t.subscriptions == s.subscriptions
  {
    VerifiedPaymentRecoversExactly(s.cases[id], policy, payment.amount, payment.currency, payment.id, at);
    NextExtends(s.cases[id], policy, VerifiedPaymentStep(payment.amount, payment.currency, payment.id, at));
  }

  ghost predicate CasesInv(s: Store, policy: Policy.MerchantPolicyRow) {
    forall i :: 0 <= i < |s.cases| ==> Inv(s.cases[i], policy)
  }

  lemma CaptureRecovers(s: Store, policy: Policy.MerchantPolicyRow, e: Envelope, known: bool) returns (id: nat)
    requires CasesInv(s, policy) && e.kind == PaymentCapturedEvent
    requires HandlePaymentCaptured(s, e, known).Done? && HandlePaymentCaptured(s, e, known).committed
    ensures Recovers(s, HandlePaymentCaptured(s, e, known).store, e, id)
  {
    var up := UpsertTransaction(s, e.payment.value, CAPTURED, e.createdAt.value, known);
    id := CaseByTransaction(up.store.cases, e.payment.value.id).value;
    ResolveRecovers(up.store, policy, id, e.payment.value, e.createdAt.value);
  }

  lemma ChargeRecovers(s: Store, policy: Policy.MerchantPolicyRow, e: Envelope) returns (id: nat)
    requires CasesInv(s, policy) && e.kind == SubscriptionChargedEvent
    requires HandleSubscriptionCharged(s, e).Done? && HandleSubscriptionCharged(s, e).committed
    ensures Recovers(s, HandleSubscriptionCharged(s, e).store, e, id)
  {
    var subscription := e.subscription.value;
    var up := UpsertSubscription(s, subscription.id, ChargedKind, e.createdAt.value);
    id := CaseByKey(up.store.cases, SubscriptionKey(subscription.id, subscription.cycleKey)).value;
    ResolveRecovers(up.store, policy, id, e.payment.value, e.createdAt.value);
  }

  lemma PaidLinkRecovers(s: Store, policy: Policy.MerchantPolicyRow, e: Envelope) returns (id: nat)
    requires CasesInv(s, policy) && e.kind == PaymentLinkPaidEvent
    requires HandleLinkPaid(s, e).Done? && HandleLinkPaid(s, e).committed
    ensures Recovers(s, HandleLinkPaid(s, e).store, e, id)
  {
    id := e.link.value.caseId;
    ResolveRecovers(s, policy, id, e.payment.value, e.createdAt.value);
    ReferenceKept(s, policy, e.link.value, e.payment.value, e.createdAt.value);
  }

  lemma ReferenceKept(s: Store, policy: Policy.MerchantPolicyRow, link: LinkReference, payment: PaymentEntity, at: int)
    requires ReferenceExists(s, link) && ResolveAt(s, link.caseId, payment, at).Done?
    ensures ReferenceExists(ResolveAt(s, link.caseId, payment, at).store, link)
  {
    NextExtends(s.cases[link.caseId], policy, VerifiedPaymentStep(payment.amount, payment.currency, payment.id, at));
  }

  lemma TraceIsRecovery(s: Store, policy: Policy.MerchantPolicyRow, d: Delivery) returns (id: nat)
    requires StoreInv(s, policy) && Survives(s, d)
    ensures Recovers(s, Crashed(s, d), d.envelope, id)
  {
    var claimed := Claimed(s, d.eventId);
    CrashLeavesTrace(s, d);
    forall i | 0 <= i < |s.cases|
      ensures Inv(s.cases[i], policy)
    {
      LivingInv(s.cases[i], policy);
    }
    match d.envelope.kind
    case PaymentCapturedEvent => id := CaptureRecovers(claimed, policy, d.envelope, d.customerKnown);
    case SubscriptionChargedEvent => id := ChargeRecovers(claimed, policy, d.envelope);
    case PaymentLinkPaidEvent => id := PaidLinkRecovers(claimed, policy, d.envelope);
  }

  /** The stores agree but for the provider rows of this envelope's own payment and subscription. */
  ghost predicate AgreeElsewhere(a: Store, b: Store, e: Envelope) {
    && a.cases == b.cases && a.webhooks == b.webhooks
    && a.transactions.Keys == b.transactions.Keys && a.subscriptions.Keys == b.subscriptions.Keys
    && (forall id :: id in a.transactions && (e.payment.None? || e.payment.value.id != id) ==>
          a.transactions[id] == b.transactions[id])
    && (forall id :: id in a.subscriptions && (e.subscription.None? || e.subscription.value.id != id) ==>
          a.subscriptions[id] == b.subscriptions[id])
  }

  lemma RetryOfCapture(t: Store, e: Envelope, known: bool, id: nat)
    requires e.kind == PaymentCapturedEvent && KeysOk(t.cases) && Remembers(t, e, id) && t.cases[id].status == Recovered
    ensures var r := HandlePaymentCaptured(t, e, known);
            r.Done? && r.disposition == Processed && AgreeElsewhere(r.store, t, e)
  {
    OneCasePerTransaction(t.cases, id, e.payment.value.id);
    assert t.cases[id := t.cases[id]] == t.cases;
  }

  lemma RetryOfCharge(t: Store, e: Envelope, id: nat)
    requires e.kind == SubscriptionChargedEvent && KeysOk(t.cases) && Remembers(t, e, id)
    requires t.cases[id].status == Recovered
    ensures var r := HandleSubscriptionCharged(t, e);
            r.Done? && r.disposition == Processed && AgreeElsewhere(r.store, t, e)
  {
    OneCasePerKey(t.cases, id);
    assert t.cases[id := t.cases[id]] == t.cases;
  }

  lemma RetryOfPaidLink(t: Store, e: Envelope, id: nat)
    requires e.kind == PaymentLinkPaidEvent && Remembers(t, e, id) && t.cases[id].status == Recovered
    ensures HandleLinkPaid(t, e) == Done(t, Processed, false)
  {
    assert t.cases[id := t.cases[id]] == t.cases;
  }

  lemma RetryIsQuiet(t: Store, e: Envelope, known: bool, id: nat)
    requires KeysOk(t.cases) && Remembers(t, e, id) && t.cases[id].status == Recovered
    ensures var r := Handle(t, e, known); r.Done? && r.disposition == Processed && AgreeElsewhere(r.store, t, e)
  {
    match e.kind
    case PaymentCapturedEvent => RetryOfCapture(t, e, known, id);
    case SubscriptionChargedEvent => RetryOfCharge(t, e, id);
    case PaymentLinkPaidEvent => RetryOfPaidLink(t, e, id);
  }

  // ------------------------------------------------------------ crash, other operations, retry

  ghost predicate WithoutEvent(ops: seq<Op>, eventId: string) {
    forall i :: 0 <= i < |ops| && ops[i].Delivered? ==> ops[i].delivery.eventId != eventId
  }

  /** Operations that do not deliver the event act alike whether it is marked or not. */
  lemma {:induction false} RunIgnoresMark(s: Store, policy: Policy.MerchantPolicyRow, ops: seq<Op>, eventId: string,
                                          disposition: Disposition)
    requires WithoutEvent(ops, eventId)
    ensures RunStore(MarkedAs(s, eventId, disposition), policy, ops)
         == MarkedAs(RunStore(s, policy, ops), eventId, disposition)
  {
    if ops != [] {
      var front, last := ops[..|ops| - 1], ops[|ops| - 1];
      RunIgnoresMark(s, policy, front, eventId, disposition);
      if last.Delivered? {
        MarkSilencesOnlyItsEvent(RunStore(s, policy, front), eventId, disposition, last.delivery);
      }
    }
  }

  lemma RetryRemembers(s: Store, policy: Policy.MerchantPolicyRow, d: Delivery, ops: seq<Op>) returns (id: nat)
    requires StoreInv(s, policy) && Survives(s, d)
    ensures var t := RunStore(Crashed(s, d), policy, ops);
            && KeysOk(t.cases) && Remembers(t, d.envelope, id) && t.cases[id].status == Recovered
            && id < |s.cases| && !IsTerminal(s.cases[id].status)
            && t.cases[id].outcome == OutcomeOf(d.envelope)
  {
    id := TraceIsRecovery(s, policy, d);
    var crashed := Crashed(s, d);
    DeliveryKeepsStore(s, policy, d.(crash := true));
    var t := RunStore(crashed, policy, ops);
    RunKeepsStore(crashed, policy, ops);
    RunGrows(crashed, policy, ops);
    RememberedForGood(crashed, t, d.envelope, id);
    LivingInv(t.cases[id], policy);
  }

  /** Whatever happens between the crash and the retry, the retry leaves the cases as they are and marks the event. */
  lemma RetryCompletes(s: Store, policy: Policy.MerchantPolicyRow, d: Delivery, ops: seq<Op>) returns (id: nat)
    requires StoreInv(s, policy) && Survives(s, d)
    ensures var t := RunStore(Crashed(s, d), policy, ops);
            && id < |s.cases| && !IsTerminal(s.cases[id].status) && id < |t.cases|
            && Retried(t, d).cases == t.cases && IsComplete(Retried(t, d), d.eventId)
            && t.cases[id].status == Recovered && d.envelope.payment.Some? && d.envelope.createdAt.Some?
            && t.cases[id].outcome == OutcomeOf(d.envelope)
            && (!IsComplete(t, d.eventId) ==>
                  AgreeElsewhere(Retried(t, d), MarkedAs(t, d.eventId, Processed), d.envelope))
  {
    id := RetryRemembers(s, policy, d, ops);
    RetrySettles(RunStore(Crashed(s, d), policy, ops), d, id);
  }

  lemma RetrySettles(t: Store, d: Delivery, id: nat)
    requires KeysOk(t.cases) && Remembers(t, d.envelope, id) && t.cases[id].status == Recovered
    ensures Retried(t, d).cases == t.cases && IsComplete(Retried(t, d), d.eventId)
    ensures !IsComplete(t, d.eventId) ==>
              AgreeElsewhere(Retried(t, d), MarkedAs(t, d.eventId, Processed), d.envelope)
  {
    if !IsComplete(t, d.eventId) {
      var claimed := Claimed(t, d.eventId);
      RetryIsQuiet(claimed, d.envelope, d.customerKnown, id);
      MarkAfterClaim(t, d.eventId);
    }
  }

  lemma MarkAfterClaim(t: Store, eventId: string)
    ensures MarkedAs(Claimed(t, eventId), eventId, Processed) == MarkedAs(t, eventId, Processed)
  {
  }

  // ------------------------------------------------------------ against the uninterrupted history

  lemma {:induction false} EventUntouched(s: Store, policy: Policy.MerchantPolicyRow, ops: seq<Op>, eventId: string)
    requires WithoutEvent(ops, eventId) && eventId in s.webhooks
    ensures var t := RunStore(s, policy, ops); eventId in t.webhooks && t.webhooks[eventId] == s.webhooks[eventId]
  {
    if ops != [] {
      var front, last := ops[..|ops| - 1], ops[|ops| - 1];
      EventUntouched(s, policy, front, eventId);
      if last.Delivered? {
        var claimed := Claimed(RunStore(s, policy, front), last.delivery.eventId);
        HandlersKeepWebhooks(claimed, last.delivery.envelope, last.delivery.customerKnown);
      }
    }
  }

  /** Applying the envelope once more leaves the provider row it is about as it is. */
  predicate RowSettled(t: Store, e: Envelope, id: nat)
    requires Remembers(t, e, id)
  {
    match e.kind
    case PaymentCapturedEvent =>
      t.transactions[e.payment.value.id]
      == Transaction(Record(CAPTURED, Some(e.createdAt.value)), e.payment.value.amount, e.payment.value.currency)
    case SubscriptionChargedEvent =>
      var record := t.subscriptions[e.subscription.value.id].record;
      Stale(record.at, e.createdAt) || record == Record(ACTIVE, e.createdAt)
    case _ => true
  }

  lemma CaptureSettles(t: Store, e: Envelope, known: bool, id: nat)
    requires e.kind == PaymentCapturedEvent && KeysOk(t.cases) && Remembers(t, e, id) && t.cases[id].status == Recovered
    ensures HandlePaymentCaptured(t, e, known).Done?
    ensures HandlePaymentCaptured(t, e, known).store == t <==> RowSettled(t, e, id)
  {
    var payment := e.payment.value;
    OneCasePerTransaction(t.cases, id, payment.id);
    assert t.cases[id := t.cases[id]] == t.cases;
    var row := Transaction(Record(CAPTURED, Some(e.createdAt.value)), payment.amount, payment.currency);
    assert HandlePaymentCaptured(t, e, known).store == t.(transactions := t.transactions[payment.id := row]);
    EntryKept(t.transactions, payment.id, row);
  }

  lemma EntryKept<K, V>(m: map<K, V>, k: K, v: V)
    requires k in m
    ensures m[k := v] == m <==> m[k] == v
  {
    assert m[k := v][k] == v;
  }

  lemma ChargeSettles(t: Store, e: Envelope, id: nat)
    requires e.kind == SubscriptionChargedEvent && KeysOk(t.cases) && Remembers(t, e, id)
    requires t.cases[id].status == Recovered
    ensures HandleSubscriptionCharged(t, e).Done?
    ensures HandleSubscriptionCharged(t, e).store == t <==> RowSettled(t, e, id)
  {
    var subscription := e.subscription.value;
    OneCasePerKey(t.cases, id);
    assert t.cases[id := t.cases[id]] == t.cases;
    var row := t.subscriptions[subscription.id];
    var event := EventOrdering.SubscriptionEvent(ChargedKind, e.createdAt.value);
    var written := row.(record := ApplySubscription(row.record, event).0);
    assert HandleSubscriptionCharged(t, e).store == t.(subscriptions := t.subscriptions[subscription.id := written]);
    EntryKept(t.subscriptions, subscription.id, written);
  }

  lemma RetrySettlesRow(t: Store, e: Envelope, known: bool, id: nat)
    requires KeysOk(t.cases) && Remembers(t, e, id) && t.cases[id].status == Recovered
    ensures Handle(t, e, known).Done? && (Handle(t, e, known).store == t <==> RowSettled(t, e, id))
  {
    match e.kind
    case PaymentCapturedEvent => CaptureSettles(t, e, known, id);
    case SubscriptionChargedEvent => ChargeSettles(t, e, id);
    case PaymentLinkPaidEvent => RetryOfPaidLink(t, e, id);
  }

  /** A surviving crash leaves the whole delivery's store, without its mark. */
  lemma WholeIsMarked(s: Store, d: Delivery)
    requires KeysOk(s.cases) && Survives(s, d)
    ensures Retried(s, d) == MarkedAs(Crashed(s, d), d.eventId, Processed)
    ensures d.eventId in Crashed(s, d).webhooks && Crashed(s, d).webhooks[d.eventId] == Received
  {
    var claimed := Claimed(s, d.eventId);
    HandledAgain(claimed, d.envelope, d.customerKnown);
    HandlersKeepWebhooks(claimed, d.envelope, d.customerKnown);
  }

  /**
   * A delivery dies, other operations follow, and the provider delivers again.
   * Without an inner commit the first attempt might as well not have happened.
   * With one, cases and event log end as if it had gone through at first, and
   * so do all provider rows but its own; and that one too exactly when writing
   * it again changes nothing.
   */
  lemma CrashAmongOthers(s: Store, policy: Policy.MerchantPolicyRow, d: Delivery, ops: seq<Op>) returns (id: nat)
    requires StoreInv(s, policy) && WithoutEvent(ops, d.eventId)
    ensures var t, whole := RunStore(Crashed(s, d), policy, ops), RunStore(Retried(s, d), policy, ops);
            if !Survives(s, d) then t == RunStore(s, policy, ops)
            else && AgreeElsewhere(Retried(t, d), whole, d.envelope)
                 && Remembers(t, d.envelope, id) && (Retried(t, d) == whole <==> RowSettled(t, d.envelope, id))
  {
    CrashLeavesTrace(s, d);
    id := 0;
    if Survives(s, d) {
      var crashed := Crashed(s, d);
      var t := RunStore(crashed, policy, ops);
      WholeIsMarked(s, d);
      RunIgnoresMark(crashed, policy, ops, d.eventId, Processed);
      EventUntouched(crashed, policy, ops, d.eventId);
      id := RetryRemembers(s, policy, d, ops);
      RetrySettles(t, d, id);
      RetryEqualsMark(t, d, id);
    }
  }

  lemma RetryEqualsMark(t: Store, d: Delivery, id: nat)
    requires KeysOk(t.cases) && Remembers(t, d.envelope, id) && t.cases[id].status == Recovered
    requires d.eventId in t.webhooks && t.webhooks[d.eventId] == Received
    ensures Retried(t, d) == MarkedAs(t, d.eventId, Processed) <==> RowSettled(t, d.envelope, id)
  {
    SameEntry(t.webhooks, d.eventId);
    assert Claimed(t, d.eventId) == t;
    RetryIsQuiet(t, d.envelope, d.customerKnown, id);
    RetrySettlesRow(t, d.envelope, d.customerKnown, id);
    MarksAreInjective(Handle(t, d.envelope, d.customerKnown).store, t, d.eventId);
  }

  lemma MarksAreInjective(a: Store, b: Store, eventId: string)
    requires a.webhooks == b.webhooks
    ensures MarkedAs(a, eventId, Processed) == MarkedAs(b, eventId, Processed) <==> a == b
  {
  }
}
