/** The row of one subscription follows the event-ordering fold, whatever else happens around it. */
module SubscriptionRows {
  import opened Domain
  import opened CaseInvariants
  import opened Deliveries
  import opened EventOrdering
  import opened Store
  import opened StoreTheorems
  import opened PaymentRows
  import opened SubscriptionOrder
  import Policy

  /** The subscription event a handled envelope carries; a charge counts only with a captured payment. */
  function CarriedKind(e: Envelope): Option<SubscriptionKind> {
    match e.kind
    case SubscriptionPendingEvent => Some(PendingKind)
    case SubscriptionHaltedEvent => Some(HaltedKind)
    case SubscriptionChargedEvent =>
      if e.payment.Some? && e.payment.value.status == CAPTURED then Some(ChargedKind) else None
    case _ => None
  }

  function CarriedEvent(e: Envelope, subscriptionId: string): Option<SubscriptionEvent> {
    if e.subscription.None? || e.subscription.value.id != subscriptionId || e.createdAt.None? then None
    else if CarriedKind(e).None? then None
    else Some(EventOrdering.SubscriptionEvent(CarriedKind(e).value, e.createdAt.value))
  }

  /** The event a committed operation carries for this subscription, if any. */
  function SubscriptionEffect(s: Store, op: Op, subscriptionId: string): Option<SubscriptionEvent> {
    if !op.Delivered? || !Commits(s, op.delivery) then None else CarriedEvent(op.delivery.envelope, subscriptionId)
  }

  /** The committed events of a run for this subscription, in the order they took effect. */
  function SubscriptionEffects(s: Store, policy: Policy.MerchantPolicyRow, ops: seq<Op>, subscriptionId: string)
    : seq<SubscriptionEvent>
  {
    if ops == [] then []
    else
      var front := ops[..|ops| - 1];
      SubscriptionEffects(s, policy, front, subscriptionId)
      + match SubscriptionEffect(RunStore(s, policy, front), ops[|ops| - 1], subscriptionId)
        case None => []
        case Some(e) => [e]
  }

  function Applied(record: Record, event: Option<SubscriptionEvent>): Record {
    match event
    case None => record
    case Some(e) => ApplySubscription(record, e).0
  }

  lemma ResolveKeepsSubscriptions(s: Store, id: nat, payment: PaymentEntity, at: int)
    requires id < |s.cases| && ResolveAt(s, id, payment, at).Done?
    ensures ResolveAt(s, id, payment, at).store.subscriptions == s.subscriptions
  {
  }

  lemma HandledSubscription(s: Store, e: Envelope, known: bool, subscriptionId: string)
    requires subscriptionId in s.subscriptions && Handle(s, e, known).Done?
    ensures var t := Handle(s, e, known).store;
            && subscriptionId in t.subscriptions
            && t.subscriptions[subscriptionId]
               == s.subscriptions[subscriptionId].(
                    record := Applied(s.subscriptions[subscriptionId].record, CarriedEvent(e, subscriptionId)))
  {
    match e.kind
    case PaymentFailedEvent =>
    case PaymentCapturedEvent => CapturedKeepsSubscriptions(s, e, known);
    case SubscriptionPendingEvent =>
    case SubscriptionChargedEvent => ChargedSubscription(s, e, subscriptionId);
    case SubscriptionHaltedEvent =>
    case PaymentLinkPaidEvent => LinkPaidKeepsSubscriptions(s, e);
    case OtherEvent =>
  }

  lemma CapturedKeepsSubscriptions(s: Store, e: Envelope, known: bool)
    requires HandlePaymentCaptured(s, e, known).Done?
    ensures HandlePaymentCaptured(s, e, known).store.subscriptions == s.subscriptions
  {
    var up := UpsertTransaction(s, e.payment.value, CAPTURED, e.createdAt.value, known);
    if up.Upserted? && CaseByTransaction(up.store.cases, e.payment.value.id).Some? {
      var id := CaseByTransaction(up.store.cases, e.payment.value.id).value;
      ResolveKeepsSubscriptions(up.store, id, e.payment.value, e.createdAt.value);
    }
  }

  lemma LinkPaidKeepsSubscriptions(s: Store, e: Envelope)
    requires HandleLinkPaid(s, e).Done?
    ensures HandleLinkPaid(s, e).store.subscriptions == s.subscriptions
  {
    if ReferenceExists(s, e.link.value) {
      ResolveKeepsSubscriptions(s, e.link.value.caseId, e.payment.value, e.createdAt.value);
    }
  }

  lemma ChargedSubscription(s: Store, e: Envelope, subscriptionId: string)
    requires e.kind == SubscriptionChargedEvent
    requires subscriptionId in s.subscriptions && HandleSubscriptionCharged(s, e).Done?
    ensures var t := HandleSubscriptionCharged(s, e).store;
            && subscriptionId in t.subscriptions
            && t.subscriptions[subscriptionId]
               == s.subscriptions[subscriptionId].(
                    record := Applied(s.subscriptions[subscriptionId].record, CarriedEvent(e, subscriptionId)))
  {
    var subscription, payment := e.subscription.value, e.payment.value;
    if payment.status == CAPTURED {
      var up := UpsertSubscription(s, subscription.id, ChargedKind, e.createdAt.value);
      if up.Upserted? {
        var found := CaseByKey(up.store.cases, SubscriptionKey(subscription.id, subscription.cycleKey));
        if found.Some? {
          ResolveKeepsSubscriptions(up.store, found.value, payment, e.createdAt.value);
        }
      }
    }
  }

  lemma StepSubscription(s: Store, policy: Policy.MerchantPolicyRow, op: Op, subscriptionId: string)
    requires subscriptionId in s.subscriptions
    ensures var t, row := Step(s, policy, op), s.subscriptions[subscriptionId];
            && subscriptionId in t.subscriptions
            && t.subscriptions[subscriptionId]
               == row.(record := Applied(row.record, SubscriptionEffect(s, op, subscriptionId)))
  {
    if op.Delivered? && Commits(s, op.delivery) {
      var d := op.delivery;
      HandledSubscription(Claimed(s, d.eventId), d.envelope, d.customerKnown, subscriptionId);
    }
  }

  /**
   * After any run of the whole store, with duplicates and crashes, the row of a
   * subscription is the fold over its committed events, and its amount and
   * currency are untouched.
   */
  lemma {:induction false} RunSubscription(s: Store, policy: Policy.MerchantPolicyRow, ops: seq<Op>,
                                           subscriptionId: string)
    requires subscriptionId in s.subscriptions
    ensures var t := RunStore(s, policy, ops);
            && subscriptionId in t.subscriptions
            && t.subscriptions[subscriptionId]
               == s.subscriptions[subscriptionId].(
                    record := DeliverSubscription(s.subscriptions[subscriptionId].record,
                                                  SubscriptionEffects(s, policy, ops, subscriptionId)))
  {
    if ops != [] {
      var front := ops[..|ops| - 1];
      var before := RunStore(s, policy, front);
      RunSubscription(s, policy, front, subscriptionId);
      StepSubscription(before, policy, ops[|ops| - 1], subscriptionId);
      var earlier := SubscriptionEffects(s, policy, front, subscriptionId);
      var effect := SubscriptionEffect(before, ops[|ops| - 1], subscriptionId);
      if effect.Some? {
        assert (earlier + [effect.value])[..|earlier + [effect.value]| - 1] == earlier;
      } else {
        assert earlier + [] == earlier;
      }
    }
  }

  /** Runs that commit the same events of a subscription in any order leave the same row, unless order matters. */
  lemma RunsAgreeOnSubscription(s: Store, policy: Policy.MerchantPolicyRow, ops: seq<Op>, others: seq<Op>, id: string)
    requires id in s.subscriptions
    requires multiset(SubscriptionEffects(s, policy, ops, id)) == multiset(SubscriptionEffects(s, policy, others, id))
    requires !OrderMatters(s.subscriptions[id].record, SubscriptionEffects(s, policy, ops, id))
    ensures id in RunStore(s, policy, ops).subscriptions && id in RunStore(s, policy, others).subscriptions
    ensures RunStore(s, policy, ops).subscriptions[id] == RunStore(s, policy, others).subscriptions[id]
  {
    RunSubscription(s, policy, ops, id);
    RunSubscription(s, policy, others, id);
    ConvergesExactly(s.subscriptions[id].record, SubscriptionEffects(s, policy, ops, id));
  }

  // ------------------------------------------------------------ every order of events is some run

  /** A delivery that carries the event; a charge comes with its captured payment. */
  function DeliveryOf(e: SubscriptionEvent, subscriptionId: string, eventId: string): Delivery {
    var kind := match e.kind
                case PendingKind => SubscriptionPendingEvent
                case ChargedKind => SubscriptionChargedEvent
                case HaltedKind => SubscriptionHaltedEvent;
    Delivery(eventId, Envelope(kind, Some(e.at), Some(PaymentEntity("pay_1", 100, "INR", CAPTURED)),
                               Some(SubscriptionEntity(subscriptionId, "1")), None), true, false)
  }

  function NameOfLength(n: nat): (name: string)
    ensures |name| == n
  {
    seq(n, _ => 'e')
  }

  function NewOp(e: SubscriptionEvent, subscriptionId: string, length: nat): Op {
    Delivered(DeliveryOf(e, subscriptionId, NameOfLength(length)))
  }

  ghost predicate NamesShorter(s: Store, length: nat) {
    forall eventId :: eventId in s.webhooks ==> |eventId| < length
  }

  lemma {:induction false} SomeLength(names: set<string>) returns (length: nat)
    ensures forall name :: name in names ==> |name| < length
  {
    if names == {} {
      length := 0;
    } else {
      var name :| name in names;
      var rest := SomeLength(names - {name});
      length := if |name| < rest then rest else |name| + 1;
    }
  }

  lemma ChargeIsHandled(s: Store, policy: Policy.MerchantPolicyRow, e: Envelope)
    requires StoreInv(s, policy) && e.kind == SubscriptionChargedEvent
    requires e.subscription.Some? && e.payment.Some? && e.createdAt.Some? && e.payment.value.status == CAPTURED
    ensures HandleSubscriptionCharged(s, e).Done?
  {
    var payment := e.payment.value;
    var found := CaseByKey(s.cases, SubscriptionKey(e.subscription.value.id, e.subscription.value.cycleKey));
    if found.Some? {
      LivingInv(s.cases[found.value], policy);
      VerifiedPaymentRecoversExactly(s.cases[found.value], policy, payment.amount, payment.currency, payment.id,
                                     e.createdAt.value);
    }
  }

  /** No delivery of a known subscription's event under a new id is turned away. */
  lemma NewDeliveryCommits(s: Store, policy: Policy.MerchantPolicyRow, e: SubscriptionEvent, subscriptionId: string,
                           eventId: string)
    requires StoreInv(s, policy) && subscriptionId in s.subscriptions && eventId !in s.webhooks
    ensures SubscriptionEffect(s, Delivered(DeliveryOf(e, subscriptionId, eventId)), subscriptionId) == Some(e)
  {
    var d := DeliveryOf(e, subscriptionId, eventId);
    var claimed := Claimed(s, eventId);
    if e.kind == ChargedKind {
      ChargeIsHandled(claimed, policy, d.envelope);
    }
  }

  lemma NamesGrow(s: Store, d: Delivery, length: nat)
    requires NamesShorter(s, length) && |d.eventId| == length
    ensures NamesShorter(Deliver(s, d), length + 1)
  {
    HandlersKeepWebhooks(Claimed(s, d.eventId), d.envelope, d.customerKnown);
  }

  /** The run commits exactly these events of the subscription, in this order. */
  ghost predicate TakeEffect(s: Store, policy: Policy.MerchantPolicyRow, ops: seq<Op>,
                             events: seq<SubscriptionEvent>, subscriptionId: string, length: nat)
  {
    var t := RunStore(s, policy, ops);
    && NamesShorter(t, length)
    && SubscriptionEffects(s, policy, ops, subscriptionId) == events
  }

  lemma EffectsAppend(s: Store, policy: Policy.MerchantPolicyRow, ops: seq<Op>, op: Op, e: SubscriptionEvent,
                      subscriptionId: string)
    requires SubscriptionEffect(RunStore(s, policy, ops), op, subscriptionId) == Some(e)
    ensures RunStore(s, policy, ops + [op]) == Step(RunStore(s, policy, ops), policy, op)
    ensures SubscriptionEffects(s, policy, ops + [op], subscriptionId)
         == SubscriptionEffects(s, policy, ops, subscriptionId) + [e]
  {
    assert (ops + [op])[..|ops + [op]| - 1] == ops;
  }

  lemma NewOpCommits(s: Store, policy: Policy.MerchantPolicyRow, ops: seq<Op>, e: SubscriptionEvent,
                     subscriptionId: string, length: nat)
    requires StoreInv(s, policy) && subscriptionId in s.subscriptions
    requires NamesShorter(RunStore(s, policy, ops), length)
    ensures var before, op := RunStore(s, policy, ops), NewOp(e, subscriptionId, length);
            && SubscriptionEffect(before, op, subscriptionId) == Some(e)
            && NamesShorter(Step(before, policy, op), length + 1)
  {
    var before, op := RunStore(s, policy, ops), NewOp(e, subscriptionId, length);
    RunKeepsStore(s, policy, ops);
    RunSubscription(s, policy, ops, subscriptionId);
    NewDeliveryCommits(before, policy, e, subscriptionId, NameOfLength(length));
    NamesGrow(before, op.delivery, length);
  }

  lemma OneMoreEffect(s: Store, policy: Policy.MerchantPolicyRow, ops: seq<Op>, front: seq<SubscriptionEvent>,
                      e: SubscriptionEvent, subscriptionId: string, length: nat)
    requires StoreInv(s, policy) && subscriptionId in s.subscriptions
    requires TakeEffect(s, policy, ops, front, subscriptionId, length)
    ensures TakeEffect(s, policy, ops + [NewOp(e, subscriptionId, length)], front + [e], subscriptionId, length + 1)
  {
    NewOpCommits(s, policy, ops, e, subscriptionId, length);
    EffectsAppend(s, policy, ops, NewOp(e, subscriptionId, length), e, subscriptionId);
  }

  lemma NothingTakesEffect(s: Store, policy: Policy.MerchantPolicyRow, subscriptionId: string, length: nat)
    requires StoreInv(s, policy) && subscriptionId in s.subscriptions && NamesShorter(s, length)
    ensures TakeEffect(s, policy, [], [], subscriptionId, length)
  {
  }

  /** So for every sequence of events there is a run that commits exactly them, in that order. */
  lemma {:induction false} SomeRunCommits(s: Store, policy: Policy.MerchantPolicyRow, events: seq<SubscriptionEvent>,
                                          subscriptionId: string) returns (ops: seq<Op>, length: nat)
    requires StoreInv(s, policy) && subscriptionId in s.subscriptions
    ensures TakeEffect(s, policy, ops, events, subscriptionId, length)
  {
    if events == [] {
      length := SomeLength(s.webhooks.Keys);
      ops := [];
      NothingTakesEffect(s, policy, subscriptionId, length);
    } else {
      var front, last := events[..|events| - 1], events[|events| - 1];
      assert events == front + [last];
      ops, length := SomeRunCommits(s, policy, front, subscriptionId);
      OneMoreEffect(s, policy, ops, front, last, subscriptionId, length);
      ops, length := ops + [NewOp(last, subscriptionId, length)], length + 1;
    }
  }

  // ------------------------------------------------------------ the exact condition for the whole store

  function RowAfter(s: Store, policy: Policy.MerchantPolicyRow, ops: seq<Op>, id: string): Option<Subscription> {
    var t := RunStore(s, policy, ops);
    if id in t.subscriptions then Some(t.subscriptions[id]) else None
  }

  /** Any two runs that commit these events of the subscription, each in its own order, leave the same row. */
  ghost predicate RunsAgree(s: Store, policy: Policy.MerchantPolicyRow, id: string, events: seq<SubscriptionEvent>) {
    forall ops: seq<Op>, others: seq<Op> ::
      multiset(SubscriptionEffects(s, policy, ops, id)) == multiset(events)
      && multiset(SubscriptionEffects(s, policy, others, id)) == multiset(events) ==>
        RowAfter(s, policy, ops, id) == RowAfter(s, policy, others, id)
  }

  lemma EffectsDecide(s: Store, policy: Policy.MerchantPolicyRow, ops: seq<Op>, others: seq<Op>, id: string,
                      events: seq<SubscriptionEvent>)
    requires id in s.subscriptions && Converges(s.subscriptions[id].record, events)
    requires multiset(SubscriptionEffects(s, policy, ops, id)) == multiset(events)
    requires multiset(SubscriptionEffects(s, policy, others, id)) == multiset(events)
    ensures RowAfter(s, policy, ops, id) == RowAfter(s, policy, others, id)
  {
    RunSubscription(s, policy, ops, id);
    RunSubscription(s, policy, others, id);
  }

  /** Runs of the whole store agree on a subscription exactly when the order of its events does not matter. */
  lemma RunsAgreeExactly(s: Store, policy: Policy.MerchantPolicyRow, id: string, events: seq<SubscriptionEvent>)
    requires StoreInv(s, policy) && id in s.subscriptions
    ensures RunsAgree(s, policy, id, events) <==> !OrderMatters(s.subscriptions[id].record, events)
  {
    var row := s.subscriptions[id].record;
    ConvergesExactly(row, events);
    if OrderMatters(row, events) {
      var ys: seq<SubscriptionEvent> :| multiset(ys) == multiset(events)
                                        && DeliverSubscription(row, ys) != DeliverSubscription(row, events);
      var ops, _ := SomeRunCommits(s, policy, events, id);
      var others, _ := SomeRunCommits(s, policy, ys, id);
      RunSubscription(s, policy, ops, id);
      RunSubscription(s, policy, others, id);
      assert RowAfter(s, policy, ops, id) != RowAfter(s, policy, others, id);
    } else {
      forall ops: seq<Op>, others: seq<Op> |
        multiset(SubscriptionEffects(s, policy, ops, id)) == multiset(events)
        && multiset(SubscriptionEffects(s, policy, others, id)) == multiset(events)
        ensures RowAfter(s, policy, ops, id) == RowAfter(s, policy, others, id)
      {
        EffectsDecide(s, policy, ops, others, id, events);
      }
    }
  }
}
