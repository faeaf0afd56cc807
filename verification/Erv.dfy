/** Expected recovery value: integer money computed from an exact probability. */
module Erv {
  import opened Domain

  datatype ErvError = NegativeAmount | ProbabilityOutOfRange | NegativeContacts

  datatype ErvBreakdown = ErvBreakdown(
    successProbability: real,
    expectedRecovered: int,
    actionCost: int,
    fatiguePenalty: int,
    operationalRiskPenalty: int,
    delayPenalty: int,
    expectedValue: int)

  const DELAY_PENALTY_BPS_PER_HOUR := 2
  const BASE_CONTACT_PENALTY_MINOR := 250

  function ActionCost(action: ActionType): nat {
    match action
    case Wait => 0
    case RetrySameMethod => 100
    case RequestAlternatePaymentMethod => 200
    case CreatePaymentLink => 300
    case SendRecoveryMessage => 500
    case EscalateToHuman => 800
    case Stop => 0
  }

  function OperationalRiskBps(action: ActionType): nat {
    match action
    case Wait => 5
    case RetrySameMethod => 20
    case RequestAlternatePaymentMethod => 15
    case CreatePaymentLink => 25
    case SendRecoveryMessage => 30
    case EscalateToHuman => 40
    case Stop => 0
  }

  function DelayHours(action: ActionType): nat {
    if action == Wait then 4 else 0
  }

  predicate IsContactAction(action: ActionType) {
    action == SendRecoveryMessage
  }

  /** Nearest integer, ties upward. The bound pins the result down uniquely. */
  function RoundHalfUp(value: real): (r: int)
    ensures r as real - 0.5 <= value < r as real + 0.5
  {
    (value + 0.5).Floor
  }

  /** `amount` times a rate in basis points, not yet rounded. */
  function BasisPoints(amount: int, bps: int): real {
    amount as real * bps as real / 10000.0
  }

  function FatiguePenalty(action: ActionType, contacts: int): int {
    if IsContactAction(action) then BASE_CONTACT_PENALTY_MINOR * (1 + contacts) else 0
  }

  function OperationalRiskPenalty(action: ActionType, amount: int): int {
    RoundHalfUp(BasisPoints(amount, OperationalRiskBps(action)))
  }

  function DelayPenalty(action: ActionType, amount: int): int {
    RoundHalfUp(BasisPoints(amount, DelayHours(action) * DELAY_PENALTY_BPS_PER_HOUR))
  }

  function CalculateErv(action: ActionType, amount: int, probability: real, contacts: int)
    : Result<ErvBreakdown, ErvError>
  {
    if amount < 0 then Failure(NegativeAmount)
    else if !(0.0 <= probability <= 1.0) then Failure(ProbabilityOutOfRange)
    else if action == Stop then Success(ErvBreakdown(0.0, 0, 0, 0, 0, 0, 0))
    else if IsContactAction(action) && contacts < 0 then Failure(NegativeContacts)
    else
      var recovered := RoundHalfUp(amount as real * probability);
      var cost := ActionCost(action);
      var fatigue := FatiguePenalty(action, contacts);
      var risk := OperationalRiskPenalty(action, amount);
      var delay := DelayPenalty(action, amount);
      Success(ErvBreakdown(probability, recovered, cost, fatigue, risk, delay,
                           recovered - cost - fatigue - risk - delay))
  }

  /** Integer ERV of an admissible input. */
  function Value(action: ActionType, amount: nat, probability: real, contacts: nat): int
    requires 0.0 <= probability <= 1.0
  {
    CalculateErv(action, amount, probability, contacts).value.expectedValue
  }

  /** The same quantity with no rounding anywhere. */
  function ExactValue(action: ActionType, amount: nat, probability: real, contacts: nat): real {
    if action == Stop then 0.0
    else amount as real * probability
         - ActionCost(action) as real
         - FatiguePenalty(action, contacts) as real
         - BasisPoints(amount, OperationalRiskBps(action))
         - BasisPoints(amount, DelayHours(action) * DELAY_PENALTY_BPS_PER_HOUR)
  }

  lemma ProductBounds(amount: real, probability: real)
    requires 0.0 <= amount && 0.0 <= probability <= 1.0
    ensures 0.0 <= amount * probability <= amount
  {
    assert amount * (1.0 - probability) >= 0.0;
  }

  lemma ProductMonotone(amount: real, p: real, q: real)
    requires 0.0 <= amount && p <= q
    ensures amount * p <= amount * q
  {
    assert amount * (q - p) >= 0.0;
  }

  /** Which inputs are accepted, and what the accepted ones promise. */
  lemma ErvBounds(action: ActionType, amount: int, probability: real, contacts: int)
    ensures CalculateErv(action, amount, probability, contacts).Success?
       <==> 0 <= amount && 0.0 <= probability <= 1.0 && !(IsContactAction(action) && contacts < 0)
    ensures CalculateErv(action, amount, probability, contacts).Success? ==>
              var e := CalculateErv(action, amount, probability, contacts).value;
              && 0 <= e.expectedRecovered <= amount
              && 0 <= e.fatiguePenalty && 0 <= e.operationalRiskPenalty && 0 <= e.delayPenalty
              && e.expectedValue == e.expectedRecovered - e.actionCost - e.fatiguePenalty
                                    - e.operationalRiskPenalty - e.delayPenalty
              && e.expectedValue <= amount
  {
    if CalculateErv(action, amount, probability, contacts).Success? && action != Stop {
      RecoveredBounds(amount, probability);
      PenaltiesNonNegative(action, amount);
    }
  }

  lemma RecoveredBounds(amount: int, probability: real)
    requires 0 <= amount && 0.0 <= probability <= 1.0
    ensures 0 <= RoundHalfUp(amount as real * probability) <= amount
  {
    ProductBounds(amount as real, probability);
  }

  lemma PenaltiesNonNegative(action: ActionType, amount: int)
    requires 0 <= amount
    ensures 0 <= OperationalRiskPenalty(action, amount) && 0 <= DelayPenalty(action, amount)
  {
    BasisPointsNonNegative(amount, OperationalRiskBps(action));
    BasisPointsNonNegative(amount, DelayHours(action) * DELAY_PENALTY_BPS_PER_HOUR);
  }

  lemma BasisPointsNonNegative(amount: int, bps: int)
    requires 0 <= amount && 0 <= bps
    ensures 0.0 <= BasisPoints(amount, bps)
  {
    assert 0.0 <= amount as real * bps as real;
  }

  lemma ErvMonotone(action: ActionType, amount: nat, p: real, q: real, contacts: nat)
    requires 0.0 <= p <= q <= 1.0
    ensures Value(action, amount, p, contacts) <= Value(action, amount, q, contacts)
  {
    if action != Stop {
      ProductMonotone(amount as real, p, q);
      RoundMonotone(amount as real * p, amount as real * q);
      ValueFromRecovered(action, amount, p, contacts);
      ValueFromRecovered(action, amount, q, contacts);
    }
  }

  lemma RoundMonotone(x: real, y: real)
    requires x <= y
    ensures RoundHalfUp(x) <= RoundHalfUp(y)
  {
  }

  /** Only the expected recovery depends on the probability. */
  lemma ValueFromRecovered(action: ActionType, amount: nat, probability: real, contacts: nat)
    requires 0.0 <= probability <= 1.0 && action != Stop
    ensures Value(action, amount, probability, contacts)
         == RoundHalfUp(amount as real * probability) - ActionCost(action) - FatiguePenalty(action, contacts)
            - OperationalRiskPenalty(action, amount) - DelayPenalty(action, amount)
  {
  }

  /** Largest distance between the integer ERV and the exact one. */
  function ErrorBound(action: ActionType): real {
    if action == Stop then 0.0 else if DelayHours(action) == 0 then 1.0 else 1.5
  }

  lemma ErvRoundingError(action: ActionType, amount: nat, probability: real, contacts: nat)
    requires 0.0 <= probability <= 1.0
    ensures var error := Value(action, amount, probability, contacts) as real
                         - ExactValue(action, amount, probability, contacts);
            -ErrorBound(action) <= error <= ErrorBound(action)
  {
    if action != Stop {
      var recovered := RoundHalfUp(amount as real * probability);
      var risk := OperationalRiskPenalty(action, amount);
      var delay := DelayPenalty(action, amount);
      assert Value(action, amount, probability, contacts)
          == recovered - ActionCost(action) - FatiguePenalty(action, contacts) - risk - delay;
      if DelayHours(action) == 0 {
        assert BasisPoints(amount, 0) == 0.0;
      }
    }
  }

  /** A gap of more than 5/2 between exact values survives rounding. */
  lemma RoundingKeepsOrder(a: ActionType, p: real, b: ActionType, q: real, amount: nat, contacts: nat)
    requires a != b && 0.0 <= p <= 1.0 && 0.0 <= q <= 1.0
    requires ExactValue(a, amount, p, contacts) - ExactValue(b, amount, q, contacts) > 2.5
    ensures Value(a, amount, p, contacts) > Value(b, amount, q, contacts)
  {
    ErvRoundingError(a, amount, p, contacts);
    ErvRoundingError(b, amount, q, contacts);
    assert ErrorBound(a) + ErrorBound(b) <= 2.5;
  }
}
