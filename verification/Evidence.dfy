/**
 * What an analysis is told about one failure: its category, the strength of the
 * evidence for it, and the share of features that are present. Both are drawn
 * from short lists, so the confidence of a recommendation is confined too.
 */
module Evidence {
  import opened Domain
  import opened Selection
  import Analysis
  import Candidates
  import Erv
  import History
  import Policy
  import Text

  datatype LookupStatus = Known | LookupUnknown | NoDowntime

  datatype Severity = High | Medium | Low | NoSeverity | UnknownSeverity

  datatype DowntimeContext = DowntimeContext(lookup: LookupStatus, degraded: bool, severity: Severity)

  /** What a subscription is normalized with, and what a lookup without matching downtime gives. */
  const NO_DOWNTIME := DowntimeContext(NoDowntime, false, NoSeverity)

  datatype PaymentEvidence = PaymentEvidence(
    reason: Option<string>,
    code: Option<string>,
    step: Option<string>,
    source: Option<string>)

  datatype Normalization = Normalization(category: FailureCategory, strength: real)

  function MappedReason(reason: Option<string>): Option<FailureCategory> {
    if reason == Some("payment_rail_unavailable") then Some(PaymentRailDowntime)
    else if reason == Some("insufficient_funds") then Some(InsufficientFunds)
    else if reason == Some("payment_authentication_failure") then Some(AuthenticationFailure)
    else if reason == Some("bank_declined") then Some(BankOrIssuerDecline)
    else if reason == Some("expired_payment_method") then Some(ExpiredOrInvalidMethod)
    else if reason == Some("mandate_failure") then Some(MandateOrRecurringFailure)
    else if reason == Some("technical_failure") then Some(TechnicalFailure)
    else None
  }

  function PartialStrength(e: PaymentEvidence, downtime: bool, isSubscription: bool): real {
    if downtime && (e.reason.Some? || isSubscription) then 1.0
    else if e.reason.Some? then 0.80
    else if e.code.Some? && (e.step.Some? || e.source.Some?) then 0.65
    else 0.40
  }

  predicate RailIsDown(downtime: DowntimeContext) {
    downtime.lookup == Known && downtime.degraded
  }

  function NormalizePayment(e: PaymentEvidence, downtime: DowntimeContext): Normalization {
    if RailIsDown(downtime) then Normalization(PaymentRailDowntime, PartialStrength(e, true, false))
    else if MappedReason(e.reason).Some? then
      Normalization(MappedReason(e.reason).value, PartialStrength(e, false, false))
    else if e.code == Some("SERVER_ERROR") && e.step == Some("payment_processing") && e.source == Some("gateway") then
      Normalization(TechnicalFailure, 0.65)
    else Normalization(UnknownFailure, 0.40)
  }

  function NormalizeSubscription(status: string, reason: Option<string>, downtime: DowntimeContext): Normalization {
    var e := PaymentEvidence(reason, None, None, None);
    if RailIsDown(downtime) then Normalization(PaymentRailDowntime, PartialStrength(e, true, true))
    else if MappedReason(reason).Some? then
      Normalization(MappedReason(reason).value, PartialStrength(e, downtime.degraded, true))
    else if Text.Lower(status) == "pending" || Text.Lower(status) == "halted" then
      Normalization(MandateOrRecurringFailure, PartialStrength(e.(reason := None), downtime.degraded, true))
    else Normalization(UnknownFailure, 0.40)
  }

  /** The failed payment or subscription behind a case. */
  datatype Failed =
    | FailedPayment(evidence: PaymentEvidence, method_: Option<string>, downtime: DowntimeContext)
    | FailedSubscription(status: string, reason: Option<string>)

  /** What else is known about the customer when the analysis runs. */
  datatype Facts = Facts(
    failed: Failed,
    payments: seq<History.Snapshot>,
    failureAt: int,
    otherCases: nat,
    segment: string)

  function Normalized(failed: Failed): Normalization {
    match failed
    case FailedPayment(evidence, _, downtime) => NormalizePayment(evidence, downtime)
    case FailedSubscription(status, reason) => NormalizeSubscription(status, reason, NO_DOWNTIME)
  }

  function RawMethod(failed: Failed): Option<string> {
    if failed.FailedPayment? then failed.method_ else Some(History.UNKNOWN_METHOD)
  }

  function MethodOf(failed: Failed): string {
    History.NormalizedMethod(RawMethod(failed))
  }

  function HistoryOf(facts: Facts): History.Features {
    History.HistoryFeatures(facts.payments, facts.failureAt, RawMethod(facts.failed))
  }

  function SeverityOf(failed: Failed): Severity {
    if failed.FailedSubscription? then NoSeverity
    else if failed.downtime.lookup == LookupUnknown then UnknownSeverity
    else if !failed.downtime.degraded then NoSeverity
    else failed.downtime.severity
  }

  // ------------------------------------------------------------ completeness

  function AlwaysPresent(n: nat): (flags: seq<bool>)
    ensures |flags| == n && forall i :: 0 <= i < n ==> flags[i]
  {
    seq(n, _ => true)
  }

  /** The flags of the 24 important features in the source's order. */
  function Flags(successes: bool, failures: bool, rate: bool, recoveries: bool, retries: bool, method_: bool,
                 segment: bool, severity: bool): (flags: seq<bool>)
    ensures |flags| == 24
  {
    AlwaysPresent(6) + [successes, failures, rate] + [recoveries, true, true] + ([retries] + AlwaysPresent(8))
    + [method_, segment, severity]
  }

  function Presence(facts: Facts): (flags: seq<bool>)
    ensures |flags| == 24
  {
    var h := HistoryOf(facts);
    Flags(h.successes90.Some?, h.failed30.Some?, h.successRate.Some?, facts.otherCases > 0,
          facts.failed.FailedSubscription?, MethodOf(facts.failed) != History.UNKNOWN_METHOD,
          facts.segment != "unknown", SeverityOf(facts.failed) != UnknownSeverity)
  }

  function Present(flags: seq<bool>): (n: nat)
    ensures n <= |flags|
  {
    if flags == [] then 0 else Present(flags[..|flags| - 1]) + (if flags[|flags| - 1] then 1 else 0)
  }

  function Completeness(facts: Facts): real {
    Present(Presence(facts)) as real / 24.0
  }

  method FeatureCompleteness(facts: Facts) returns (r: real)
    ensures r == Completeness(facts)
  {
    var flags := Presence(facts);
    var present := 0;
    for i := 0 to |flags|
      invariant present == Present(flags[..i])
    {
      assert flags[..i + 1][..i] == flags[..i];
      if !flags[i] {
        continue;
      }
      present := present + 1;
    }
    assert flags[..|flags|] == flags;
    r := present as real / |flags| as real;
  }

  lemma {:induction false} PresentConcat(xs: seq<bool>, ys: seq<bool>)
    ensures Present(xs + ys) == Present(xs) + Present(ys)
  {
    if ys == [] {
      assert xs + ys == xs;
    } else {
      PresentConcat(xs, ys[..|ys| - 1]);
      assert (xs + ys)[..|xs + ys| - 1] == xs + ys[..|ys| - 1];
    }
  }

  lemma {:induction false} AllPresent(flags: seq<bool>)
    requires forall i :: 0 <= i < |flags| ==> flags[i]
    ensures Present(flags) == |flags|
  {
    if flags != [] {
      AllPresent(flags[..|flags| - 1]);
    }
  }

  lemma PresentPush(xs: seq<bool>, b: bool)
    ensures Present(xs + [b]) == Present(xs) + Bit(b)
  {
    assert (xs + [b])[..|xs|] == xs;
  }

  lemma PresentThree(a: bool, b: bool, c: bool)
    ensures Present([a, b, c]) == Bit(a) + Bit(b) + Bit(c)
  {
    PresentPush([], a);
    PresentPush([a], b);
    PresentPush([a, b], c);
    assert [] + [a] == [a] && [a] + [b] == [a, b] && [a, b] + [c] == [a, b, c];
  }

  lemma PresentBlocks(a: seq<bool>, b: seq<bool>, c: seq<bool>, d: seq<bool>, e: seq<bool>)
    ensures Present(a + b + c + d + e) == Present(a) + Present(b) + Present(c) + Present(d) + Present(e)
  {
    PresentConcat(a + b + c + d, e);
    PresentConcat(a + b + c, d);
    PresentConcat(a + b, c);
    PresentConcat(a, b);
  }

  function Bit(b: bool): nat {
    if b then 1 else 0
  }

  lemma FlagCount(successes: bool, failures: bool, rate: bool, recoveries: bool, retries: bool, method_: bool,
                  segment: bool, severity: bool)
    ensures Present(Flags(successes, failures, rate, recoveries, retries, method_, segment, severity))
         == 16 + Bit(successes) + Bit(failures) + Bit(rate) + Bit(recoveries) + Bit(retries) + Bit(method_)
            + Bit(segment) + Bit(severity)
  {
    PresentBlocks(AlwaysPresent(6), [successes, failures, rate], [recoveries, true, true],
                  [retries] + AlwaysPresent(8), [method_, segment, severity]);
    AllPresent(AlwaysPresent(6));
    PresentThree(successes, failures, rate);
    PresentThree(recoveries, true, true);
    PresentConcat([retries], AlwaysPresent(8));
    PresentPush([], retries);
    assert [] + [retries] == [retries];
    AllPresent(AlwaysPresent(8));
    PresentThree(method_, segment, severity);
  }

  // ------------------------------------------------------------ which evidence and completeness can arise

  predicate CanArise(payment: bool, category: FailureCategory, strength: real) {
    match category
    case CustomerAbandonment => false
    case UnknownFailure => strength == 0.40
    case PaymentRailDowntime =>
      strength == 0.80 || (payment && (strength == 1.0 || strength == 0.65 || strength == 0.40))
    case TechnicalFailure => strength == 0.80 || (payment && strength == 0.65)
    case MandateOrRecurringFailure => strength == 0.80 || (!payment && strength == 0.40)
    case _ => strength == 0.80
  }

  function ReasonFor(category: FailureCategory): string {
    match category
    case PaymentRailDowntime => "payment_rail_unavailable"
    case InsufficientFunds => "insufficient_funds"
    case AuthenticationFailure => "payment_authentication_failure"
    case BankOrIssuerDecline => "bank_declined"
    case ExpiredOrInvalidMethod => "expired_payment_method"
    case MandateOrRecurringFailure => "mandate_failure"
    case TechnicalFailure => "technical_failure"
    case CustomerAbandonment => ""
    case UnknownFailure => ""
  }

  lemma ReasonIsMapped(category: FailureCategory)
    requires category != CustomerAbandonment && category != UnknownFailure
    ensures MappedReason(Some(ReasonFor(category))) == Some(category)
  {
  }

  /** A payment or subscription that is normalized to the given category and strength. */
  function ExampleOf(payment: bool, category: FailureCategory, strength: real): Failed
    requires CanArise(payment, category, strength)
  {
    var nothing := PaymentEvidence(None, None, None, None);
    var gateway := PaymentEvidence(None, Some("SERVER_ERROR"), Some("payment_processing"), Some("gateway"));
    var down := DowntimeContext(Known, true, High);
    if strength == 0.80 then
      if payment then FailedPayment(nothing.(reason := Some(ReasonFor(category))), None, NO_DOWNTIME)
      else FailedSubscription("pending", Some(ReasonFor(category)))
    else if !payment then
      FailedSubscription(if category == MandateOrRecurringFailure then "pending" else "active", None)
    else if strength == 1.0 then FailedPayment(nothing.(reason := Some("")), None, down)
    else if strength == 0.65 then
      FailedPayment(gateway, None, if category == TechnicalFailure then NO_DOWNTIME else down)
    else FailedPayment(nothing, None, if category == UnknownFailure then NO_DOWNTIME else down)
  }

  lemma ExampleArises(payment: bool, category: FailureCategory, strength: real)
    requires CanArise(payment, category, strength)
    ensures ExampleOf(payment, category, strength).FailedPayment? == payment
    ensures Normalized(ExampleOf(payment, category, strength)) == Normalization(category, strength)
  {
    if strength == 0.80 {
      ReasonIsMapped(category);
    } else if !payment {
      assert Text.Lower("pending") == "pending" && Text.Lower("active") == "active";
    }
  }

  /** A stated reason that names one of seven categories. */
  predicate Names(reason: Option<string>, category: FailureCategory) {
    category != CustomerAbandonment && category != UnknownFailure && reason == Some(ReasonFor(category))
  }

  lemma NamesExactly(reason: Option<string>, category: FailureCategory)
    ensures Names(reason, category) <==> MappedReason(reason) == Some(category)
  {
    if category != CustomerAbandonment && category != UnknownFailure {
      ReasonIsMapped(category);
    }
  }

  ghost predicate NamesNone(reason: Option<string>) {
    forall category :: !Names(reason, category)
  }

  lemma NamesNoneExactly(reason: Option<string>)
    ensures NamesNone(reason) <==> MappedReason(reason).None?
  {
    forall category: FailureCategory
      ensures Names(reason, category) <==> MappedReason(reason) == Some(category)
    {
      NamesExactly(reason, category);
    }
    if MappedReason(reason).Some? {
      assert Names(reason, MappedReason(reason).value);
    }
  }

  /** A known downtime wins over a stated reason, a stated reason over the code, step and source of the gateway. */
  lemma PaymentNormalizedExactly(e: PaymentEvidence, downtime: DowntimeContext, category: FailureCategory)
    ensures var n, down := NormalizePayment(e, downtime), downtime.lookup == Known && downtime.degraded;
            && (down ==> n.category == PaymentRailDowntime)
            && (down ==> n.strength == if e.reason.Some? then 1.0
                                       else if e.code.Some? && (e.step.Some? || e.source.Some?) then 0.65 else 0.40)
            && (!down && Names(e.reason, category) ==> n == Normalization(category, 0.80))
            && (!down && NamesNone(e.reason) ==>
                  n == if e == PaymentEvidence(e.reason, Some("SERVER_ERROR"), Some("payment_processing"),
                                               Some("gateway"))
                       then Normalization(TechnicalFailure, 0.65) else Normalization(UnknownFailure, 0.40))
  {
    NamesExactly(e.reason, category);
    NamesNoneExactly(e.reason);
  }

  /** A subscription is normalized by its stated reason, and without one by being pending or halted. */
  lemma SubscriptionNormalizedExactly(status: string, reason: Option<string>, category: FailureCategory)
    ensures var n := Normalized(FailedSubscription(status, reason));
            && (Names(reason, category) ==> n == Normalization(category, 0.80))
            && (NamesNone(reason) ==>
                  n == Normalization(if Text.Lower(status) == "pending" || Text.Lower(status) == "halted"
                                     then MandateOrRecurringFailure else UnknownFailure, 0.40))
  {
    NamesExactly(reason, category);
    NamesNoneExactly(reason);
  }

  lemma NormalizedCanArise(failed: Failed)
    ensures CanArise(failed.FailedPayment?, Normalized(failed).category, Normalized(failed).strength)
  {
  }

  /** Exactly these strengths occur with each category. */
  lemma EvidenceIsExact(payment: bool, category: FailureCategory, strength: real)
    ensures (exists failed: Failed :: failed.FailedPayment? == payment
                                      && Normalized(failed) == Normalization(category, strength))
       <==> CanArise(payment, category, strength)
  {
    if CanArise(payment, category, strength) {
      ExampleArises(payment, category, strength);
    }
    forall failed: Failed | failed.FailedPayment? == payment && Normalized(failed) == Normalization(category, strength)
      ensures CanArise(payment, category, strength)
    {
      NormalizedCanArise(failed);
    }
  }

  /** A transaction carries no retry count and a subscription no method, so one feature is always missing. */
  lemma NeverComplete(facts: Facts)
    ensures 16 <= Present(Presence(facts)) <= 23
  {
    var h := HistoryOf(facts);
    FlagCount(h.successes90.Some?, h.failed30.Some?, h.successRate.Some?, facts.otherCases > 0,
              facts.failed.FailedSubscription?, MethodOf(facts.failed) != History.UNKNOWN_METHOD,
              facts.segment != "unknown", SeverityOf(facts.failed) != UnknownSeverity);
    UnknownMethodStays();
  }

  lemma UnknownMethodStays()
    ensures History.NormalizedMethod(Some(History.UNKNOWN_METHOD)) == History.UNKNOWN_METHOD
  {
    assert Text.Strip("unknown") == "unknown";
    assert Text.Lower("unknown") == "unknown";
  }

  function OnePayment(at: int): History.Snapshot {
    History.Snapshot(Some(at), "captured", Some("card"))
  }

  /** A failed payment for which the given number of features is missing. */
  function FactsMissing(evidence: PaymentEvidence, missing: nat): Facts {
    Facts(FailedPayment(evidence, if missing >= 4 then None else Some("card"),
                        if missing == 5 || missing == 6 || missing == 8
                        then NO_DOWNTIME.(lookup := LookupUnknown, severity := UnknownSeverity) else NO_DOWNTIME),
          if missing >= 7 then [] else if missing == 6 then [OnePayment(-100 * History.DAY)] else [OnePayment(-1)],
          0, if missing >= 2 then 0 else 1, if missing >= 3 then "unknown" else "REGULAR")
  }

  lemma HistoryOfOne(at: int, name: Option<string>)
    requires at < 0
    ensures var h := History.HistoryFeatures([OnePayment(at)], 0, name);
            h.successes90.Some? && h.failed30.Some? && (h.successRate.Some? <==> at >= -90 * History.DAY)
  {
    History.SelectOne(OnePayment(at), History.EligibleAt(0));
    History.SelectOne(OnePayment(at), History.AttemptIn90(0));
  }

  lemma MethodsKnown()
    ensures History.NormalizedMethod(Some("card")) != History.UNKNOWN_METHOD
    ensures History.NormalizedMethod(None) == History.UNKNOWN_METHOD
  {
    assert Text.Strip("card") == "card";
    assert |Text.Lower("card")| == 4;
  }

  lemma MissingAsAsked(evidence: PaymentEvidence, missing: nat)
    requires 1 <= missing <= 8
    ensures Present(Presence(FactsMissing(evidence, missing))) == 24 - missing
  {
    var facts := FactsMissing(evidence, missing);
    var h := HistoryOf(facts);
    FlagCount(h.successes90.Some?, h.failed30.Some?, h.successRate.Some?, facts.otherCases > 0,
              facts.failed.FailedSubscription?, MethodOf(facts.failed) != History.UNKNOWN_METHOD,
              facts.segment != "unknown", SeverityOf(facts.failed) != UnknownSeverity);
    MethodsKnown();
    if missing <= 6 {
      HistoryOfOne(if missing == 6 then -100 * History.DAY else -1, RawMethod(facts.failed));
    }
  }

  /** The features present are sixteen to twenty-three of the twenty-four, never all, and each count occurs. */
  lemma CompletenessIsExact(count: int)
    ensures (exists facts: Facts :: Completeness(facts) == count as real / 24.0) <==> 16 <= count <= 23
  {
    forall facts: Facts
      ensures 16 <= Present(Presence(facts)) <= 23
    {
      NeverComplete(facts);
    }
    if 16 <= count <= 23 {
      var nothing := PaymentEvidence(None, None, None, None);
      MissingAsAsked(nothing, 24 - count);
      assert Completeness(FactsMissing(nothing, 24 - count)) == count as real / 24.0;
    }
  }

  // ------------------------------------------------------------ what the confidence threshold can decide

  function ConfidenceOf(facts: Facts, probability: real): real {
    Analysis.Confidence(Completeness(facts), probability, Normalized(facts.failed).strength)
  }

  const CEILING := 0.98125

  const FLOOR := 0.38

  /** However certain the model is, the missing feature and the evidence confine the confidence. */
  lemma ConfidenceRange(facts: Facts, probability: real)
    ensures FLOOR <= ConfidenceOf(facts, probability) <= CEILING
    ensures Normalized(facts.failed).category == UnknownFailure ==> ConfidenceOf(facts, probability) <= 0.86125
  {
    NeverComplete(facts);
    NormalizedCanArise(facts.failed);
    ConfidenceBounds(Completeness(facts), probability, Normalized(facts.failed).strength);
  }

  lemma ConfidenceBounds(completeness: real, probability: real, strength: real)
    requires 16.0 / 24.0 <= completeness <= 23.0 / 24.0 && 0.40 <= strength <= 1.0
    ensures 0.30 + 0.20 * strength <= Analysis.Confidence(completeness, probability, strength)
         <= 0.78125 + 0.20 * strength
  {
    var certainty := Analysis.Clamp(2.0 * Analysis.Abs(Analysis.Clamp(probability) - 0.5));
    assert 0.30 <= 0.45 * completeness <= 0.43125;
  }

  /** Both ends are met, by a certain model on the best evidence and by an undecided one on none. */
  lemma RangeIsMet() returns (best: Facts, worst: Facts)
    ensures ConfidenceOf(best, 1.0) == CEILING && ConfidenceOf(worst, 0.5) == FLOOR
  {
    best := BestFacts();
    var nothing := PaymentEvidence(None, None, None, None);
    worst := FactsMissing(nothing, 8);
    MissingAsAsked(nothing, 8);
    EndConfidences();
  }

  lemma BestFacts() returns (best: Facts)
    ensures Completeness(best) == 23.0 / 24.0 && Normalized(best.failed).strength == 1.0
  {
    var reason := PaymentEvidence(Some("payment_rail_unavailable"), None, None, None);
    var facts := FactsMissing(reason, 1);
    MissingAsAsked(reason, 1);
    best := facts.(failed := facts.failed.(downtime := DowntimeContext(Known, true, High)));
    assert Presence(best) == Presence(facts);
  }

  lemma EndConfidences()
    ensures Analysis.Confidence(23.0 / 24.0, 1.0, 1.0) == CEILING
    ensures Analysis.Confidence(16.0 / 24.0, 0.5, 0.40) == FLOOR
  {
  }

  /** The executor holds the action back for approval. */
  predicate HeldBack(facts: Facts, probability: real, action: ActionType, amount: nat, currency: string,
                     attempts: nat, inFlight: bool, row: Policy.MerchantPolicyRow)
  {
    Policy.NeedsApproval(Policy.ExecutionContext(action, amount, currency, attempts,
                                                 Round6(ConfidenceOf(facts, probability)), inFlight),
                         Policy.FromMerchantRow(row))
  }

  /**
   * For an action within the amount limit a stored threshold decides something
   * only in between: above the ceiling every action is held back, at or below
   * the floor none is.
   */
  lemma ThresholdIsDecisive(action: ActionType, amount: nat, currency: string, attempts: nat, inFlight: bool,
                            row: Policy.MerchantPolicyRow)
    requires action != Stop && action != EscalateToHuman && amount <= row.autoActionLimit
    requires OnGrid(row.minimumAutoConfidence)
    ensures (forall facts: Facts, p: real :: HeldBack(facts, p, action, amount, currency, attempts, inFlight, row))
       <==> row.minimumAutoConfidence > CEILING
    ensures (forall facts: Facts, p: real :: !HeldBack(facts, p, action, amount, currency, attempts, inFlight, row))
       <==> row.minimumAutoConfidence <= FLOOR
  {
    forall facts: Facts, p: real
      ensures HeldBack(facts, p, action, amount, currency, attempts, inFlight, row)
         <==> Round6(ConfidenceOf(facts, p)) < row.minimumAutoConfidence
      ensures FLOOR <= Round6(ConfidenceOf(facts, p)) <= CEILING
    {
      Analysis.ApprovalGrounds(Policy.ExecutionContext(action, amount, currency, attempts,
                                                       Round6(ConfidenceOf(facts, p)), inFlight), row);
      ConfidenceRange(facts, p);
      RoundStaysWithin(ConfidenceOf(facts, p));
    }
    var best, worst := RangeIsMet();
    RoundedEnds();
    assert HeldBack(best, 1.0, action, amount, currency, attempts, inFlight, row)
      <==> CEILING < row.minimumAutoConfidence;
    assert HeldBack(worst, 0.5, action, amount, currency, attempts, inFlight, row)
      <==> FLOOR < row.minimumAutoConfidence;
  }

  lemma RoundedEnds()
    ensures Round6(CEILING) == CEILING && Round6(FLOOR) == FLOOR
  {
  }

  lemma RoundStaysWithin(confidence: real)
    requires FLOOR <= confidence <= CEILING
    ensures FLOOR <= Round6(confidence) <= CEILING
  {
  }

  // ------------------------------------------------------------ inputs of an analysis

  /** The inputs an analysis is given on these facts. */
  function InputsOf(facts: Facts, inference: Analysis.Inference, allowFallback: bool): Analysis.AnalysisInputs {
    var n := Normalized(facts.failed);
    match facts.failed
    case FailedPayment(_, _, downtime) =>
      Analysis.AnalysisInputs(Analysis.FromTransaction, n.category, RailIsDown(downtime), inference, allowFallback,
                              Completeness(facts), n.strength)
    case FailedSubscription(status, _) =>
      Analysis.AnalysisInputs(Analysis.FromSubscription(status), n.category, false, inference, allowFallback,
                              Completeness(facts), n.strength)
  }

  /** Some failed payment or subscription leads to these inputs. */
  ghost predicate Arises(inputs: Analysis.AnalysisInputs) {
    exists facts: Facts :: inputs == InputsOf(facts, inputs.inference, inputs.allowFallback)
  }

  /** A payment that failed without a stated reason, with one feature missing: the retry count. */
  lemma UnexplainedInputs(inference: Analysis.Inference, allowFallback: bool)
    ensures InputsOf(FactsMissing(PaymentEvidence(None, None, None, None), 1), inference, allowFallback)
         == Analysis.AnalysisInputs(Analysis.FromTransaction, UnknownFailure, false, inference, allowFallback,
                                    23.0 / 24.0, 0.40)
  {
    var nothing := PaymentEvidence(None, None, None, None);
    MissingAsAsked(nothing, 1);
    assert Completeness(FactsMissing(nothing, 1)) == 23.0 / 24.0;
    assert Normalized(FactsMissing(nothing, 1).failed) == Normalization(UnknownFailure, 0.40);
  }

  /** A degraded rail is always the category of its failure, and full strength takes a known downtime of a payment. */
  lemma ArisingInputs(facts: Facts, inference: Analysis.Inference, allowFallback: bool)
    ensures var inputs := InputsOf(facts, inference, allowFallback);
            && inputs.source.FromTransaction? == facts.failed.FailedPayment?
            && (facts.failed.FailedSubscription? ==> inputs.source.status == facts.failed.status)
            && (inputs.railDowntimeKnown ==> inputs.category == PaymentRailDowntime)
            && (inputs.evidence == 1.0 ==> inputs.railDowntimeKnown && inputs.source.FromTransaction?)
            && CanArise(inputs.source.FromTransaction?, inputs.category, inputs.evidence)
            && 16.0 / 24.0 <= inputs.completeness <= 23.0 / 24.0
  {
    NormalizedCanArise(facts.failed);
    NeverComplete(facts);
  }

  /** The severity counts as missing exactly when the lookup failed or did not say how bad the downtime is. */
  lemma SeverityExactly(failed: Failed)
    ensures SeverityOf(failed) == UnknownSeverity
       <==> && failed.FailedPayment?
            && (failed.downtime.lookup == LookupUnknown
                || (failed.downtime.degraded && failed.downtime.severity == UnknownSeverity))
  {
  }
}
