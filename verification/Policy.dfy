/** Reason codes, merchant configuration and the two evaluators of the policy engine. */
module Policy {
  import opened Domain

  datatype ReasonCode =
    | ActionNotAllowed
    | MaxRecoveryAttemptsReached
    | ContactCapReached
    | RailDowntimeRetryBlocked
    | EquivalentActionInFlight
    | CaseTerminal
    | ProviderSuccessAlreadyKnown
    | PaymentLinkDataInsufficient
    | AutomationDisabled
    | CooldownActive
    | AmountAboveAutoActionLimit
    | ConfidenceBelowAutoThreshold
    | ActionRequiresApproval
    | ManualContactApprovalRequired

  predicate IsApprovalReason(code: ReasonCode) {
    || code == AmountAboveAutoActionLimit || code == ConfidenceBelowAutoThreshold
    || code == ActionRequiresApproval || code == ManualContactApprovalRequired
  }

  predicate IsHardBlock(code: ReasonCode) {
    !IsApprovalReason(code)
  }

  predicate ConcernsCaseOrCaps(code: ReasonCode) {
    || code == CaseTerminal || code == ProviderSuccessAlreadyKnown || code == ActionNotAllowed
    || code == MaxRecoveryAttemptsReached || code == ContactCapReached
  }

  /** Runtime policy. The four override sets fall back to defaults when empty. */
  datatype PolicyConfig = PolicyConfig(
    autoActionLimit: nat,
    maxRecoveryAttempts: nat,
    maxContactsPer24h: nat,
    minimumAutoConfidence: real,
    cooldownMinutes: nat,
    automationEnabled: bool,
    allowed: set<ActionType>,
    approvalOnly: set<ActionType>,
    contactOverride: set<ActionType>,
    cooldownOverride: set<ActionType>,
    manualContactOverride: set<ActionType>)

  /** The persisted merchant row, which carries no override sets. */
  datatype MerchantPolicyRow = MerchantPolicyRow(
    autoActionLimit: nat,
    maxRecoveryAttempts: nat,
    maxContactsPer24h: nat,
    minimumAutoConfidence: real,
    cooldownMinutes: nat,
    automationEnabled: bool,
    allowed: set<ActionType>)

  function FromMerchantRow(row: MerchantPolicyRow): PolicyConfig {
    PolicyConfig(row.autoActionLimit, row.maxRecoveryAttempts, row.maxContactsPer24h,
                 row.minimumAutoConfidence, row.cooldownMinutes, row.automationEnabled,
                 row.allowed, {}, {}, {}, {})
  }

  datatype PolicyContext = PolicyContext(
    action: ActionType,
    amountAtRisk: nat,
    attemptsSoFar: nat,
    contactsLast24h: nat,
    confidence: real,
    linkDataSufficient: bool,
    caseTerminal: bool,
    providerSuccessKnown: bool,
    verifiedRailDowntime: bool,
    inFlight: set<ActionType>,
    autoExecutionRequested: bool,
    cooldownElapsed: Option<nat>,
    providerRetriesActive: bool)

  datatype PolicyDecision = PolicyDecision(eligible: bool, requiresApproval: bool, reasons: seq<ReasonCode>)

  function ContactActions(policy: PolicyConfig): set<ActionType> {
    if policy.contactOverride != {} then policy.contactOverride else {SendRecoveryMessage}
  }

  function CooldownActions(policy: PolicyConfig): set<ActionType> {
    if policy.cooldownOverride != {} then policy.cooldownOverride
    else {RetrySameMethod, SendRecoveryMessage}
  }

  function ManualContactActions(policy: PolicyConfig): set<ActionType> {
    if policy.manualContactOverride != {} then policy.manualContactOverride else {EscalateToHuman}
  }

  predicate AttemptCapApplies(ctx: PolicyContext) {
    ctx.action != Stop && !(ctx.action == Wait && ctx.providerRetriesActive)
  }

  predicate AttemptCapReached(ctx: PolicyContext, policy: PolicyConfig) {
    AttemptCapApplies(ctx) && ctx.attemptsSoFar >= policy.maxRecoveryAttempts
  }

  predicate ContactCapHit(ctx: PolicyContext, policy: PolicyConfig) {
    ctx.action in ContactActions(policy) && ctx.contactsLast24h >= policy.maxContactsPer24h
  }

  predicate CooldownIsActive(ctx: PolicyContext, policy: PolicyConfig) {
    ctx.cooldownElapsed.Some? && ctx.cooldownElapsed.value < policy.cooldownMinutes
  }

  /**
   * The condition behind each reason code. STOP is answered only for a resolved
   * case; every other code is about interventions.
   */
  predicate Raised(code: ReasonCode, ctx: PolicyContext, policy: PolicyConfig) {
    match code
    case CaseTerminal => ctx.caseTerminal
    case ProviderSuccessAlreadyKnown => ctx.providerSuccessKnown
    case _ => ctx.action != Stop && InterventionRaised(code, ctx, policy)
  }

  predicate InterventionRaised(code: ReasonCode, ctx: PolicyContext, policy: PolicyConfig) {
    match code
    case ActionNotAllowed => ctx.action !in policy.allowed
    case MaxRecoveryAttemptsReached => AttemptCapReached(ctx, policy)
    case ContactCapReached => ContactCapHit(ctx, policy)
    case RailDowntimeRetryBlocked => ctx.action == RetrySameMethod && ctx.verifiedRailDowntime
    case EquivalentActionInFlight => ctx.action in ctx.inFlight
    case CaseTerminal => false
    case ProviderSuccessAlreadyKnown => false
    case PaymentLinkDataInsufficient => UsesPaymentLink(ctx.action) && !ctx.linkDataSufficient
    case AutomationDisabled => ctx.autoExecutionRequested && !policy.automationEnabled
    case CooldownActive => ctx.action in CooldownActions(policy) && CooldownIsActive(ctx, policy)
    case AmountAboveAutoActionLimit => ctx.amountAtRisk > policy.autoActionLimit
    case ConfidenceBelowAutoThreshold => ctx.confidence < policy.minimumAutoConfidence
    case ActionRequiresApproval => ctx.action in policy.approvalOnly
    case ManualContactApprovalRequired => ctx.action in ManualContactActions(policy)
  }

  predicate Eligible(ctx: PolicyContext, policy: PolicyConfig) {
    forall code: ReasonCode :: IsHardBlock(code) ==> !Raised(code, ctx, policy)
  }

  predicate NeedsApproval(ctx: PolicyContext, policy: PolicyConfig) {
    exists code: ReasonCode :: IsApprovalReason(code) && Raised(code, ctx, policy)
  }

  /** The decision the evaluators must reach, stated without any list building. */
  ghost predicate IsDecision(d: PolicyDecision, ctx: PolicyContext, policy: PolicyConfig) {
    && d.eligible == Eligible(ctx, policy)
    && d.requiresApproval == NeedsApproval(ctx, policy)
    && (forall code :: code in d.reasons <==> Raised(code, ctx, policy))
    && StrictlyOrdered(d.reasons)
  }

  // ------------------------------------------------------------ reason sorting

  function OrderIndex(code: ReasonCode): nat {
    match code
    case ActionNotAllowed => 0
    case MaxRecoveryAttemptsReached => 1
    case ContactCapReached => 2
    case RailDowntimeRetryBlocked => 3
    case EquivalentActionInFlight => 4
    case CaseTerminal => 5
    case ProviderSuccessAlreadyKnown => 6
    case PaymentLinkDataInsufficient => 7
    case AutomationDisabled => 8
    case CooldownActive => 9
    case AmountAboveAutoActionLimit => 10
    case ConfidenceBelowAutoThreshold => 11
    case ActionRequiresApproval => 12
    case ManualContactApprovalRequired => 13
  }

  /** First occurrences only. */
  function Distinct(codes: seq<ReasonCode>): seq<ReasonCode> {
    if codes == [] then []
    else
      var rest := Distinct(codes[..|codes| - 1]);
      if codes[|codes| - 1] in rest then rest else rest + [codes[|codes| - 1]]
  }

  function Insert(code: ReasonCode, sorted: seq<ReasonCode>): seq<ReasonCode> {
    if sorted == [] || OrderIndex(code) <= OrderIndex(sorted[0]) then [code] + sorted
    else [sorted[0]] + Insert(code, sorted[1..])
  }

  function SortByOrder(codes: seq<ReasonCode>): seq<ReasonCode> {
    if codes == [] then [] else Insert(codes[0], SortByOrder(codes[1..]))
  }

  function SortPolicyReasons(codes: seq<ReasonCode>): seq<ReasonCode> {
    SortByOrder(Distinct(codes))
  }

  predicate StrictlyOrdered(codes: seq<ReasonCode>) {
    forall i, j :: 0 <= i < j < |codes| ==> OrderIndex(codes[i]) < OrderIndex(codes[j])
  }

  predicate NoDuplicates(codes: seq<ReasonCode>) {
    forall i, j :: 0 <= i < j < |codes| ==> codes[i] != codes[j]
  }

  /** Sorting keeps exactly the codes given and never repeats one, so the decision's validator cannot fail. */
  lemma {:induction false} SortedReasons(codes: seq<ReasonCode>)
    ensures StrictlyOrdered(SortPolicyReasons(codes))
    ensures forall code :: code in SortPolicyReasons(codes) <==> code in codes
  {
    DistinctCodes(codes);
    SortOfDistinct(Distinct(codes));
  }

  lemma {:induction false} DistinctCodes(codes: seq<ReasonCode>)
    ensures NoDuplicates(Distinct(codes))
    ensures forall code :: code in Distinct(codes) <==> code in codes
  {
    if codes != [] {
      var front, last := codes[..|codes| - 1], codes[|codes| - 1];
      DistinctCodes(front);
      assert codes == front + [last];
    }
  }

  lemma {:induction false} SortOfDistinct(codes: seq<ReasonCode>)
    requires NoDuplicates(codes)
    ensures StrictlyOrdered(SortByOrder(codes))
    ensures forall code :: code in SortByOrder(codes) <==> code in codes
  {
    if codes != [] {
      SortOfDistinct(codes[1..]);
      assert codes == [codes[0]] + codes[1..];
      InsertKeepsOrder(codes[0], SortByOrder(codes[1..]));
    }
  }

  lemma {:induction false} InsertKeepsOrder(code: ReasonCode, sorted: seq<ReasonCode>)
    requires StrictlyOrdered(sorted) && code !in sorted
    ensures StrictlyOrdered(Insert(code, sorted))
    ensures forall c :: c in Insert(code, sorted) <==> c == code || c in sorted
  {
    if sorted != [] {
      OrderIndexInjective(code, sorted[0]);
      if OrderIndex(code) > OrderIndex(sorted[0]) {
        assert sorted == [sorted[0]] + sorted[1..];
        InsertKeepsOrder(code, sorted[1..]);
        var tail := Insert(code, sorted[1..]);
        forall j | 0 <= j < |tail| ensures OrderIndex(sorted[0]) < OrderIndex(tail[j]) {
          assert tail[j] in tail;
        }
      }
    }
  }

  lemma OrderIndexInjective(a: ReasonCode, b: ReasonCode)
    ensures OrderIndex(a) == OrderIndex(b) <==> a == b
  {
  }

  /** The order in which reasons are listed. */
  const LISTED: seq<ReasonCode> :=
    [ActionNotAllowed, MaxRecoveryAttemptsReached, ContactCapReached, RailDowntimeRetryBlocked,
     EquivalentActionInFlight, CaseTerminal, ProviderSuccessAlreadyKnown, PaymentLinkDataInsufficient,
     AutomationDisabled, CooldownActive,
     AmountAboveAutoActionLimit, ConfidenceBelowAutoThreshold, ActionRequiresApproval, ManualContactApprovalRequired]

  predicate ListedBefore(a: ReasonCode, b: ReasonCode) {
    exists k, l :: 0 <= k < l < |LISTED| && LISTED[k] == a && LISTED[l] == b
  }

  lemma ListedInOrder(a: ReasonCode, b: ReasonCode)
    requires OrderIndex(a) < OrderIndex(b)
    ensures ListedBefore(a, b)
  {
    IndexIsListed(a);
    IndexIsListed(b);
  }

  lemma IndexIsListed(code: ReasonCode)
    ensures OrderIndex(code) < |LISTED| && LISTED[OrderIndex(code)] == code
  {
  }

  /** Sorted reasons stand in the order of the list. */
  lemma ReasonsAreListed(codes: seq<ReasonCode>, i: nat, j: nat)
    requires i < j < |SortPolicyReasons(codes)|
    ensures ListedBefore(SortPolicyReasons(codes)[i], SortPolicyReasons(codes)[j])
  {
    SortedReasons(codes);
    ListedInOrder(SortPolicyReasons(codes)[i], SortPolicyReasons(codes)[j]);
  }

  // ------------------------------------------------------------ evaluators

  method EvaluatePolicy(ctx: PolicyContext, policy: PolicyConfig) returns (d: PolicyDecision)
    ensures IsDecision(d, ctx, policy)
  {
    if ctx.action == Stop {
      d := EvaluateStop(ctx, policy);
    } else {
      d := EvaluateIntervention(ctx, policy);
    }
  }

  method EvaluateStop(ctx: PolicyContext, policy: PolicyConfig) returns (d: PolicyDecision)
    requires ctx.action == Stop
    ensures IsDecision(d, ctx, policy)
  {
    var reasons := StopReasons(ctx, policy);
    var combined := SortPolicyReasons(reasons);
    SortedReasons(reasons);
    d := PolicyDecision(!exists code :: code in combined && IsHardBlock(code), false, combined);
  }

  method StopReasons(ctx: PolicyContext, policy: PolicyConfig) returns (reasons: seq<ReasonCode>)
    requires ctx.action == Stop
    ensures forall code :: code in reasons <==> Raised(code, ctx, policy)
  {
    reasons := [];
    reasons := AppendWhen(reasons, ctx.caseTerminal, CaseTerminal);
    reasons := AppendWhen(reasons, ctx.providerSuccessKnown, ProviderSuccessAlreadyKnown);
  }

  method EvaluateIntervention(ctx: PolicyContext, policy: PolicyConfig) returns (d: PolicyDecision)
    requires ctx.action != Stop
    ensures IsDecision(d, ctx, policy)
  {
    var reasons := HardReasons(ctx, policy);
    var approvalReasons := ApprovalReasons(ctx, policy);
    var hardBlocked := exists code :: code in reasons && IsHardBlock(code);
    var combined := SortPolicyReasons(reasons + approvalReasons);
    SortedReasons(reasons + approvalReasons);
    if approvalReasons != [] {
      assert approvalReasons[0] in approvalReasons;
    }
    d := PolicyDecision(!hardBlocked, approvalReasons != [], combined);
  }

  function AppendWhen(reasons: seq<ReasonCode>, condition: bool, code: ReasonCode): (r: seq<ReasonCode>)
    ensures forall c :: c in r <==> c in reasons || (condition && c == code)
    ensures |reasons| <= |r|
  {
    if condition then reasons + [code] else reasons
  }

  method HardReasons(ctx: PolicyContext, policy: PolicyConfig) returns (reasons: seq<ReasonCode>)
    requires ctx.action != Stop
    ensures forall code :: code in reasons <==> IsHardBlock(code) && Raised(code, ctx, policy)
  {
    reasons := CaseAndCapReasons(ctx, policy);
    var readiness := ReadinessReasons(ctx, policy);
    reasons := reasons + readiness;
  }

  method CaseAndCapReasons(ctx: PolicyContext, policy: PolicyConfig) returns (reasons: seq<ReasonCode>)
    requires ctx.action != Stop
    ensures forall code :: code in reasons <==> ConcernsCaseOrCaps(code) && Raised(code, ctx, policy)
  {
    reasons := [];
    reasons := AppendWhen(reasons, ctx.caseTerminal, CaseTerminal);
    reasons := AppendWhen(reasons, ctx.providerSuccessKnown, ProviderSuccessAlreadyKnown);
    reasons := AppendWhen(reasons, ctx.action !in policy.allowed, ActionNotAllowed);
    reasons := AppendWhen(reasons, AttemptCapReached(ctx, policy), MaxRecoveryAttemptsReached);
    reasons := AppendWhen(reasons, ContactCapHit(ctx, policy), ContactCapReached);
  }

  method ReadinessReasons(ctx: PolicyContext, policy: PolicyConfig) returns (reasons: seq<ReasonCode>)
    requires ctx.action != Stop
    ensures forall code :: code in reasons
                      <==> IsHardBlock(code) && !ConcernsCaseOrCaps(code) && Raised(code, ctx, policy)
  {
    reasons := [];
    reasons := AppendWhen(reasons, ctx.action == RetrySameMethod && ctx.verifiedRailDowntime, RailDowntimeRetryBlocked);
    reasons := AppendWhen(reasons, ctx.action in ctx.inFlight, EquivalentActionInFlight);
    var linkDataMissing := UsesPaymentLink(ctx.action) && !ctx.linkDataSufficient;
    reasons := AppendWhen(reasons, linkDataMissing, PaymentLinkDataInsufficient);
    reasons := AppendWhen(reasons, ctx.autoExecutionRequested && !policy.automationEnabled, AutomationDisabled);
    var cooling := ctx.action in CooldownActions(policy) && CooldownIsActive(ctx, policy);
    reasons := AppendWhen(reasons, cooling, CooldownActive);
  }

  method ApprovalReasons(ctx: PolicyContext, policy: PolicyConfig) returns (reasons: seq<ReasonCode>)
    requires ctx.action != Stop
    ensures forall code :: code in reasons <==> IsApprovalReason(code) && Raised(code, ctx, policy)
  {
    reasons := [];
    reasons := AppendWhen(reasons, ctx.amountAtRisk > policy.autoActionLimit, AmountAboveAutoActionLimit);
    reasons := AppendWhen(reasons, ctx.confidence < policy.minimumAutoConfidence, ConfidenceBelowAutoThreshold);
    reasons := AppendWhen(reasons, ctx.action in policy.approvalOnly, ActionRequiresApproval);
    reasons := AppendWhen(reasons, ctx.action in ManualContactActions(policy), ManualContactApprovalRequired);
  }

  /** The contract leaves no freedom: two decisions for the same question are equal. */
  lemma DecisionUnique(d: PolicyDecision, e: PolicyDecision, ctx: PolicyContext, policy: PolicyConfig)
    requires IsDecision(d, ctx, policy) && IsDecision(e, ctx, policy)
    ensures d == e
  {
    OrderedUnique(d.reasons, e.reasons);
  }

  lemma {:induction false} OrderedUnique(a: seq<ReasonCode>, b: seq<ReasonCode>)
    requires StrictlyOrdered(a) && StrictlyOrdered(b)
    requires forall code :: code in a <==> code in b
    ensures a == b
  {
    if a != [] { assert a[0] in b; }
    if b != [] { assert b[0] in a; }
    if a != [] {
      assert a[0] in b && b[0] in a;
      assert OrderIndex(a[0]) == OrderIndex(b[0]);
      OrderIndexInjective(a[0], b[0]);
      assert a == [a[0]] + a[1..] && b == [b[0]] + b[1..];
      assert a[0] !in a[1..] && b[0] !in b[1..];
      forall code ensures code in a[1..] <==> code in b[1..] {
        assert code in a <==> code == a[0] || code in a[1..];
        assert code in b <==> code == b[0] || code in b[1..];
      }
      OrderedUnique(a[1..], b[1..]);
    }
  }

  // ------------------------------------------------------------ relational results

  /** `q` differs from `p` only by tighter caps, a smaller allowed set or disabled automation. */
  ghost predicate Tighter(q: PolicyConfig, p: PolicyConfig) {
    && q.maxRecoveryAttempts <= p.maxRecoveryAttempts
    && q.maxContactsPer24h <= p.maxContactsPer24h
    && q.allowed <= p.allowed
    && (q.automationEnabled ==> p.automationEnabled)
    && q.cooldownMinutes == p.cooldownMinutes
    && q.contactOverride == p.contactOverride
    && q.cooldownOverride == p.cooldownOverride
  }

  lemma TighterPolicyBlocksMore(ctx: PolicyContext, q: PolicyConfig, p: PolicyConfig)
    requires Tighter(q, p) && Eligible(ctx, q)
    ensures Eligible(ctx, p)
  {
    forall code: ReasonCode | IsHardBlock(code)
      ensures !Raised(code, ctx, p)
    {
      assert !Raised(code, ctx, q);
    }
  }

  /** `q` asks for approval at a lower amount or a higher confidence than `p`. */
  ghost predicate Stricter(q: PolicyConfig, p: PolicyConfig) {
    && q.autoActionLimit <= p.autoActionLimit
    && q.minimumAutoConfidence >= p.minimumAutoConfidence
    && q.approvalOnly == p.approvalOnly
    && q.manualContactOverride == p.manualContactOverride
  }

  lemma StricterPolicyKeepsApproval(ctx: PolicyContext, q: PolicyConfig, p: PolicyConfig)
    requires Stricter(q, p) && NeedsApproval(ctx, p)
    ensures NeedsApproval(ctx, q)
  {
    var code: ReasonCode :| IsApprovalReason(code) && Raised(code, ctx, p);
    assert Raised(code, ctx, q);
  }

  // ------------------------------------------------------------ the two contexts

  /** An empty override set stands for the default. */
  function Or(override_: set<ActionType>, default_: set<ActionType>): set<ActionType> {
    if override_ == {} then default_ else override_
  }

  /** When any question is answered "eligible", whatever the configuration. */
  lemma EligibleExactly(ctx: PolicyContext, policy: PolicyConfig)
    ensures Eligible(ctx, policy)
       <==> && !ctx.caseTerminal && !ctx.providerSuccessKnown
            && (ctx.action == Stop
                || (&& ctx.action in policy.allowed
                    && (ctx.attemptsSoFar < policy.maxRecoveryAttempts
                        || (ctx.action == Wait && ctx.providerRetriesActive))
                    && (ctx.action in Or(policy.contactOverride, {SendRecoveryMessage}) ==>
                          ctx.contactsLast24h < policy.maxContactsPer24h)
                    && !(ctx.action == RetrySameMethod && ctx.verifiedRailDowntime)
                    && ctx.action !in ctx.inFlight
                    && (ctx.action == CreatePaymentLink || ctx.action == RequestAlternatePaymentMethod ==>
                          ctx.linkDataSufficient)
                    && (ctx.autoExecutionRequested ==> policy.automationEnabled)
                    && (ctx.action in Or(policy.cooldownOverride, {RetrySameMethod, SendRecoveryMessage}) ==>
                          ctx.cooldownElapsed.None? || ctx.cooldownElapsed.value >= policy.cooldownMinutes)))
  {
    if Eligible(ctx, policy) {
      assert !Raised(CaseTerminal, ctx, policy) && !Raised(ProviderSuccessAlreadyKnown, ctx, policy);
      assert !Raised(ActionNotAllowed, ctx, policy) && !Raised(MaxRecoveryAttemptsReached, ctx, policy);
      assert !Raised(ContactCapReached, ctx, policy) && !Raised(RailDowntimeRetryBlocked, ctx, policy);
      assert !Raised(EquivalentActionInFlight, ctx, policy) && !Raised(PaymentLinkDataInsufficient, ctx, policy);
      assert !Raised(AutomationDisabled, ctx, policy) && !Raised(CooldownActive, ctx, policy);
    }
  }

  /** When any question is answered "with approval", whatever the configuration. */
  lemma ApprovalExactly(ctx: PolicyContext, policy: PolicyConfig)
    ensures NeedsApproval(ctx, policy)
       <==> && ctx.action != Stop
            && (|| ctx.amountAtRisk > policy.autoActionLimit || ctx.confidence < policy.minimumAutoConfidence
                || ctx.action in policy.approvalOnly
                || ctx.action in Or(policy.manualContactOverride, {EscalateToHuman}))
  {
    if NeedsApproval(ctx, policy) {
      var code: ReasonCode :| IsApprovalReason(code) && Raised(code, ctx, policy);
    } else {
      assert !Raised(ManualContactApprovalRequired, ctx, policy) && !Raised(ActionRequiresApproval, ctx, policy);
      assert !Raised(AmountAboveAutoActionLimit, ctx, policy) && !Raised(ConfidenceBelowAutoThreshold, ctx, policy);
    }
  }

  /** What analysis asks: nothing in flight, no auto-execution, link data taken as sufficient. */
  function AnalysisContext(action: ActionType, amount: nat, attempts: nat, confidence: real,
                           railDowntime: bool, providerRetriesActive: bool): PolicyContext
  {
    PolicyContext(action, amount, attempts, 0, confidence, true, false, false,
                  railDowntime, {}, false, Some(999), providerRetriesActive)
  }

  /** What the executor asks just before acting. */
  function ExecutionContext(action: ActionType, amount: nat, currency: string, attempts: nat,
                            confidence: real, linkInFlight: bool): PolicyContext
  {
    PolicyContext(action, amount, attempts, 0, confidence, amount > 0 && currency != "", false, false,
                  false, if linkInFlight then {CreatePaymentLink, RequestAlternatePaymentMethod} else {},
                  true, Some(999), false)
  }

  /** Execution eligibility refines analysis eligibility for everything the executor can run. */
  lemma ExecutionRefinesAnalysis(action: ActionType, amount: nat, currency: string, attempts: nat,
                                 c: real, d: real, linkInFlight: bool,
                                 railDowntime: bool, retries: bool, policy: PolicyConfig)
    requires IsExecutable(action) && action != Stop
    requires Eligible(ExecutionContext(action, amount, currency, attempts, d, linkInFlight), policy)
    ensures Eligible(AnalysisContext(action, amount, attempts, c, railDowntime, retries), policy)
  {
    var e := ExecutionContext(action, amount, currency, attempts, d, linkInFlight);
    var a := AnalysisContext(action, amount, attempts, c, railDowntime, retries);
    forall code: ReasonCode | IsHardBlock(code)
      ensures !Raised(code, a, policy)
    {
      assert !Raised(code, e, policy);
    }
  }

  /** Exactly when the executor's policy question is answered "eligible". */
  lemma ExecutionEligibleExactly(action: ActionType, amount: nat, currency: string, attempts: nat,
                                 confidence: real, linkInFlight: bool, row: MerchantPolicyRow)
    requires IsExecutable(action)
    ensures Eligible(ExecutionContext(action, amount, currency, attempts, confidence, linkInFlight),
                     FromMerchantRow(row))
       <==> action == Stop
            || (&& action in row.allowed && attempts < row.maxRecoveryAttempts && row.automationEnabled
                && (UsesPaymentLink(action) ==> amount > 0 && currency != "" && !linkInFlight))
  {
    var policy := FromMerchantRow(row);
    var e := ExecutionContext(action, amount, currency, attempts, confidence, linkInFlight);
    if Eligible(e, policy) && action != Stop {
      assert !Raised(ActionNotAllowed, e, policy) && !Raised(MaxRecoveryAttemptsReached, e, policy);
      assert !Raised(AutomationDisabled, e, policy) && !Raised(EquivalentActionInFlight, e, policy);
      assert !Raised(PaymentLinkDataInsufficient, e, policy);
    }
  }

  /** With a policy loaded from the merchant row an escalation always goes through approval. */
  lemma EscalationNeedsApproval(ctx: PolicyContext, row: MerchantPolicyRow)
    requires ctx.action == EscalateToHuman
    ensures NeedsApproval(ctx, FromMerchantRow(row))
  {
    assert Raised(ManualContactApprovalRequired, ctx, FromMerchantRow(row));
  }

  /** An override set can lift that: the fact is about merchant rows, not about every configuration. */
  lemma EscalationCanSkipApproval(ctx: PolicyContext, policy: PolicyConfig)
    requires ctx.action == EscalateToHuman
    ensures NeedsApproval(ctx, policy)
       <==> EscalateToHuman in ManualContactActions(policy) || EscalateToHuman in policy.approvalOnly
            || ctx.amountAtRisk > policy.autoActionLimit
            || ctx.confidence < policy.minimumAutoConfidence
  {
    if NeedsApproval(ctx, policy) {
      var code: ReasonCode :| IsApprovalReason(code) && Raised(code, ctx, policy);
    } else {
      assert !Raised(ManualContactApprovalRequired, ctx, policy) && !Raised(ActionRequiresApproval, ctx, policy);
      assert !Raised(AmountAboveAutoActionLimit, ctx, policy) && !Raised(ConfidenceBelowAutoThreshold, ctx, policy);
    }
  }
}
