/**
 * The recovery-case protocol as a step function: one step per committed
 * service call, with the provider and the process crashing at will.
 */
module Protocol {
  import opened Domain
  import opened Registry
  import opened Selection
  import opened Cases
  import Policy
  import Analysis
  import Text

  datatype ServiceError =
    | CaseNotFound
    | UnsupportedAction
    | ActionNotFound
    | StaleRecommendation
    | ActionBlocked
    | CaseNotActionable
    | ActionConflict
    | MultipleRowsFound
    | AnalysisNotAllowed
    | WorkflowFailed(error: WorkflowError)

  function Lift(r: Result<CaseState, WorkflowError>): Result<CaseState, ServiceError> {
    match r
    case Success(c) => Success(c)
    case Failure(e) => Failure(WorkflowFailed(e))
  }

  // ------------------------------------------------------------ action queries

  predicate BlocksLinks(row: ActionRow) {
    UsesPaymentLink(row.action) && IsBlocking(row.status)
  }

  /** What a single-result query finds; two matches are an error of the query itself. */
  datatype Lookup = NoRow | OneRow(index: nat) | ManyRows

  function BlockingLink(actions: seq<ActionRow>): Lookup {
    if actions == [] then NoRow
    else
      var front := BlockingLink(actions[..|actions| - 1]);
      if !BlocksLinks(actions[|actions| - 1]) then front
      else if front.NoRow? then OneRow(|actions| - 1)
      else ManyRows
  }

  /** The row holding the idempotency key built from the run's recommendation and the action type. */
  function RowForKey(actions: seq<ActionRow>, run: nat, action: ActionType): (r: Option<nat>)
    ensures r.Some? ==> r.value < |actions| && actions[r.value].run == run && actions[r.value].action == action
    ensures r.None? ==> forall i :: 0 <= i < |actions| ==> actions[i].run != run || actions[i].action != action
  {
    if actions == [] then None
    else
      var last := |actions| - 1;
      if actions[last].run == run && actions[last].action == action then Some(last)
      else RowForKey(actions[..last], run, action)
  }

  function MaxAttempt(actions: seq<ActionRow>): nat {
    if actions == [] then 0
    else
      var front := MaxAttempt(actions[..|actions| - 1]);
      if actions[|actions| - 1].attempt > front then actions[|actions| - 1].attempt else front
  }

  function NextAttempt(actions: seq<ActionRow>): nat {
    MaxAttempt(actions) + 1
  }

  function RunRows(c: CaseState, run: nat): seq<Row> {
    if run < |c.runs| then c.runs[run] else []
  }

  function WithRow(c: CaseState, action: ActionType, status: ActionStatus, run: nat,
                   requiresApproval: bool): CaseState {
    c.(actions := c.actions + [ActionRow(action, status, NextAttempt(c.actions), run, requiresApproval, false)])
  }

  function WithStatus(c: CaseState, index: nat, status: ActionStatus): CaseState
    requires index < |c.actions|
  {
    c.(actions := c.actions[index := c.actions[index].(status := status)])
  }

  function WithLink(c: CaseState, index: nat): CaseState
    requires index < |c.actions|
  {
    c.(actions := c.actions[index := c.actions[index].(status := Succeeded, hasLinkId := true)])
  }

  // ------------------------------------------------------------ creating an action

  /** Answer of the provider's read by reference; only a match changes anything modelled here. */
  datatype LinkLookup = NoClient | LookupFailed | LinkNotFound | LinkAmbiguous | LinkFound

  predicate Reconcilable(row: ActionRow) {
    UsesPaymentLink(row.action) &&
    (row.status == ActionExecuting || row.status == Unknown || (row.status == Succeeded && !row.hasLinkId))
  }

  /** Settles an unresolved link action from a provider read; the process may die between its two commits. */
  function Reconcile(c: CaseState, index: nat, lookup: LinkLookup, crash: bool, at: int): CaseState
    requires index < |c.actions|
  {
    if !Reconcilable(c.actions[index]) || lookup != LinkFound || c.executor != NoExecutor then c
    else
      var settled := WithLink(c, index);
      if crash || c.status != Executing then settled
      else
        match Transition(settled, settled.version, ActionAcceptedOrUnknown, ContextAt(at).(action := Some(index)))
        case Success(d) => d
        case Failure(_) => settled
  }

  function ExecuteStop(c: CaseState, at: int): Result<CaseState, WorkflowError> {
    Transition(c, c.version, StopSelected, ContextAt(at).(reason := "Operator selected STOP."))
  }

  function ExecuteWait(c: CaseState, run: nat, at: int): Result<CaseState, WorkflowError> {
    Transition(WithRow(c, Wait, ActionScheduled, run, false), c.version, ScheduleAction,
               ContextAt(at).(action := Some(|c.actions|), analysisRun := Some(run), scheduledFor := Some(at)))
  }

  function StageApproval(c: CaseState, run: nat, action: ActionType, at: int): Result<CaseState, WorkflowError> {
    Transition(WithRow(c, action, PendingApproval, run, true), c.version, ApprovalRequired,
               ContextAt(at).(action := Some(|c.actions|), analysisRun := Some(run)))
  }

  function BeginLink(c: CaseState, run: nat, action: ActionType, at: int): Result<CaseState, WorkflowError> {
    match Transition(WithRow(c, action, ActionExecuting, run, false), c.version, AutoExecute,
                     ContextAt(at).(action := Some(|c.actions|)))
    case Success(d) => Success(d.(executor := ReadyToPost(|c.actions|)))
    case Failure(e) => Failure(e)
  }

  /** The policy question asked right before acting, from the case as it stands. */
  function Question(c: CaseState, row: Row): Policy.PolicyContext {
    Policy.ExecutionContext(row.action, c.amountAtRisk, c.currency, |c.actions|, row.confidence,
                            BlockingLink(c.actions) != NoRow)
  }

  function CreateAction(c: CaseState, policy: Policy.MerchantPolicyRow, run: nat, action: ActionType,
                        lookup: LinkLookup, crash: bool, at: int): Result<CaseState, ServiceError>
  {
    if !IsExecutable(action) then Failure(UnsupportedAction)
    else if c.currentRun != Some(run) then Failure(StaleRecommendation)
    else
      var selected := SelectCandidateRow(RunRows(c, run));
      if selected.None? || selected.value.action != action then Failure(StaleRecommendation)
      else if !selected.value.eligible then Failure(ActionBlocked)
      else
        var existing := RowForKey(c.actions, run, action);
        if existing.Some? then Success(Reconcile(c, existing.value, lookup, crash, at))
        else if c.status != Recommended then Failure(CaseNotActionable)
        else Dispatch(c, policy, run, selected.value, at)
  }

  /** Policy check and branch choice for a fresh action on a RECOMMENDED case. */
  function Dispatch(c: CaseState, policy: Policy.MerchantPolicyRow, run: nat, row: Row, at: int)
    : Result<CaseState, ServiceError>
  {
    var config := Policy.FromMerchantRow(policy);
    if BlockingLink(c.actions) == ManyRows then Failure(MultipleRowsFound)
    else if !Policy.Eligible(Question(c, row), config) then Failure(ActionBlocked)
    else if BlockingLink(c.actions) != NoRow && UsesPaymentLink(row.action) then Failure(ActionConflict)
    else if row.action == Stop then Lift(ExecuteStop(c, at))
    else if row.action == Wait then Lift(ExecuteWait(c, run, at))
    else if Policy.NeedsApproval(Question(c, row), config) then Lift(StageApproval(c, run, row.action, at))
    else Lift(BeginLink(c, run, row.action, at))
  }

  // ------------------------------------------------------------ approval

  function Approve(c: CaseState, index: nat, expectedVersion: nat, at: int): Result<CaseState, ServiceError> {
    if index >= |c.actions| then Failure(ActionNotFound)
    else if IsTerminal(c.status) then Failure(CaseNotActionable)
    else if c.actions[index].status != PendingApproval then Failure(ActionConflict)
    else if c.status != AwaitingApproval then Failure(ActionConflict)
    else if c.version != expectedVersion then Failure(WorkflowFailed(StaleVersion))
    else if !IsSelected(c, c.actions[index]) then Failure(StaleRecommendation)
    else
      match BlockingLink(c.actions)
      case ManyRows => Failure(MultipleRowsFound)
      case OneRow(other) => if other != index then Failure(ActionConflict) else StartApproved(c, index, at)
      case NoRow => StartApproved(c, index, at)
  }

  /** The action's recommendation belongs to the current run and is the one selection picks there. */
  predicate IsSelected(c: CaseState, row: ActionRow) {
    && c.currentRun == Some(row.run)
    && SelectCandidateRow(RunRows(c, row.run)).Some?
    && SelectCandidateRow(RunRows(c, row.run)).value.action == row.action
  }

  function StartApproved(c: CaseState, index: nat, at: int): Result<CaseState, ServiceError>
    requires index < |c.actions|
  {
    match Transition(WithStatus(c, index, ActionExecuting), c.version, ApprovedNow,
                     ContextAt(at).(action := Some(index), approverKnown := true))
    case Failure(e) => Failure(WorkflowFailed(e))
    case Success(d) => Success(d.(executor := DispatchApproved(c.actions[index].action, index)))
  }

  function DispatchApproved(action: ActionType, index: nat): Executor {
    if UsesPaymentLink(action) then ReadyToPost(index)
    else if action == EscalateToHuman then Escalating(index)
    else NoExecutor
  }

  function Reject(c: CaseState, index: nat, reason: string, reanalyze: bool, at: int): Result<CaseState, ServiceError> {
    if index >= |c.actions| then Failure(ActionNotFound)
    else if c.actions[index].status != PendingApproval then Failure(ActionConflict)
    else if IsTerminal(c.status) then Failure(CaseNotActionable)
    else
      match Transition(WithStatus(c, index, Cancelled), c.version,
                       if reanalyze then ApprovalRejectedReanalyze else ApprovalRejectedStop,
                       ContextAt(at).(reason := Text.Strip(reason), rejectionRecorded := true))
      case Failure(e) => Failure(WorkflowFailed(e))
      case Success(d) => Success(if reanalyze then d.(analysis := Computing({c.actions[index].action})) else d)
  }

  // ------------------------------------------------------------ provider call and settlement

  datatype ProviderResult =
    | LinkCreated | ProviderNotConfigured | AmbiguousResponse | TimedOut | TransientError | RateLimited
    | DuplicateReference | OtherApiError | AuthenticationRejected | ValidationRejected

  function ResultStatus(result: ProviderResult): ActionStatus {
    match result
    case LinkCreated => Succeeded
    case AuthenticationRejected => ActionFailed
    case ValidationRejected => ActionFailed
    case _ => Unknown
  }

  /** Event the settling process will ask for once the action row is committed. */
  function ResultEvent(result: ProviderResult, attempts: nat, maxAttempts: nat): Event {
    match result
    case AuthenticationRejected => ActionFailedReanalyze
    case ValidationRejected => if attempts < maxAttempts then ActionFailedReanalyze else TerminalActionFailure
    case _ => ActionAcceptedOrUnknown
  }

  /** The POST leaves the process: from here on the provider may have created a link. */
  function SendPost(c: CaseState): CaseState {
    if c.executor.ReadyToPost? then c.(posts := c.posts + [c.executor.index], executor := Posted(c.executor.index))
    else c
  }

  /** Without a configured client the process records a result although nothing was sent. */
  predicate CanRecord(executor: Executor, result: ProviderResult) {
    if result == ProviderNotConfigured then executor.ReadyToPost? else executor.Posted?
  }

  function RecordResult(c: CaseState, policy: Policy.MerchantPolicyRow, result: ProviderResult): CaseState {
    if !CanRecord(c.executor, result) || c.executor.index >= |c.actions| then c
    else
      var index := c.executor.index;
      var settled := if result == LinkCreated then WithLink(c, index) else WithStatus(c, index, ResultStatus(result));
      settled.(executor := ResultRecorded(index, ResultEvent(result, |c.actions|, policy.maxRecoveryAttempts)))
  }

  function RecordEscalation(c: CaseState): CaseState {
    if !c.executor.Escalating? || c.executor.index >= |c.actions| then c
    else
      var index := c.executor.index;
      WithStatus(c, index, Succeeded).(executor := ResultRecorded(index, ActionAcceptedOrUnknown))
  }

  /** Second commit of a settlement: moves the case if it is still EXECUTING. */
  function FinishSettlement(c: CaseState, at: int): CaseState {
    if !c.executor.ResultRecorded? then c
    else
      var index, event := c.executor.index, c.executor.next;
      var done := c.(executor := NoExecutor);
      if c.status != Executing then done
      else
        match Transition(done, done.version, event,
                         ContextAt(at).(action := Some(index), reason := "Payment link creation settled."))
        case Success(d) => d
        case Failure(_) => done
  }

  // ------------------------------------------------------------ analysis

  datatype AnalysisReason = ManualAnalysis | ScheduledReevaluation | NewProviderEvidence

  function EntryEvent(status: CaseStatus, reason: AnalysisReason): Option<Event> {
    match (status, reason)
    case (Detected, ManualAnalysis) => Some(AnalysisRequested)
    case (Scheduled, ScheduledReevaluation) => Some(ReevaluationDue)
    case (WaitingForOutcome, NewProviderEvidence) => Some(NegativeOutcomeOrTimeout)
    case _ => None
  }

  function BeginAnalysis(c: CaseState, reason: AnalysisReason, at: int): Result<CaseState, ServiceError> {
    match EntryEvent(c.status, reason)
    case None => Failure(AnalysisNotAllowed)
    case Some(event) =>
      match Transition(c, c.version, event, EntryContext(event, at))
      case Failure(e) => Failure(WorkflowFailed(e))
      case Success(d) => Success(d.(analysis := Computing({})))
  }

  function EntryContext(event: Event, at: int): TransitionContext {
    ContextAt(at).(reason := "ANALYSIS", scheduledFor := if event == ReevaluationDue then Some(at) else None)
  }

  /** Rows and current run are written whatever the case's status has become. */
  function StoreRun(c: CaseState, policy: Policy.MerchantPolicyRow, inputs: Analysis.AnalysisInputs,
                    at: int): CaseState {
    if !c.analysis.Computing? then c
    else
      match Analysis.Compute(inputs, c.amountAtRisk, |c.actions|, Policy.FromMerchantRow(policy), c.analysis.excluded)
      case Success(ranked) =>
        c.(runs := c.runs + [Persist(ranked)], currentRun := Some(|c.runs|), analysis := RunStored(|c.runs|))
      case Failure(ModelUnavailable) => FailAnalysis(c, at)
      case Failure(_) => c.(analysis := NoAnalysis)
  }

  function CompleteAnalysis(c: CaseState, at: int): CaseState {
    if !c.analysis.RunStored? then c
    else
      var done := c.(analysis := NoAnalysis);
      match Transition(done, done.version, AnalysisCompleted,
                       ContextAt(at).(analysisRun := Some(c.analysis.run), reason := "ANALYSIS"))
      case Success(d) => d
      case Failure(_) => done
  }

  /** Missing case data, or a model failure without fallback, ends the case if it is still ANALYZING. */
  function FailAnalysis(c: CaseState, at: int): CaseState {
    if !c.analysis.Computing? then c
    else
      var done := c.(analysis := NoAnalysis);
      if c.status != Analyzing then done
      else
        match Transition(done, done.version, AnalysisTerminalFailure, ContextAt(at).(reason := "ANALYSIS_FAILED"))
        case Success(d) => d
        case Failure(_) => done
  }

  // ------------------------------------------------------------ verified payments

  datatype IgnoreReason =
    | StaleWebhook | UncorrelatedPaymentLink | UnsupportedEvent | InsufficientFinancialEvidence
    | MoneyMismatch | InsufficientPaymentEvidence | TerminalReconciliation

  datatype Disposition = Processed | Ignored(reason: IgnoreReason)

  /** Result of handling a verified success: `committed` says an inner commit already happened. */
  datatype Verification = Verified(case_: CaseState, disposition: Disposition, committed: bool) | VerificationRaised

  function NormalizedCurrency(currency: string): string {
    Text.Upper(Text.Strip(currency))
  }

  predicate MoneyMatches(c: CaseState, amount: int, currency: string) {
    c.amountAtRisk == amount && c.currency == NormalizedCurrency(currency)
  }

  function CancelPending(actions: seq<ActionRow>): (r: seq<ActionRow>)
    ensures |r| == |actions|
    ensures forall i :: 0 <= i < |r| ==> r[i].status != PendingApproval && r[i].status != ActionScheduled
    ensures forall i :: 0 <= i < |r| && r[i] != actions[i] ==>
              && r[i] == actions[i].(status := Cancelled)
              && (actions[i].status == PendingApproval || actions[i].status == ActionScheduled)
  {
    seq(|actions|, i requires 0 <= i < |actions| =>
          if actions[i].status == PendingApproval || actions[i].status == ActionScheduled
          then actions[i].(status := Cancelled) else actions[i])
  }

  /** The case with its outcome created when absent and its open actions cancelled, not yet moved. */
  function Settled(c: CaseState, amount: int, paymentId: string, at: int): CaseState {
    c.(outcome := if c.outcome.Some? then c.outcome else Some(Outcome(amount, paymentId, at)),
       actions := CancelPending(c.actions))
  }

  function ResolveSuccess(c: CaseState, amount: int, currency: string, paymentId: string, at: int): Verification {
    if c.status == Recovered then Verified(c, Processed, false)
    else if c.status == Failed || c.status == Stopped then
      if !MoneyMatches(c, amount, currency) then Verified(c, Ignored(MoneyMismatch), false)
      else Verified(c.(audits := c.audits + [ReconciliationRequired(c.status)]), Ignored(TerminalReconciliation), false)
    else if !MoneyMatches(c, amount, currency) then Verified(c, Ignored(MoneyMismatch), false)
    else
      match Transition(Settled(c, amount, paymentId, at), c.version, PaymentVerified,
                       ContextAt(at).(reason := "PAYMENT_VERIFIED"))
      case Success(d) => Verified(d, Processed, true)
      case Failure(_) => VerificationRaised
  }

  // ------------------------------------------------------------ steps

  datatype CaseStep =
    | BeginAnalysisStep(reason: AnalysisReason, at: int)
    | StoreRunStep(inputs: Analysis.AnalysisInputs, at: int)
    | CompleteAnalysisStep(at: int)
    | FailAnalysisStep(at: int)
    | AnalysisCrash
    | CreateActionStep(run: nat, action: ActionType, lookup: LinkLookup, crash: bool, at: int)
    | ApproveStep(index: nat, expectedVersion: nat, at: int)
    | RejectStep(index: nat, note: string, reanalyze: bool, at: int)
    | PostStep
    | RecordResultStep(result: ProviderResult)
    | RecordEscalationStep
    | FinishSettlementStep(at: int)
    | ExecutorCrash
    | VerifiedPaymentStep(amount: int, currency: string, paymentId: string, at: int)

  /** A failed call leaves the committed rows as they were. */
  function Keep(c: CaseState, r: Result<CaseState, ServiceError>): CaseState {
    if r.Success? then r.value else c
  }

  function Next(c: CaseState, policy: Policy.MerchantPolicyRow, step: CaseStep): CaseState {
    match step
    case BeginAnalysisStep(reason, at) => Keep(c, BeginAnalysis(c, reason, at))
    case StoreRunStep(inputs, at) => StoreRun(c, policy, inputs, at)
    case CompleteAnalysisStep(at) => CompleteAnalysis(c, at)
    case FailAnalysisStep(at) => FailAnalysis(c, at)
    case AnalysisCrash => c.(analysis := NoAnalysis)
    case CreateActionStep(run, action, lookup, crash, at) =>
      Keep(c, CreateAction(c, policy, run, action, lookup, crash, at))
    case ApproveStep(index, expectedVersion, at) => Keep(c, Approve(c, index, expectedVersion, at))
    case RejectStep(index, note, reanalyze, at) => Keep(c, Reject(c, index, note, reanalyze, at))
    case PostStep => SendPost(c)
    case RecordResultStep(result) => RecordResult(c, policy, result)
    case RecordEscalationStep => RecordEscalation(c)
    case FinishSettlementStep(at) => FinishSettlement(c, at)
    case ExecutorCrash => c.(executor := NoExecutor)
    case VerifiedPaymentStep(amount, currency, paymentId, at) =>
      var v := ResolveSuccess(c, amount, currency, paymentId, at);
      if v.Verified? then v.case_ else c
  }
}
