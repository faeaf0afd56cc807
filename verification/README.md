# RevLoop recovery protocol: model and proofs

RevLoop watches failed payments and subscriptions, opens a recovery case for
each, analyses it, recommends an action, carries the action out (often by
asking a provider to create a payment link) and closes the case when a webhook
proves that the money arrived. This project models its three cores and proves
what they keep.

**The case protocol.** `Registry` holds the transition table of a case;
`Cases` the case row with its action rows, outcome and audit log, and the
version-checked transition; `Protocol` one pure step function per committed
service call. The provider POST is split in *begin* and *settle*: the provider
answers anything, the process may die between the two or between the two
commits of a settlement, and a case can be paid at any moment.
`CaseInvariants` and `ActionInvariants` state one invariant over log, money,
rows, runs, open processes and POST history and show that every step keeps it.
`CaseRuns`, `CaseTheorems`, `CaseProgress` and `UnknownLinks` draw the theorems
about whole runs. `Dispatching`, `Decisions` and `Calls` tell from the fields of
a case alone what creating, approving, rejecting, the provider's answer and a
read do to it, and what of that happens unattended; `VerifiedPayments` the same
of a payment. `FavouredRuns` builds the concrete runs of `StrandedLink` and
`ApprovalGap`. `CompareAndSwap` is the finer model of the version check
alone, with workers that decide on stale snapshots.

**Deliveries.** `Store` holds all rows of a merchant and what a webhook
delivery does to them, including redelivery and a crash between the commit
inside a transition and the one that marks the event. `StoreTheorems`,
`Deliveries` and `PaymentRows` prove exactly-once recovery, that crashes are
made invisible by a retry, conservation of money, and, with `SubscriptionRows`,
that payment and subscription rows follow the folds of `EventOrdering`;
`SubscriptionOrder` says exactly when the order of a fold matters.
`Redeliveries` compares a crash, any other operations and then the retry with
the history in which nothing crashed. `DeliveryEffects` says for each kind of
webhook when it raises, what it writes and how its event is marked;
`CaseOpenings` which deliveries open a case and for how much.

**The services.** `Persistence`, `StateMachine`, `ActionService`,
`AnalysisWorkflow` and `ProviderEvents` are the imperative form: classes over a
session with committed and uncommitted state, each method proved to commit what
the step functions say and nothing on failure. `ServiceRuns` shows that whole
calls are runs of protocol steps, so the theorems about runs hold after calls.

**The decision pipeline.** `Candidates`, `Erv`, `Policy`, `Ranking`,
`Selection` and `Analysis` model candidates, heuristic probabilities, expected
value with half-up rounding, the policy gate in its two contexts, ranking, and
selection recomputed from stored rows. `Evidence` models how a failure is
normalized to a category and an evidence strength and how many features are
present, and says which analysis inputs can arise at all; `CandidateFacts` tells
action by action what is offered, how likely, for how much and under which
conditions; `History` the payment-history features, `Sanitize` the metadata
filter of the audit log, `Keys` the identity strings.

Things the proofs brought out about the code as it is:

- A link action left UNKNOWN is settled exactly by asking for the same action
  again while its run is current, when the read finds the link
  (`UnknownLinks.UnknownIsSettledExactly`; reads beside a live executor are left
  out). Once re-analysis has moved on it stays UNKNOWN for good, no further link
  can be created for the case, and an escalation staged beside it can never be approved
  (`CaseProgress.StrandedForever`, with a run in
  `StrandedLink.EscalationCanBeUnapprovable`). Approval succeeds exactly while no
  link row is UNKNOWN (`CaseProgress.ApprovalSucceedsExactly`).
- No outcome without a payment: in every run of the store whatever a case has
  recovered was reported by a delivery of exactly its amount in its currency,
  correlated by transaction, cycle or link (`VerifiedPayments.OutcomesAreExplained`).
- Nothing is sent beyond the merchant's limits unattended, and the staged actions
  that were carried out are exactly as many as the approvals in the log
  (`Dispatching.UnattendedPostsAreWithinLimits`, `Decisions.HeldActionsAreApproved`).
- Two of the errors of action creation never occur: the conflict with another
  link, because the policy refuses first, and the single-result failure, because
  no two links block (`Decisions.CreationErrors`).
- The case key of a subscription cycle names the cycle only while subscription ids
  carry no colon (`CaseOpenings.CycleKeysAreDistinct`, `CaseOpenings.CycleKeysCanMeet`).
- A process that dies between starting an action and recording its result
  leaves the case EXECUTING; `CaseProgress.OrphanMovesExactly` says what gets
  it out.
- A case stores the webhook's currency as received but compares a payment's
  currency in normalized form, so a case whose currency arrived with a lower-case
  letter or surrounding whitespace stays open although it is paid
  (`Deliveries.UnnormalizedStaysOpen`). The columns hold three characters; of
  the currencies they store unchanged this concerns codes such as "inr".
- Rounding confidence to six places when a recommendation is stored can lift it
  over the approval threshold; `Analysis.ApprovalAtExecution` gives the exact
  gap, which opens in that direction only, and `ApprovalGap.ApprovalCanBeDropped`
  a run in which an action held back for approval starts unattended. Its
  analysis starts from the inputs of an actual failed payment
  (`FavouredRuns.InputsArise`).
- One of the 24 features is always missing (the retry count of a payment, the
  method of a subscription), so no confidence exceeds 0.98125, nor 0.86125 for
  an unexplained failure: a threshold above 0.98125 holds every action back for
  approval, and one up to 0.38 none (`Evidence.ThresholdIsDecisive`).
- A retry after a crash can write over newer news: it leaves all cases alone,
  but sets the payment row it is about to its own event whatever has been stored
  since, and the subscription row unless that holds a later one
  (`Redeliveries.CrashAmongOthers`).
- The stored time of a payment event depends on the delivery order exactly when
  two captures carry different times (`EventOrdering.TimeConvergesExactly`), and
  `SubscriptionOrder.ConvergesExactly` says for any row and any events when the
  delivery order of a subscription matters; `SubscriptionRows.RunsAgreeExactly`
  says the same of runs of the whole store.

## Model

| member | source | states |
|---|---|---|
| Registry.LookupIsTarget | apps/api/app/workflows/state_machine.py:76-277 | the registered table of 27 definitions, looked up by status and event, is exactly the edge and evidence relation used everywhere else, for every pair |
| Registry.TerminalIffDead | apps/api/app/workflows/state_machine.py:25-31 | a status is terminal iff no event leaves it, and PAYMENT_VERIFIED leaves every other status for RECOVERED |
| Registry.PathsAreBounded | apps/api/app/workflows/state_machine.py:76-266 | every registry path has at most six edges per added action row plus three, and five per row over the events the services issue |
| Registry.BoundIsTight | apps/api/app/workflows/state_machine.py:76-266 | the six-edge bound is met: for every number of rounds a path with that many rows ends STOPPED after six edges a round plus three |
| Registry.RankFallsUnlessRowAdded | apps/api/app/workflows/state_machine.py:76-266 | a status rank falls along every edge that does not leave RECOMMENDED non-terminally |
| Cases.ReplayIsPath | apps/api/app/workflows/state_machine.py:337-367 | an audit log that replays is a registry path from DETECTED and the version counts its edges |
| Cases.ReplayLinks | apps/api/app/workflows/state_machine.py:337-367 | consecutive transition entries of a replaying log link on status and version, and none leaves a terminal status |
| StateMachine.MissingRequirements | apps/api/app/workflows/state_machine.py:301-324 | the loop over required evidence collects exactly the requirements the context does not meet |
| StateMachine.CheckTransition | apps/api/app/workflows/state_machine.py:392-424 | the checks run in the source's order and fail with the same error as the transition function; success names the registered target |
| StateMachine.TransitionCase | apps/api/app/workflows/state_machine.py:379-479 | a transition commits the moved row with its audit entry, or changes nothing committed or uncommitted |
| StateMachine.TransitionExactly | apps/api/app/workflows/state_machine.py:379-479 | a transition fails with the first of five errors that applies, and else moves the row along its registered definition by one version, sets the time of resolution iff the case ends, and appends one entry; what each event has to be handed is listed event by event |
| Persistence.PersistTransition | apps/api/app/repositories/recovery_cases.py:48-77 | the row is updated iff its version is the expected one, and resolved_at is kept when none is given |
| Persistence.ClaimEvent | apps/api/app/repositories/webhook_events.py:49-98 | a claim is new, retriable or complete according to the stored row, and a complete one writes nothing |
| Deliveries.MarkSilencesOnlyItsEvent | apps/api/app/repositories/webhook_events.py:100-123 | marking an event processed or ignored makes every later delivery of it silent, whatever it carries, and leaves the effect of every other delivery as it was |
| CompareAndSwap.VersionImpliesStatus | apps/api/app/repositories/recovery_cases.py:65-76 | a snapshot that still carries the current version also carries the current status, so comparing the version alone is enough |
| CompareAndSwap.InterleavingIsSound | apps/api/app/workflows/state_machine.py:392-448 | under any interleaving the applied transitions form one registry path ending in the row's status, one worker per version, and RECOVERED iff a positive outcome is committed |
| CompareAndSwap.AppliedIsEdge | apps/api/app/workflows/state_machine.py:409-448 | a commit either changes nothing or follows a registry edge out of the status held at that moment, with its outcome when it recovers |
| CompareAndSwap.OneWinnerPerVersion | apps/api/app/repositories/recovery_cases.py:65-77 | of two workers that decided on the same version the second is refused, whatever happens in between |
| CompareAndSwap.StaleWorkerIsRefused | apps/api/app/workflows/state_machine.py:400-448 | a concrete race in which a worker with a stale snapshot would overwrite RECOVERED and is refused |
| Protocol.RowForKey | apps/api/app/actions/repository.py:40-55 | finds a row of the recommendation and type iff there is one |
| ActionInvariants.CancelClosesOpenRows | apps/api/app/services/provider_events.py:782-797 | cancelling changes nothing iff nothing is pending or scheduled, is idempotent, keeps every attempted row, and unblocks only staged links |
| CaseInvariants.NewCaseInv | apps/api/app/services/provider_events.py:443-497 | a freshly opened case with a positive amount meets the whole invariant |
| CaseInvariants.BlockingLinkSpec | apps/api/app/actions/repository.py:57-77 | the blocking-link query finds nothing, one row or two rows exactly when that many link rows block |
| CaseInvariants.NextAttemptIsCount | apps/api/app/actions/repository.py:94-118 | maximum attempt number plus one equals the row count plus one while attempts are 1..n |
| CaseInvariants.TransitionLedger | apps/api/app/workflows/state_machine.py:427-468 | a transition keeps the log replayable, adds a row count exactly on row-adding edges and touches nothing else |
| CaseInvariants.StoreRunKeeps | apps/api/app/workflows/recovery.py:189-232 | storing a run, or failing to compute one, keeps the case invariant whatever the case's status has become |
| CaseInvariants.CompleteAnalysisKeeps | apps/api/app/workflows/recovery.py:234-260 | completing an analysis keeps the case invariant, also when a payment won the race |
| ActionInvariants.AddRowKeepsStatic | apps/api/app/actions/service.py:373-507 | adding the row and leaving RECOMMENDED in one commit keeps log, money, attempt numbers, run order and single blocking link |
| ActionInvariants.CreateActionKeeps | apps/api/app/actions/service.py:141-220 | creating an action, by any branch or by reconciling, keeps the case invariant |
| ActionInvariants.ApproveKeeps | apps/api/app/actions/service.py:222-290 | approval keeps the case invariant |
| ActionInvariants.RejectKeeps | apps/api/app/actions/service.py:292-347 | rejection, with or without re-analysis, keeps the case invariant |
| ActionInvariants.RecordResultKeeps | apps/api/app/actions/service.py:509-592 | recording any provider answer keeps the case invariant |
| ActionInvariants.ReconcileKeeps | apps/api/app/actions/service.py:639-715 | settling a row from a provider read keeps the case invariant, also when the process dies between its commits |
| ActionInvariants.VerifiedKeeps | apps/api/app/services/provider_events.py:658-743 | a verified payment at any moment keeps the case invariant |
| ActionInvariants.NextKeepsInv | apps/api/app/actions/service.py:141-778 | every protocol step, crashes and provider answers included, keeps the case invariant |
| CaseRuns.NextExtends | apps/api/app/workflows/state_machine.py:427-468 | no step rewrites history: at most one audit entry is appended, amounts are frozen, outcomes and row identities are kept, runs and POSTs only grow |
| CaseRuns.ReachedInv | apps/api/app/actions/service.py:141-778 | every case reachable from its opening meets the invariant |
| CaseTheorems.AtMostOncePost | apps/api/app/actions/service.py:509-558 | in every run each row is POSTed at most once, only link rows are, and a POST leaves only while every earlier link row is settled or cancelled |
| CaseTheorems.SingleBlockingLink | apps/api/app/actions/repository.py:57-77 | the single-result lookup never meets two rows, so no create or approve call fails on it |
| CaseTheorems.VersionIsBounded | apps/api/app/policies/engine.py:122-126 | action rows never exceed the attempt cap, and version is at most five per row plus four |
| CaseTheorems.StepIsEdge | apps/api/app/workflows/state_machine.py:379-479 | each step leaves status, version and row count alone or follows one issued registry edge, adding a row exactly on row-adding edges |
| CaseTheorems.MeasureFalls | apps/api/app/workflows/state_machine.py:76-266 | the lexicographic measure (attempts left, status rank) falls on every transition and is unchanged otherwise |
| CaseTheorems.AuditIsFaithful | apps/api/app/workflows/state_machine.py:337-479 | folding the registry over the log of any reachable case rebuilds its status and version; resolved_at is set iff terminal |
| CaseTheorems.AuditLinks | apps/api/app/workflows/state_machine.py:337-367 | consecutive transition entries of any reachable case link on status and version |
| CaseTheorems.TerminalIsForever | apps/api/app/workflows/state_machine.py:400-406 | no run moves a terminal case, adds a row to it or gives it an outcome |
| CaseTheorems.OutcomeIsExact | apps/api/app/services/provider_events.py:745-780 | an outcome exists iff the case is RECOVERED, equals the amount it was opened with, and is never replaced |
| CaseTheorems.RowsFollowStatus | apps/api/app/services/provider_events.py:782-797 | AWAITING_APPROVAL iff exactly one pending row; an executing row is unique and its case EXECUTING or RECOVERED; a RECOVERED case has no pending or scheduled row; attempts are 1..n; no run is used twice |
| CaseTheorems.OnlyLinksReachProvider | apps/api/app/actions/service.py:192-212 | whatever is being sent is a link row, and the fall-through branch of creation is taken by link types only |
| CaseTheorems.ApprovalIsDispatched | apps/api/app/actions/service.py:279-285 | every pending row is a link or an escalation, so dispatch after approval is exhaustive |
| CaseProgress.RecommendedHasSelection | apps/api/app/actions/service.py:870-895 | every reachable RECOMMENDED case has an eligible executable selection on its current run |
| CaseProgress.CreationSucceedsExactly | apps/api/app/actions/service.py:155-212 | on a RECOMMENDED case creation succeeds iff the run is current, the action is the selected one, and it is STOP or allowed, automated, within the cap and, for links, has a currency and no UNKNOWN link beside it |
| CaseProgress.ApprovalSucceedsExactly | apps/api/app/actions/service.py:231-262 | approval succeeds iff the row is pending, the version is current and no link row of the case is UNKNOWN |
| CaseProgress.OrphanMovesExactly | apps/api/app/actions/service.py:172-180 | a case orphaned in EXECUTING is left exactly by a matching read for the same link action or a matching payment |
| UnknownLinks.UnknownIsSettledExactly | apps/api/app/actions/service.py:168-180 | in every reachable case, whatever its status, a step settles an UNKNOWN link iff it asks again for that action while the row's run is current, the read finds the link and no executor is alive (reads beside one are left out); a crash in between makes no difference to the row |
| UnknownLinks.ReachedOrigin | apps/api/app/actions/service.py:870-895 | in every reachable case each row's action is what selection picks from the run it was created from |
| Dispatching.CreationBranches | apps/api/app/actions/service.py:183-212 | creating the offered action on a RECOMMENDED case stops it, schedules it, stages a pending row iff the case's amount is above the limit or the stored confidence below the threshold or it is an escalation, and else starts an executing row; the whole new state is given |
| Dispatching.UnattendedPostsAreWithinLimits | apps/api/app/actions/policy_context.py:46-75 | in every reachable case a row POSTed without having been staged has an amount within the merchant's limit and a stored confidence at or above the threshold |
| Decisions.HeldActionsAreApproved | apps/api/app/actions/service.py:222-290 | in every reachable case the staged actions that were carried out are as many as the approvals in the audit log |
| Decisions.CreationErrors | apps/api/app/actions/service.py:141-212 | in every status creation fails with the first of four errors that applies, only reads an action that exists, and else succeeds |
| Decisions.ApprovalErrors | apps/api/app/actions/service.py:222-260 | approval fails with the first of five errors that applies, and else succeeds |
| Decisions.ApprovalStarts | apps/api/app/actions/service.py:260-290 | an approval starts the last row, a link to be sent or else an escalation; the whole new state is given |
| Decisions.RejectionErrors | apps/api/app/actions/service.py:302-331 | rejection fails with the first of three errors that applies, a blank reason among them, and else succeeds |
| Decisions.RejectionEnds | apps/api/app/actions/service.py:312-347 | a rejection cancels the pending row and stops the case or sends it back to analysis without the rejected action |
| Decisions.AnswerIsRecorded | apps/api/app/actions/service.py:509-592 | an answer is recorded once, for the row that was sent: created, definitely refused, or unknown, with what it will do to the case |
| Decisions.SettlementEnds | apps/api/app/actions/service.py:722-773 | the recorded answer moves a case iff it is still EXECUTING: on, back to analysis, or FAILED |
| Decisions.ReadSettlesRow | apps/api/app/actions/service.py:639-715 | a read settles exactly an unresolved link row whose process is gone when it finds the link, and moves an EXECUTING case unless the process dies first |
| CaseProgress.StrandedForever | apps/api/app/actions/service.py:639-668 | an UNKNOWN link of an older run is never settled by any continuation, no POST follows and no approval succeeds |
| StrandedLink.EscalationCanBeUnapprovable | apps/api/app/actions/service.py:252-260 | a concrete run, its analyses on inputs that can arise, ends in an escalation awaiting approval that no approval call ever starts |
| ServiceRuns.CallsKeepInv | apps/api/app/actions/service.py:141-290 | whole create and approve calls, provider call included, keep the case invariant for every provider answer |
| ServiceRuns.InvokedSettles | apps/api/app/actions/service.py:509-592 | an uninterrupted provider call leaves no row executing, the row in the status of the answer and the case where that answer sends it |
| Calls.CreateCallEnds | apps/api/app/actions/service.py:141-220 | where a whole create call leaves case, rows and POST history for every provider answer, with no process left at work |
| Calls.ApproveCallEnds | apps/api/app/actions/service.py:222-290 | where a whole approve call leaves them |
| ServiceRuns.AnalyzedIsRun | apps/api/app/workflows/recovery.py:188-260 | an analysis carried through is a run of protocol steps |
| ActionService.RecoveryActionService.CreateCaseAction | apps/api/app/actions/service.py:141-220 | guards, reconcile path and branches in the source's order commit exactly the protocol's result, and nothing on failure |
| ActionService.RecoveryActionService.LoadCurrentRecommendation | apps/api/app/actions/service.py:870-895 | succeeds iff the run is current and selection picks this action and it is eligible, and otherwise names the error creation fails with |
| ActionService.RecoveryActionService.ApproveAction | apps/api/app/actions/service.py:222-290 | approval with its dispatch commits exactly the protocol's result, and nothing on failure |
| ActionService.RecoveryActionService.RejectAction | apps/api/app/actions/service.py:292-327 | cancelling the row and moving the case are one commit; a refused move takes the cancellation with it |
| ActionService.RecoveryActionService.InvokePaymentLinkProvider | apps/api/app/actions/service.py:509-558 | each provider answer is settled in two commits as the protocol says; without a client nothing is sent |
| ActionService.RecoveryActionService.MarkProviderFailed | apps/api/app/actions/service.py:745-773 | a definite failure is recorded, then the case moves to re-analysis or failure if it is still EXECUTING |
| ActionService.RecoveryActionService.MaybeReconcile | apps/api/app/actions/service.py:639-715 | only an unresolved link row with a matching read is settled, and then the case moves if EXECUTING |
| AnalysisWorkflow.RecoveryAnalysisWorkflowService.AnalyzeRecoveryCase | apps/api/app/workflows/recovery.py:149-260 | entry, computation, storage and completion commit in turn; a refused entry commits nothing |
| AnalysisWorkflow.RecoveryAnalysisWorkflowService.CompleteImmediateReanalysis | apps/api/app/workflows/recovery.py:262-350 | re-analysis runs only from ANALYZING and otherwise only lets go of the case |
| AnalysisWorkflow.RecoveryAnalysisWorkflowService.FinalizeTerminalAnalysisFailure | apps/api/app/workflows/recovery.py:70-125 | the case fails iff it is still ANALYZING, and the result says whether it did |
| AnalysisWorkflow.AnalysisRecommends | apps/api/app/workflows/recovery.py:188-260 | with a usable computation an uninterrupted analysis ends in RECOMMENDED on a new run whose selection is not excluded |
| AnalysisWorkflow.EntersExactly | apps/api/app/recovery/service.py:763-783 | three pairs of status and reason lead into ANALYZING, each by its own event, and every other pair is refused |
| AnalysisWorkflow.AnalysisEndsExactly | apps/api/app/workflows/recovery.py:149-260 | an uninterrupted analysis ends FAILED iff there is no case data, or no model and no fallback; RECOMMENDED on the computed rows iff the scores are usable; and else ANALYZING as it was |
| ProviderEvents.ProviderEventService.IngestWebhook | apps/api/app/services/provider_events.py:183-237 | one delivery attempt, crash included, commits exactly what the delivery function says |
| ProviderEvents.ProviderEventService.ResolveCaseSuccess | apps/api/app/services/provider_events.py:658-743 | outcome, cancellation and transition are committed together or not at all, and mismatches and terminal cases are marked ignored |
| ProviderEvents.ProviderEventService.OnPaymentFailed | apps/api/app/services/provider_events.py:799-840 | on an exception nothing is committed; otherwise upsert, mark and new case wait uncommitted for the final commit |
| ProviderEvents.ProviderEventService.OnPaymentCaptured | apps/api/app/services/provider_events.py:842-885 | the upserted transaction is committed together with the recovery when there is one and stays uncommitted otherwise; on an exception nothing is committed |
| ProviderEvents.ProviderEventService.OnSubscriptionCharged | apps/api/app/services/provider_events.py:937-996 | the subscription row is committed together with the recovery when there is one and stays uncommitted otherwise; on an exception nothing is committed |
| ProviderEvents.ProviderEventService.OnLinkPaid | apps/api/app/services/provider_events.py:1026-1090 | the recovery is committed with the claim still RECEIVED; an uncorrelated link commits nothing before its mark, and an exception nothing at all |
| VerifiedPayments.MoneyDecides | apps/api/app/services/provider_events.py:155-164 | a verified payment recovers a case iff the case is open, the amount is its amount and the stripped, upper-cased currency its currency; otherwise a case that is not RECOVERED is unchanged with MONEY_MISMATCH, or gets a note when it was closed and the money is right |
| VerifiedPayments.DollarsForRupees | apps/api/app/services/provider_events.py:699-710 | the right amount in USD leaves a case in INR as it is |
| VerifiedPayments.OutcomesAreExplained | apps/api/app/services/provider_events.py:658-743 | in every run of the store an outcome that was not there at the start was brought by a delivery of the run reporting a payment of exactly that amount in the case's currency, correlated by transaction, subscription cycle or link |
| DeliveryEffects.RaisesExactly | apps/api/app/services/provider_events.py:799-1090 | a delivery raises iff its payload lacks what its handler needs or reports an amount its row may not hold |
| DeliveryEffects.MarksExactly | apps/api/app/services/provider_events.py:799-1090 | the disposition of every handled event, from the payload and the rows it meets |
| DeliveryEffects.DeliveryMarksOnce | apps/api/app/services/provider_events.py:183-237 | a delivery changes nothing when its event was handled before or its payload is unusable, and else marks exactly its event, with that disposition |
| DeliveryEffects.CaptureEffect | apps/api/app/services/provider_events.py:842-885 | a capture writes its payment's row whatever it held and settles exactly the payment's case |
| DeliveryEffects.ChargeEffect | apps/api/app/services/provider_events.py:937-996 | a charge with a captured payment settles exactly the cycle's case and makes the row active unless something later is stored |
| DeliveryEffects.PaidLinkEffect | apps/api/app/services/provider_events.py:1026-1090 | a paid link settles exactly the case of the row it names and writes no provider row |
| DeliveryEffects.HaltEffect | apps/api/app/services/provider_events.py:998-1024 | a halted event touches nothing but its subscription's row |
| DeliveryEffects.FailureEffect | apps/api/app/services/provider_events.py:799-840 | a failure writes its payment's row iff that is neither captured nor from later |
| DeliveryEffects.PendingEffect | apps/api/app/services/provider_events.py:887-935 | a pending event writes its subscription's row iff that is neither active nor from later |
| CaseOpenings.PendingOpensCase | apps/api/app/services/provider_events.py:499-552 | a committed pending event that its row takes opens one DETECTED case for the subscription's amount and currency under the literal cycle key, unless that key has a case |
| CaseOpenings.FailureOpensCase | apps/api/app/services/provider_events.py:443-497 | a committed failure that its row takes opens one DETECTED case for the reported amount and currency, unless the payment has a case |
| CaseOpenings.CasesOpenExactly | apps/api/app/services/provider_events.py:443-552 | in every run a case that was not there at the start is there at the end iff some committed delivery of the run opens its key |
| CaseOpenings.CasesAreOpenedFor | apps/api/app/services/provider_events.py:443-552 | every new case of a run has the key, the origin, the amount and the currency of the delivery that opened it |
| CaseOpenings.CycleKeysAreDistinct | apps/api/app/services/provider_events.py:83-94 | keys of different cycles differ when subscription ids carry no colon |
| StoreTheorems.KeysNeverCollide | apps/api/app/services/provider_events.py:79-84 | payment keys never equal subscription keys, and a payment key names its payment |
| StoreTheorems.StepChanges | apps/api/app/services/provider_events.py:183-267 | every operation leaves the cases alone, opens one case under a fresh key or advances one case by one protocol step |
| StoreTheorems.RunKeepsStore | apps/api/app/services/provider_events.py:443-552 | in every run of the store each case is one its own opening and protocol steps lead to, under a unique key |
| StoreTheorems.OneCasePerTransaction | apps/api/app/services/provider_events.py:568-580 | the newest-case lookup of a transaction finds its only case |
| StoreTheorems.RecoveredExactlyOnce | apps/api/app/services/provider_events.py:658-780 | after any deliveries with duplicates and crashes an outcome exists iff the case is RECOVERED, is worth its amount, and no continuation changes it |
| Deliveries.CompleteIsForever | apps/api/app/repositories/webhook_events.py:94-98 | a completed event stays completed and delivering it again changes nothing, after any run |
| Deliveries.CrashIsInvisible | apps/api/app/services/provider_events.py:215-235 | an interrupted delivery followed at once by a retry ends in the same store as one whole delivery |
| Redeliveries.RetryCompletes | apps/api/app/services/provider_events.py:215-235 | after a crash behind a committed recovery and any further operations, the retry never fails, changes no case and completes the event, and the case is still RECOVERED with the crashed delivery's payment as its outcome |
| Redeliveries.CrashAmongOthers | apps/api/app/services/provider_events.py:215-235 | crash, any operations on other events, then the retry: without a committed recovery as if the first attempt had not been made; with one, cases, event log and all provider rows but its own are those of the uninterrupted history, and its own row too iff applying the event again leaves it as it is |
| Deliveries.VerifiedPaymentRecoversExactly | apps/api/app/services/provider_events.py:658-743 | a verified payment never fails, and commits iff it recovers the case, with its own payment as the outcome; VerifiedPayments.MoneyDecides says when, from amounts and currencies |
| Deliveries.CaptureAfterFailure | apps/api/app/services/provider_events.py:799-885 | a payment that fails and is then captured with the same amount and currency recovers its case iff the currency arrived in normalized form |
| Deliveries.NormalizedExactly | apps/api/app/services/provider_events.py:155-164 | a currency is its own normalized form iff it has no ASCII lower-case letter and no whitespace at either end |
| Deliveries.UnnormalizedStaysOpen | apps/api/app/services/provider_events.py:799-885 | a failed payment captured in full leaves its case DETECTED iff its currency has a lower-case letter or whitespace at an end |
| Deliveries.MoneyIsConserved | apps/api/app/repositories/analytics_repo.py:147-170 | in every run the amounts of all cases equal revenue at risk plus recovered revenue plus failed and stopped amounts |
| Deliveries.OnlyOpeningAddsMoney | apps/api/app/services/provider_events.py:443-552 | an operation adds money only by opening a case, and then exactly its amount |
| PaymentRows.RunView | apps/api/app/services/provider_events.py:350-409 | after any run of the whole store a payment's row and case are the fold over its committed events |
| PaymentRows.PaymentEndsCaptured | apps/api/app/services/provider_events.py:799-885 | a new payment ends captured iff some capture took effect and has a case iff its first event was a failure |
| EventOrdering.CaptureWins | apps/api/app/services/provider_events.py:104-129 | in every delivery order the payment ends captured iff some delivery was a capture, with a case iff the first was a failure |
| EventOrdering.NoCaseAfterCapture | apps/api/app/services/provider_events.py:822-835 | after a capture no delivery opens a case or takes the status back |
| EventOrdering.PaymentStatusConverges | apps/api/app/services/provider_events.py:113-129 | reordering the deliveries never changes the final status |
| EventOrdering.TimeConvergesExactly | apps/api/app/services/provider_events.py:122-129 | the event time stored on the delivered row is the same for every delivery order iff all captures carry the same time |
| EventOrdering.SubscriptionTimeIsMonotone | apps/api/app/services/provider_events.py:132-152 | the stored time of a subscription never goes back |
| EventOrdering.EndsAtLatest | apps/api/app/services/provider_events.py:132-152 | without pending events the row ends at an event of the latest time, or untouched when all were stale |
| EventOrdering.SubscriptionConverges | apps/api/app/services/provider_events.py:132-152 | charged and halted events at distinct times end in the latest one in every order |
| SubscriptionOrder.ConvergesExactly | apps/api/app/services/provider_events.py:132-152 | for every row and every multiset of events, all delivery orders end in the same row unless a latest event that is not stale is a halt tied with another kind at its time, or is pending, with no charge at its time and some event that is not stale of the deciding kind (a halt on an active row, else a charge); then two orders differ |
| SubscriptionOrder.DistinctTimesConvergeExactly | apps/api/app/services/provider_events.py:132-152 | with distinct times the order matters iff the latest fresh event is pending and a fresh event of the deciding kind is present |
| SubscriptionOrder.PendingBreaksConvergence | apps/api/app/services/provider_events.py:148-152 | a charge and a later pending event on a halted row do not converge |
| SubscriptionRows.RunSubscription | apps/api/app/services/provider_events.py:411-441 | after any run of the whole store, duplicates and crashes included, a subscription's row is the fold of its committed events, its amount and currency untouched |
| SubscriptionRows.RunsAgreeExactly | apps/api/app/services/provider_events.py:411-441 | all runs of the whole store that commit the same events of a subscription, in whatever order, leave the same row iff the order does not matter; otherwise two such runs end in different rows |
| SubscriptionRows.SomeRunCommits | apps/api/app/services/provider_events.py:887-1024 | for every sequence of events of a known subscription there is a run that commits exactly them in that order: none of the handlers turns one away |
| Candidates.GenerateCandidates | apps/api/app/recovery/candidates.py:191-206 | the loop keeps the matrix order, drops only a blocked retry and appends STOP when it is missing |
| Candidates.CandidatesAreWellFormed | apps/api/app/recovery/candidates.py:113-206 | STOP is always offered, nothing twice, nothing excluded, nothing outside the matrix, no blocked retry |
| Candidates.FallbackIsComplete | apps/api/app/ml/fallback.py:105-142 | every candidate of every context has a heuristic probability in [0,1] |
| CandidateFacts.OffersExactly | apps/api/app/recovery/candidates.py:113-206 | for each action exactly the failures it is offered for, less the excluded ones |
| CandidateFacts.ContextOffersExactly | apps/api/app/recovery/candidates.py:113-206 | the same for every context, one without link data or with an unsettled provider state included |
| CandidateFacts.FallbackExactly | apps/api/app/ml/fallback.py:105-142 | for each action its heuristic probability in every failure it is offered for |
| CandidateFacts.FallbackPrefers | apps/api/app/ml/fallback.py:105-142 | without a model the alternate method is strictly the likeliest action wherever it is offered but on a halted subscription, and elsewhere the link is |
| Erv.ErvBounds | apps/api/app/recovery/erv.py:106-154 | which inputs are accepted; recovered value is within the amount, penalties are non-negative, and value is recovered less all deductions |
| Erv.ErvMonotone | apps/api/app/recovery/erv.py:106-154 | expected value is monotone in probability |
| Erv.ErvRoundingError | apps/api/app/recovery/erv.py:54-55 | integer value differs from exact value by at most 3/2, and by at most 1 without delay |
| CandidateFacts.ValueExactly | apps/api/app/recovery/erv.py:54-154 | the value of every action as rounded recovery less its outright cost, its rounded risk share and, for WAIT, its rounded delay share |
| Ranking.KeyOrderIsStrictAndTotal | apps/api/app/recovery/ranking.py:24-34 | the five-part key is a strict total order on distinct action types |
| Ranking.RankCandidates | apps/api/app/recovery/ranking.py:37-49 | the loop numbers the sorted candidates from one |
| Ranking.RankingIsCanonical | apps/api/app/recovery/ranking.py:37-49 | any permutation of the candidates gives the identical ranked list |
| Ranking.RankingShape | apps/api/app/recovery/ranking.py:37-49 | the ranked list permutes the input, has ranks 1..n and all eligible candidates first |
| Ranking.RankingFollowsKeys | apps/api/app/recovery/ranking.py:24-34 | of two ranked candidates the earlier one is eligible if the later is, and where the keys before are equal has the larger value, the larger probability, the smaller burden, or comes earlier in the fixed list of actions |
| Ranking.ExactOrderIsRanked | apps/api/app/recovery/ranking.py:24-49 | eligible candidates whose exact values differ by more than 5/2 are ranked in exact order |
| Ranking.SelectionIsOptimal | apps/api/app/recovery/ranking.py:52-104 | the selected intervention has the largest, positive value among all eligible executable ones, among those of that value the largest probability and among those the least burden; STOP or nothing is selected iff none is positive |
| Selection.SelectionSurvivesPersistence | apps/api/app/recovery/selection.py:45-79 | re-selecting from stored, rounded rows in any order gives the row of the action analysis selected |
| Selection.SelectedRowIsAdmissible | apps/api/app/recovery/selection.py:65-79 | a selected row is stored, eligible and executable |
| CandidateFacts.StoredExactly | apps/api/app/recovery/service.py:401-430 | a stored row keeps every field of its candidate, but probability and confidence, which are rounded to six places and move by at most half a unit |
| Selection.RoundedConfidenceGap | apps/api/app/recovery/service.py:451-467 | rounding to six places moves a confidence across a threshold on the grid only within half a unit below it |
| Policy.EvaluatePolicy | apps/api/app/policies/engine.py:72-171 | the evaluators reach the decision whose reasons are exactly the raised codes in canonical order |
| Policy.DecisionUnique | apps/api/app/policies/engine.py:72-171 | the specification of a decision has exactly one solution, reasons and their order included |
| Policy.EligibleExactly | apps/api/app/policies/engine.py:72-145 | for every question and configuration, eligibility in terms of their fields |
| Policy.ApprovalExactly | apps/api/app/policies/engine.py:146-162 | for every question and configuration, the approval requirement in terms of their fields |
| Policy.ReasonsAreListed | apps/api/app/policies/reason_codes.py:6-20 | sorted reasons stand in the order of the fixed list |
| Policy.SortedReasons | apps/api/app/policies/reason_codes.py:50-53 | sorting keeps exactly the codes given, each once, in canonical order |
| Policy.TighterPolicyBlocksMore | apps/api/app/policies/engine.py:102-145 | lower caps, a smaller allowed set or disabled automation never make an ineligible action eligible |
| Policy.StricterPolicyKeepsApproval | apps/api/app/policies/engine.py:146-162 | a lower amount limit or a higher confidence threshold never removes an approval requirement |
| Policy.ExecutionRefinesAnalysis | apps/api/app/actions/policy_context.py:46-75 | an executable intervention eligible at execution was eligible at analysis |
| Policy.ExecutionEligibleExactly | apps/api/app/actions/policy_context.py:62-75 | the execution question is answered eligible iff the action is STOP or allowed, under the cap, automated and, for links, with data and none in flight |
| Policy.EscalationNeedsApproval | apps/api/app/recovery/service.py:197-207 | with a policy loaded from the merchant row an escalation always needs approval |
| Policy.EscalationCanSkipApproval | apps/api/app/policies/engine.py:58-61 | for arbitrary policies an escalation needs approval iff one of four grounds holds |
| Analysis.ComputeAnalysis | apps/api/app/recovery/service.py:251-449 | the service's loops compute the analysis function |
| Analysis.AnalysisFinishes | apps/api/app/recovery/service.py:469-499 | the computation finishes iff the scores cover the candidates with probabilities, or the model failed and fallback is allowed |
| Analysis.AnalysisSelects | apps/api/app/recovery/service.py:329-385 | a finished analysis selects something and never an excluded intervention |
| Analysis.ExecutorAgreesWithAnalysis | apps/api/app/actions/service.py:870-895 | the executor's selection from the stored run is the action analysis selected |
| CandidateFacts.CandidatesAreFaithful | apps/api/app/recovery/service.py:329-385 | every candidate of a finished analysis carries its score, the weighted confidence, its value, and the merchant's verdict, each told from the inputs and the merchant's row, and was meant for the failure |
| FavouredRuns.InputsArise | apps/api/app/recovery/failure_normalizer.py:128-137 | the inputs of the concrete runs are those of a failed payment without a stated reason, one feature missing |
| ApprovalGap.ApprovalCanBeDropped | apps/api/app/actions/service.py:183-212 | a run whose analysis starts from inputs that can arise reaches a RECOMMENDED case whose stored selection requires approval and whose creation nevertheless starts the link unattended |
| Analysis.ApprovalAtExecution | apps/api/app/actions/policy_context.py:46-75 | execution asks for approval only where analysis did, and drops it iff rounding lifted a confidence that was the only ground |
| Evidence.EvidenceIsExact | apps/api/app/recovery/failure_normalizer.py:33-226 | a category and evidence strength occur for some failed payment, or for some subscription, iff they are in the table: unexplained failures always 0.40, full strength only for a payment during a known downtime |
| Evidence.PaymentNormalizedExactly | apps/api/app/recovery/failure_normalizer.py:51-138 | a known downtime wins over a stated reason and a stated reason over code, step and source, with the category and strength of each |
| Evidence.SubscriptionNormalizedExactly | apps/api/app/recovery/failure_normalizer.py:140-226 | a subscription is normalized by its stated reason, and without one by being pending or halted |
| Evidence.ArisingInputs | apps/api/app/recovery/service.py:622-692 | inputs that arise keep source, category, strength and completeness consistent: a degraded rail is always the category, full strength takes a known downtime of a payment |
| Evidence.FeatureCompleteness | apps/api/app/recovery/features.py:168-180 | the counting loop computes the share of present features |
| Evidence.CompletenessIsExact | apps/api/app/recovery/features.py:168-240 | a share of n of the 24 features occurs iff n is between 16 and 23: it is never complete |
| Evidence.ConfidenceRange | apps/api/app/recovery/confidence.py:34-51 | every confidence lies between 0.38 and 0.98125, and at most at 0.86125 for an unexplained failure |
| Evidence.RangeIsMet | apps/api/app/recovery/confidence.py:34-51 | both ends of that range are met |
| Evidence.ThresholdIsDecisive | apps/api/app/policies/engine.py:146-162 | within the amount limit the executor holds every action back for approval iff the stored threshold is above 0.98125, and none iff it is at most 0.38 |
| History.EligibleTransactions | apps/api/app/recovery/features.py:63-75 | the loop keeps exactly the dated transactions before the failure, in order |
| History.HistoryNeverLooksAhead | apps/api/app/recovery/features.py:63-153 | undated transactions and ones at or after the failure change no feature wherever they are added |
| History.HistoryIsOrderIndependent | apps/api/app/recovery/features.py:78-153 | the features depend on the multiset of transactions only |
| History.HistoryBounds | apps/api/app/recovery/features.py:90-131 | successes and recent failures together are at most the attempts, which are at most the eligible; the counts are missing iff nothing is eligible |
| History.RateIsProportion | apps/api/app/recovery/features.py:122-131 | the rate is present iff something was attempted and lies in [0,1] |
| History.FlagsNeedSuccess | apps/api/app/recovery/features.py:133-143 | a method flag is raised only when the 90-day window holds a success |
| History.OldHistoryIsSilent | apps/api/app/recovery/features.py:88-121 | a transaction older than 90 days only decides whether there is a history at all |
| History.CountsExactly | apps/api/app/recovery/features.py:78-153 | the numbers counted over positions: payments and attempts of the ninety days and failures of the thirty days before the failure, missing iff nothing came before it |
| History.FlagsExactly | apps/api/app/recovery/features.py:133-143 | a method flag is raised iff a payment of the ninety days was made by the same known method, or by another known one |
| Sanitize.SanitizeMetadata | apps/api/app/workflows/state_machine.py:284-298 | the loop with its recursion computes the sanitizing function |
| Sanitize.SensitiveExactly | apps/api/app/workflows/state_machine.py:43-57 | a key is sensitive iff, case and hyphens aside, it is one of eleven names or ends in one of two suffixes |
| Sanitize.UnchangedIffClean | apps/api/app/workflows/state_machine.py:284-298 | sanitizing changes nothing iff no sensitive key and no empty dictionary occurs at any depth, hence it is idempotent |
| Sanitize.LeavesSurvive | apps/api/app/workflows/state_machine.py:284-298 | the leaves of the result are exactly those no sensitive key leads to, unchanged and in order |
| Keys.KeyIdentifiesAction | apps/api/app/actions/keys.py:10-16 | two idempotency keys are equal iff case, recommendation and action type are |
| Keys.ReferenceIdentifiesAction | apps/api/app/actions/keys.py:19-24 | a link reference has 35 characters and names exactly one action |

## Left out

- HTTP routes, authentication, tenant scoping, database plumbing, logging and the web front end: input and output around the modelled calls; one organization is modelled.
- The provider client, HMAC verification and JSON parsing: the provider is an adversary returning any answer, and a malformed body raises before anything is written.
- Model training and inference: the model is any map from actions to numbers, or a failure.
- Explanations, outreach text, the demo data and the naive baseline of the dashboard.
- The priority score and the values of the remaining feature columns: single expressions over one record.
- A case with both a transaction and a subscription: no handler opens one.
- A reconcile read that runs beside the POST of a live executor: the code does not serialise the two; reads settle a row only when its executor is gone, and their two commits are split only by a crash.
- The IntegrityError retry of action creation and of case creation: not reachable while the case row is locked and one call runs at a time.
- Registered events no service issues (APPROVED_LATER, ACTION_DUE, SCHEDULE_CANCELLED, RECOVERY_EXHAUSTED, STOPPING_RULE_MET) are covered by the registry theorems only, and so is the webhook status FAILED, which ingestion never sets.
- Progress out of ANALYZING after a failed action: no service of the repository drives it, so none is claimed.
- Row details without influence on the protocol: error categories, metadata, schedule times, actor ids, provider status texts and `last_transition_at`.
- Identifiers: an action is named by its case and position and a run by its position; `Keys` shows that the real keys are as distinct.
- Decimal precision of 28 digits and float rounding: values are exact rationals, and the stored columns are rounded to six places.
- Currency columns of fixed width and key columns of bounded length; strings are plain text and case mapping covers ASCII.
- Rejection reads the action's status before it locks the case (apps/api/app/actions/service.py:302-309); a concurrent second rejection that has already passed that read is excluded by modelling one call at a time.
- The policy of a merchant stays the same during a run.
- EventOrdering.SubscriptionConverges: speaks of charged and halted events at distinct times only; SubscriptionOrder.ConvergesExactly covers every case.
- Sanitize.LeavesSurvive: lists are leaves, as in the source, which does not look inside them.
- Deliveries.CrashIsInvisible: compares an interrupted delivery with an immediate retry; Redeliveries.CrashAmongOthers allows other operations in between.
- Deliveries.CaptureAfterFailure: the currency is any text; the CHAR(3) columns (apps/api/app/models/transaction.py:70, apps/api/app/models/recovery_case.py:123) refuse longer ones and drop trailing blanks, which is not modelled.
- Deliveries.UnnormalizedStaysOpen: the same; of currencies the columns keep unchanged it speaks of three-character codes with a lower-case letter or a leading blank.
- Deliveries.NormalizedExactly: case mapping and whitespace are those of ASCII; Python's `upper` and `strip` also act on other letters and blanks.
