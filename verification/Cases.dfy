/** The recovery-case rows and the compare-and-swap transition over them. */
module Cases {
  import opened Domain
  import opened Registry
  import opened Selection
  import Text

  /** Entries of the append-only audit log of one case. */
  datatype AuditEntry =
    | CaseCreated
    | Transitioned(event: Event, previousStatus: CaseStatus, newStatus: CaseStatus,
                   previousVersion: nat, newVersion: nat)
    | ReconciliationRequired(status: CaseStatus)

  /**
   * One recovery_actions row. Its id is its position in the case's list; `run`
   * stands for the recommendation it was created from, which is the row of
   * that run carrying the same action type.
   */
  datatype ActionRow = ActionRow(
    action: ActionType,
    status: ActionStatus,
    attempt: nat,
    run: nat,
    requiresApproval: bool,
    hasLinkId: bool)

  datatype Outcome = Outcome(amount: int, paymentId: string, recoveredAt: int)

  /** The process that owns an ANALYZING phase, if it is still alive. */
  datatype AnalysisWorker = NoAnalysis | Computing(excluded: set<ActionType>) | RunStored(run: nat)

  /** The process carrying out an action, if it is still alive, and how far it got. */
  datatype Executor =
    | NoExecutor
    | ReadyToPost(index: nat)
    | Posted(index: nat)
    | Escalating(index: nat)
    | ResultRecorded(index: nat, next: Event)

  datatype CaseState = CaseState(
    sourceKey: string,
    transactionId: Option<string>,
    amountAtRisk: nat,
    currency: string,
    status: CaseStatus,
    version: nat,
    resolvedAt: Option<int>,
    currentRun: Option<nat>,
    runs: seq<seq<Row>>,
    actions: seq<ActionRow>,
    outcome: Option<Outcome>,
    audits: seq<AuditEntry>,
    analysis: AnalysisWorker,
    executor: Executor,
    posts: seq<nat>)

  function NewCase(sourceKey: string, transactionId: Option<string>, amount: nat, currency: string): CaseState {
    CaseState(sourceKey, transactionId, amount, currency, Detected, 1, None, None, [], [], None, [CaseCreated],
              NoAnalysis, NoExecutor, [])
  }

  // ------------------------------------------------------------ transition

  /** What the caller of a transition hands over; an absent reason is the empty string. */
  datatype TransitionContext = TransitionContext(
    at: int,
    analysisRun: Option<nat>,
    action: Option<nat>,
    scheduledFor: Option<int>,
    approverKnown: bool,
    reason: string,
    rejectionRecorded: bool)

  function ContextAt(at: int): TransitionContext {
    TransitionContext(at, None, None, None, false, "", false)
  }

  datatype WorkflowError =
    | TerminalState | StaleVersion | InvalidTransition | MissingEvidence | MissingOutcome

  predicate EvidencePresent(requirement: Evidence, ctx: TransitionContext) {
    match requirement
    case AnalysisRunGiven => ctx.analysisRun.Some?
    case ActionGiven => ctx.action.Some?
    case ScheduleGiven => ctx.scheduledFor.Some?
    case ApproverGiven => ctx.approverKnown
    case ReasonGiven => Text.Strip(ctx.reason) != ""
    case RejectionGiven => ctx.rejectionRecorded
    case ActionResultGiven => ctx.action.Some?
    case CaseExists => true
    case OutcomeGiven => true
  }

  predicate EvidenceComplete(event: Event, ctx: TransitionContext) {
    forall requirement :: requirement in Required(event) ==> EvidencePresent(requirement, ctx)
  }

  predicate HasRecoveredOutcome(c: CaseState) {
    c.outcome.Some? && c.outcome.value.amount > 0
  }

  /** The row after following an edge: the only place where status and version change. */
  function Moved(c: CaseState, event: Event, target: CaseStatus, at: int): CaseState {
    c.(status := target,
       version := c.version + 1,
       resolvedAt := if IsTerminal(target) then Some(at) else c.resolvedAt,
       audits := c.audits + [Transitioned(event, c.status, target, c.version, c.version + 1)])
  }

  function Transition(c: CaseState, expectedVersion: nat, event: Event, ctx: TransitionContext)
    : Result<CaseState, WorkflowError>
  {
    if IsTerminal(c.status) then Failure(TerminalState)
    else if c.version != expectedVersion then Failure(StaleVersion)
    else if Target(c.status, event).None? then Failure(InvalidTransition)
    else if !EvidenceComplete(event, ctx) then Failure(MissingEvidence)
    else if Target(c.status, event).value == Recovered && !HasRecoveredOutcome(c) then Failure(MissingOutcome)
    else Success(Moved(c, event, Target(c.status, event).value, ctx.at))
  }

  // ------------------------------------------------------------ the audit log as an event source

  /** Rebuilds status and version from the log alone; None when an entry does not fit. */
  function Replay(audits: seq<AuditEntry>): Option<(CaseStatus, nat)> {
    if audits == [] then Some((Detected, 1))
    else
      match Replay(audits[..|audits| - 1])
      case None => None
      case Some(position) =>
        match audits[|audits| - 1]
        case Transitioned(event, previousStatus, newStatus, previousVersion, newVersion) =>
          if && previousStatus == position.0 && previousVersion == position.1
             && newVersion == position.1 + 1 && Target(position.0, event) == Some(newStatus)
          then Some((newStatus, newVersion))
          else None
        case _ => Some(position)
  }

  /** The events of the log, oldest first. */
  function EventsOf(audits: seq<AuditEntry>): seq<Event> {
    if audits == [] then []
    else
      var last := audits[|audits| - 1];
      EventsOf(audits[..|audits| - 1]) + (if last.Transitioned? then [last.event] else [])
  }

  lemma ReplayAppend(audits: seq<AuditEntry>, entry: AuditEntry)
    ensures (audits + [entry])[..|audits + [entry]| - 1] == audits
    ensures EventsOf(audits + [entry]) == EventsOf(audits) + (if entry.Transitioned? then [entry.event] else [])
    ensures Replay(audits).Some? && !entry.Transitioned? ==> Replay(audits + [entry]) == Replay(audits)
  {
  }

  lemma ReplayTransition(audits: seq<AuditEntry>, event: Event)
    requires Replay(audits).Some? && Target(Replay(audits).value.0, event).Some?
    ensures var (status, version) := Replay(audits).value;
            var target := Target(status, event).value;
            Replay(audits + [Transitioned(event, status, target, version, version + 1)]) == Some((target, version + 1))
  {
    var (status, version) := Replay(audits).value;
    ReplayAppend(audits, Transitioned(event, status, Target(status, event).value, version, version + 1));
  }

  /** A log that replays is a registry path, and the version counts its edges. */
  lemma {:induction false} ReplayIsPath(audits: seq<AuditEntry>)
    requires Replay(audits).Some?
    ensures Follow(EventsOf(audits)) == Some(Replay(audits).value.0)
    ensures Replay(audits).value.1 == 1 + |EventsOf(audits)|
  {
    if audits != [] {
      var front, last := audits[..|audits| - 1], audits[|audits| - 1];
      ReplayIsPath(front);
      if last.Transitioned? {
        FollowOne(EventsOf(front), last.event);
      } else {
        assert EventsOf(audits) == EventsOf(front);
      }
    }
  }

  /** In a log that replays, every transition entry links to the next one on status and version. */
  lemma {:induction false} ReplayLinks(audits: seq<AuditEntry>, i: nat, j: nat)
    requires Replay(audits).Some? && i < j < |audits|
    requires audits[i].Transitioned? && audits[j].Transitioned?
    requires forall k :: i < k < j ==> !audits[k].Transitioned?
    ensures audits[i].newStatus == audits[j].previousStatus && audits[i].newVersion == audits[j].previousVersion
    ensures !IsTerminal(audits[j].previousStatus)
  {
    var front := audits[..|audits| - 1];
    if j < |audits| - 1 {
      ReplayLinks(front, i, j);
    } else {
      ReplayQuiet(front, i);
    }
  }

  /** Entries that are not transitions leave the replayed position alone. */
  lemma {:induction false} ReplayQuiet(audits: seq<AuditEntry>, i: nat)
    requires Replay(audits).Some? && i < |audits| && audits[i].Transitioned?
    requires forall k :: i < k < |audits| ==> !audits[k].Transitioned?
    ensures Replay(audits).value == (audits[i].newStatus, audits[i].newVersion)
  {
    if i < |audits| - 1 {
      ReplayQuiet(audits[..|audits| - 1], i);
    }
  }
}
