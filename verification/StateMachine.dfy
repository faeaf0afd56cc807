/** The transition service: every status change of a case goes through here, in one commit. */
module StateMachine {
  import opened Domain
  import opened Registry
  import opened Cases
  import opened Persistence
  import Text

  /** The requirements of a definition that the caller's context does not meet. */
  method MissingRequirements(required: set<Evidence>, ctx: TransitionContext) returns (missing: set<Evidence>)
    ensures missing == set requirement | requirement in required && !EvidencePresent(requirement, ctx)
  {
    missing := {};
    var remaining := required;
    while remaining != {}
      invariant remaining <= required
      invariant missing == set requirement | requirement in required - remaining && !EvidencePresent(requirement, ctx)
      decreases remaining
    {
      var requirement :| requirement in remaining;
      remaining := remaining - {requirement};
      if !EvidencePresent(requirement, ctx) {
        missing := missing + {requirement};
      }
    }
  }

  /** The checks before the update, in order: open case, expected version, registered edge, evidence, outcome. */
  method CheckTransition(c: CaseState, expectedVersion: nat, event: Event, ctx: TransitionContext)
    returns (r: Result<CaseStatus, WorkflowError>)
    ensures match r
            case Failure(e) => Transition(c, expectedVersion, event, ctx) == Failure(e)
            case Success(target) =>
              Target(c.status, event) == Some(target) && c.version == expectedVersion
              && Transition(c, expectedVersion, event, ctx) == Success(Moved(c, event, target, ctx.at))
  {
    if IsTerminal(c.status) {
      return Failure(TerminalState);
    }
    if c.version != expectedVersion {
      return Failure(StaleVersion);
    }
    var definition := Find(DEFINITIONS, c.status, event);
    LookupIsTarget(c.status, event);
    if definition.None? {
      return Failure(InvalidTransition);
    }
    var missing := MissingRequirements(definition.value.required, ctx);
    if missing != {} {
      NotComplete(event, ctx, missing);
      return Failure(MissingEvidence);
    }
    AllPresent(event, ctx, missing);
    if definition.value.target == Recovered && !HasRecoveredOutcome(c) {
      return Failure(MissingOutcome);
    }
    return Success(definition.value.target);
  }

  /** Checks, swaps status and version, appends the audit entry and commits, all in one transaction. */
  method TransitionCase(session: Session, id: nat, expectedVersion: nat, event: Event, ctx: TransitionContext)
    returns (r: Result<CaseState, WorkflowError>)
    requires id < |session.working.cases|
    modifies session
    ensures r == Transition(old(session.working).cases[id], expectedVersion, event, ctx)
    ensures r.Success? ==>
              && session.working == old(session.working).(cases := old(session.working).cases[id := r.value])
              && session.committed == session.working
    ensures r.Failure? ==> session.working == old(session.working) && session.committed == old(session.committed)
  {
    var c := session.working.cases[id];
    var checked := CheckTransition(c, expectedVersion, event, ctx);
    if checked.Failure? {
      return Failure(checked.error);
    }
    var target := checked.value;
    var resolvedAt := if IsTerminal(target) then Some(ctx.at) else None;
    var rowsUpdated := PersistTransition(session, id, expectedVersion, target, resolvedAt);
    if rowsUpdated == 0 {
      return Failure(StaleVersion);
    }
    var moved := session.working.cases[id];
    var audit := Transitioned(event, c.status, target, expectedVersion, expectedVersion + 1);
    moved := moved.(audits := moved.audits + [audit]);
    session.Put(id, moved);
    session.Commit();
    return Success(moved);
  }

  /** Applies a move after pending row changes; a refused move takes the row changes with it. */
  method MoveOrRollback(session: Session, id: nat, c: CaseState, version: nat, event: Event, ctx: TransitionContext)
    returns (r: Result<CaseState, WorkflowError>)
    requires session.Clean() && id < |session.working.cases|
    modifies session
    ensures r == Transition(c, version, event, ctx)
    ensures r.Success? ==> session.Holds(old(session.committed), id, r.value)
    ensures r.Failure? ==> session.Clean() && session.committed == old(session.committed)
  {
    session.Put(id, c);
    r := TransitionCase(session, id, version, event, ctx);
    if r.Failure? {
      session.Rollback();
    }
  }

  lemma NotComplete(event: Event, ctx: TransitionContext, missing: set<Evidence>)
    requires missing == set requirement | requirement in Required(event) && !EvidencePresent(requirement, ctx)
    requires missing != {}
    ensures !EvidenceComplete(event, ctx)
  {
    var requirement :| requirement in missing;
    assert requirement in Required(event) && !EvidencePresent(requirement, ctx);
  }

  lemma AllPresent(event: Event, ctx: TransitionContext, missing: set<Evidence>)
    requires missing == set requirement | requirement in Required(event) && !EvidencePresent(requirement, ctx)
    requires missing == {}
    ensures EvidenceComplete(event, ctx)
  {
    forall requirement | requirement in Required(event)
      ensures EvidencePresent(requirement, ctx)
    {
      assert requirement !in missing;
    }
  }

  // ------------------------------------------------------------ a transition, told whole

  /** What the caller has to hand over for each event. */
  predicate Documented(event: Event, ctx: TransitionContext) {
    match event
    case AnalysisRequested => true
    case PaymentVerified => true
    case AnalysisCompleted => ctx.analysisRun.Some?
    case ApprovalRequired => ctx.analysisRun.Some? && ctx.action.Some?
    case ScheduleAction => ctx.action.Some? && ctx.scheduledFor.Some?
    case AutoExecute => ctx.action.Some?
    case ActionDue => ctx.action.Some?
    case ActionAcceptedOrUnknown => ctx.action.Some?
    case ApprovedNow => ctx.approverKnown && ctx.action.Some?
    case ApprovedLater => ctx.approverKnown && ctx.action.Some? && ctx.scheduledFor.Some?
    case ReevaluationDue => ctx.scheduledFor.Some?
    case ApprovalRejectedReanalyze => ctx.rejectionRecorded && !Text.AllSpace(ctx.reason)
    case ApprovalRejectedStop => ctx.rejectionRecorded && !Text.AllSpace(ctx.reason)
    case ActionFailedReanalyze => ctx.action.Some? && !Text.AllSpace(ctx.reason)
    case _ => !Text.AllSpace(ctx.reason)
  }

  lemma DocumentedExactly(event: Event, ctx: TransitionContext)
    ensures EvidenceComplete(event, ctx) <==> Documented(event, ctx)
  {
    Text.BlankExactly(ctx.reason);
    var required := Required(event);
    assert required <= {CaseExists, AnalysisRunGiven, ActionGiven, ScheduleGiven, ApproverGiven, ReasonGiven,
                        RejectionGiven, OutcomeGiven, ActionResultGiven};
    if EvidenceComplete(event, ctx) {
      assert forall requirement :: requirement in required ==> EvidencePresent(requirement, ctx);
    }
  }

  predicate Ends(status: CaseStatus) {
    status == Recovered || status == Failed || status == Stopped
  }

  /** The row one definition further on. */
  function Advanced(c: CaseState, event: Event, target: CaseStatus, at: int): CaseState {
    c.(status := target, version := c.version + 1, resolvedAt := if Ends(target) then Some(at) else c.resolvedAt,
       audits := c.audits + [Transitioned(event, c.status, target, c.version, c.version + 1)])
  }

  /** The registered target of the pair, if there is a definition for it. */
  function Registered(status: CaseStatus, event: Event): Option<CaseStatus> {
    var definition := Find(DEFINITIONS, status, event);
    if definition.None? then None else Some(definition.value.target)
  }

  lemma RegisteredIsTarget(status: CaseStatus, event: Event)
    ensures Registered(status, event) == Target(status, event)
  {
    LookupIsTarget(status, event);
  }

  /**
   * A transition fails with the first of five errors that applies, and else
   * moves the row along its registered definition, by one version, with the
   * time of resolution when the case ends there, and one more audit entry.
   */
  lemma TransitionExactly(c: CaseState, version: nat, event: Event, ctx: TransitionContext)
    ensures var target := Registered(c.status, event);
            Transition(c, version, event, ctx)
            == if Ends(c.status) then Failure(TerminalState)
               else if c.version != version then Failure(StaleVersion)
               else if target.None? then Failure(InvalidTransition)
               else if !Documented(event, ctx) then Failure(MissingEvidence)
               else if event == PaymentVerified && (c.outcome.None? || c.outcome.value.amount <= 0)
               then Failure(MissingOutcome)
               else Success(Advanced(c, event, target.value, ctx.at))
  {
    RegisteredIsTarget(c.status, event);
    DocumentedExactly(event, ctx);
    OnlyPaymentRecovers(c.status, event);
  }

  lemma OnlyPaymentRecovers(status: CaseStatus, event: Event)
    ensures Target(status, event) == Some(Recovered) ==> event == PaymentVerified
    ensures event == PaymentVerified && Target(status, event).Some? ==> Target(status, event) == Some(Recovered)
  {
  }
}
