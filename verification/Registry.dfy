/** The transition registry of a recovery case and the shape of every path through it. */
module Registry {
  import opened Domain

  datatype Event =
    | AnalysisRequested | AnalysisCompleted | AnalysisTerminalFailure
    | ApprovalRequired | ScheduleAction | AutoExecute | StopSelected
    | ApprovedNow | ApprovedLater | ApprovalRejectedReanalyze | ApprovalRejectedStop
    | ReevaluationDue | ActionDue | PaymentVerified | ScheduleCancelled
    | ActionAcceptedOrUnknown | ActionFailedReanalyze | TerminalActionFailure
    | NegativeOutcomeOrTimeout | RecoveryExhausted | StoppingRuleMet

  datatype Evidence =
    | CaseExists | AnalysisRunGiven | ActionGiven | ScheduleGiven | ApproverGiven
    | ReasonGiven | RejectionGiven | OutcomeGiven | ActionResultGiven

  datatype Definition = Definition(source: CaseStatus, event: Event, target: CaseStatus, required: set<Evidence>)

  const DEFINITIONS: seq<Definition> := [
    Definition(Detected, AnalysisRequested, Analyzing, {CaseExists}),
    Definition(Analyzing, AnalysisCompleted, Recommended, {AnalysisRunGiven}),
    Definition(Analyzing, AnalysisTerminalFailure, Failed, {ReasonGiven}),
    Definition(Recommended, ApprovalRequired, AwaitingApproval, {ActionGiven, AnalysisRunGiven}),
    Definition(Recommended, ScheduleAction, Scheduled, {ActionGiven, ScheduleGiven}),
    Definition(Recommended, AutoExecute, Executing, {ActionGiven}),
    Definition(Recommended, StopSelected, Stopped, {ReasonGiven}),
    Definition(AwaitingApproval, ApprovedNow, Executing, {ApproverGiven, ActionGiven}),
    Definition(AwaitingApproval, ApprovedLater, Scheduled, {ApproverGiven, ActionGiven, ScheduleGiven}),
    Definition(AwaitingApproval, ApprovalRejectedReanalyze, Analyzing, {RejectionGiven, ReasonGiven}),
    Definition(AwaitingApproval, ApprovalRejectedStop, Stopped, {RejectionGiven, ReasonGiven}),
    Definition(Scheduled, ReevaluationDue, Analyzing, {ScheduleGiven}),
    Definition(Scheduled, ActionDue, Executing, {ActionGiven}),
    Definition(Scheduled, PaymentVerified, Recovered, {OutcomeGiven}),
    Definition(Scheduled, ScheduleCancelled, Stopped, {ReasonGiven}),
    Definition(Executing, ActionAcceptedOrUnknown, WaitingForOutcome, {ActionResultGiven}),
    Definition(Executing, ActionFailedReanalyze, Analyzing, {ActionGiven, ReasonGiven}),
    Definition(Executing, TerminalActionFailure, Failed, {ReasonGiven}),
    Definition(Executing, PaymentVerified, Recovered, {OutcomeGiven}),
    Definition(WaitingForOutcome, PaymentVerified, Recovered, {OutcomeGiven}),
    Definition(WaitingForOutcome, NegativeOutcomeOrTimeout, Analyzing, {ReasonGiven}),
    Definition(WaitingForOutcome, RecoveryExhausted, Failed, {ReasonGiven}),
    Definition(WaitingForOutcome, StoppingRuleMet, Stopped, {ReasonGiven}),
    Definition(Detected, PaymentVerified, Recovered, {OutcomeGiven}),
    Definition(Analyzing, PaymentVerified, Recovered, {OutcomeGiven}),
    Definition(Recommended, PaymentVerified, Recovered, {OutcomeGiven}),
    Definition(AwaitingApproval, PaymentVerified, Recovered, {OutcomeGiven})]

  /** Where an event leads from a status, if the registry has such an edge. */
  function Target(status: CaseStatus, event: Event): Option<CaseStatus> {
    match (status, event)
    case (Detected, AnalysisRequested) => Some(Analyzing)
    case (Analyzing, AnalysisCompleted) => Some(Recommended)
    case (Analyzing, AnalysisTerminalFailure) => Some(Failed)
    case (Recommended, ApprovalRequired) => Some(AwaitingApproval)
    case (Recommended, ScheduleAction) => Some(Scheduled)
    case (Recommended, AutoExecute) => Some(Executing)
    case (Recommended, StopSelected) => Some(Stopped)
    case (AwaitingApproval, ApprovedNow) => Some(Executing)
    case (AwaitingApproval, ApprovedLater) => Some(Scheduled)
    case (AwaitingApproval, ApprovalRejectedReanalyze) => Some(Analyzing)
    case (AwaitingApproval, ApprovalRejectedStop) => Some(Stopped)
    case (Scheduled, ReevaluationDue) => Some(Analyzing)
    case (Scheduled, ActionDue) => Some(Executing)
    case (Scheduled, ScheduleCancelled) => Some(Stopped)
    case (Executing, ActionAcceptedOrUnknown) => Some(WaitingForOutcome)
    case (Executing, ActionFailedReanalyze) => Some(Analyzing)
    case (Executing, TerminalActionFailure) => Some(Failed)
    case (WaitingForOutcome, NegativeOutcomeOrTimeout) => Some(Analyzing)
    case (WaitingForOutcome, RecoveryExhausted) => Some(Failed)
    case (WaitingForOutcome, StoppingRuleMet) => Some(Stopped)
    case (_, PaymentVerified) => if IsTerminal(status) then None else Some(Recovered)
    case _ => None
  }

  /** Evidence an event asks for; it never depends on the source status. */
  function Required(event: Event): set<Evidence> {
    match event
    case AnalysisRequested => {CaseExists}
    case AnalysisCompleted => {AnalysisRunGiven}
    case ApprovalRequired => {ActionGiven, AnalysisRunGiven}
    case ScheduleAction => {ActionGiven, ScheduleGiven}
    case AutoExecute => {ActionGiven}
    case ApprovedNow => {ApproverGiven, ActionGiven}
    case ApprovedLater => {ApproverGiven, ActionGiven, ScheduleGiven}
    case ApprovalRejectedReanalyze => {RejectionGiven, ReasonGiven}
    case ApprovalRejectedStop => {RejectionGiven, ReasonGiven}
    case ReevaluationDue => {ScheduleGiven}
    case ActionDue => {ActionGiven}
    case PaymentVerified => {OutcomeGiven}
    case ActionAcceptedOrUnknown => {ActionResultGiven}
    case ActionFailedReanalyze => {ActionGiven, ReasonGiven}
    case _ => {ReasonGiven}
  }

  /** First definition registered for the pair; the table has one at most. */
  function Find(definitions: seq<Definition>, status: CaseStatus, event: Event): Option<Definition> {
    if definitions == [] then None
    else if definitions[0].source == status && definitions[0].event == event then Some(definitions[0])
    else Find(definitions[1..], status, event)
  }

  lemma {:induction false} FindIsMember(definitions: seq<Definition>, status: CaseStatus, event: Event)
    ensures Find(definitions, status, event).Some? ==> Find(definitions, status, event).value in definitions
    ensures Find(definitions, status, event).None? ==>
              forall d :: d in definitions ==> d.source != status || d.event != event
  {
    if definitions != [] {
      FindIsMember(definitions[1..], status, event);
    }
  }

  predicate DefinitionAgrees(d: Definition) {
    Target(d.source, d.event) == Some(d.target) && Required(d.event) == d.required
  }

  lemma EveryDefinitionAgrees(i: nat)
    requires i < |DEFINITIONS|
    ensures DefinitionAgrees(DEFINITIONS[i])
  {
  }

  /** The position of a registered pair in the table; anything else maps outside it. */
  function Position(status: CaseStatus, event: Event): nat {
    match (status, event)
    case (Detected, AnalysisRequested) => 0
    case (Analyzing, AnalysisCompleted) => 1
    case (Analyzing, AnalysisTerminalFailure) => 2
    case (Recommended, ApprovalRequired) => 3
    case (Recommended, ScheduleAction) => 4
    case (Recommended, AutoExecute) => 5
    case (Recommended, StopSelected) => 6
    case (AwaitingApproval, ApprovedNow) => 7
    case (AwaitingApproval, ApprovedLater) => 8
    case (AwaitingApproval, ApprovalRejectedReanalyze) => 9
    case (AwaitingApproval, ApprovalRejectedStop) => 10
    case (Scheduled, ReevaluationDue) => 11
    case (Scheduled, ActionDue) => 12
    case (Scheduled, PaymentVerified) => 13
    case (Scheduled, ScheduleCancelled) => 14
    case (Executing, ActionAcceptedOrUnknown) => 15
    case (Executing, ActionFailedReanalyze) => 16
    case (Executing, TerminalActionFailure) => 17
    case (Executing, PaymentVerified) => 18
    case (WaitingForOutcome, PaymentVerified) => 19
    case (WaitingForOutcome, NegativeOutcomeOrTimeout) => 20
    case (WaitingForOutcome, RecoveryExhausted) => 21
    case (WaitingForOutcome, StoppingRuleMet) => 22
    case (Detected, PaymentVerified) => 23
    case (Analyzing, PaymentVerified) => 24
    case (Recommended, PaymentVerified) => 25
    case (AwaitingApproval, PaymentVerified) => 26
    case _ => 27
  }

  lemma TargetHasDefinition(status: CaseStatus, event: Event)
    requires Target(status, event).Some?
    ensures Position(status, event) < |DEFINITIONS|
    ensures DEFINITIONS[Position(status, event)].source == status && DEFINITIONS[Position(status, event)].event == event
  {
  }

  /** Looking an edge up in the registered table and the table read as a function agree on every pair. */
  lemma LookupIsTarget(status: CaseStatus, event: Event)
    ensures Find(DEFINITIONS, status, event).Some? <==> Target(status, event).Some?
    ensures Find(DEFINITIONS, status, event).Some? ==>
              Find(DEFINITIONS, status, event).value
              == Definition(status, event, Target(status, event).value, Required(event))
  {
    var found := Find(DEFINITIONS, status, event);
    FindIsMember(DEFINITIONS, status, event);
    FindMatches(DEFINITIONS, status, event);
    if found.Some? {
      var i :| 0 <= i < |DEFINITIONS| && DEFINITIONS[i] == found.value;
      EveryDefinitionAgrees(i);
    } else if Target(status, event).Some? {
      TargetHasDefinition(status, event);
    }
  }

  lemma {:induction false} FindMatches(definitions: seq<Definition>, status: CaseStatus, event: Event)
    ensures Find(definitions, status, event).Some? ==>
              && Find(definitions, status, event).value.source == status
              && Find(definitions, status, event).value.event == event
  {
    if definitions != [] {
      FindMatches(definitions[1..], status, event);
    }
  }

  // ------------------------------------------------------------ paths

  /** Terminal statuses have no outgoing edge, and PAYMENT_VERIFIED leaves every other status. */
  lemma TerminalIffDead(status: CaseStatus)
    ensures IsTerminal(status) <==> forall event :: Target(status, event).None?
    ensures Target(status, PaymentVerified) == if IsTerminal(status) then None else Some(Recovered)
  {
    assert Target(Detected, PaymentVerified).Some?;
    if !IsTerminal(status) {
      assert Target(status, PaymentVerified).Some?;
    }
  }

  /** Events that some service of the repository issues; the other five are registered only. */
  predicate Issued(event: Event) {
    && event != ApprovedLater && event != ActionDue && event != ScheduleCancelled
    && event != RecoveryExhausted && event != StoppingRuleMet
  }

  /** Leaving RECOMMENDED for a non-terminal status: the moment an action row is added. */
  predicate AddsRow(status: CaseStatus, event: Event) {
    status == Recommended && Target(status, event).Some? && !IsTerminal(Target(status, event).value)
  }

  /** Status reached after following the events from DETECTED; None when some edge is missing. */
  function Follow(events: seq<Event>): Option<CaseStatus> {
    if events == [] then Some(Detected)
    else
      match Follow(events[..|events| - 1])
      case None => None
      case Some(status) => Target(status, events[|events| - 1])
  }

  /** How many of the followed edges added an action row. */
  function RowsAdded(events: seq<Event>): nat {
    if events == [] then 0
    else
      var front := events[..|events| - 1];
      RowsAdded(front)
      + (if Follow(front).Some? && AddsRow(Follow(front).value, events[|events| - 1]) then 1 else 0)
  }

  /** Offset of a status inside one round of recommendation, action and re-analysis. */
  function RoundOffset(status: CaseStatus, perRound: nat): int {
    match status
    case Detected => 0
    case Analyzing => 1
    case Recommended => 2
    case AwaitingApproval => 3 - perRound
    case Scheduled => -2
    case Executing => -1
    case WaitingForOutcome => 0
    case _ => 3
  }

  /**
   * Every registry path is bounded by the rows it added: at most five edges a
   * round over the events the services issue, six over the whole registry.
   */
  lemma {:induction false} PathsAreBounded(events: seq<Event>, perRound: nat)
    requires Follow(events).Some?
    requires perRound == 6 || (perRound == 5 && forall e :: e in events ==> Issued(e))
    ensures |events| <= perRound * RowsAdded(events) + RoundOffset(Follow(events).value, perRound)
    ensures |events| <= perRound * RowsAdded(events) + 3
  {
    if events != [] {
      var front, last := events[..|events| - 1], events[|events| - 1];
      assert forall e :: e in front ==> e in events;
      PathsAreBounded(front, perRound);
      OffsetStep(Follow(front).value, last, perRound);
      var rows := RowsAdded(front);
      assert perRound * (rows + 1) == perRound * rows + perRound;
    }
  }

  lemma OffsetStep(status: CaseStatus, event: Event, perRound: nat)
    requires Target(status, event).Some?
    requires perRound == 6 || (perRound == 5 && Issued(event))
    ensures RoundOffset(status, perRound) + 1
         <= RoundOffset(Target(status, event).value, perRound) + (if AddsRow(status, event) then perRound else 0)
    ensures RoundOffset(status, perRound) <= 3
  {
  }

  /** Rank that falls along every edge that adds no row. */
  function StatusRank(status: CaseStatus): nat {
    match status
    case AwaitingApproval => 6
    case Scheduled => 5
    case Executing => 4
    case WaitingForOutcome => 3
    case Detected => 3
    case Analyzing => 2
    case Recommended => 1
    case _ => 0
  }

  lemma RankFallsUnlessRowAdded(status: CaseStatus, event: Event)
    requires Target(status, event).Some?
    ensures AddsRow(status, event) || StatusRank(Target(status, event).value) < StatusRank(status)
  {
  }

  const FIRST_HALF: seq<Event> := [ApprovalRequired, ApprovedLater, ActionDue]
  const SECOND_HALF: seq<Event> := [ActionAcceptedOrUnknown, NegativeOutcomeOrTimeout, AnalysisCompleted]

  /** The full-registry bound is met: six edges a round are possible for every number of rounds. */
  function LongestRounds(rounds: nat): seq<Event> {
    if rounds == 0 then [AnalysisRequested] + [AnalysisCompleted]
    else (LongestRounds(rounds - 1) + FIRST_HALF) + SECOND_HALF
  }

  lemma BoundIsTight(rounds: nat)
    ensures Follow(LongestRounds(rounds)) == Some(Recommended) && RowsAdded(LongestRounds(rounds)) == rounds
    ensures |LongestRounds(rounds)| == 6 * rounds + 2
    ensures RowsAdded(LongestRounds(rounds) + [StopSelected]) == rounds
    ensures Follow(LongestRounds(rounds) + [StopSelected]) == Some(Stopped)
    ensures |LongestRounds(rounds) + [StopSelected]| == 6 * rounds + 3
  {
    RoundsCanBeFollowed(rounds);
    FollowOne(LongestRounds(rounds), StopSelected);
  }

  lemma {:induction false} RoundsCanBeFollowed(rounds: nat)
    ensures Follow(LongestRounds(rounds)) == Some(Recommended)
    ensures RowsAdded(LongestRounds(rounds)) == rounds
    ensures |LongestRounds(rounds)| == 6 * rounds + 2
  {
    if rounds == 0 {
      FirstRecommendation();
    } else {
      RoundsCanBeFollowed(rounds - 1);
      FirstHalfRound(LongestRounds(rounds - 1));
      SecondHalfRound(LongestRounds(rounds - 1) + FIRST_HALF);
    }
  }

  lemma FirstRecommendation()
    ensures Follow([AnalysisRequested] + [AnalysisCompleted]) == Some(Recommended)
    ensures RowsAdded([AnalysisRequested] + [AnalysisCompleted]) == 0
  {
    FollowOne([], AnalysisRequested);
    assert [] + [AnalysisRequested] == [AnalysisRequested];
    FollowOne([AnalysisRequested], AnalysisCompleted);
  }

  lemma FirstHalfRound(p: seq<Event>)
    requires Follow(p) == Some(Recommended)
    ensures Follow(p + FIRST_HALF) == Some(Executing) && RowsAdded(p + FIRST_HALF) == RowsAdded(p) + 1
  {
    FollowThree(p, ApprovalRequired, ApprovedLater, ActionDue);
  }

  lemma SecondHalfRound(p: seq<Event>)
    requires Follow(p) == Some(Executing)
    ensures Follow(p + SECOND_HALF) == Some(Recommended) && RowsAdded(p + SECOND_HALF) == RowsAdded(p)
  {
    FollowThree(p, ActionAcceptedOrUnknown, NegativeOutcomeOrTimeout, AnalysisCompleted);
  }

  lemma FollowThree(p: seq<Event>, a: Event, b: Event, c: Event)
    requires Follow(p).Some? && Target(Follow(p).value, a).Some?
    requires Target(Target(Follow(p).value, a).value, b).Some?
    ensures var first := Target(Follow(p).value, a).value;
            var second := Target(first, b).value;
            && Follow(p + [a, b, c]) == Target(second, c)
            && RowsAdded(p + [a, b, c])
               == RowsAdded(p) + (if AddsRow(Follow(p).value, a) then 1 else 0)
                  + (if AddsRow(first, b) then 1 else 0) + (if AddsRow(second, c) then 1 else 0)
  {
    FollowOne(p, a);
    FollowOne(p + [a], b);
    FollowOne((p + [a]) + [b], c);
    assert p + [a, b, c] == ((p + [a]) + [b]) + [c];
  }

  lemma FollowOne(events: seq<Event>, event: Event)
    ensures Follow(events + [event])
         == if Follow(events).None? then None else Target(Follow(events).value, event)
    ensures RowsAdded(events + [event])
         == RowsAdded(events) + (if Follow(events).Some? && AddsRow(Follow(events).value, event) then 1 else 0)
  {
    assert (events + [event])[..|events + [event]| - 1] == events;
  }
}
