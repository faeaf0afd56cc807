/**
 * Transitions under arbitrary interleaving: a worker reads status and version,
 * decides, and later swaps on the version alone.
 */
module CompareAndSwap {
  import opened Domain
  import opened Registry

  /** What a worker carries from its read to its commit; `outcome` is its own uncommitted outcome row. */
  datatype Decision = Decision(seenStatus: CaseStatus, seenVersion: nat, event: Event, target: CaseStatus,
                               outcome: Option<int>)

  /**
   * The shared row, the committed outcome and the workers between read and
   * commit. `events` and `winners` are histories: what was applied, and by whom.
   */
  datatype Shared = Shared(
    status: CaseStatus,
    version: nat,
    outcome: Option<int>,
    pending: map<nat, Decision>,
    events: seq<Event>,
    winners: seq<nat>)

  const FRESH := Shared(Detected, 1, None, map[], [], [])

  datatype Move = Decide(worker: nat, event: Event, outcome: Option<int>) | Commit(worker: nat) | GiveUp(worker: nat)

  /** The checks of a transition on the row as read, with the worker's own outcome visible to itself. */
  function Decided(s: Shared, event: Event, outcome: Option<int>): Option<Decision> {
    if IsTerminal(s.status) then None
    else if outcome.Some? && (event != PaymentVerified || s.outcome.Some? || outcome.value <= 0) then None
    else if Target(s.status, event).None? then None
    else if Target(s.status, event).value == Recovered && s.outcome.None? && outcome.None? then None
    else Some(Decision(s.status, s.version, event, Target(s.status, event).value, outcome))
  }

  /** The update compares the version only; a second outcome row for the case violates its unique constraint. */
  predicate Swaps(s: Shared, d: Decision) {
    d.seenVersion == s.version && (d.outcome.Some? ==> s.outcome.None?)
  }

  function Take(s: Shared, m: Move): Shared {
    match m
    case Decide(w, event, outcome) =>
      var d := Decided(s, event, outcome);
      if d.None? then s else s.(pending := s.pending[w := d.value])
    case GiveUp(w) => s.(pending := s.pending - {w})
    case Commit(w) =>
      if w !in s.pending then s
      else if !Swaps(s, s.pending[w]) then s.(pending := s.pending - {w})
      else
        var d := s.pending[w];
        Shared(d.target, s.version + 1, if d.outcome.Some? then d.outcome else s.outcome, s.pending - {w},
               s.events + [d.event], s.winners + [w])
  }

  function TakeAll(s: Shared, moves: seq<Move>): Shared {
    if moves == [] then s else Take(TakeAll(s, moves[..|moves| - 1]), moves[|moves| - 1])
  }

  /** The status the row had at a version, rebuilt from the applied events. */
  function StatusAt(s: Shared, version: nat): Option<CaseStatus>
    requires 1 <= version <= |s.events| + 1
  {
    Follow(s.events[..version - 1])
  }

  ghost predicate DecisionOk(s: Shared, d: Decision) {
    && 1 <= d.seenVersion <= s.version
    && d.seenVersion <= |s.events| + 1
    && StatusAt(s, d.seenVersion) == Some(d.seenStatus)
    && Target(d.seenStatus, d.event) == Some(d.target)
    && (d.outcome.Some? ==> d.target == Recovered && d.outcome.value > 0)
    && (d.target == Recovered ==> d.outcome.Some? || s.outcome.Some?)
  }

  ghost predicate Sound(s: Shared) {
    && s.version == 1 + |s.events| && |s.winners| == |s.events|
    && Follow(s.events) == Some(s.status)
    && (s.outcome.Some? <==> s.status == Recovered)
    && (s.outcome.Some? ==> s.outcome.value > 0)
    && forall w :: w in s.pending ==> DecisionOk(s, s.pending[w])
  }

  /** A snapshot that still has the current version also has the current status: comparing the version is enough. */
  lemma VersionImpliesStatus(s: Shared, w: nat)
    requires Sound(s) && w in s.pending && s.pending[w].seenVersion == s.version
    ensures s.pending[w].seenStatus == s.status
    ensures Target(s.status, s.pending[w].event) == Some(s.pending[w].target)
  {
    assert DecisionOk(s, s.pending[w]);
    assert s.events[..|s.events|] == s.events;
  }

  lemma HistoryKept(s: Shared, t: Shared, event: Event, version: nat)
    requires t.events == s.events + [event] && 1 <= version <= |s.events| + 1
    ensures StatusAt(t, version) == StatusAt(s, version)
  {
    assert t.events[..version - 1] == s.events[..version - 1];
  }

  lemma TakeKeepsSound(s: Shared, m: Move)
    requires Sound(s)
    ensures Sound(Take(s, m))
  {
    var t := Take(s, m);
    match m
    case Decide(w, event, outcome) =>
      assert s.events[..|s.events|] == s.events;
      TargetOfVerified(s.status, event);
    case GiveUp(w) =>
    case Commit(w) =>
      if w in s.pending && Swaps(s, s.pending[w]) {
        AppliedKeepsSound(s, w, t);
      }
  }

  lemma AppliedKeepsSound(s: Shared, w: nat, t: Shared)
    requires Sound(s) && w in s.pending && Swaps(s, s.pending[w]) && t == Take(s, Commit(w))
    ensures Sound(t)
  {
    var d := s.pending[w];
    assert DecisionOk(s, d);
    VersionImpliesStatus(s, w);
    FollowOne(s.events, d.event);
    TargetOfVerified(s.status, d.event);
    forall v | v in t.pending
      ensures DecisionOk(t, t.pending[v])
    {
      assert DecisionOk(s, s.pending[v]);
      HistoryKept(s, t, d.event, s.pending[v].seenVersion);
    }
  }

  lemma TargetOfVerified(status: CaseStatus, event: Event)
    ensures Target(status, event) == Some(Recovered) <==> event == PaymentVerified && !IsTerminal(status)
    ensures Target(status, event).Some? ==> !IsTerminal(status)
  {
  }

  /**
   * Whatever the interleaving, the applied transitions form one registry path
   * that ends in the row's status, each version was left by exactly one
   * worker, and the row is RECOVERED iff a positive outcome is committed.
   */
  lemma {:induction false} InterleavingIsSound(moves: seq<Move>)
    ensures Sound(TakeAll(FRESH, moves))
  {
    if moves == [] {
      assert Follow([]) == Some(Detected);
    } else {
      InterleavingIsSound(moves[..|moves| - 1]);
      TakeKeepsSound(TakeAll(FRESH, moves[..|moves| - 1]), moves[|moves| - 1]);
    }
  }

  /** Every applied transition is a registry edge out of the status held at its commit, and moves the version by one. */
  lemma AppliedIsEdge(moves: seq<Move>, w: nat)
    ensures var s := TakeAll(FRESH, moves);
            var t := Take(s, Commit(w));
            || (t.status == s.status && t.version == s.version && t.outcome == s.outcome && t.winners == s.winners)
            || (&& w in s.pending && Target(s.status, s.pending[w].event) == Some(t.status)
                && t.version == s.version + 1 && t.winners == s.winners + [w]
                && (t.status == Recovered ==> t.outcome.Some? && t.outcome.value > 0))
  {
    InterleavingIsSound(moves);
    var s := TakeAll(FRESH, moves);
    if w in s.pending && Swaps(s, s.pending[w]) {
      VersionImpliesStatus(s, w);
      TakeKeepsSound(s, Commit(w));
    }
  }

  /** Of two workers that decided on the same version at most one succeeds, whatever happens in between. */
  lemma {:induction false} OneWinnerPerVersion(s: Shared, first: nat, between: seq<Move>, second: Decision)
    requires Sound(s) && first in s.pending && Swaps(s, s.pending[first])
    requires second.seenVersion == s.pending[first].seenVersion
    ensures var t := TakeAll(Take(s, Commit(first)), between);
            t.version > second.seenVersion && !Swaps(t, second)
  {
    var applied := Take(s, Commit(first));
    if between != [] {
      OneWinnerPerVersion(s, first, between[..|between| - 1], second);
    }
  }

  /**
   * The check on the version is what makes this work: without it a stale
   * worker would overwrite a terminal status.
   */
  lemma StaleWorkerIsRefused()
    ensures var moves := [Decide(0, AnalysisRequested, None), Decide(1, PaymentVerified, Some(5)), Commit(1)];
            var s := TakeAll(FRESH, moves);
            && s.status == Recovered && 0 in s.pending && s.pending[0].target == Analyzing
            && Take(s, Commit(0)).status == Recovered && Take(s, Commit(0)).winners == [1]
  {
    var moves := [Decide(0, AnalysisRequested, None), Decide(1, PaymentVerified, Some(5)), Commit(1)];
    assert moves[..2] == [Decide(0, AnalysisRequested, None), Decide(1, PaymentVerified, Some(5))];
    assert moves[..2][..1] == [Decide(0, AnalysisRequested, None)];
    assert moves[..2][..1][..0] == [];
    var one := Take(FRESH, Decide(0, AnalysisRequested, None));
    assert TakeAll(FRESH, moves[..2][..1]) == one;
    var two := Take(one, Decide(1, PaymentVerified, Some(5)));
    assert TakeAll(FRESH, moves[..2]) == two;
    assert TakeAll(FRESH, moves) == Take(two, Commit(1));
  }
}
