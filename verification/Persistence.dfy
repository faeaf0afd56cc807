/** The database session and the repositories that write through it. */
module Persistence {
  import opened Domain
  import opened Cases
  import opened Protocol
  import opened Store

  function WithCase(s: Store, id: nat, c: CaseState): Store
    requires id < |s.cases|
  {
    s.(cases := s.cases[id := c])
  }

  /**
   * One request's session: what the database holds, and what the request sees
   * after its own flushed but uncommitted writes.
   */
  class Session {
    var committed: Store
    var working: Store

    constructor (store: Store)
      ensures committed == store && working == store
    {
      committed, working := store, store;
    }

    /** Nothing uncommitted is pending. */
    predicate Clean()
      reads this
    {
      working == committed
    }

    /** Compared with `before`, the database holds `c` as the state of the case and is otherwise unchanged. */
    ghost predicate Holds(before: Store, id: nat, c: CaseState)
      reads this
    {
      id < |before.cases| && Clean() && committed == WithCase(before, id, c)
    }

    method Commit()
      modifies this
      ensures committed == old(working) && working == old(working)
    {
      committed := working;
    }

    method Rollback()
      modifies this
      ensures committed == old(committed) && working == old(committed)
    {
      working := committed;
    }

    /** Flushes new column values of one case and its rows. */
    method Put(id: nat, c: CaseState)
      requires id < |working.cases|
      modifies this`working
      ensures working == old(working).(cases := old(working).cases[id := c])
    {
      working := working.(cases := working.cases[id := c]);
    }
  }

  // ------------------------------------------------------------ recovery_cases

  /** The compare-and-swap: only the version is compared, and the number of updated rows is returned. */
  method PersistTransition(session: Session, id: nat, expectedVersion: nat, newStatus: CaseStatus,
                           resolvedAt: Option<int>)
    returns (rowsUpdated: nat)
    requires id < |session.working.cases|
    modifies session`working
    ensures rowsUpdated == (if old(session.working).cases[id].version == expectedVersion then 1 else 0)
    ensures var c := old(session.working).cases[id];
            var d := if rowsUpdated == 1
                     then c.(status := newStatus, version := expectedVersion + 1,
                             resolvedAt := if resolvedAt.Some? then resolvedAt else c.resolvedAt)
                     else c;
            session.working == old(session.working).(cases := old(session.working).cases[id := d])
  {
    var c := session.working.cases[id];
    if c.version != expectedVersion {
      rowsUpdated := 0;
      assert session.working.cases[id := c] == session.working.cases;
      return;
    }
    c := c.(status := newStatus, version := expectedVersion + 1);
    if resolvedAt.Some? {
      c := c.(resolvedAt := resolvedAt);
    }
    session.Put(id, c);
    rowsUpdated := 1;
  }

  // ------------------------------------------------------------ webhook_events

  datatype ClaimStatus = NewClaim | RetriableClaim | CompleteClaim

  /** Inserts a RECEIVED row, or says what to do with the row that is already there. */
  method ClaimEvent(session: Session, eventId: string) returns (claim: ClaimStatus)
    modifies session`working
    ensures claim == CompleteClaim <==> IsComplete(old(session.working), eventId)
    ensures claim == NewClaim <==> eventId !in old(session.working).webhooks
    ensures session.working
         == if claim == CompleteClaim then old(session.working) else Claimed(old(session.working), eventId)
  {
    if eventId !in session.working.webhooks {
      session.working := session.working.(webhooks := session.working.webhooks[eventId := Received]);
      return NewClaim;
    }
    if session.working.webhooks[eventId].Complete? {
      return CompleteClaim;
    }
    assert session.working.webhooks[eventId := Received] == session.working.webhooks;
    return RetriableClaim;
  }

  method MarkProcessed(session: Session, eventId: string)
    modifies session`working
    ensures session.working == MarkedAs(old(session.working), eventId, Processed)
  {
    session.working := session.working.(webhooks := session.working.webhooks[eventId := Complete(Processed)]);
  }

  method MarkIgnored(session: Session, eventId: string, reason: IgnoreReason)
    modifies session`working
    ensures session.working == MarkedAs(old(session.working), eventId, Ignored(reason))
  {
    session.working := session.working.(webhooks := session.working.webhooks[eventId := Complete(Ignored(reason))]);
  }
}
