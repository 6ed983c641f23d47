/** The durable run journal: the append and lease operations of internal/datly/agui/manage.

    Each operation is one serializable transaction on one run and its thread, so it is a
    function of the rows; the class below executes them. */
module RunStore {
  import opened Common

  datatype Status = Admitted | Running | Interrupted | Finished | Failed | Cancelled

  datatype Outcome = Success | Interrupt | Cancel | PendingCalls

  /** `body` stands for the fields the store does not interpret. */
  datatype Event =
    | RunStarted(thread: string, run: string)
    | RunFinished(thread: string, run: string, outcome: Outcome, body: string)
    | RunError(body: string)
    | Progress(kind: string, body: string, hash: string)

  datatype Lease = Lease(owner: string, until: int, revision: int)

  /** P is the pending data, opaque to the store. */
  datatype Run<P> = Run(threadId: string, runId: string, status: Status, revision: int,
                        journal: seq<Event>, pending: P, lease: Option<Lease>, resumed: bool)
  {
    function LastSequence(): nat { |journal| }
  }

  datatype Thread = Thread(revision: int, state: string, messages: string)

  datatype Change<P> = Change(leaseOwner: string, pending: Option<P>, state: Option<string>, messages: Option<string>,
                              expectedThreadRevision: int)

  datatype StoreError = Conflict | InvalidTransition

  const MAX_INT64 := 0x7FFF_FFFF_FFFF_FFFF

  predicate TerminalStatus(s: Status) {
    s == Interrupted || s == Finished || s == Failed || s == Cancelled
  }

  predicate TerminalEvent(e: Event) {
    e.RunFinished? || e.RunError?
  }

  /** The status a terminal event leaves. */
  function StatusAfter(e: Event): Status
    requires TerminalEvent(e)
  {
    if e.RunError? then Failed
    else match e.outcome
         case Success => Finished
         case Interrupt => Interrupted
         case Cancel => Cancelled
         case PendingCalls => Interrupted
  }

  predicate Addressed<P>(run: Run<P>, e: Event) {
    (e.RunStarted? || e.RunFinished?) ==> e.thread == run.threadId && e.run == run.runId
  }

  /** What a batch of events does to the lifecycle: the whole batch is refused unless a journal
      begins with RUN_STARTED, holds no second one, and ends with its terminal event. */
  function Lifecycle<P>(run: Run<P>, before: nat, status: Status, events: seq<Event>): Result<Status, StoreError>
    decreases |events|
  {
    if events == [] then Ok(status) else
      var e := events[0];
      if before == 0 && !e.RunStarted? then Err(InvalidTransition)
      else if !Addressed(run, e) || (e.RunStarted? && before != 0) then Err(InvalidTransition)
      else if TerminalEvent(e) then
        if |events| == 1 then Ok(StatusAfter(e)) else Err(InvalidTransition)
      else Lifecycle(run, before + 1, if e.RunStarted? then Running else status, events[1..])
  }

  predicate MayWrite<P>(run: Run<P>, now: int, owner: string) {
    match run.lease
    case Some(lease) => owner == lease.owner && lease.until > now
    case None => owner == ""
  }

  function AppendTo<P>(run: Run<P>, thread: Thread, now: int, expected: int, events: seq<Event>, change: Change<P>)
    : Result<(Run<P>, Thread), StoreError>
  {
    if expected < 1 || run.revision != expected || !MayWrite(run, now, change.leaseOwner) then Err(Conflict)
    else if TerminalStatus(run.status) || run.resumed then Err(InvalidTransition)
    else if run.revision == MAX_INT64 || |events| > MAX_INT64 - run.LastSequence() then Err(Conflict)
    else
      var next := Lifecycle(run, run.LastSequence(), run.status, events);
      if next.Err? then Err(next.error)
      else if (change.state.Some? || change.messages.Some?)
              && (change.expectedThreadRevision != thread.revision || thread.revision == MAX_INT64) then Err(Conflict)
      else
        Ok((run.(status := next.value, revision := run.revision + 1, journal := run.journal + events,
                 pending := if change.pending.Some? then change.pending.value else run.pending),
            if change.state.Some? || change.messages.Some? then
              Thread(thread.revision + 1,
                     if change.state.Some? then change.state.value else thread.state,
                     if change.messages.Some? then change.messages.value else thread.messages)
            else thread))
  }

  function ClaimOn<P>(run: Run<P>, now: int, expected: int, owner: string, ttl: int): Result<Run<P>, StoreError> {
    if owner == "" || expected < 1 || ttl <= 0 then Err(Conflict)
    else if TerminalStatus(run.status) then Err(InvalidTransition)
    else if run.revision != expected then Err(Conflict)
    else match run.lease
         case None => Ok(run.(lease := Some(Lease(owner, now + ttl, 1))))
         case Some(lease) =>
           if (lease.until > now && lease.owner != owner) || lease.revision == MAX_INT64 then Err(Conflict)
           else Ok(run.(lease := Some(Lease(owner, now + ttl, lease.revision + 1))))
  }

  function RenewOn<P>(run: Run<P>, now: int, expectedLease: int, owner: string, ttl: int): Result<Run<P>, StoreError> {
    if owner == "" || expectedLease < 1 || ttl <= 0 then Err(Conflict)
    else if TerminalStatus(run.status) then Err(InvalidTransition)
    else match run.lease
         case None => Err(Conflict)
         case Some(lease) =>
           if lease.owner != owner || lease.revision != expectedLease || lease.until <= now || lease.revision == MAX_INT64
           then Err(Conflict)
           else Ok(run.(lease := Some(Lease(owner, now + ttl, lease.revision + 1))))
  }

  // ---------- what the store keeps ----------

  /** A journal begins with its only RUN_STARTED, holds at most one terminal event, as its
      last, and determines the status. */
  ghost predicate Journaled<P>(run: Run<P>) {
    && run.revision >= 1
    && (run.journal == [] ==> run.status == Admitted)
    && (forall i | 0 <= i < |run.journal| :: run.journal[i].RunStarted? <==> i == 0)
    && (forall i | 0 <= i < |run.journal| - 1 :: !TerminalEvent(run.journal[i]))
    && (forall i | 0 <= i < |run.journal| :: Addressed(run, run.journal[i]))
    && (run.journal != [] ==>
          var last := run.journal[|run.journal| - 1];
          run.status == if TerminalEvent(last) then StatusAfter(last) else Running)
  }

  lemma {:induction false} LifecycleShape<P>(run: Run<P>, before: nat, status: Status, events: seq<Event>)
    requires Lifecycle(run, before, status, events).Ok?
    ensures forall i | 0 <= i < |events| :: Addressed(run, events[i]) && (events[i].RunStarted? <==> before + i == 0)
    ensures forall i | 0 <= i < |events| - 1 :: !TerminalEvent(events[i])
    ensures events != [] ==>
              var last := events[|events| - 1];
              Lifecycle(run, before, status, events).value
              == if TerminalEvent(last) then StatusAfter(last) else if before == 0 then Running else status
    decreases |events|
  {
    if |events| > 1 {
      var next := if events[0].RunStarted? then Running else status;
      LifecycleShape(run, before + 1, next, events[1..]);
      forall i | 0 <= i < |events|
        ensures Addressed(run, events[i]) && (events[i].RunStarted? <==> before + i == 0)
        ensures i < |events| - 1 ==> !TerminalEvent(events[i])
      {
        if i > 0 {
          assert events[1..][i - 1] == events[i];
        }
      }
    } else if events != [] && !TerminalEvent(events[0]) {
      assert events[1..] == [];
    }
  }

  /** A successful append extends the journal by exactly its events, once, under the revision
      it was based on and by the lease holder, and leaves a proper journal. */
  lemma AppendKeepsJournal<P>(run: Run<P>, thread: Thread, now: int, expected: int, events: seq<Event>, change: Change<P>)
    requires Journaled(run) && AppendTo(run, thread, now, expected, events, change).Ok?
    ensures var (next, _) := AppendTo(run, thread, now, expected, events, change).value;
            && Journaled(next)
            && run.revision == expected && next.revision == run.revision + 1
            && next.journal == run.journal + events
            && !TerminalStatus(run.status)
            && (TerminalStatus(next.status) <==> events != [] && TerminalEvent(events[|events| - 1]))
  {
    LifecycleShape(run, run.LastSequence(), run.status, events);
  }

  // ---------- the store ----------

  class JournalStore<P(==)> {
    var run: Run<P>
    var thread: Thread

    constructor (run: Run<P>, thread: Thread)
      ensures this.run == run && this.thread == thread
    {
      this.run, this.thread := run, thread;
    }

    /** The event loop of `append`. */
    method Scan(events: seq<Event>) returns (r: Result<Status, StoreError>)
      ensures r == Lifecycle(run, run.LastSequence(), run.status, events)
    {
      var status, sequence, ended := run.status, run.LastSequence(), false;
      var index := 0;
      while index < |events|
        invariant 0 <= index <= |events|
        invariant sequence == run.LastSequence() + index
        invariant ended ==> index == |events| && Lifecycle(run, run.LastSequence(), run.status, events) == Ok(status)
        invariant !ended ==> Lifecycle(run, run.LastSequence(), run.status, events) == Lifecycle(run, sequence, status, events[index..])
      {
        var e := events[index];
        assert events[index..][0] == e && events[index..][1..] == events[index + 1..];
        if sequence == 0 && !e.RunStarted? {
          return Err(InvalidTransition);
        }
        match e {
          case RunStarted(thread, id) =>
            if sequence != 0 || thread != run.threadId || id != run.runId {
              return Err(InvalidTransition);
            }
            status := Running;
          case RunFinished(thread, id, outcome, _) =>
            if thread != run.threadId || id != run.runId {
              return Err(InvalidTransition);
            }
            status := match outcome
              case Success => Finished
              case Interrupt => Interrupted
              case Cancel => Cancelled
              case PendingCalls => Interrupted;
            ended := true;
          case RunError(_) =>
            status := Failed;
            ended := true;
          case Progress(_, _, _) =>
        }
        sequence := sequence + 1;
        if ended && index != |events| - 1 {
          return Err(InvalidTransition);
        }
        index := index + 1;
      }
      return Ok(status);
    }

    method Append(now: int, expected: int, events: seq<Event>, change: Change<P>) returns (r: Result<Run<P>, StoreError>)
      modifies this
      ensures var outcome := AppendTo(old(run), old(thread), now, expected, events, change);
              match outcome
              case Ok((next, after)) => r == Ok(next) && run == next && thread == after
              case Err(error) => r == Err(error) && run == old(run) && thread == old(thread)
    {
      hide Lifecycle;
      if expected < 1 || run.revision != expected {
        return Err(Conflict);
      }
      if run.lease.Some? && (change.leaseOwner != run.lease.value.owner || run.lease.value.until <= now) {
        return Err(Conflict);
      }
      if run.lease.None? && change.leaseOwner != "" {
        return Err(Conflict);
      }
      if TerminalStatus(run.status) || run.resumed {
        return Err(InvalidTransition);
      }
      if run.revision == MAX_INT64 || |events| > MAX_INT64 - run.LastSequence() {
        return Err(Conflict);
      }
      var status := Scan(events);
      if status.Err? {
        return Err(status.error);
      }
      if change.state.Some? || change.messages.Some? {
        if change.expectedThreadRevision != thread.revision || thread.revision == MAX_INT64 {
          return Err(Conflict);
        }
        var row := thread;
        if change.state.Some? {
          row := row.(state := change.state.value);
        }
        if change.messages.Some? {
          row := row.(messages := change.messages.value);
        }
        thread := row.(revision := thread.revision + 1);
      }
      var next := run;
      if change.pending.Some? {
        next := next.(pending := change.pending.value);
      }
      run := next.(revision := run.revision + 1, journal := run.journal + events, status := status.value);
      return Ok(run);
    }

    method Claim(now: int, expected: int, owner: string, ttl: int) returns (r: Result<Run<P>, StoreError>)
      modifies this`run
      ensures r == ClaimOn(old(run), now, expected, owner, ttl)
      ensures run == if r.Ok? then r.value else old(run)
    {
      if owner == "" || expected < 1 || ttl <= 0 {
        return Err(Conflict);
      }
      if TerminalStatus(run.status) {
        return Err(InvalidTransition);
      }
      if run.revision != expected {
        return Err(Conflict);
      }
      if run.lease.Some? && run.lease.value.until > now && run.lease.value.owner != owner {
        return Err(Conflict);
      }
      if run.lease.None? {
        run := run.(lease := Some(Lease(owner, now + ttl, 1)));
      } else {
        if run.lease.value.revision == MAX_INT64 {
          return Err(Conflict);
        }
        run := run.(lease := Some(Lease(owner, now + ttl, run.lease.value.revision + 1)));
      }
      return Ok(run);
    }

    method Renew(now: int, expectedLease: int, owner: string, ttl: int) returns (r: Result<Run<P>, StoreError>)
      modifies this`run
      ensures r == RenewOn(old(run), now, expectedLease, owner, ttl)
      ensures run == if r.Ok? then r.value else old(run)
    {
      if owner == "" || expectedLease < 1 || ttl <= 0 {
        return Err(Conflict);
      }
      if TerminalStatus(run.status) {
        return Err(InvalidTransition);
      }
      if run.lease.None? {
        return Err(Conflict);
      }
      var lease := run.lease.value;
      if lease.owner != owner || lease.revision != expectedLease || lease.until <= now || lease.revision == MAX_INT64 {
        return Err(Conflict);
      }
      run := run.(lease := Some(Lease(owner, now + ttl, lease.revision + 1)));
      return Ok(run);
    }
  }

  /** Claiming and renewing change the lease and nothing else; a claim that succeeds gives the
      claimer the right to append, and takes it from every other owner until it runs out. */
  lemma ClaimsExclude<P>(run: Run<P>, now: int, expected: int, owner: string, ttl: int, other: string, later: int)
    requires ClaimOn(run, now, expected, owner, ttl).Ok?
    ensures var claimed := ClaimOn(run, now, expected, owner, ttl).value;
            && claimed == run.(lease := claimed.lease) && run.revision == expected && !TerminalStatus(run.status)
            && MayWrite(claimed, now, owner)
            && (other != owner ==> !MayWrite(claimed, later, other))
            && (other != owner && later < now + ttl ==> ClaimOn(claimed, later, expected, other, ttl).Err?)
  {
  }
}
