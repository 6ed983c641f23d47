/** Answers to one tool approval: sdk/agui_interrupts.go.

    Any number of workers apply answers to the same queue row. Each checks the answer, reads the
    row again, claims the decision atomically, runs the tool if the claimed action is approve,
    and writes the result to the message, the tool call and finally the row. A worker may stop
    between any two steps, and the claim's answer may be lost. */
module Approval {
  import opened Common

  datatype Action = Approve | Reject | Cancel | Timeout

  /** `raw` is the canonical text of the payload; `action` its trimmed, lower-cased action. */
  datatype Payload =
    | Payload(raw: string, action: string, edits: bool)
    | Unreadable(raw: string)

  /** One answer; two entries are equal exactly when their canonical JSON is. */
  datatype Entry = Entry(status: string, payload: Option<Payload>)

  datatype QueueStatus = Pending | Approved | Rejected | Canceled | TimedOut | Executed | Failed

  datatype Outcome = Outcome(status: string, result: string)

  /** `stamp` is the row's last update; the decision and the outcome live in its metadata. */
  datatype Row = Row(status: QueueStatus, decision: Option<Entry>, outcome: Option<Outcome>,
                     expires: Option<int>, stamp: nat)

  datatype Message = Message(content: string, status: string)

  datatype Call = Call(status: string, completed: bool)

  datatype Desk = Desk(row: Row, message: Message, call: Call)

  datatype Refusal =
    | BadAnswer | BadArguments | DifferentAnswer | Uncertain | Mismatch | Unfinished | NotPending | Expired | ClaimLost

  const TIMEOUT_ENTRY := Entry("cancelled", Some(Payload("timeout", "cancel", false)))

  // ---------- answers ----------

  function Decode(entry: Entry): Result<Action, Refusal> {
    if entry.status == "cancelled" && entry.payload.None? then Ok(Cancel)
    else if entry.payload.None? || entry.payload.value.Unreadable? then Err(BadAnswer)
    else
      var payload := entry.payload.value;
      if entry.status == "cancelled" && payload.action != "cancel" then Err(BadAnswer)
      else if payload.action != "approve" && payload.action != "reject" && payload.action != "cancel" then Err(BadAnswer)
      else if payload.action != "approve" && payload.edits then Err(BadAnswer)
      else Ok(if payload.action == "approve" then Approve else if payload.action == "reject" then Reject else Cancel)
  }

  /** Only an explicit, readable, uncancelled approve authorizes the tool, and only it may edit
      arguments. */
  lemma OnlyApproveAuthorizes(entry: Entry)
    ensures Decode(entry) == Ok(Approve) <==>
              && entry.status != "cancelled"
              && entry.payload.Some? && entry.payload.value.Payload? && entry.payload.value.action == "approve"
    ensures Decode(entry).Ok? && entry.payload.Some? && entry.payload.value.edits ==> Decode(entry) == Ok(Approve)
    ensures Decode(entry) != Ok(Timeout)
  {
  }

  /** The worker runs on behalf of the deadline, not of a user: `trusted` marks its context. */
  predicate TrustedTimeout(row: Row, entry: Entry, now: int, trusted: bool) {
    trusted && row.expires.Some? && row.expires.value <= now && entry == TIMEOUT_ENTRY
  }

  predicate Reported(desk: Desk, outcome: Outcome) {
    && desk.message == Message(outcome.result, outcome.status)
    && desk.call == Call(outcome.status, true)
  }

  /** aguiPreflightApproval, for a row whose identity has been established. */
  function Preflight(desk: Desk, now: int, entry: Entry, trusted: bool, editable: bool): Option<Refusal> {
    var row := desk.row;
    if row.decision.Some? then
      if row.decision.value != entry then Some(DifferentAnswer)
      else if row.outcome.None? || row.outcome.value.status !in {"completed", "failed"} then Some(Uncertain)
      else if !Reported(desk, row.outcome.value) then Some(Mismatch)
      else if row.status == Pending || row.status == Approved then Some(Unfinished)
      else None
    else if Decode(entry).Err? then Some(Decode(entry).error)
    else if row.status != Pending then Some(NotPending)
    else if row.expires.Some? && row.expires.value <= now && !TrustedTimeout(row, entry, now, trusted) then Some(Expired)
    else if !editable then Some(BadArguments)
    else None
  }

  function StatusOf(action: Action): QueueStatus {
    match action
    case Approve => Approved
    case Reject => Rejected
    case Cancel => Canceled
    case Timeout => TimedOut
  }

  /** The atomic claim: it takes a pending row that is still the row that was read, before its
      deadline, or after it for a timeout. */
  predicate Claimable(row: Row, seen: Row, action: Action, now: int) {
    && seen.status == Pending && row.status == Pending && row.stamp == seen.stamp
    && (if action == Timeout then seen.expires.Some? && row.expires.Some? && row.expires.value <= now
        else seen.expires.Some? ==> row.expires.Some? && row.expires.value > now)
  }

  /** The claim replaces the metadata by what was read, with the decision added. */
  function Claimed(row: Row, seen: Row, entry: Entry, action: Action): Row {
    row.(status := StatusOf(action), decision := Some(entry), outcome := seen.outcome, stamp := row.stamp + 1)
  }

  function Unapproved(action: Action): Outcome {
    Outcome("completed", if action == Timeout then "tool approval timed out" else "tool execution was not approved by user")
  }

  function Settled(row: Row, entry: Entry, action: Action, outcome: Outcome): Row {
    row.(decision := Some(entry), outcome := Some(outcome), stamp := row.stamp + 1,
         status := if action != Approve then row.status else if outcome.status == "failed" then Failed else Executed)
  }

  // ---------- the protocol ----------

  datatype Phase =
    | Arrived
    | Checked
    | Ready(seen: Row, action: Action)
    | Holding(action: Action)
    | Done(action: Action, outcome: Outcome)
    | Messaged(action: Action, outcome: Outcome)
    | Called(action: Action, outcome: Outcome)
    | Deferred
    | Refused(why: Refusal)
    | Crashed

  /** `checkedUndecided` remembers that the row had no decision when the worker's check passed. */
  datatype Worker = Worker(entry: Entry, trusted: bool, editable: bool, phase: Phase, checkedUndecided: bool)

  /** The rows, the workers, and what an observer has seen: the worker whose claim was committed,
      the claimed action, the tool runs and what the tool returned. */
  datatype State = State(now: int, desk: Desk, workers: map<nat, Worker>,
                         claimer: Option<nat>, action: Action, effects: seq<nat>, produced: Option<Outcome>)

  datatype Step =
    | Wait(ticks: nat)
    | Settle(status: QueueStatus)
    | Arrive(id: nat, entry: Entry, trusted: bool, editable: bool)
    | Check(id: nat)
    | Reread(id: nat)
    | Claim(id: nat, answered: bool)
    | Execute(id: nat, ok: bool, text: string)
    | WriteMessage(id: nat)
    | WriteCall(id: nat)
    | Finish(id: nat)
    | Crash(id: nat)

  /** `Settle` is another writer of the queue deciding a pending row outside this protocol. */
  function Apply(s: State, step: Step): State {
    match step
    case Wait(ticks) => s.(now := s.now + ticks)
    case Settle(status) =>
      if s.desk.row.status != Pending || status == Pending then s
      else s.(desk := s.desk.(row := s.desk.row.(status := status, stamp := s.desk.row.stamp + 1)))
    case Arrive(id, entry, trusted, editable) =>
      if id in s.workers then s else s.(workers := s.workers[id := Worker(entry, trusted, editable, Arrived, false)])
    case _ =>
      if step.id !in s.workers then s else ApplyTo(s, step, s.workers[step.id])
  }

  function Moved(s: State, id: nat, w: Worker, phase: Phase): State {
    s.(workers := s.workers[id := w.(phase := phase)])
  }

  /** The second read of the row: a decided row is not decided again. */
  function Rereading(row: Row, entry: Entry, now: int, trusted: bool, editable: bool): Phase {
    if row.decision.Some? then
      if row.outcome.Some? then Deferred else Refused(Uncertain)
    else if !editable || Decode(entry).Err? then Refused(BadArguments)
    else Ready(row, if TrustedTimeout(row, entry, now, trusted) then Timeout else Decode(entry).value)
  }

  function ApplyTo(s: State, step: Step, w: Worker): State
    requires !step.Wait? && !step.Settle? && !step.Arrive?
  {
    match step
    case Check(id) =>
      if w.phase != Arrived then s else
        var refusal := Preflight(s.desk, s.now, w.entry, w.trusted, w.editable);
        Moved(s, id, w.(checkedUndecided := s.desk.row.decision.None?),
              if refusal.Some? then Refused(refusal.value) else Checked)
    case Reread(id) =>
      if w.phase != Checked then s
      else Moved(s, id, w, Rereading(s.desk.row, w.entry, s.now, w.trusted, w.editable))
    case Claim(id, answered) =>
      if !w.phase.Ready? then s
      else if !Claimable(s.desk.row, w.phase.seen, w.phase.action, s.now) then Moved(s, id, w, Refused(ClaimLost))
      else
        Moved(s, id, w, if answered then Holding(w.phase.action) else Refused(ClaimLost))
        .(desk := s.desk.(row := Claimed(s.desk.row, w.phase.seen, w.entry, w.phase.action)),
          claimer := Some(id), action := w.phase.action)
    case Execute(id, ok, text) =>
      if !w.phase.Holding? then s
      else if w.phase.action != Approve then Moved(s, id, w, Done(w.phase.action, Unapproved(w.phase.action)))
      else
        var outcome := Outcome(if ok then "completed" else "failed", text);
        Moved(s, id, w, Done(Approve, outcome)).(effects := s.effects + [id], produced := Some(outcome))
    case WriteMessage(id) =>
      if !w.phase.Done? then s
      else Moved(s, id, w, Messaged(w.phase.action, w.phase.outcome))
           .(desk := s.desk.(message := Message(w.phase.outcome.result, w.phase.outcome.status)))
    case WriteCall(id) =>
      if !w.phase.Messaged? then s
      else Moved(s, id, w, Called(w.phase.action, w.phase.outcome))
           .(desk := s.desk.(call := Call(w.phase.outcome.status, true)))
    case Finish(id) =>
      if !w.phase.Called? then s
      else Moved(s, id, w, Deferred)
           .(desk := s.desk.(row := Settled(s.desk.row, w.entry, w.phase.action, w.phase.outcome)))
    case Crash(id) => Moved(s, id, w, Crashed)
  }

  function Play(s: State, steps: seq<Step>): State
    decreases |steps|
  {
    if steps == [] then s else Play(Apply(s, steps[0]), steps[1..])
  }

  /** A pending row nobody has answered. */
  ghost predicate Fresh(s: State) {
    && s.desk.row.status == Pending && s.desk.row.decision.None? && s.desk.row.outcome.None?
    && s.workers == map[] && s.claimer.None? && s.effects == [] && s.produced.None?
  }

  // ---------- what every step keeps ----------

  predicate Active(phase: Phase) {
    phase.Holding? || phase.Done? || phase.Messaged? || phase.Called?
  }

  /** What the claimed action makes of the outcome. */
  predicate Earned(s: State, outcome: Outcome) {
    && outcome.status in {"completed", "failed"}
    && (if s.action == Approve then |s.effects| == 1 && s.produced == Some(outcome)
        else outcome == Unapproved(s.action))
  }

  ghost predicate WorkerInv(s: State, id: nat, w: Worker) {
    && (Active(w.phase) ==>
          s.claimer == Some(id) && w.phase.action == s.action && s.desk.row.outcome.None?)
    && (w.phase.Holding? ==> s.effects == [] && s.produced.None?)
    && (w.phase.Done? || w.phase.Messaged? || w.phase.Called? ==> Earned(s, w.phase.outcome))
    && (w.phase.Messaged? || w.phase.Called? ==>
          s.desk.message == Message(w.phase.outcome.result, w.phase.outcome.status))
    && (w.phase.Called? ==> s.desk.call == Call(w.phase.outcome.status, true))
    && (w.phase.Ready? ==>
          && w.phase.seen.decision.None? && w.phase.seen.outcome.None?
          && (w.phase.action == Timeout || Decode(w.entry) == Ok(w.phase.action)))
    && (w.phase.Deferred? ==> s.desk.row.outcome.Some?)
    && (w.phase.Checked? && w.checkedUndecided ==> Decode(w.entry).Ok?)
    && (w.phase.Checked? && !w.checkedUndecided ==> s.desk.row.decision == Some(w.entry) && s.desk.row.outcome.Some?)
    && (w.phase.Deferred? && s.desk.row.decision != Some(w.entry) ==> w.checkedUndecided)
  }

  ghost predicate Inv(s: State) {
    var row := s.desk.row;
    && (row.decision.Some? <==> s.claimer.Some?)
    && (row.decision.None? ==> row.outcome.None? && s.effects == [] && s.produced.None?)
    && (row.decision.Some? ==>
          && s.claimer.value in s.workers && s.workers[s.claimer.value].entry == row.decision.value
          && (s.action == Timeout || Decode(row.decision.value) == Ok(s.action))
          && (row.outcome.None? ==> row.status == StatusOf(s.action)))
    && |s.effects| <= 1
    && (s.effects != [] ==> s.claimer == Some(s.effects[0]) && s.action == Approve)
    && (row.outcome.Some? ==>
          && Earned(s, row.outcome.value) && Reported(s.desk, row.outcome.value)
          && row.status == if s.action != Approve then StatusOf(s.action)
                            else if row.outcome.value.status == "failed" then Failed else Executed)
    && forall id | id in s.workers :: WorkerInv(s, id, s.workers[id])
  }

  lemma OutsideKeeps(s: State, step: Step)
    requires Inv(s) && (step.Wait? || step.Settle? || step.Arrive?)
    ensures Inv(Apply(s, step))
  {
    var s' := Apply(s, step);
    forall k | k in s'.workers ensures WorkerInv(s', k, s'.workers[k]) {
      assert k in s.workers ==> WorkerInv(s, k, s.workers[k]);
    }
  }

  lemma ReadingKeeps(s: State, step: Step, w: Worker)
    requires Inv(s) && (step.Check? || step.Reread? || step.Crash?)
    requires step.id in s.workers && s.workers[step.id] == w
    ensures Inv(ApplyTo(s, step, w))
  {
    hide Inv, Preflight, TrustedTimeout, Decode;
    WorkerOf(s, step.id);
    match step
    case Check(id) =>
      CheckMeans(s.desk, s.now, w);
      if w.phase == Arrived {
        var refusal := Preflight(s.desk, s.now, w.entry, w.trusted, w.editable);
        MoveKeeps(s, id, w.(checkedUndecided := s.desk.row.decision.None?,
                            phase := if refusal.Some? then Refused(refusal.value) else Checked));
      }
    case Reread(id) =>
      if w.phase == Checked {
        MoveKeeps(s, id, w.(phase := Rereading(s.desk.row, w.entry, s.now, w.trusted, w.editable)));
      }
    case Crash(id) => MoveKeeps(s, id, w.(phase := Crashed));
  }

  lemma WorkerOf(s: State, id: nat)
    requires Inv(s) && id in s.workers
    ensures WorkerInv(s, id, s.workers[id])
    ensures s.desk.row.outcome.Some? ==> s.desk.row.decision.Some?
  {
  }

  /** A step that moves one worker and nothing else. */
  lemma MoveKeeps(s: State, id: nat, w: Worker)
    requires Inv(s) && id in s.workers && s.workers[id].entry == w.entry && WorkerInv(s, id, w)
    ensures Inv(s.(workers := s.workers[id := w]))
  {
    hide Decode, Unapproved;
    var s' := s.(workers := s.workers[id := w]);
    forall k | k in s'.workers ensures WorkerInv(s', k, s'.workers[k]) {
      assert WorkerInv(s, k, if k == id then w else s.workers[k]);
    }
  }

  lemma ClaimKeeps(s: State, id: nat, answered: bool, w: Worker)
    requires Inv(s) && id in s.workers && s.workers[id] == w
    ensures Inv(ApplyTo(s, Claim(id, answered), w))
  {
    hide Inv, Decode, Claimed;
    WorkerOf(s, id);
    if w.phase.Ready? {
      if Claimable(s.desk.row, w.phase.seen, w.phase.action, s.now) {
        ClaimTakes(s, id, w, if answered then Holding(w.phase.action) else Refused(ClaimLost));
      } else {
        MoveKeeps(s, id, w.(phase := Refused(ClaimLost)));
      }
    }
  }

  lemma ClaimTakes(s: State, id: nat, w: Worker, phase: Phase)
    requires Inv(s) && id in s.workers && s.workers[id] == w && w.phase.Ready?
    requires s.desk.row.status == Pending && (phase == Holding(w.phase.action) || phase == Refused(ClaimLost))
    ensures Inv(Moved(s, id, w, phase).(desk := s.desk.(row := Claimed(s.desk.row, w.phase.seen, w.entry, w.phase.action)),
                                        claimer := Some(id), action := w.phase.action))
  {
    hide Decode, Unapproved, Reported;
    assert WorkerInv(s, id, w) && s.desk.row.decision.None?;
    var s' := Moved(s, id, w, phase).(desk := s.desk.(row := Claimed(s.desk.row, w.phase.seen, w.entry, w.phase.action)),
                                      claimer := Some(id), action := w.phase.action);
    forall k | k in s'.workers ensures WorkerInv(s', k, s'.workers[k]) {
      assert WorkerInv(s, k, s.workers[k]);
    }
  }

  lemma ExecuteKeeps(s: State, id: nat, ok: bool, text: string, w: Worker)
    requires Inv(s) && id in s.workers && s.workers[id] == w
    ensures Inv(ApplyTo(s, Execute(id, ok, text), w))
  {
    hide Inv, Decode;
    WorkerOf(s, id);
    if w.phase.Holding? {
      if w.phase.action == Approve {
        ToolRuns(s, id, w, Outcome(if ok then "completed" else "failed", text));
      } else {
        MoveKeeps(s, id, w.(phase := Done(w.phase.action, Unapproved(w.phase.action))));
      }
    }
  }

  lemma ToolRuns(s: State, id: nat, w: Worker, outcome: Outcome)
    requires Inv(s) && id in s.workers && s.workers[id] == w && w.phase == Holding(Approve)
    requires outcome.status in {"completed", "failed"}
    ensures Inv(Moved(s, id, w, Done(Approve, outcome)).(effects := s.effects + [id], produced := Some(outcome)))
  {
    hide Decode, Reported;
    assert WorkerInv(s, id, w);
    var s' := Moved(s, id, w, Done(Approve, outcome)).(effects := s.effects + [id], produced := Some(outcome));
    forall k | k in s'.workers ensures WorkerInv(s', k, s'.workers[k]) {
      assert WorkerInv(s, k, s.workers[k]);
    }
  }

  lemma WritingKeeps(s: State, step: Step, w: Worker)
    requires Inv(s) && (step.WriteMessage? || step.WriteCall? || step.Finish?)
    requires step.id in s.workers && s.workers[step.id] == w
    ensures Inv(ApplyTo(s, step, w))
  {
    hide Decode, Unapproved, Preflight, TrustedTimeout, Rereading, Claimable, Claimed;
    assert WorkerInv(s, step.id, w);
    var s' := ApplyTo(s, step, w);
    forall k | k in s'.workers ensures WorkerInv(s', k, s'.workers[k]) {
      WritingKeepsWorker(s, step, w, k);
    }
    hide Unapproved;
  }

  lemma WritingKeepsWorker(s: State, step: Step, w: Worker, k: nat)
    requires Inv(s) && (step.WriteMessage? || step.WriteCall? || step.Finish?)
    requires step.id in s.workers && s.workers[step.id] == w && k in ApplyTo(s, step, w).workers
    ensures var s' := ApplyTo(s, step, w);
            WorkerInv(s', k, s'.workers[k])
  {
    hide Decode, Unapproved, Preflight, TrustedTimeout, Rereading, Claimable, Claimed;
    assert WorkerInv(s, step.id, w);
    assert k in s.workers && WorkerInv(s, k, s.workers[k]);
  }

  lemma StepKeeps(s: State, step: Step)
    requires Inv(s)
    ensures Inv(Apply(s, step))
  {
    hide Inv, ApplyTo;
    match step
    case Wait(_) => OutsideKeeps(s, step);
    case Settle(_) => OutsideKeeps(s, step);
    case Arrive(_, _, _, _) => OutsideKeeps(s, step);
    case _ =>
      if step.id in s.workers {
        var w := s.workers[step.id];
        match step
        case Claim(id, answered) => ClaimKeeps(s, id, answered, w);
        case Execute(id, ok, text) => ExecuteKeeps(s, id, ok, text, w);
        case Check(_) => ReadingKeeps(s, step, w);
        case Reread(_) => ReadingKeeps(s, step, w);
        case Crash(_) => ReadingKeeps(s, step, w);
        case _ => WritingKeeps(s, step, w);
      }
  }

  lemma CheckMeans(desk: Desk, now: int, w: Worker)
    ensures Preflight(desk, now, w.entry, w.trusted, w.editable).None? ==>
              if desk.row.decision.None? then Decode(w.entry).Ok? && desk.row.status == Pending
              else desk.row.decision == Some(w.entry) && desk.row.outcome.Some?
  {
  }

  lemma {:induction false} PlayKeeps(s: State, steps: seq<Step>)
    requires Inv(s)
    ensures Inv(Play(s, steps))
    decreases |steps|
  {
    hide Inv, Apply;
    if steps != [] {
      StepKeeps(s, steps[0]);
      PlayKeeps(Apply(s, steps[0]), steps[1..]);
    }
  }

  // ---------- whole runs ----------

  lemma FreshHolds(s: State)
    requires Fresh(s)
    ensures Inv(s)
  {
  }

  /** Every state a fresh one can come to keeps the invariant. */
  lemma ReachableHolds(s: State, steps: seq<Step>)
    requires Fresh(s)
    ensures Inv(Play(s, steps))
  {
    hide Inv, Fresh, Play;
    FreshHolds(s);
    PlayKeeps(s, steps);
  }

  /** Whatever the interleaving of answers, crashes and deadlines, the tool runs at most once, and
      only when the answer that was claimed says approve. */
  lemma ToolRunsAtMostOnce(s: State, steps: seq<Step>)
    requires Fresh(s)
    ensures var s' := Play(s, steps);
            && |s'.effects| <= 1
            && (s'.effects != [] ==> s'.desk.row.decision.Some? && Decode(s'.desk.row.decision.value) == Ok(Approve))
  {
    ReachableHolds(s, steps);
    if Play(s, steps).desk.row.decision.Some? {
      OnlyApproveAuthorizes(Play(s, steps).desk.row.decision.value);
    }
  }

  /** A row with an outcome agrees with its message and its tool call, says what the tool returned
      if the answer was approve and that it was not run otherwise, and has left the queue. */
  lemma OutcomesAreFaithful(s: State, steps: seq<Step>)
    requires Fresh(s)
    ensures var s' := Play(s, steps);
            s'.desk.row.outcome.Some? ==>
              var outcome := s'.desk.row.outcome.value;
              && Reported(s'.desk, outcome)
              && s'.desk.row.status != Pending && s'.desk.row.status != Approved
              && (if s'.effects != [] then s'.produced == Some(outcome) else outcome == Unapproved(s'.action))
              && (s'.effects != [] <==> s'.desk.row.status == Executed || s'.desk.row.status == Failed)
  {
    ReachableHolds(s, steps);
  }

  /** A decision is never withdrawn, replaced or put back in the queue, and after its outcome the
      rows do not change at all. */
  lemma {:induction false} DecisionIsFinal(s: State, steps: seq<Step>)
    requires Inv(s) && s.desk.row.decision.Some?
    ensures var s' := Play(s, steps);
            && s'.desk.row.decision == s.desk.row.decision && s'.action == s.action && s'.claimer == s.claimer
            && s'.desk.row.status != Pending
            && (s.desk.row.outcome.Some? ==> s'.desk == s.desk && s'.effects == s.effects)
    decreases |steps|
  {
    hide Inv, Apply;
    DecidedIsNotPending(s);
    if steps != [] {
      StepKeeps(s, steps[0]);
      DecisionStays(s, steps[0]);
      DecisionIsFinal(Apply(s, steps[0]), steps[1..]);
    }
  }

  lemma DecidedIsNotPending(s: State)
    requires Inv(s) && s.desk.row.decision.Some?
    ensures s.desk.row.status != Pending
  {
  }

  lemma DecisionStays(s: State, step: Step)
    requires Inv(s) && s.desk.row.decision.Some?
    ensures var s' := Apply(s, step);
            && s'.desk.row.decision == s.desk.row.decision && s'.action == s.action && s'.claimer == s.claimer
            && (s.desk.row.outcome.Some? ==> s'.desk == s.desk && s'.effects == s.effects)
  {
    hide Preflight, Decode, Rereading;
    if !step.Wait? && !step.Settle? && !step.Arrive? && step.id in s.workers {
      assert WorkerInv(s, step.id, s.workers[step.id]);
    }
  }

  /** The claimer of a decision that has no outcome has stopped. */
  ghost predicate Stranded(s: State) {
    && s.desk.row.decision.Some? && s.desk.row.outcome.None?
    && s.claimer.Some? && (s.claimer.value in s.workers ==> !Active(s.workers[s.claimer.value].phase))
  }

  /** A claimed decision whose worker stopped is never carried out by another, never answered as
      done, and never returned to the queue. */
  lemma {:induction false} StrandedDecisionIsNeverRetried(s: State, steps: seq<Step>)
    requires Inv(s) && Stranded(s)
    ensures var s' := Play(s, steps);
            && s'.desk.row == s.desk.row && s'.effects == s.effects
            && forall id | id in s'.workers :: !s'.workers[id].phase.Deferred?
    decreases |steps|
  {
    hide Apply;
    if steps != [] {
      StepKeeps(s, steps[0]);
      StaysStranded(s, steps[0]);
      StrandedDecisionIsNeverRetried(Apply(s, steps[0]), steps[1..]);
    } else {
      assert forall id | id in s.workers :: WorkerInv(s, id, s.workers[id]);
    }
  }

  lemma StaysStranded(s: State, step: Step)
    requires Inv(s) && Stranded(s)
    ensures var s' := Apply(s, step);
            Stranded(s') && s'.desk.row == s.desk.row && s'.effects == s.effects
  {
    hide Preflight, Decode;
    DecidedIsNotPending(s);
    if !step.Wait? && !step.Settle? && !step.Arrive? && step.id in s.workers {
      assert WorkerInv(s, step.id, s.workers[step.id]);
    }
  }

  // ---------- later answers ----------

  /** Replaying an answer after completion: the same one is acknowledged, any other is refused,
      and neither changes anything. */
  lemma ReplayHasNoEffect(s: State, id: nat, entry: Entry, trusted: bool, editable: bool)
    requires Inv(s) && s.desk.row.outcome.Some? && id !in s.workers
    ensures var s' := Apply(Apply(Apply(s, Arrive(id, entry, trusted, editable)), Check(id)), Reread(id));
            && s'.desk == s.desk && s'.effects == s.effects
            && s'.workers[id].phase == (if Some(entry) == s.desk.row.decision then Deferred else Refused(DifferentAnswer))
  {
  }

  predicate Elsewhere(step: Step, id: nat) {
    step.Wait? || step.Settle? || step.id != id
  }

  lemma {:induction false} OthersLeaveAlone(s: State, id: nat, steps: seq<Step>)
    requires id in s.workers && forall step | step in steps :: Elsewhere(step, id)
    ensures id in Play(s, steps).workers && Play(s, steps).workers[id] == s.workers[id]
    decreases |steps|
  {
    hide Preflight, Rereading, Claimable;
    if steps != [] {
      assert Elsewhere(steps[0], id);
      OthersLeaveAlone(Apply(s, steps[0]), id, steps[1..]);
    }
  }

  /** Exactly when an answer is acknowledged: its check passed and the row was complete at its
      second read. So an answer other than the decided one is acknowledged, without effect, just
      when its check came before the decision and its second read after the outcome. */
  lemma AcknowledgedAnswers(s: State, id: nat, between: seq<Step>)
    requires Inv(s) && id in s.workers && s.workers[id].phase == Arrived
    requires forall step | step in between :: Elsewhere(step, id)
    ensures var s2 := Play(Apply(s, Check(id)), between);
            var s3 := Apply(s2, Reread(id));
            var w := s.workers[id];
            var passed := Preflight(s.desk, s.now, w.entry, w.trusted, w.editable).None?;
            && s3.desk == s2.desk && id in s3.workers
            && (s3.workers[id].phase == Deferred <==> passed && s2.desk.row.outcome.Some?)
            && (s3.workers[id].phase == Deferred && s2.desk.row.decision != Some(w.entry) <==>
                  passed && s.desk.row.decision.None? && s2.desk.row.outcome.Some? && s2.desk.row.decision != Some(w.entry))
  {
    hide Preflight, Inv;
    var s1 := Apply(s, Check(id));
    var w := s.workers[id];
    StepKeeps(s, Check(id));
    PlayKeeps(s1, between);
    OthersLeaveAlone(s1, id, between);
    CheckMeans(s.desk, s.now, w);
    var s2 := Play(s1, between);
    InvOfDecision(s2);
    if s.desk.row.decision.Some? {
      DecisionIsFinal(s1, between);
    }
  }

  lemma InvOfDecision(s: State)
    requires Inv(s)
    ensures s.desk.row.outcome.Some? ==> s.desk.row.decision.Some?
  {
  }

  const APPROVING := Worker(Entry("resolved", Some(Payload("a", "approve", false))), false, true, Checked, true)
  const REJECTING := Worker(Entry("resolved", Some(Payload("r", "reject", false))), false, true, Checked, true)

  /** Worker 0 has checked an approve, worker 1 is applying a reject. */
  predicate Racing(t: State, phase: Phase) {
    && t.desk.row.expires == None && t.effects == []
    && t.workers == map[0 := APPROVING, 1 := REJECTING.(phase := phase)]
  }

  lemma RaceBegins() returns (s: State, steps: seq<Step>)
    ensures Fresh(s) && Play(s, steps).desk == s.desk && Racing(Play(s, steps), Checked)
  {
    hide Play;
    s := State(0, Desk(Row(Pending, None, None, None, 0), Message("", ""), Call("", false)), map[], None, Cancel, [], None);
    PlayNothing(s);
    var t := Also(s, [], s, Arrive(0, APPROVING.entry, false, true));
    steps := [] + [Arrive(0, APPROVING.entry, false, true)];
    t := Also(s, steps, t, Check(0));
    assert t.workers == map[0 := APPROVING];
    steps := steps + [Check(0)];
    t := Also(s, steps, t, Arrive(1, REJECTING.entry, false, true));
    steps := steps + [Arrive(1, REJECTING.entry, false, true)];
    t := Also(s, steps, t, Check(1));
    steps := steps + [Check(1)];
    assert t.workers == map[0 := APPROVING, 1 := REJECTING];
  }

  lemma RaceTurns() returns (s: State, steps: seq<Step>)
    ensures Fresh(s) && Play(s, steps).desk.row.status == Rejected && Racing(Play(s, steps), Done(Reject, Unapproved(Reject)))
  {
    hide Play;
    s, steps := RaceBegins();
    var t := Also(s, steps, Play(s, steps), Reread(1));
    assert Racing(t, Ready(s.desk.row, Reject));
    steps := steps + [Reread(1)];
    t := Also(s, steps, t, Claim(1, true));
    assert Racing(t, Holding(Reject)) && t.desk.row.status == Rejected;
    steps := steps + [Claim(1, true)];
    t := Also(s, steps, t, Execute(1, true, ""));
    steps := steps + [Execute(1, true, "")];
  }

  lemma RaceReports() returns (s: State, steps: seq<Step>)
    ensures Fresh(s) && Play(s, steps).desk.row.status == Rejected && Racing(Play(s, steps), Called(Reject, Unapproved(Reject)))
  {
    hide Play;
    s, steps := RaceTurns();
    var t := Also(s, steps, Play(s, steps), WriteMessage(1));
    assert Racing(t, Messaged(Reject, Unapproved(Reject)));
    steps := steps + [WriteMessage(1)];
    t := Also(s, steps, t, WriteCall(1));
    steps := steps + [WriteCall(1)];
  }

  lemma RaceEnds() returns (s: State, steps: seq<Step>)
    ensures Fresh(s)
    ensures var t := Play(s, steps);
            Racing(t, Deferred) && t.desk.row.decision.Some? && t.desk.row.outcome.Some? && t.desk.row.status == Rejected
  {
    hide Play;
    s, steps := RaceReports();
    var t := Also(s, steps, Play(s, steps), Finish(1));
    steps := steps + [Finish(1)];
  }

  /** The family is not empty: an approve checked while another worker rejects is acknowledged. */
  lemma RacedAnswerIsAcknowledged() returns (s: State, steps: seq<Step>)
    ensures Fresh(s)
    ensures var s' := Play(s, steps);
            && 0 in s'.workers && Decode(s'.workers[0].entry) == Ok(Approve) && s'.workers[0].phase == Deferred
            && s'.desk.row.status == Rejected && s'.effects == []
  {
    hide Play;
    s, steps := RaceEnds();
    var t := Also(s, steps, Play(s, steps), Reread(0));
    steps := steps + [Reread(0)];
  }

  lemma PlayNothing(s: State)
    ensures Play(s, []) == s
  {
  }

  lemma Also(s: State, steps: seq<Step>, t: State, step: Step) returns (next: State)
    requires Play(s, steps) == t
    ensures next == Apply(t, step) && Play(s, steps + [step]) == next
  {
    hide Apply;
    next := Apply(t, step);
    PlayNext(s, steps, step);
  }

  lemma {:induction false} PlayNext(s: State, steps: seq<Step>, step: Step)
    ensures Play(s, steps + [step]) == Apply(Play(s, steps), step)
    decreases |steps|
  {
    hide Apply;
    if steps == [] {
      assert [] + [step] == [step] && [step][1..] == [];
      assert Play(Apply(s, step), []) == Apply(s, step);
    } else {
      assert (steps + [step])[1..] == steps[1..] + [step];
      PlayNext(Apply(s, steps[0]), steps[1..], step);
    }
  }

  // ---------- the worker's own program ----------

  /** The steps one undisturbed worker takes; those after a refusal change nothing. */
  function Script(id: nat, entry: Entry, trusted: bool, editable: bool, ok: bool, text: string): seq<Step> {
    [Arrive(id, entry, trusted, editable), Check(id), Reread(id), Claim(id, true)]
    + [Execute(id, ok, text), WriteMessage(id), WriteCall(id), Finish(id)]
  }

  /** Steps of one worker that its own program takes after its arrival. */
  ghost predicate Own(id: nat, steps: seq<Step>) {
    forall step | step in steps :: !step.Wait? && !step.Settle? && !step.Arrive? && !step.Crash? && step.id == id
  }

  /** The steps from the claim's outcome on. */
  function Late(id: nat, ok: bool, text: string): seq<Step> {
    [Execute(id, ok, text), WriteMessage(id), WriteCall(id), Finish(id)]
  }

  lemma ScriptParts(id: nat, entry: Entry, trusted: bool, editable: bool, ok: bool, text: string)
    ensures var late := Late(id, ok, text);
            && Script(id, entry, trusted, editable, ok, text)
               == [Arrive(id, entry, trusted, editable)] + ([Check(id)] + ([Reread(id)] + ([Claim(id, true)] + late)))
            && Own(id, late) && Own(id, [Claim(id, true)] + late) && Own(id, [Reread(id)] + ([Claim(id, true)] + late))
  {
  }

  lemma {:induction false} RefusedStays(s: State, id: nat, steps: seq<Step>)
    requires id in s.workers && (s.workers[id].phase.Refused? || s.workers[id].phase.Deferred?)
    requires Own(id, steps)
    ensures Play(s, steps) == s
    decreases |steps|
  {
    if steps != [] {
      assert Apply(s, steps[0]) == s;
      RefusedStays(s, id, steps[1..]);
    }
  }

  lemma PlayFirst(s: State, step: Step, rest: seq<Step>)
    ensures Play(s, [step] + rest) == Play(Apply(s, step), rest)
  {
    hide Apply;
    assert ([step] + rest)[1..] == rest;
  }

  /** An answer to a pending row in time, undisturbed, is carried out: the tool runs exactly for
      approve, and the row ends with this answer and what came of it. */
  lemma UndisturbedAnswerCompletes(s: State, id: nat, entry: Entry, ok: bool, text: string)
    requires Fresh(s) && (s.desk.row.expires.Some? ==> s.desk.row.expires.value > s.now) && Decode(entry).Ok?
    ensures var s' := Play(s, Script(id, entry, false, true, ok, text));
            var approved := Decode(entry).value == Approve;
            && id in s'.workers && s'.workers[id].phase == Deferred
            && s'.effects == (if approved then [id] else [])
            && s'.desk.row.decision == Some(entry)
            && s'.desk.row.outcome == Some(if approved then Outcome(if ok then "completed" else "failed", text)
                                           else Unapproved(Decode(entry).value))
  {
    hide Play;
    OnlyApproveAuthorizes(entry);
    var action := Decode(entry).value;
    var late := [Execute(id, ok, text)] + [WriteMessage(id), WriteCall(id), Finish(id)];
    assert Script(id, entry, false, true, ok, text)
        == [Arrive(id, entry, false, true)] + ([Check(id)] + ([Reread(id)] + ([Claim(id, true)] + late)));
    PlayFirst(s, Arrive(id, entry, false, true), [Check(id)] + ([Reread(id)] + ([Claim(id, true)] + late)));
    var t := Apply(s, Arrive(id, entry, false, true));
    PlayFirst(t, Check(id), [Reread(id)] + ([Claim(id, true)] + late));
    t := Apply(t, Check(id));
    assert t.workers[id].phase == Checked;
    PlayFirst(t, Reread(id), [Claim(id, true)] + late);
    t := Apply(t, Reread(id));
    assert t.workers[id].phase == Ready(s.desk.row, action);
    PlayFirst(t, Claim(id, true), late);
    t := Apply(t, Claim(id, true));
    Completes(t, id, entry, action, ok, text);
  }

  lemma Completes(s: State, id: nat, entry: Entry, action: Action, ok: bool, text: string)
    requires id in s.workers && s.workers[id].phase == Holding(action) && s.workers[id].entry == entry
    ensures var s' := Play(s, [Execute(id, ok, text)] + [WriteMessage(id), WriteCall(id), Finish(id)]);
            && id in s'.workers && s'.workers[id].phase == Deferred
            && s'.effects == s.effects + (if action == Approve then [id] else [])
            && s'.desk.row.decision == Some(entry)
            && s'.desk.row.outcome == Some(if action == Approve then Outcome(if ok then "completed" else "failed", text)
                                           else Unapproved(action))
  {
    hide Play, Decode, Preflight, Rereading, Claimable, Claimed, TrustedTimeout;
    PlayFirst(s, Execute(id, ok, text), [WriteMessage(id), WriteCall(id), Finish(id)]);
    var t := Apply(s, Execute(id, ok, text));
    var outcome := if action == Approve then Outcome(if ok then "completed" else "failed", text) else Unapproved(action);
    assert t.workers[id].phase == Done(action, outcome);
    Reports(t, id, entry, action, outcome);
  }

  lemma Reports(s: State, id: nat, entry: Entry, action: Action, outcome: Outcome)
    requires id in s.workers && s.workers[id].phase == Done(action, outcome) && s.workers[id].entry == entry
    ensures var s' := Play(s, [WriteMessage(id), WriteCall(id), Finish(id)]);
            && id in s'.workers && s'.workers[id].phase == Deferred && s'.effects == s.effects
            && s'.desk.row.decision == Some(entry) && s'.desk.row.outcome == Some(outcome)
  {
    hide Play, Decode, Preflight, Rereading, Claimable, Claimed, TrustedTimeout, Unapproved;
    assert [WriteMessage(id), WriteCall(id), Finish(id)] == [WriteMessage(id)] + ([WriteCall(id)] + ([Finish(id)] + []));
    PlayFirst(s, WriteMessage(id), [WriteCall(id)] + ([Finish(id)] + []));
    var t := Apply(s, WriteMessage(id));
    PlayFirst(t, WriteCall(id), [Finish(id)] + []);
    t := Apply(t, WriteCall(id));
    PlayFirst(t, Finish(id), []);
    PlayNothing(Apply(t, Finish(id)));
  }

  class Queue {
    var row: Row
    var message: Message
    var call: Call

    constructor (desk: Desk)
      ensures Rows() == desk
    {
      row, message, call := desk.row, desk.message, desk.call;
    }

    function Rows(): Desk
      reads this
    {
      Desk(row, message, call)
    }

    /** aguiPreflightApproval */
    method Inspect(now: int, entry: Entry, trusted: bool, editable: bool) returns (r: Option<Refusal>)
      ensures r == Preflight(Rows(), now, entry, trusted, editable)
    {
      if row.decision.Some? {
        if row.decision.value != entry {
          return Some(DifferentAnswer);
        }
        if row.outcome.None? || (row.outcome.value.status != "completed" && row.outcome.value.status != "failed") {
          return Some(Uncertain);
        }
        var outcome := row.outcome.value;
        if message.content != outcome.result || message.status != outcome.status || call.status != outcome.status || !call.completed {
          return Some(Mismatch);
        }
        if row.status == Pending || row.status == Approved {
          return Some(Unfinished);
        }
        return None;
      }
      var answer := Decode(entry);
      if answer.Err? {
        return Some(answer.error);
      }
      if row.status != Pending {
        return Some(NotPending);
      }
      if row.expires.Some? && row.expires.value <= now && !TrustedTimeout(row, entry, now, trusted) {
        return Some(Expired);
      }
      if !editable {
        return Some(BadArguments);
      }
      return None;
    }

    /** aguiApplyApproval, undisturbed: the run of the protocol its script spells out. `ok` and
        `text` are what the tool returns if it is called. */
    method Answer(ghost s: State, id: nat, now: int, entry: Entry, trusted: bool, editable: bool, ok: bool, text: string)
      returns (r: Option<Refusal>)
      requires s.desk == Rows() && s.now == now && id !in s.workers
      modifies this
      ensures var s' := Play(s, Script(id, entry, trusted, editable, ok, text));
              && Rows() == s'.desk && id in s'.workers
              && s'.workers[id].phase == if r.Some? then Refused(r.value) else Deferred
    {
      hide Play, Preflight, TrustedTimeout, Script, Late, Own;
      ghost var late := Late(id, ok, text);
      ScriptParts(id, entry, trusted, editable, ok, text);
      PlayFirst(s, Arrive(id, entry, trusted, editable), [Check(id)] + ([Reread(id)] + ([Claim(id, true)] + late)));
      ghost var t := Apply(s, Arrive(id, entry, trusted, editable));
      PlayFirst(t, Check(id), [Reread(id)] + ([Claim(id, true)] + late));
      t := Apply(t, Check(id));
      r := Inspect(now, entry, trusted, editable);
      if r.Some? {
        RefusedStays(t, id, [Reread(id)] + ([Claim(id, true)] + late));
        return;
      }
      PlayFirst(t, Reread(id), [Claim(id, true)] + late);
      t := Apply(t, Reread(id));
      if row.decision.Some? {
        r := if row.outcome.Some? then None else Some(Uncertain);
        RefusedStays(t, id, [Claim(id, true)] + late);
        return;
      }
      if !editable || Decode(entry).Err? {
        r := Some(BadArguments);
        RefusedStays(t, id, [Claim(id, true)] + late);
        return;
      }
      var action := if TrustedTimeout(row, entry, now, trusted) then Timeout else Decode(entry).value;
      PlayFirst(t, Claim(id, true), late);
      var seen := row;
      if !Claimable(row, seen, action, now) {
        t := Apply(t, Claim(id, true));
        RefusedStays(t, id, late);
        return Some(ClaimLost);
      }
      t := Apply(t, Claim(id, true));
      row := Claimed(row, seen, entry, action);
      CarryOut(t, id, entry, action, ok, text);
    }

    /** From a claimed decision: run the tool if it is approved, then write what came of it. */
    method CarryOut(ghost t: State, id: nat, entry: Entry, action: Action, ok: bool, text: string)
      requires t.desk == Rows() && id in t.workers && t.workers[id].phase == Holding(action) && t.workers[id].entry == entry
      modifies this
      ensures var s' := Play(t, Late(id, ok, text));
              Rows() == s'.desk && id in s'.workers && s'.workers[id].phase == Deferred
    {
      hide Play;
      assert [Execute(id, ok, text), WriteMessage(id), WriteCall(id), Finish(id)]
          == [Execute(id, ok, text)] + [WriteMessage(id), WriteCall(id), Finish(id)];
      PlayFirst(t, Execute(id, ok, text), [WriteMessage(id), WriteCall(id), Finish(id)]);
      var result := if action == Timeout then "tool approval timed out" else "tool execution was not approved by user";
      var status := "completed";
      if action == Approve {
        result := text;
        if !ok {
          status := "failed";
        }
      }
      ghost var u := Apply(t, Execute(id, ok, text));
      assert u.workers[id].phase == Done(action, Outcome(status, result));
      Report(u, id, entry, action, status, result);
    }

    /** The message, then the tool call, then the row. */
    method Report(ghost t: State, id: nat, entry: Entry, action: Action, status: string, result: string)
      requires t.desk == Rows() && id in t.workers && t.workers[id].entry == entry
      requires t.workers[id].phase == Done(action, Outcome(status, result))
      modifies this
      ensures var s' := Play(t, [WriteMessage(id), WriteCall(id), Finish(id)]);
              Rows() == s'.desk && id in s'.workers && s'.workers[id].phase == Deferred
    {
      hide Play, Decode, Claimable;
      assert [WriteMessage(id), WriteCall(id), Finish(id)] == [WriteMessage(id)] + ([WriteCall(id)] + ([Finish(id)] + []));
      PlayFirst(t, WriteMessage(id), [WriteCall(id)] + ([Finish(id)] + []));
      message := Message(result, status);
      ghost var u := Apply(t, WriteMessage(id));
      PlayFirst(u, WriteCall(id), [Finish(id)] + []);
      call := Call(status, true);
      u := Apply(u, WriteCall(id));
      PlayFirst(u, Finish(id), []);
      row := Settled(row, entry, action, Outcome(status, result));
      u := Apply(u, Finish(id));
      PlayNothing(u);
    }
  }

  // ---------- answers to all the interrupts of a run ----------

  /** `acceptable` is the verdict on one answer by itself: its deadline, its payload's schema and
      the check of its approval or elicitation. */
  datatype Reply = Reply(question: string, status: string, acceptable: bool)

  predicate Distinct<T(==)>(items: seq<T>) {
    forall i, j | 0 <= i < j < |items| :: items[i] != items[j]
  }

  function Questions(replies: seq<Reply>): (r: seq<string>)
    ensures |r| == |replies| && forall i | 0 <= i < |r| :: r[i] == replies[i].question
  {
    seq(|replies|, i requires 0 <= i < |replies| => replies[i].question)
  }

  /** preflightAGUIResume, on interrupts and answers: accepted exactly when the answers are a
      permutation of distinct, named interrupts and each is acceptable by itself. */
  method MatchAnswers(questions: seq<string>, replies: seq<Reply>) returns (accepted: bool)
    ensures accepted <==>
              && Distinct(questions) && "" !in questions
              && Distinct(Questions(replies))
              && (set q | q in questions) == (set q | q in Questions(replies))
              && forall reply | reply in replies :: reply.status in {"resolved", "cancelled"} && reply.acceptable
  {
    var pending: set<string> := {};
    for i := 0 to |questions|
      invariant pending == set q | q in questions[..i]
      invariant Distinct(questions[..i]) && "" !in questions[..i]
    {
      if questions[i] == "" || questions[i] in pending {
        return false;
      }
      pending := pending + {questions[i]};
      assert questions[..i + 1] == questions[..i] + [questions[i]];
    }
    assert questions[..|questions|] == questions;
    var seen: set<string> := {};
    var asked := Questions(replies);
    for i := 0 to |replies|
      invariant seen == set q | q in asked[..i]
      invariant Distinct(asked[..i]) && seen <= pending
      invariant forall k | 0 <= k < i :: replies[k].status in {"resolved", "cancelled"} && replies[k].acceptable
    {
      var reply := replies[i];
      assert asked[i] == reply.question && asked[i] in asked && reply in replies;
      if reply.question in seen || reply.question !in pending {
        return false;
      }
      seen := seen + {reply.question};
      if reply.status != "resolved" && reply.status != "cancelled" {
        return false;
      }
      if !reply.acceptable {
        return false;
      }
      assert asked[..i + 1] == asked[..i] + [asked[i]];
    }
    assert asked[..|replies|] == asked;
    var unanswered := pending;
    while unanswered != {}
      invariant unanswered <= pending && pending - unanswered <= seen
    {
      var id :| id in unanswered;
      if id !in seen {
        return false;
      }
      unanswered := unanswered - {id};
    }
    return true;
  }
}