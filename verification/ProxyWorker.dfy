/** Native effects of guest calls under crashes: sdk/agui_mcp_apps_worker.go.

    Any number of workers may claim one run, each at any time; a worker may stop between any two
    of its steps, its lease may run out, and a write may be lost on the way to the store or its
    answer lost on the way back. The store is the journal of RunStore. A run of the protocol is
    an arbitrary sequence of steps; a step that is not enabled changes nothing. */
module ProxyWorker {
  import opened Common
  import opened RunStore

  datatype Question = Question(id: string, toolCall: Option<string>)

  /** The run's pending data; "" stands for an absent host result. */
  datatype Pending = Pending(questions: seq<Question>, nativeTurn: string, hostResult: string, nativeOperation: string)

  const NOTHING := Pending([], "", "", "")

  /** `prior` is the interrupted run this one resumes, holding its pending data when readable. */
  datatype Setting = Setting(turn: string, prior: Option<Option<Pending>>)

  datatype Answer = Answer(question: string, canonical: string)

  /** What a worker finds out about its surroundings when it asks. */
  datatype Checks = Checks(bound: bool, authorization: Option<string>, answers: Option<seq<Answer>>,
                           completed: Option<string>)

  datatype Ending =
    | Succeed(result: string)
    | Fail(message: string)
    | Queue(question: Question)

  /** What the native call hands back. */
  datatype Reply =
    | Answered(result: string)
    | Queued(question: Option<Question>, turn: string)
    | Decided(action: string, captured: string)
    | Broken(message: string)

  datatype Phase =
    | Ready
    | Started
    | Calling
    | Closing(recovered: Option<Checks>, ending: Ending)
    | Gone

  /** `base` and `sequence` are the revision and the last sequence of the record the worker holds. */
  datatype Worker = Worker(owner: string, base: int, sequence: nat, lease: int, pending: Pending, phase: Phase)

  datatype Delivery = Delivered | RequestLost | ReplyLost

  const MINUTE := 60

  // ---------- decisions ----------

  /** The branch for a run that has already started: nothing is dispatched again. */
  function Recovery(setting: Setting, pending: Pending, checks: Checks): Ending {
    if pending.hostResult == "" then Fail("MCP proxy dispatch interrupted without a durable host receipt")
    else match setting.prior
         case None => Succeed(pending.hostResult)
         case Some(previous) =>
           if !checks.bound then Fail("MCP approval recovery binding unavailable")
           else if checks.authorization.Some? then Fail(checks.authorization.value)
           else if previous.None? || |previous.value.questions| != 1 then Fail("MCP approval recovery identity mismatch")
           else if pending.nativeTurn != setting.turn || pending.nativeTurn != previous.value.nativeTurn
                   || Some(pending.nativeOperation) != previous.value.questions[0].toolCall then
             Fail("MCP approval recovered host receipt identity mismatch")
           else if checks.completed.None? then Fail("MCP host effect captured without complete native approval outcome")
           else if checks.answers.None? || |checks.answers.value| != 1 then Fail("MCP approval recovered answer unavailable")
           else if checks.answers.value[0].canonical != checks.completed.value then Fail("MCP approval recovered answer mismatch")
           else Succeed(pending.hostResult)
  }

  /** Why a worker that started the run gives up before the native call. */
  function Refusal(setting: Setting, checks: Checks): Option<string> {
    match setting.prior
    case None => None
    case Some(previous) =>
      if previous.None? || checks.answers.None? then Some("unreadable approval")
      else if |previous.value.questions| != 1 || |checks.answers.value| != 1
              || previous.value.questions[0].id != checks.answers.value[0].question then
        Some("MCP proxy approval answer mismatch")
      else if !checks.bound then Some("MCP app binding unavailable")
      else checks.authorization
  }

  /** The receipts the recorder takes: those naming a native operation, and the approved one if any. */
  predicate Recordable(setting: Setting, native: string) {
    && native != ""
    && (setting.prior.Some? ==>
          && setting.prior.value.Some?
          && |setting.prior.value.value.questions| == 1
          && setting.prior.value.value.questions[0].toolCall == Some(native))
  }

  predicate Fits(setting: Setting, reply: Reply) {
    match reply
    case Broken(_) => true
    case Decided(_, _) => setting.prior.Some?
    case _ => setting.prior.None?
  }

  function Conclude(pending: Pending, reply: Reply): Ending {
    match reply
    case Broken(message) => Fail(message)
    case Answered(result) => Succeed(result)
    case Queued(question, _) => if question.Some? then Queue(question.value) else Fail("queued MCP call has no authoritative approval")
    case Decided(action, captured) =>
      if action != "approve" then Fail("MCP app tool was not approved")
      else
        var result := if captured == "" then pending.hostResult else captured;
        if result == "" then Fail("approval completed without durable full MCP host result") else Succeed(result)
  }

  function PendingAfter(pending: Pending, reply: Reply): Pending {
    match reply
    case Queued(Some(question), turn) => pending.(questions := [question], nativeTurn := turn)
    case _ => pending
  }

  function EventOf(run: Run<Pending>, ending: Ending): Event {
    match ending
    case Succeed(result) => RunFinished(run.threadId, run.runId, Outcome.Success, result)
    case Fail(message) => RunError(message)
    case Queue(question) => RunFinished(run.threadId, run.runId, Outcome.Interrupt, question.id)
  }

  // ---------- the protocol ----------

  datatype Publication = Publication(worker: nat, recovered: Option<Checks>, ending: Ending)

  /** The store, the workers, and what an observer has seen: which worker's RUN_STARTED was
      committed, whose native calls began, the receipts made durable, what was published. */
  datatype State = State(now: int, run: Run<Pending>, thread: Thread, workers: map<nat, Worker>,
                         starter: Option<nat>, effects: seq<nat>, receipts: seq<string>,
                         published: Option<Publication>)

  datatype Step =
    | Wait(ticks: nat)
    | Claim(id: nat, seen: int, owner: string)
    | Renew(id: nat)
    | Start(id: nat, delivery: Delivery)
    | Refuse(id: nat, checks: Checks)
    | Dispatch(id: nat, checks: Checks)
    | Record(id: nat, native: string, result: string, delivery: Delivery)
    | Return(id: nat, reply: Reply)
    | Recover(id: nat, checks: Checks)
    | Publish(id: nat, delivery: Delivery)
    | Crash(id: nat)

  /** appendEvents: the worker's pending data always travels with its events. */
  function Save(run: Run<Pending>, thread: Thread, now: int, w: Worker, events: seq<Event>): Result<Run<Pending>, StoreError> {
    match AppendTo(run, thread, now, w.base, events, Change(w.owner, Some(w.pending), None, None, 0))
    case Ok(rows) => Ok(rows.0)
    case Err(error) => Err(error)
  }

  function Join(run: Run<Pending>, seen: int, owner: string): Worker
    requires run.lease.Some?
  {
    Worker(owner, seen, run.LastSequence(), run.lease.value.revision, run.pending, Ready)
  }

  function Receipt(setting: Setting, w: Worker, native: string, result: string): Worker {
    w.(pending := w.pending.(hostResult := result, nativeTurn := setting.turn, nativeOperation := native))
  }

  /** The worker after its write: it moves to the new record when the answer arrives. */
  function After(w: Worker, delivery: Delivery, saved: Result<Run<Pending>, StoreError>, next: Phase, otherwise: Phase): Worker {
    if delivery == Delivered && saved.Ok? then w.(base := saved.value.revision, phase := next) else w.(phase := otherwise)
  }

  predicate Commits(delivery: Delivery, saved: Result<Run<Pending>, StoreError>) {
    delivery != RequestLost && saved.Ok?
  }

  function Apply(setting: Setting, s: State, step: Step): State {
    match step
    case Wait(ticks) => s.(now := s.now + ticks)
    case Claim(id, seen, owner) =>
      var claimed := ClaimOn(s.run, s.now, seen, owner, MINUTE);
      if id in s.workers || claimed.Err? then s
      else s.(run := claimed.value, workers := s.workers[id := Join(claimed.value, seen, owner)])
    case _ =>
      if step.id !in s.workers then s else ApplyTo(setting, s, step, s.workers[step.id])
  }

  function ApplyTo(setting: Setting, s: State, step: Step, w: Worker): State
    requires !step.Wait? && !step.Claim?
  {
    match step
    case Renew(id) =>
      var renewed := RenewOn(s.run, s.now, w.lease, w.owner, MINUTE);
      if renewed.Err? then s
      else s.(run := renewed.value, workers := s.workers[id := w.(lease := w.lease + 1)])
    case Start(id, delivery) =>
      if w.phase != Ready || w.sequence != 0 then s else
        var saved := Save(s.run, s.thread, s.now, w, [RunStarted(s.run.threadId, s.run.runId)]);
        var s' := s.(workers := s.workers[id := After(w, delivery, saved, Started, Gone)]);
        if Commits(delivery, saved) then s'.(run := saved.value, starter := Some(id)) else s'
    case Refuse(id, checks) =>
      var refusal := Refusal(setting, checks);
      if w.phase != Started || refusal.None? then s
      else s.(workers := s.workers[id := w.(phase := Closing(None, Fail(refusal.value)))])
    case Dispatch(id, checks) =>
      if w.phase != Started || Refusal(setting, checks).Some? then s
      else s.(workers := s.workers[id := w.(phase := Calling)], effects := s.effects + [id])
    case Record(id, native, result, delivery) =>
      if w.phase != Calling || !Recordable(setting, native) then s else
        var noted := Receipt(setting, w, native, result);
        var saved := Save(s.run, s.thread, s.now, noted, []);
        var s' := s.(workers := s.workers[id := After(noted, delivery, saved, Calling, Calling)]);
        if Commits(delivery, saved) then s'.(run := saved.value, receipts := s.receipts + [result]) else s'
    case Return(id, reply) =>
      if w.phase != Calling || !Fits(setting, reply) then s
      else s.(workers := s.workers[id := w.(pending := PendingAfter(w.pending, reply),
                                            phase := Closing(None, Conclude(w.pending, reply)))])
    case Recover(id, checks) =>
      if w.phase != Ready || w.sequence == 0 then s
      else s.(workers := s.workers[id := w.(phase := Closing(Some(checks), Recovery(setting, w.pending, checks)))])
    case Publish(id, delivery) =>
      if !w.phase.Closing? then s else
        var saved := Save(s.run, s.thread, s.now, w, [EventOf(s.run, w.phase.ending)]);
        var s' := s.(workers := s.workers[id := w.(phase := Gone)]);
        if Commits(delivery, saved) then
          s'.(run := saved.value, published := Some(Publication(id, w.phase.recovered, w.phase.ending)))
        else s'
    case Crash(id) => s.(workers := s.workers[id := w.(phase := Gone)])
  }

  function Play(setting: Setting, s: State, steps: seq<Step>): State
    decreases |steps|
  {
    if steps == [] then s else Play(setting, Apply(setting, s, steps[0]), steps[1..])
  }

  /** A run just admitted: nothing journaled, no receipt, nobody at work. */
  ghost predicate Fresh(s: State) {
    && Journaled(s.run) && s.run.journal == [] && s.run.pending == NOTHING
    && s.workers == map[] && s.starter == None && s.effects == [] && s.receipts == [] && s.published == None
  }

  // ---------- what every step keeps ----------

  function LastReceipt(receipts: seq<string>): string {
    if receipts == [] then "" else receipts[|receipts| - 1]
  }

  /** What is true of one worker: only the starter has gone past Ready without recovering, and a
      worker that is up to date and not the starter holds the durable pending data. */
  ghost predicate WorkerInv(setting: Setting, s: State, id: nat, w: Worker) {
    && w.base <= s.run.revision
    && (w.phase.Started? || w.phase.Calling? || (w.phase.Closing? && w.phase.recovered.None?) ==> s.starter == Some(id))
    && (w.phase.Started? ==> s.effects == [])
    && (w.phase.Calling? ==> s.effects == [id])
    && (w.phase.Closing? && w.phase.recovered.None? && w.phase.ending.Succeed? ==> s.effects == [id])
    && (w.phase.Ready? || (w.phase.Closing? && w.phase.recovered.Some?) ==>
          w.base == s.run.revision ==> w.pending == s.run.pending && w.sequence == s.run.LastSequence())
    && (w.phase.Closing? && w.phase.recovered.Some? ==>
          w.phase.ending == Recovery(setting, w.pending, w.phase.recovered.value))
    && (w.phase.Started? && w.base == s.run.revision ==> w.pending == s.run.pending)
  }

  ghost predicate Inv(setting: Setting, s: State) {
    && Journaled(s.run)
    && (s.run.journal == [] <==> s.starter.None?)
    && |s.effects| <= 1
    && (s.effects != [] ==> s.starter == Some(s.effects[0]))
    && (s.receipts != [] ==> s.effects != [])
    && (!TerminalStatus(s.run.status) ==> s.run.pending.hostResult == LastReceipt(s.receipts))
    && (s.published.Some? <==> TerminalStatus(s.run.status))
    && (s.published.Some? && s.published.value.recovered.Some? ==>
          && s.run.pending.hostResult == LastReceipt(s.receipts)
          && s.published.value.ending == Recovery(setting, s.run.pending, s.published.value.recovered.value))
    && (s.published.Some? ==>
          && s.run.journal != []
          && s.run.journal[|s.run.journal| - 1] == EventOf(s.run, s.published.value.ending)
          && (s.published.value.ending.Succeed? ==> s.effects != []))
    && forall id | id in s.workers :: WorkerInv(setting, s, id, s.workers[id])
  }

  lemma ClaimKeeps(setting: Setting, s: State, id: nat, seen: int, owner: string)
    requires Inv(setting, s)
    ensures Inv(setting, Apply(setting, s, Claim(id, seen, owner)))
  {
    var s' := Apply(setting, s, Claim(id, seen, owner));
    forall k | k in s'.workers ensures WorkerInv(setting, s', k, s'.workers[k]) {
      assert k in s.workers ==> WorkerInv(setting, s, k, s.workers[k]);
    }
  }

  lemma WaitKeeps(setting: Setting, s: State, ticks: nat)
    requires Inv(setting, s)
    ensures Inv(setting, Apply(setting, s, Wait(ticks)))
  {
    var s' := Apply(setting, s, Wait(ticks));
    forall k | k in s'.workers ensures WorkerInv(setting, s', k, s'.workers[k]) {
      assert WorkerInv(setting, s, k, s.workers[k]);
    }
  }

  lemma QuietStepKeeps(setting: Setting, s: State, step: Step, w: Worker)
    requires Inv(setting, s)
    requires step.Renew? || step.Refuse? || step.Dispatch? || step.Return? || step.Recover? || step.Crash?
    requires step.id in s.workers && s.workers[step.id] == w
    ensures Inv(setting, ApplyTo(setting, s, step, w))
  {
    hide Recovery, Refusal;
    assert WorkerInv(setting, s, step.id, w);
    var s' := ApplyTo(setting, s, step, w);
    forall k | k in s'.workers ensures WorkerInv(setting, s', k, s'.workers[k]) {
      QuietStepKeepsWorker(setting, s, step, w, k);
    }
    hide Journaled;
  }

  lemma QuietStepKeepsWorker(setting: Setting, s: State, step: Step, w: Worker, k: nat)
    requires Inv(setting, s)
    requires step.Renew? || step.Refuse? || step.Dispatch? || step.Return? || step.Recover? || step.Crash?
    requires step.id in s.workers && s.workers[step.id] == w && k in ApplyTo(setting, s, step, w).workers
    ensures var s' := ApplyTo(setting, s, step, w);
            WorkerInv(setting, s', k, s'.workers[k])
  {
    hide Recovery, Refusal, Journaled;
    assert k in s.workers && WorkerInv(setting, s, k, s.workers[k]) && WorkerInv(setting, s, step.id, w);
  }

  lemma StartKeeps(setting: Setting, s: State, id: nat, delivery: Delivery, w: Worker)
    requires Inv(setting, s) && id in s.workers && s.workers[id] == w
    ensures Inv(setting, ApplyTo(setting, s, Start(id, delivery), w))
  {
    hide Save, Recovery;
    SaveKeeps(s, w, [RunStarted(s.run.threadId, s.run.runId)]);
    var s' := ApplyTo(setting, s, Start(id, delivery), w);
    forall k | k in s'.workers ensures WorkerInv(setting, s', k, s'.workers[k]) {
      assert k in s.workers && WorkerInv(setting, s, k, s.workers[k]) && WorkerInv(setting, s, id, w);
    }
  }

  lemma RecordKeeps(setting: Setting, s: State, id: nat, native: string, result: string, delivery: Delivery, w: Worker)
    requires Inv(setting, s) && id in s.workers && s.workers[id] == w
    ensures Inv(setting, ApplyTo(setting, s, Record(id, native, result, delivery), w))
  {
    hide Save, Recovery, Recordable;
    SaveKeeps(s, Receipt(setting, w, native, result), []);
    var s' := ApplyTo(setting, s, Record(id, native, result, delivery), w);
    forall k | k in s'.workers ensures WorkerInv(setting, s', k, s'.workers[k]) {
      assert k in s.workers && WorkerInv(setting, s, k, s.workers[k]) && WorkerInv(setting, s, id, w);
    }
  }

  lemma PublishKeeps(setting: Setting, s: State, id: nat, delivery: Delivery, w: Worker)
    requires Inv(setting, s) && id in s.workers && s.workers[id] == w
    ensures Inv(setting, ApplyTo(setting, s, Publish(id, delivery), w))
  {
    hide Save;
    if w.phase.Closing? {
      assert WorkerInv(setting, s, id, w);
      SaveKeeps(s, w, [EventOf(s.run, w.phase.ending)]);
      var s' := ApplyTo(setting, s, Publish(id, delivery), w);
      forall k | k in s'.workers ensures WorkerInv(setting, s', k, s'.workers[k]) {
        PublishKeepsWorker(setting, s, id, delivery, w, k);
      }
      hide WorkerInv, Journaled, Recovery, LastReceipt, TerminalStatus;
    }
  }

  lemma PublishKeepsWorker(setting: Setting, s: State, id: nat, delivery: Delivery, w: Worker, k: nat)
    requires Inv(setting, s) && id in s.workers && s.workers[id] == w && w.phase.Closing?
    requires k in ApplyTo(setting, s, Publish(id, delivery), w).workers
    ensures var s' := ApplyTo(setting, s, Publish(id, delivery), w);
            WorkerInv(setting, s', k, s'.workers[k])
  {
    hide Save, Recovery, Journaled, EventOf;
    SaveKeeps(s, w, [EventOf(s.run, w.phase.ending)]);
    assert k in s.workers && WorkerInv(setting, s, k, s.workers[k]) && WorkerInv(setting, s, id, w);
  }

  lemma StepKeeps(setting: Setting, s: State, step: Step)
    requires Inv(setting, s)
    ensures Inv(setting, Apply(setting, s, step))
  {
    hide ApplyTo, Inv;
    match step
    case Claim(id, seen, owner) => ClaimKeeps(setting, s, id, seen, owner);
    case Wait(ticks) => WaitKeeps(setting, s, ticks);
    case _ =>
      if step.id in s.workers {
        var w := s.workers[step.id];
        match step
        case Start(id, delivery) => StartKeeps(setting, s, id, delivery, w);
        case Record(id, native, result, delivery) => RecordKeeps(setting, s, id, native, result, delivery, w);
        case Publish(id, delivery) => PublishKeeps(setting, s, id, delivery, w);
        case _ => QuietStepKeeps(setting, s, step, w);
      }
  }

  lemma SaveKeeps(s: State, w: Worker, events: seq<Event>)
    requires Journaled(s.run)
    ensures var saved := Save(s.run, s.thread, s.now, w, events);
            saved.Ok? ==>
              && Journaled(saved.value)
              && w.base == s.run.revision && saved.value.revision == s.run.revision + 1
              && saved.value.journal == s.run.journal + events
              && saved.value.pending == w.pending
              && saved.value.threadId == s.run.threadId && saved.value.runId == s.run.runId
              && !TerminalStatus(s.run.status)
              && (TerminalStatus(saved.value.status) <==> events != [] && TerminalEvent(events[|events| - 1]))
              && (|events| == 1 ==> (events[0].RunStarted? <==> s.run.journal == []))
  {
    if Save(s.run, s.thread, s.now, w, events).Ok? {
      AppendKeepsJournal(s.run, s.thread, s.now, w.base, events, Change(w.owner, Some(w.pending), None, None, 0));
    }
  }

  lemma {:induction false} PlayKeeps(setting: Setting, s: State, steps: seq<Step>)
    requires Inv(setting, s)
    ensures Inv(setting, Play(setting, s, steps))
    decreases |steps|
  {
    if steps != [] {
      StepKeeps(setting, s, steps[0]);
      PlayKeeps(setting, Apply(setting, s, steps[0]), steps[1..]);
    }
  }

  // ---------- whole runs ----------

  lemma FreshHolds(setting: Setting, s: State)
    requires Fresh(s)
    ensures Inv(setting, s)
  {
  }

  /** Every state a fresh one can come to keeps the invariant. */
  lemma ReachableHolds(setting: Setting, s: State, steps: seq<Step>)
    requires Fresh(s)
    ensures Inv(setting, Play(setting, s, steps))
  {
    hide Inv, Fresh, Play;
    FreshHolds(setting, s);
    PlayKeeps(setting, s, steps);
  }

  /** However workers come, crash and lose messages, the native call begins at most once, and
      only after the run's single RUN_STARTED was committed by the worker that made the call. */
  lemma EffectsHappenAtMostOnce(setting: Setting, s: State, steps: seq<Step>)
    requires Fresh(s)
    ensures var s' := Play(setting, s, steps);
            && |s'.effects| <= 1
            && (s'.effects != [] ==> s'.starter == Some(s'.effects[0]) && s'.run.journal != [])
  {
    ReachableHolds(setting, s, steps);
  }

  /** Once the run has started and no worker stands between its start and its call, no later
      worker ever makes the call. */
  lemma {:induction false} AbandonedCallIsNeverMade(setting: Setting, s: State, steps: seq<Step>)
    requires Inv(setting, s) && s.run.journal != []
    requires forall id | id in s.workers :: !s.workers[id].phase.Started?
    ensures Play(setting, s, steps).effects == s.effects
    decreases |steps|
  {
    if steps != [] {
      var s' := Apply(setting, s, steps[0]);
      StepKeeps(setting, s, steps[0]);
      StaysAbandoned(setting, s, steps[0]);
      AbandonedCallIsNeverMade(setting, s', steps[1..]);
    }
  }

  lemma StaysAbandoned(setting: Setting, s: State, step: Step)
    requires Inv(setting, s) && s.run.journal != []
    requires forall id | id in s.workers :: !s.workers[id].phase.Started?
    ensures var s' := Apply(setting, s, step);
            && s'.effects == s.effects && s'.run.journal != []
            && forall id | id in s'.workers :: !s'.workers[id].phase.Started?
  {
    hide Recovery, Refusal, Recordable, Save;
    if !step.Wait? && !step.Claim? && step.id in s.workers {
      var w := s.workers[step.id];
      match step
      case Start(id, _) => SaveKeeps(s, w, [RunStarted(s.run.threadId, s.run.runId)]);
      case Record(id, native, result, _) => SaveKeeps(s, Receipt(setting, w, native, result), []);
      case Publish(id, _) => if w.phase.Closing? { SaveKeeps(s, w, [EventOf(s.run, w.phase.ending)]); }
      case _ =>
    }
  }

  /** A terminal run is never written again: journal, pending data and outcome stay. */
  lemma {:induction false} TerminalIsFinal(setting: Setting, s: State, steps: seq<Step>)
    requires Inv(setting, s) && TerminalStatus(s.run.status)
    ensures Play(setting, s, steps).run == s.run && Play(setting, s, steps).published == s.published
    decreases |steps|
  {
    hide Inv;
    if steps != [] {
      StepKeeps(setting, s, steps[0]);
      TerminalIsFinal(setting, Apply(setting, s, steps[0]), steps[1..]);
    }
  }

  /** Two terminal events are never journaled, nor two starts; what an observer saw published
      is the journal's last event. */
  lemma OneTerminalEvent(setting: Setting, s: State, steps: seq<Step>, i: nat, j: nat)
    requires Fresh(s) && i < j < |Play(setting, s, steps).run.journal|
    ensures var journal := Play(setting, s, steps).run.journal;
            !TerminalEvent(journal[i]) && !journal[j].RunStarted?
  {
    ReachableHolds(setting, s, steps);
  }

  /** What a recovering worker publishes is decided by the last receipt made durable: with no
      receipt, an error; without a prior approval, success with exactly that receipt; after an
      approval, success only with that receipt, for the approved operation of the approved turn,
      and only when the accepted answer is the one the approval completed with. */
  lemma RecoveryReportsTheReceipt(setting: Setting, s: State, steps: seq<Step>)
    requires Fresh(s)
    ensures var s' := Play(setting, s, steps);
            s'.published.Some? && s'.published.value.recovered.Some? ==>
              var last, ending, checks := LastReceipt(s'.receipts), s'.published.value.ending, s'.published.value.recovered.value;
              && !ending.Queue?
              && (ending.Succeed? ==> last != "" && ending.result == last && |s'.effects| == 1)
              && (setting.prior.None? ==> (ending.Succeed? <==> last != ""))
              && (setting.prior.Some? && ending.Succeed? ==>
                    && setting.prior.value.Some?
                    && |setting.prior.value.value.questions| == 1
                    && s'.run.pending.nativeTurn == setting.turn == setting.prior.value.value.nativeTurn
                    && setting.prior.value.value.questions[0].toolCall == Some(s'.run.pending.nativeOperation)
                    && checks.bound && checks.authorization.None?
                    && checks.answers.Some? && |checks.answers.value| == 1
                    && checks.completed == Some(checks.answers.value[0].canonical))
  {
    ReachableHolds(setting, s, steps);
  }

  /** Success, by whatever worker, is only ever published for a call that began, and it is what
      the journal says for good. */
  lemma SuccessNeedsTheEffect(setting: Setting, s: State, steps: seq<Step>)
    requires Fresh(s)
    ensures var s' := Play(setting, s, steps);
            && (s'.run.status == Finished ==> |s'.effects| == 1)
            && (s'.published.Some? <==> TerminalStatus(s'.run.status))
            && (s'.published.Some? ==>
                  && s'.run.journal != []
                  && s'.run.journal[|s'.run.journal| - 1] == EventOf(s'.run, s'.published.value.ending))
  {
    ReachableHolds(setting, s, steps);
  }

  lemma {:induction false} PlayConcat(setting: Setting, s: State, first: seq<Step>, second: seq<Step>)
    ensures Play(setting, s, first + second) == Play(setting, Play(setting, s, first), second)
    decreases |first|
  {
    hide Apply;
    if first == [] {
      assert first + second == second;
    } else {
      assert (first + second)[0] == first[0] && (first + second)[1..] == first[1..] + second;
      PlayConcat(setting, Apply(setting, s, first[0]), first[1..], second);
    }
  }

  lemma PlayNext(setting: Setting, s: State, steps: seq<Step>, step: Step)
    ensures Play(setting, s, steps + [step]) == Apply(setting, Play(setting, s, steps), step)
  {
    hide Apply;
    PlayConcat(setting, s, steps, [step]);
    var s' := Play(setting, s, steps);
    assert [step][1..] == [];
    assert Play(setting, s', [step]) == Play(setting, Apply(setting, s', step), []);
  }

  /** An up-to-date lease holder can always append the closing event of a started run. */
  lemma ClosingSaves(run: Run<Pending>, thread: Thread, now: int, w: Worker, ending: Ending)
    requires Journaled(run) && run.journal != [] && !TerminalStatus(run.status) && !run.resumed
    requires w.base == run.revision < MAX_INT64 && run.LastSequence() < MAX_INT64
    requires MayWrite(run, now, w.owner)
    ensures Save(run, thread, now, w, [EventOf(run, ending)]).Ok?
  {
    var e := EventOf(run, ending);
    assert Lifecycle(run, run.LastSequence(), run.status, [e]).Ok?;
  }

  lemma Reclaims(run: Run<Pending>, now: int, owner: string)
    requires Journaled(run) && !TerminalStatus(run.status) && owner != ""
    requires run.lease.Some? ==> run.lease.value.revision < MAX_INT64 && run.lease.value.until <= now
    ensures var claimed := ClaimOn(run, now, run.revision, owner, MINUTE);
            && claimed.Ok? && claimed.value.lease.Some?
            && claimed.value == run.(lease := claimed.value.lease)
            && MayWrite(claimed.value, now, owner)
  {
  }

  /** No crash strands a started run: a later claimant can always end it, with the recovery's
      verdict on the durable pending data. */
  lemma RecoveryCompletes(setting: Setting, s: State, id: nat, owner: string, checks: Checks)
    returns (steps: seq<Step>)
    requires Inv(setting, s) && id !in s.workers && owner != ""
    requires s.run.journal != [] && !TerminalStatus(s.run.status) && !s.run.resumed
    requires s.run.revision < MAX_INT64 && s.run.LastSequence() < MAX_INT64
    requires s.run.lease.Some? ==> s.run.lease.value.revision < MAX_INT64
    ensures Play(setting, s, steps).published == Some(Publication(id, Some(checks), Recovery(setting, s.run.pending, checks)))
  {
    hide Recovery, Play, Inv, Taken;
    var patience, taken := TakesOver(setting, s, id, owner, checks, [Publish(id, Delivered)]);
    steps := [Wait(patience)] + ([Claim(id, s.run.revision, owner)] + ([Recover(id, checks)] + [Publish(id, Delivered)]));
    PlayOne(setting, taken, Publish(id, Delivered));
    TakenCloses(setting, taken, id, checks, Recovery(setting, s.run.pending, checks));
  }

  /** A worker that holds a started run and is about to close it. */
  ghost predicate Taken(s: State, id: nat, checks: Checks, ending: Ending) {
    && Journaled(s.run) && s.run.journal != [] && !TerminalStatus(s.run.status) && !s.run.resumed
    && s.run.revision < MAX_INT64 && s.run.LastSequence() < MAX_INT64
    && id in s.workers && s.workers[id].phase == Closing(Some(checks), ending)
    && s.workers[id].base == s.run.revision && MayWrite(s.run, s.now, s.workers[id].owner)
  }

  lemma TakenCloses(setting: Setting, s: State, id: nat, checks: Checks, ending: Ending)
    requires Taken(s, id, checks, ending)
    ensures Apply(setting, s, Publish(id, Delivered)).published == Some(Publication(id, Some(checks), ending))
  {
    hide Save, MayWrite, Journaled;
    ClosingSaves(s.run, s.thread, s.now, s.workers[id], ending);
  }

  lemma TakesOver(setting: Setting, s: State, id: nat, owner: string, checks: Checks, rest: seq<Step>)
    returns (patience: nat, taken: State)
    requires Inv(setting, s) && id !in s.workers && owner != ""
    requires s.run.journal != [] && !TerminalStatus(s.run.status) && !s.run.resumed
    requires s.run.revision < MAX_INT64 && s.run.LastSequence() < MAX_INT64
    requires s.run.lease.Some? ==> s.run.lease.value.revision < MAX_INT64
    ensures Play(setting, s, [Wait(patience)] + ([Claim(id, s.run.revision, owner)] + ([Recover(id, checks)] + rest)))
         == Play(setting, taken, rest)
    ensures Taken(taken, id, checks, Recovery(setting, s.run.pending, checks))
  {
    hide Recovery, ClaimOn, Save, MayWrite, Play, Inv, Journaled;
    patience := if s.run.lease.Some? && s.run.lease.value.until > s.now then s.run.lease.value.until - s.now else 0;
    JournaledByInv(setting, s);
    Reclaims(s.run, s.now + patience, owner);
    ClaimedJournal(s.run, s.now + patience, s.run.revision, owner);
    var claim, recover := Claim(id, s.run.revision, owner), Recover(id, checks);
    PlayFirst(setting, s, Wait(patience), [claim] + ([recover] + rest));
    var later := Apply(setting, s, Wait(patience));
    PlayFirst(setting, later, claim, [recover] + rest);
    var claimed := Apply(setting, later, claim);
    PlayFirst(setting, claimed, recover, rest);
    taken := Apply(setting, claimed, recover);
  }

  lemma ClaimedJournal(run: Run<Pending>, now: int, seen: int, owner: string)
    requires Journaled(run)
    ensures var claimed := ClaimOn(run, now, seen, owner, MINUTE); claimed.Ok? ==> Journaled(claimed.value)
  {
  }

  lemma JournaledByInv(setting: Setting, s: State)
    requires Inv(setting, s)
    ensures Journaled(s.run)
  {
  }

  lemma PlayNothing(setting: Setting, s: State)
    ensures Play(setting, s, []) == s
  {
  }

  lemma PlayOne(setting: Setting, s: State, step: Step)
    ensures Play(setting, s, [step]) == Apply(setting, s, step)
  {
    hide Apply;
    assert [step][1..] == [];
  }

  // ---------- the worker's own program ----------

  lemma PlayFirst(setting: Setting, s: State, step: Step, rest: seq<Step>)
    ensures Play(setting, s, [step] + rest) == Play(setting, Apply(setting, s, step), rest)
  {
    hide Apply;
    assert ([step] + rest)[1..] == rest;
  }

  lemma Granted(run: Run<Pending>, now: int, seen: int, owner: string)
    ensures var claimed := ClaimOn(run, now, seen, owner, MINUTE);
            claimed.Ok? ==> claimed.value.lease.Some?
  {
  }

  /** The steps one undisturbed worker takes: it offers every step in order, and those that do
      not apply to its run change nothing. */
  function Script(id: nat, seen: int, owner: string, checks: Checks, receipts: seq<(string, string)>, reply: Reply): seq<Step> {
    [Claim(id, seen, owner), Recover(id, checks), Start(id, Delivered), Refuse(id, checks), Dispatch(id, checks)]
    + Records(id, receipts) + [Return(id, reply), Publish(id, Delivered)]
  }

  function Records(id: nat, receipts: seq<(string, string)>): seq<Step> {
    seq(|receipts|, i requires 0 <= i < |receipts| => Record(id, receipts[i].0, receipts[i].1, Delivered))
  }

  /** A worker that is not there or has stopped does nothing more; one that is closing only publishes. */
  /** Steps of one worker that its own program takes after the claim. */
  ghost predicate Own(id: nat, steps: seq<Step>) {
    forall step | step in steps :: !step.Wait? && !step.Claim? && !step.Renew? && !step.Crash? && step.id == id
  }

  ghost predicate Unpublished(steps: seq<Step>) {
    forall step | step in steps :: !step.Publish?
  }

  lemma OwnFirst(id: nat, step: Step, rest: seq<Step>)
    requires Own(id, [step]) && Own(id, rest)
    ensures Own(id, [step] + rest)
    ensures Unpublished([step]) && Unpublished(rest) ==> Unpublished([step] + rest)
  {
  }

  /** What follows the dispatch. */
  function Reports(id: nat, receipts: seq<(string, string)>, reply: Reply): seq<Step> {
    Records(id, receipts) + [Return(id, reply)]
  }

  lemma ReportsAreOwn(id: nat, checks: Checks, receipts: seq<(string, string)>, reply: Reply)
    ensures Own(id, [Dispatch(id, checks)] + Reports(id, receipts, reply))
    ensures Unpublished([Dispatch(id, checks)] + Reports(id, receipts, reply))
  {
  }

  /** What the worker does between the start and the closing append. */
  function Called(id: nat, checks: Checks, receipts: seq<(string, string)>, reply: Reply): seq<Step> {
    [Refuse(id, checks)] + ([Dispatch(id, checks)] + Reports(id, receipts, reply))
  }

  lemma CalledIsOwn(id: nat, checks: Checks, receipts: seq<(string, string)>, reply: Reply)
    ensures var called := Called(id, checks, receipts, reply);
            && Own(id, called) && Unpublished(called)
            && Own(id, [Start(id, Delivered)] + called) && Unpublished([Start(id, Delivered)] + called)
  {
    hide Reports;
    ReportsAreOwn(id, checks, receipts, reply);
    OwnFirst(id, Refuse(id, checks), [Dispatch(id, checks)] + Reports(id, receipts, reply));
    OwnFirst(id, Start(id, Delivered), Called(id, checks, receipts, reply));
  }

  /** What the worker does between the claim and the closing append. */
  function Attended(id: nat, checks: Checks, receipts: seq<(string, string)>, reply: Reply): seq<Step> {
    [Recover(id, checks)] + ([Start(id, Delivered)] + Called(id, checks, receipts, reply))
  }

  lemma ScriptParts(id: nat, seen: int, owner: string, checks: Checks, receipts: seq<(string, string)>, reply: Reply)
    ensures var rest := Attended(id, checks, receipts, reply) + [Publish(id, Delivered)];
            && Script(id, seen, owner, checks, receipts, reply) == [Claim(id, seen, owner)] + rest
            && Own(id, rest)
  {
    CalledIsOwn(id, checks, receipts, reply);
    OwnFirst(id, Recover(id, checks), [Start(id, Delivered)] + Called(id, checks, receipts, reply));
    var attended := Attended(id, checks, receipts, reply);
    assert Own(id, attended + [Publish(id, Delivered)]) by {
      hide Attended;
      assert Own(id, attended);
    }
  }

  lemma {:induction false} Idle(setting: Setting, s: State, id: nat, steps: seq<Step>)
    requires id !in s.workers || s.workers[id].phase.Gone? || s.workers[id].phase.Closing?
    requires Own(id, steps) && (id in s.workers && s.workers[id].phase.Closing? ==> Unpublished(steps))
    ensures Play(setting, s, steps) == s
    decreases |steps|
  {
    if steps != [] {
      assert Apply(setting, s, steps[0]) == s;
      Idle(setting, s, id, steps[1..]);
    }
  }

  /** A fresh run, undisturbed, ends with what its one call answered. */
  lemma UndisturbedRunPublishes(setting: Setting, s: State, id: nat, owner: string, checks: Checks, result: string)
    requires Fresh(s) && setting.prior.None? && owner != "" && s.run.lease.None? && !s.run.resumed
    requires s.run.revision < MAX_INT64 - 2
    ensures var s' := Play(setting, s, Script(id, s.run.revision, owner, checks, [], Answered(result)));
            && s'.effects == [id]
            && s'.published == Some(Publication(id, None, Succeed(result)))
            && s'.run.status == Finished
  {
    hide Play, Recovery, Finishing, Fresh;
    var claim := Claim(id, s.run.revision, owner);
    var rest := [Refuse(id, checks)] + ([Dispatch(id, checks)] + ([Return(id, Answered(result))] + ([Publish(id, Delivered)] + [])));
    assert Script(id, s.run.revision, owner, checks, [], Answered(result))
        == [claim] + ([Recover(id, checks)] + ([Start(id, Delivered)] + rest));
    var s' := Begins(setting, s, id, owner, checks, rest);
    Finishes(setting, s', id, checks, result);
  }

  /** A started run whose one worker is about to call. */
  ghost predicate Finishing(s: State, id: nat) {
    && id in s.workers && s.workers[id].phase == Started && s.effects == []
    && Journaled(s.run) && |s.run.journal| == 1 && !TerminalStatus(s.run.status) && !s.run.resumed
    && s.workers[id].base == s.run.revision < MAX_INT64 && MayWrite(s.run, s.now, s.workers[id].owner)
  }

  lemma Begins(setting: Setting, s: State, id: nat, owner: string, checks: Checks, rest: seq<Step>) returns (s': State)
    requires Fresh(s) && owner != "" && s.run.lease.None? && !s.run.resumed
    requires s.run.revision < MAX_INT64 - 2
    ensures Play(setting, s, [Claim(id, s.run.revision, owner)] + ([Recover(id, checks)] + ([Start(id, Delivered)] + rest)))
         == Play(setting, s', rest)
    ensures Finishing(s', id)
  {
    hide Play, Recovery, Save;
    var claim, start := Claim(id, s.run.revision, owner), Start(id, Delivered);
    PlayFirst(setting, s, claim, [Recover(id, checks)] + ([start] + rest));
    Reclaims(s.run, s.now, owner);
    var claimed := Apply(setting, s, claim);
    assert claimed.workers[id].phase == Ready && claimed.workers[id].sequence == 0;
    PlayFirst(setting, claimed, Recover(id, checks), [start] + rest);
    PlayFirst(setting, claimed, start, rest);
    StartSaves(claimed.run, claimed.thread, claimed.now, claimed.workers[id]);
    s' := Apply(setting, claimed, start);
  }

  lemma StartSaves(run: Run<Pending>, thread: Thread, now: int, w: Worker)
    requires Journaled(run) && run.journal == [] && !run.resumed && w.base == run.revision < MAX_INT64 && MayWrite(run, now, w.owner)
    ensures var saved := Save(run, thread, now, w, [RunStarted(run.threadId, run.runId)]);
            && saved.Ok? && saved.value.revision == run.revision + 1 && Journaled(saved.value) && saved.value.status == Status.Running
            && saved.value.journal == [RunStarted(run.threadId, run.runId)] && saved.value.lease == run.lease && !saved.value.resumed
            && saved.value.threadId == run.threadId && saved.value.runId == run.runId
  {
    var started := RunStarted(run.threadId, run.runId);
    assert Lifecycle(run, 0, run.status, [started]) == Ok(Status.Running) by {
      assert [started][1..] == [];
    }
    AppendKeepsJournal(run, thread, now, w.base, [started], Change(w.owner, Some(w.pending), None, None, 0));
    assert [] + [started] == [started];
  }

  lemma Finishes(setting: Setting, s: State, id: nat, checks: Checks, result: string)
    requires setting.prior.None? && Finishing(s, id)
    ensures var s' := Play(setting, s, [Refuse(id, checks)] + ([Dispatch(id, checks)]
                           + ([Return(id, Answered(result))] + ([Publish(id, Delivered)] + []))));
            && s'.effects == [id] && s'.published == Some(Publication(id, None, Succeed(result))) && s'.run.status == Finished
  {
    hide Play, Save, Recovery;
    PlayFirst(setting, s, Refuse(id, checks), [Dispatch(id, checks)] + ([Return(id, Answered(result))] + ([Publish(id, Delivered)] + [])));
    PlayFirst(setting, s, Dispatch(id, checks), [Return(id, Answered(result))] + ([Publish(id, Delivered)] + []));
    var t := Apply(setting, s, Dispatch(id, checks));
    PlayFirst(setting, t, Return(id, Answered(result)), [Publish(id, Delivered)] + []);
    var u := Apply(setting, t, Return(id, Answered(result)));
    assert u.workers[id].phase == Closing(None, Succeed(result));
    PlayFirst(setting, u, Publish(id, Delivered), []);
    ClosingSaves(u.run, u.thread, u.now, u.workers[id], Succeed(result));
    ClosedAs(u.run, u.thread, u.now, u.workers[id], Succeed(result));
    PlayNothing(setting, Apply(setting, u, Publish(id, Delivered)));
  }

  lemma ClosedAs(run: Run<Pending>, thread: Thread, now: int, w: Worker, ending: Ending)
    requires Journaled(run)
    ensures var saved := Save(run, thread, now, w, [EventOf(run, ending)]);
            saved.Ok? ==> saved.value.status == StatusAfter(EventOf(run, ending))
  {
    var e := EventOf(run, ending);
    if Save(run, thread, now, w, [e]).Ok? {
      LifecycleShape(run, run.LastSequence(), run.status, [e]);
    }
  }

  class Attempt {
    const setting: Setting
    const store: JournalStore<Pending>
    var self: Worker

    constructor (setting: Setting, store: JournalStore<Pending>)
      ensures this.setting == setting && this.store == store && self.phase == Gone
    {
      this.setting, this.store := setting, store;
      self := Worker("", 0, 0, 0, NOTHING, Gone);
    }

    /** appendEvents */
    method AppendEvents(now: int, events: seq<Event>) returns (ok: bool)
      modifies this, store
      ensures var saved := Save(old(store.run), old(store.thread), now, old(self), events);
              && ok == saved.Ok?
              && store.run == (if ok then saved.value else old(store.run))
              && store.thread == old(store.thread)
              && self == After(old(self), Delivered, saved, old(self).phase, old(self).phase)
    {
      hide Lifecycle;
      var next := store.Append(now, self.base, events, Change(self.owner, Some(self.pending), None, None, 0));
      ok := next.Ok?;
      if ok {
        self := self.(base := next.value.revision);
      }
    }

    /** The recorder handed to the native call. */
    method Note(now: int, native: string, result: string) returns (ok: bool)
      modifies this, store
      ensures var noted := Receipt(setting, old(self), native, result);
              var saved := Save(old(store.run), old(store.thread), now, noted, []);
              && store.thread == old(store.thread)
              && ok == (Recordable(setting, native) && saved.Ok?)
              && store.run == (if ok then saved.value else old(store.run))
              && self == if Recordable(setting, native) then After(noted, Delivered, saved, noted.phase, noted.phase) else old(self)
    {
      if native == "" {
        return false;
      }
      if setting.prior.Some? {
        var previous := setting.prior.value;
        if previous.None? || |previous.value.questions| != 1 || previous.value.questions[0].toolCall != Some(native) {
          return false;
        }
      }
      self := self.(pending := self.pending.(hostResult := result, nativeTurn := setting.turn, nativeOperation := native));
      ok := AppendEvents(now, []);
    }

    /** The closing append; whatever it returns, the worker is done. */
    method Close(now: int, ending: Ending) returns (ok: bool)
      requires self.phase.Closing? && self.phase.ending == ending
      modifies this, store
      ensures var saved := Save(old(store.run), old(store.thread), now, old(self), [EventOf(old(store.run), ending)]);
              && ok == saved.Ok?
              && store.run == (if ok then saved.value else old(store.run))
              && store.thread == old(store.thread)
    {
      var events := match ending
        case Succeed(result) => [RunFinished(store.run.threadId, store.run.runId, Outcome.Success, result)]
        case Fail(message) => [RunError(message)]
        case Queue(question) => [RunFinished(store.run.threadId, store.run.runId, Outcome.Interrupt, question.id)];
      ok := AppendEvents(now, events);
    }

    /** runAGUIMCPProxyWorker, undisturbed: it is the run of the protocol its script spells out. */
    method Work(ghost s: State, id: nat, now: int, seen: int, owner: string, checks: Checks,
                receipts: seq<(string, string)>, reply: Reply)
      requires s.run == store.run && s.thread == store.thread && s.now == now && id !in s.workers
      requires Fits(setting, reply)
      modifies this, store
      ensures store.run == Play(setting, s, Script(id, seen, owner, checks, receipts, reply)).run
      ensures store.thread == old(store.thread)
    {
      hide ClaimOn, Save, Recovery, Refusal, Recordable, Play;
      hide Script, Attended, Own, Records;
      ghost var work := Attended(id, checks, receipts, reply);
      ScriptParts(id, seen, owner, checks, receipts, reply);
      PlayFirst(setting, s, Claim(id, seen, owner), work + [Publish(id, Delivered)]);
      ghost var t := Apply(setting, s, Claim(id, seen, owner));
      var claimed := store.Claim(now, seen, owner, MINUTE);
      if claimed.Err? {
        Idle(setting, t, id, work + [Publish(id, Delivered)]);
        return;
      }
      Granted(s.run, now, seen, owner);
      self := Join(claimed.value, seen, owner);
      PlayConcat(setting, t, work, [Publish(id, Delivered)]);
      t := Attend(t, id, now, checks, receipts, reply);
      PlayOne(setting, t, Publish(id, Delivered));
      if self.phase.Closing? {
        var _ := Close(now, self.phase.ending);
      }
    }

    /** Everything between the claim and the closing append: a started run is recovered, a new
        one is started. */
    method Attend(ghost t: State, id: nat, now: int, checks: Checks, receipts: seq<(string, string)>, reply: Reply)
      returns (ghost last: State)
      requires At(t, id, now) && self.phase == Ready && Fits(setting, reply)
      modifies this, store
      ensures last == Play(setting, t, Attended(id, checks, receipts, reply))
      ensures At(last, id, now) && store.thread == old(store.thread) && (self.phase.Closing? || self.phase.Gone?)
    {
      hide Save, Recovery, Refusal, Recordable, Play;
      hide Called, Own, Unpublished, Records;
      ghost var rest := Called(id, checks, receipts, reply);
      CalledIsOwn(id, checks, receipts, reply);
      last := Apply(setting, t, Recover(id, checks));
      PlayFirst(setting, t, Recover(id, checks), [Start(id, Delivered)] + rest);
      if self.sequence > 0 {
        self := self.(phase := Closing(Some(checks), Recovery(setting, self.pending, checks)));
        Idle(setting, last, id, [Start(id, Delivered)] + rest);
        return;
      }
      PlayFirst(setting, last, Start(id, Delivered), rest);
      last := Begin(last, id, now);
      if self.phase.Gone? {
        Idle(setting, last, id, rest);
        return;
      }
      last := Proceed(last, id, now, checks, receipts, reply);
    }

    ghost predicate At(s: State, id: nat, now: int)
      reads this, store
    {
      s.run == store.run && s.thread == store.thread && s.now == now && id in s.workers && s.workers[id] == self
    }

    method Begin(ghost t: State, id: nat, now: int) returns (ghost last: State)
      requires At(t, id, now) && self.phase == Ready && self.sequence == 0
      modifies this, store
      ensures last == Apply(setting, t, Start(id, Delivered))
      ensures At(last, id, now) && store.thread == old(store.thread) && (self.phase.Started? || self.phase.Gone?)
    {
      hide Save;
      last := Apply(setting, t, Start(id, Delivered));
      var started := AppendEvents(now, [RunStarted(store.run.threadId, store.run.runId)]);
      self := self.(phase := if started then Started else Gone);
    }

    /** From a committed start: give up before the call, or make it and weigh its reply. */
    method Proceed(ghost t: State, id: nat, now: int, checks: Checks, receipts: seq<(string, string)>, reply: Reply)
      returns (ghost last: State)
      requires At(t, id, now) && self.phase == Started && Fits(setting, reply)
      modifies this, store
      ensures last == Play(setting, t, Called(id, checks, receipts, reply))
      ensures At(last, id, now) && store.thread == old(store.thread) && self.phase.Closing?
    {
      hide Save, Refusal, Recordable, Play, Own, Unpublished, Records;
      ghost var after := Reports(id, receipts, reply);
      ReportsAreOwn(id, checks, receipts, reply);
      PlayFirst(setting, t, Refuse(id, checks), [Dispatch(id, checks)] + after);
      last := Apply(setting, t, Refuse(id, checks));
      var refusal := Refusal(setting, checks);
      if refusal.Some? {
        self := self.(phase := Closing(None, Fail(refusal.value)));
        Idle(setting, last, id, [Dispatch(id, checks)] + after);
        return;
      }
      PlayFirst(setting, last, Dispatch(id, checks), after);
      last := Apply(setting, last, Dispatch(id, checks));
      self := self.(phase := Calling);
      PlayConcat(setting, last, Records(id, receipts), [Return(id, reply)]);
      last := Call(last, id, now, receipts);
      PlayOne(setting, last, Return(id, reply));
      last := Apply(setting, last, Return(id, reply));
      self := self.(pending := PendingAfter(self.pending, reply), phase := Closing(None, Conclude(self.pending, reply)));
    }

    /** The native call, reporting its receipts through the recorder. */
    method Call(ghost t: State, id: nat, now: int, receipts: seq<(string, string)>) returns (ghost last: State)
      requires t.run == store.run && t.thread == store.thread && t.now == now
      requires id in t.workers && t.workers[id] == self && self.phase == Calling
      modifies this, store
      ensures last == Play(setting, t, Records(id, receipts))
      ensures store.run == last.run && store.thread == last.thread == old(store.thread) && last.now == now
      ensures id in last.workers && last.workers[id] == self && self.phase == Calling
    {
      hide Save, Recordable, Play;
      last := t;
      assert Records(id, receipts)[..0] == [];
      PlayNothing(setting, t);
      for i := 0 to |receipts|
        invariant last == Play(setting, t, Records(id, receipts)[..i])
        invariant store.run == last.run && store.thread == last.thread == old(store.thread) && last.now == now
        invariant id in last.workers && last.workers[id] == self && self.phase == Calling
      {
        ghost var step := Record(id, receipts[i].0, receipts[i].1, Delivered);
        assert Records(id, receipts)[..i + 1] == Records(id, receipts)[..i] + [step];
        PlayNext(setting, t, Records(id, receipts)[..i], step);
        last := Apply(setting, last, step);
        var _ := Note(now, receipts[i].0, receipts[i].1);
      }
      assert Records(id, receipts)[..|receipts|] == Records(id, receipts);
    }
  }
}