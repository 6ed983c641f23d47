/** Optimistic shared-state commands: sdk/agui_state_commands.go.

    Any number of workers run state.get and state.patch commands against one thread, each under
    its own run, while others write the thread's messages and replace its state. Each attempt
    reads the run, reads the thread, and appends under the revisions it read. */
module StateCommand {
  import opened Common
  import opened RunStore

  datatype Command = Command(patches: bool, patch: string, ifMatch: string)

  /** The patch library, the hash of a canonical state, and the accepted command of each run.
      States are canonical JSON; the functions have no result on text they cannot read. */
  datatype World = World(patcher: (string, string) -> Option<string>, digest: string -> Option<string>,
                         commands: map<string, Command>)

  datatype Failure = Clash | Broken

  /** What one attempt is about to append. */
  datatype Draft = Draft(before: string, after: string, hash: string)

  const ATTEMPTS := 8

  type Record = Run<()>

  // ---------- one attempt ----------

  function After(world: World, command: Command, state: string): Option<string> {
    if command.patches then world.patcher(state, command.patch) else Some(state)
  }

  /** From the thread's state to a draft: only the state of the first attempt is acceptable. */
  function Prepare(world: World, command: Command, baseline: string, state: string): Result<Draft, Failure> {
    match world.digest(state)
    case None => Err(Broken)
    case Some(hash) =>
      if baseline != "" && baseline != hash then Err(Clash)
      else if command.ifMatch != "" && command.ifMatch != hash then Err(Clash)
      else
        var next := After(world, command, state);
        if next.None? || world.digest(next.value).None? then Err(Broken)
        else Ok(Draft(state, next.value, world.digest(next.value).value))
  }

  function Snapshot(state: string): Event { Progress("STATE_SNAPSHOT", state, "") }
  function Delta(patch: string): Event { Progress("STATE_DELTA", patch, "") }
  function Report(draft: Draft): Event { Progress("agently.state.result", draft.after, draft.hash) }

  function Story(record: Record, command: Command, draft: Draft): seq<Event> {
    [Snapshot(draft.before)] + (if command.patches then [Delta(command.patch)] else [])
    + [Report(draft), RunFinished(record.threadId, record.runId, Success, "")]
  }

  function Events(record: Record, command: Command, draft: Draft): seq<Event> {
    (if record.LastSequence() == 0 then [RunStarted(record.threadId, record.runId)] else []) + Story(record, command, draft)
  }

  function OwnerOf(record: Record): string {
    if record.lease.Some? then record.lease.value.owner else ""
  }

  function ChangeOf(record: Record, command: Command, draft: Draft, seen: Thread): Change<()> {
    Change(OwnerOf(record), None, if command.patches then Some(draft.after) else None, None,
           if command.patches then seen.revision else 0)
  }

  // ---------- the protocol ----------

  datatype Phase =
    | Looking
    | Reading
    | Writing(seen: Thread, draft: Draft)
    | Completed
    | Failing(failure: Failure)
    | Gone

  /** `record` is the run as the worker received it, `first` the state its first attempt read. */
  datatype Worker = Worker(run: string, record: Record, attempt: nat, baseline: string, first: string, phase: Phase)

  /** The writes of the shared state, in commit order. */
  datatype Entry =
    | Patched(run: string, before: string, after: string)
    | Replaced(before: string, after: string)

  datatype Delivery = Delivered | RequestLost | ReplyLost

  /** The rows, the workers, and what an observer has seen: every write of the state since it was
      `initial`, and the draft each run committed. */
  datatype State = State(now: int, thread: Thread, runs: map<string, Record>, workers: map<nat, Worker>,
                         initial: string, log: seq<Entry>, commits: map<string, Draft>)

  datatype Step =
    | Wait(ticks: nat)
    | Chat(messages: string)
    | Replace(state: string)
    | Lend(run: string, seen: int, owner: string, ttl: int)
    | Begin(id: nat, run: string)
    | Look(id: nat)
    | Read(id: nat)
    | Write(id: nat, delivery: Delivery)
    | Abort(id: nat, message: string)
    | Crash(id: nat)

  /** `Chat` and `Replace` are other writers of the thread, `Lend` a claim of a run's lease. */
  function Apply(world: World, s: State, step: Step): State {
    match step
    case Wait(ticks) => s.(now := s.now + ticks)
    case Chat(messages) => s.(thread := Thread(s.thread.revision + 1, s.thread.state, messages))
    case Replace(state) =>
      s.(thread := Thread(s.thread.revision + 1, state, s.thread.messages), log := s.log + [Replaced(s.thread.state, state)])
    case Lend(run, seen, owner, ttl) =>
      if run !in s.runs then s else
        var claimed := ClaimOn(s.runs[run], s.now, seen, owner, ttl);
        if claimed.Err? then s else s.(runs := s.runs[run := claimed.value])
    case Begin(id, run) =>
      if id in s.workers || run !in s.runs || run !in world.commands then s
      else s.(workers := s.workers[id := Worker(run, s.runs[run], 0, "", "", Looking)])
    case _ =>
      if step.id !in s.workers || s.workers[step.id].run !in s.runs || s.workers[step.id].run !in world.commands then s
      else ApplyTo(world, s, step, s.workers[step.id])
  }

  function Moved(s: State, id: nat, w: Worker, phase: Phase): State {
    s.(workers := s.workers[id := w.(phase := phase)])
  }

  /** The attempt's look at its run: a finished run is done, a foreign one is not touched. */
  function Looked(latest: Record, record: Record): Phase {
    if latest.status == Finished then Completed
    else if latest.revision != record.revision || OwnerOf(latest) != OwnerOf(record) then Failing(Clash)
    else Reading
  }

  /** Its look at the thread. */
  function Taken(world: World, w: Worker, command: Command, thread: Thread): Worker {
    var prepared := Prepare(world, command, w.baseline, thread.state);
    var base := world.digest(thread.state);
    w.(phase := if prepared.Ok? then Writing(thread, prepared.value) else Failing(prepared.error),
       first := if w.baseline == "" then thread.state else w.first,
       baseline := if w.baseline == "" && base.Some? then base.value else w.baseline)
  }

  /** After an unsuccessful write: a conflict is retried while attempts are left. */
  function Retried(w: Worker, error: StoreError): Worker {
    if error != Conflict then w.(phase := Failing(Broken))
    else if w.attempt + 1 < ATTEMPTS then w.(attempt := w.attempt + 1, phase := Looking)
    else w.(attempt := w.attempt + 1, phase := Failing(Clash))
  }

  function Saved(world: World, s: State, w: Worker, seen: Thread, draft: Draft): Result<(Record, Thread), StoreError>
    requires w.run in s.runs && w.run in world.commands
  {
    var command := world.commands[w.run];
    AppendTo(s.runs[w.run], s.thread, s.now, w.record.revision, Events(w.record, command, draft), ChangeOf(w.record, command, draft, seen))
  }

  function Committed(world: World, s: State, run: string, rows: (Record, Thread), draft: Draft): State
    requires run in world.commands
  {
    s.(runs := s.runs[run := rows.0], thread := rows.1, commits := s.commits[run := draft],
       log := if world.commands[run].patches then s.log + [Patched(run, draft.before, draft.after)] else s.log)
  }

  function ApplyTo(world: World, s: State, step: Step, w: Worker): State
    requires step.Look? || step.Read? || step.Write? || step.Abort? || step.Crash?
    requires w.run in s.runs && w.run in world.commands
  {
    match step
    case Look(id) => if w.phase != Looking then s else Moved(s, id, w, Looked(s.runs[w.run], w.record))
    case Read(id) =>
      if w.phase != Reading then s
      else s.(workers := s.workers[id := Taken(world, w, world.commands[w.run], s.thread)])
    case Write(id, delivery) =>
      if !w.phase.Writing? then s else
        var saved := Saved(world, s, w, w.phase.seen, w.phase.draft);
        if delivery == RequestLost then Moved(s, id, w, Failing(Broken))
        else if saved.Err? then s.(workers := s.workers[id := Retried(w, saved.error)])
        else
          Committed(world, Moved(s, id, w, if delivery == Delivered then Completed else Failing(Broken)),
                    w.run, saved.value, w.phase.draft)
    case Abort(id, message) =>
      if !w.phase.Failing? then s else
        var events := (if w.record.LastSequence() == 0 then [RunStarted(w.record.threadId, w.record.runId)] else []) + [RunError(message)];
        var saved := AppendTo(s.runs[w.run], s.thread, s.now, w.record.revision, events, Change(OwnerOf(w.record), None, None, None, 0));
        var s' := Moved(s, id, w, Gone);
        if saved.Ok? then s'.(runs := s.runs[w.run := saved.value.0]) else s'
    case Crash(id) => Moved(s, id, w, Gone)
  }

  function Play(world: World, s: State, steps: seq<Step>): State
    decreases |steps|
  {
    if steps == [] then s else Play(world, Apply(world, s, steps[0]), steps[1..])
  }

  /** No command has run, nothing has been written. */
  ghost predicate Fresh(s: State) {
    && s.thread.state == s.initial && s.log == [] && s.commits == map[] && s.workers == map[]
    && forall id | id in s.runs :: Journaled(s.runs[id]) && s.runs[id].runId == id && s.runs[id].status != Finished
  }

  // ---------- what every step keeps ----------

  predicate Matches(command: Command, hash: Option<string>) {
    hash.Some? && (command.ifMatch == "" || hash == Some(command.ifMatch))
  }

  /** A draft the command may commit. */
  predicate Justified(world: World, command: Command, draft: Draft) {
    && Matches(command, world.digest(draft.before))
    && After(world, command, draft.before) == Some(draft.after)
    && world.digest(draft.after) == Some(draft.hash)
  }

  /** The log leads from `initial` to `state`, each write starting from what the one before left. */
  ghost predicate Chained(initial: string, log: seq<Entry>, state: string) {
    && (log == [] ==> state == initial)
    && (log != [] ==> log[0].before == initial && log[|log| - 1].after == state)
    && forall i | 0 < i < |log| :: log[i].before == log[i - 1].after
  }

  ghost predicate RunInv(world: World, s: State, id: string, run: Record) {
    && Journaled(run) && run.runId == id
    && (run.status == Finished <==> id in s.commits)
    && (id in s.commits ==>
          && id in world.commands && Justified(world, world.commands[id], s.commits[id])
          && EndsWith(run.journal, Story(run, world.commands[id], s.commits[id]))
          && (world.commands[id].patches ==> Patched(id, s.commits[id].before, s.commits[id].after) in s.log))
  }

  predicate EndsWith(journal: seq<Event>, story: seq<Event>) {
    |story| <= |journal| && journal[|journal| - |story|..] == story
  }

  ghost predicate WorkerInv(world: World, s: State, w: Worker) {
    && w.run in s.runs && w.run in world.commands
    && w.record.runId == w.run && w.record.threadId == s.runs[w.run].threadId
    && (w.baseline != "" ==> world.digest(w.first) == Some(w.baseline))
    && (w.phase.Writing? ==>
          && w.phase.seen.revision <= s.thread.revision
          && (w.phase.seen.revision == s.thread.revision ==> w.phase.seen.state == s.thread.state)
          && w.phase.draft.before == w.phase.seen.state
          && Justified(world, world.commands[w.run], w.phase.draft)
          && world.digest(w.phase.draft.before) == world.digest(w.first))
  }

  ghost predicate LogInv(world: World, s: State) {
    && Chained(s.initial, s.log, s.thread.state)
    && (forall i | 0 <= i < |s.log| && s.log[i].Patched? ::
          && s.log[i].run in s.commits && s.log[i].run in s.runs
          && s.commits[s.log[i].run].before == s.log[i].before && s.commits[s.log[i].run].after == s.log[i].after
          && s.log[i].run in world.commands && world.commands[s.log[i].run].patches)
    && (forall i, j | 0 <= i < j < |s.log| && s.log[i].Patched? && s.log[j].Patched? :: s.log[i].run != s.log[j].run)
  }

  ghost predicate Inv(world: World, s: State) {
    && LogInv(world, s)
    && (forall id | id in s.runs :: RunInv(world, s, id, s.runs[id]))
    && (forall id | id in s.workers :: WorkerInv(world, s, s.workers[id]))
  }

  /** A step that keeps the runs' names, extends the log and moves the thread forward. */
  ghost predicate Forward(s: State, s': State) {
    && s.log <= s'.log
    && (s'.thread == s.thread || s'.thread.revision > s.thread.revision)
    && forall k | k in s.runs :: k in s'.runs && s'.runs[k].threadId == s.runs[k].threadId && s'.runs[k].runId == s.runs[k].runId
  }

  lemma RunStays(world: World, s: State, s': State, id: string, run: Record)
    requires RunInv(world, s, id, run) && Forward(s, s')
    requires id in s.commits <==> id in s'.commits
    requires id in s.commits ==> s'.commits[id] == s.commits[id]
    ensures RunInv(world, s', id, run)
  {
    hide Story, EndsWith, Justified, Journaled;
    if id in s.commits && world.commands[id].patches {
      var entry := Patched(id, s.commits[id].before, s.commits[id].after);
      var i :| 0 <= i < |s.log| && s.log[i] == entry;
      assert s'.log[i] == entry;
    }
  }

  lemma WorkerStays(world: World, s: State, s': State, w: Worker)
    requires WorkerInv(world, s, w) && Forward(s, s')
    ensures WorkerInv(world, s', w)
  {
    hide Justified;
  }

  /** A step that moves one worker and nothing else. */
  lemma MoveKeeps(world: World, s: State, id: nat, w: Worker)
    requires Inv(world, s) && WorkerInv(world, s, w)
    ensures Inv(world, s.(workers := s.workers[id := w]))
  {
    hide WorkerInv, RunInv, Chained;
    var s' := s.(workers := s.workers[id := w]);
    assert LogInv(world, s');
    forall k | k in s'.runs ensures RunInv(world, s', k, s'.runs[k]) {
      RunStays(world, s, s', k, s.runs[k]);
    }
    forall k | k in s'.workers ensures WorkerInv(world, s', s'.workers[k]) {
      WorkerStays(world, s, s', if k == id then w else s.workers[k]);
    }
  }

  /** A step that replaces one run by one with the same names and no new commit. */
  lemma RunMoves(world: World, s: State, id: string, run: Record)
    requires Inv(world, s) && id in s.runs
    requires run.threadId == s.runs[id].threadId && run.runId == s.runs[id].runId
    requires RunInv(world, s, id, run)
    ensures Inv(world, s.(runs := s.runs[id := run]))
  {
    hide WorkerInv, RunInv, Chained;
    var s' := s.(runs := s.runs[id := run]);
    assert LogInv(world, s');
    forall k | k in s'.runs ensures RunInv(world, s', k, s'.runs[k]) {
      RunStays(world, s, s', k, if k == id then run else s.runs[k]);
    }
    forall k | k in s'.workers ensures WorkerInv(world, s', s'.workers[k]) {
      WorkerStays(world, s, s', s.workers[k]);
    }
  }

  lemma ThreadKeeps(world: World, s: State, step: Step)
    requires Inv(world, s) && (step.Wait? || step.Chat? || step.Replace?)
    ensures Inv(world, Apply(world, s, step))
  {
    hide WorkerInv, RunInv;
    var s' := Apply(world, s, step);
    assert LogInv(world, s');
    forall k | k in s'.runs ensures RunInv(world, s', k, s'.runs[k]) {
      RunStays(world, s, s', k, s.runs[k]);
    }
    forall k | k in s'.workers ensures WorkerInv(world, s', s'.workers[k]) {
      WorkerStays(world, s, s', s.workers[k]);
    }
  }

  lemma LendKeeps(world: World, s: State, run: string, seen: int, owner: string, ttl: int)
    requires Inv(world, s)
    ensures Inv(world, Apply(world, s, Lend(run, seen, owner, ttl)))
  {
    hide WorkerInv, LogInv, Justified, EndsWith;
    if run in s.runs && ClaimOn(s.runs[run], s.now, seen, owner, ttl).Ok? {
      assert RunInv(world, s, run, s.runs[run]);
      var claimed := ClaimOn(s.runs[run], s.now, seen, owner, ttl).value;
      assert claimed == s.runs[run].(lease := claimed.lease);
      RunMoves(world, s, run, claimed);
    }
  }

  lemma BeginKeeps(world: World, s: State, id: nat, run: string)
    requires Inv(world, s)
    ensures Inv(world, Apply(world, s, Begin(id, run)))
  {
    hide LogInv, Justified, EndsWith, Story;
    if id !in s.workers && run in s.runs && run in world.commands {
      assert RunInv(world, s, run, s.runs[run]);
      MoveKeeps(world, s, id, Worker(run, s.runs[run], 0, "", "", Looking));
    }
  }

  lemma QuietKeeps(world: World, s: State, step: Step, w: Worker)
    requires Inv(world, s) && (step.Look? || step.Read? || step.Crash?)
    requires step.id in s.workers && s.workers[step.id] == w
    ensures w.run in s.runs && w.run in world.commands
    ensures Inv(world, ApplyTo(world, s, step, w))
  {
    assert WorkerInv(world, s, w);
    assert w.run in s.runs && w.run in world.commands;
    hide Inv;
    match step
    case Look(id) => MoveKeeps(world, s, id, w.(phase := if w.phase == Looking then Looked(s.runs[w.run], w.record) else w.phase));
      assert s.workers == s.workers[id := w];
    case Read(id) =>
      if w.phase == Reading {
        MoveKeeps(world, s, id, Taken(world, w, world.commands[w.run], s.thread));
      }
    case Crash(id) => MoveKeeps(world, s, id, w.(phase := Gone));
  }

  lemma AbortKeeps(world: World, s: State, id: nat, message: string, w: Worker)
    requires Inv(world, s) && id in s.workers && s.workers[id] == w
    ensures w.run in s.runs && w.run in world.commands
    ensures Inv(world, ApplyTo(world, s, Abort(id, message), w))
  {
    assert WorkerInv(world, s, w);
    hide LogInv, AppendTo, Story, EndsWith, Justified;
    if w.phase.Failing? {
      var run := s.runs[w.run];
      assert RunInv(world, s, w.run, run);
      var events := (if w.record.LastSequence() == 0 then [RunStarted(w.record.threadId, w.record.runId)] else []) + [RunError(message)];
      AppendGives(run, s.thread, s.now, w.record.revision, events, Change(OwnerOf(w.record), None, None, None, 0));
      MoveKeeps(world, s, id, w.(phase := Gone));
      var s' := Moved(s, id, w, Gone);
      var saved := AppendTo(run, s.thread, s.now, w.record.revision, events, Change(OwnerOf(w.record), None, None, None, 0));
      if saved.Ok? {
        RunMoves(world, s', w.run, saved.value.0);
      }
    }
  }

  /** What a successful append leaves of the run. */
  lemma AppendGives(run: Record, thread: Thread, now: int, expected: int, events: seq<Event>, change: Change<()>)
    requires Journaled(run) && events != [] && TerminalEvent(events[|events| - 1])
    ensures var saved := AppendTo(run, thread, now, expected, events, change);
            saved.Ok? ==>
              && Journaled(saved.value.0) && !TerminalStatus(run.status)
              && saved.value.0.runId == run.runId && saved.value.0.threadId == run.threadId
              && saved.value.0.journal == run.journal + events
              && saved.value.0.status == StatusAfter(events[|events| - 1])
              && (change.state.Some? ==>
                    && thread.revision == change.expectedThreadRevision
                    && saved.value.1 == Thread(thread.revision + 1, change.state.value, saved.value.1.messages))
              && (change.state.None? && change.messages.None? ==> saved.value.1 == thread)
  {
    var saved := AppendTo(run, thread, now, expected, events, change);
    if saved.Ok? {
      AppendKeepsJournal(run, thread, now, expected, events, change);
      LifecycleShape(run, run.LastSequence(), run.status, events);
    }
  }

  lemma StoryEnds(record: Record, command: Command, draft: Draft, journal: seq<Event>)
    ensures var events := Events(record, command, draft);
            && events != [] && events[|events| - 1] == RunFinished(record.threadId, record.runId, Success, "")
            && EndsWith(journal + events, Story(record, command, draft))
  {
    var events, story := Events(record, command, draft), Story(record, command, draft);
    var whole := journal + events;
    assert whole[|whole| - |story|..] == story;
  }

  lemma WriteKeeps(world: World, s: State, id: nat, delivery: Delivery, w: Worker)
    requires Inv(world, s) && id in s.workers && s.workers[id] == w
    ensures w.run in s.runs && w.run in world.commands
    ensures Inv(world, ApplyTo(world, s, Write(id, delivery), w))
  {
    assert WorkerInv(world, s, w);
    assert w.run in s.runs && w.run in world.commands;
    hide Saved, Inv, WorkerInv, Committed;
    if w.phase.Writing? {
      var saved := Saved(world, s, w, w.phase.seen, w.phase.draft);
      if delivery == RequestLost {
        MoveKeeps(world, s, id, w.(phase := Failing(Broken)));
      } else if saved.Err? {
        MoveKeeps(world, s, id, Retried(w, saved.error));
      } else {
        CommitKeeps(world, s, id, w, if delivery == Delivered then Completed else Failing(Broken));
      }
    }
  }

  /** The commit itself: what the append does to the run, the log and the thread. */
  lemma CommitKeeps(world: World, s: State, id: nat, w: Worker, phase: Phase)
    requires Inv(world, s) && id in s.workers && s.workers[id] == w && w.phase.Writing? && !phase.Writing?
    requires w.run in s.runs && w.run in world.commands
    requires Saved(world, s, w, w.phase.seen, w.phase.draft).Ok?
    ensures Inv(world, Committed(world, Moved(s, id, w, phase), w.run,
                                 Saved(world, s, w, w.phase.seen, w.phase.draft).value, w.phase.draft))
  {
    assert WorkerInv(world, s, w);
    hide RunInv, LogInv, WorkerInv, Saved, Justified, Story, EndsWith, Journaled;
    var command, draft, run := world.commands[w.run], w.phase.draft, s.runs[w.run];
    var rows := Saved(world, s, w, w.phase.seen, draft).value;
    SavedGives(world, s, w);
    MovedWorker(world, s, w, phase);
    MoveKeeps(world, s, id, w.(phase := phase));
    CommitMoves(world, Moved(s, id, w, phase), w.run, rows, draft);
  }

  lemma CommitMoves(world: World, s: State, run: string, rows: (Record, Thread), draft: Draft)
    requires Inv(world, s) && run in s.runs && run in world.commands && run !in s.commits
    requires Justified(world, world.commands[run], draft)
    requires Journaled(rows.0) && rows.0.runId == run && rows.0.threadId == s.runs[run].threadId && rows.0.status == Finished
    requires EndsWith(rows.0.journal, Story(rows.0, world.commands[run], draft))
    requires if world.commands[run].patches then
               s.thread.state == draft.before && rows.1.revision == s.thread.revision + 1 && rows.1.state == draft.after
             else rows.1 == s.thread
    ensures Inv(world, Committed(world, s, run, rows, draft))
  {
    hide RunInv, LogInv, WorkerInv, Justified, Story, EndsWith, Journaled;
    var s' := Committed(world, s, run, rows, draft);
    assert RunInv(world, s, run, s.runs[run]);
    RunIsNamed(world, s, run);
    assert Forward(s, s');
    CommitKeepsLog(world, s, run, rows, draft);
    CommitKeepsRun(world, s', run, draft);
    WorkersStay(world, s, s');
    OtherRunsStay(world, s, s', run);
  }

  lemma RunIsNamed(world: World, s: State, run: string)
    requires run in s.runs && RunInv(world, s, run, s.runs[run])
    ensures s.runs[run].runId == run
  {
    hide Journaled;
  }

  lemma WorkersStay(world: World, s: State, s': State)
    requires (forall id | id in s.workers :: WorkerInv(world, s, s.workers[id])) && Forward(s, s') && s'.workers == s.workers
    ensures forall id | id in s'.workers :: WorkerInv(world, s', s'.workers[id])
  {
    hide WorkerInv, Forward;
    forall k | k in s'.workers ensures WorkerInv(world, s', s'.workers[k]) {
      WorkerStays(world, s, s', s.workers[k]);
    }
  }

  lemma OtherRunsStay(world: World, s: State, s': State, run: string)
    requires (forall id | id in s.runs :: RunInv(world, s, id, s.runs[id])) && Forward(s, s')
    requires s'.runs.Keys == s.runs.Keys && forall id | id in s.runs && id != run :: s'.runs[id] == s.runs[id]
    requires forall id | id != run :: (id in s.commits <==> id in s'.commits) && (id in s.commits ==> s'.commits[id] == s.commits[id])
    ensures forall id | id in s'.runs && id != run :: RunInv(world, s', id, s'.runs[id])
  {
    hide RunInv, Forward;
    forall id | id in s'.runs && id != run ensures RunInv(world, s', id, s'.runs[id]) {
      RunStays(world, s, s', id, s.runs[id]);
    }
  }

  lemma MovedWorker(world: World, s: State, w: Worker, phase: Phase)
    requires WorkerInv(world, s, w) && !phase.Writing?
    ensures WorkerInv(world, s, w.(phase := phase))
    ensures w.phase.Writing? ==> Justified(world, world.commands[w.run], w.phase.draft)
  {
    hide Justified;
  }

  lemma SavedGives(world: World, s: State, w: Worker)
    requires w.run in s.runs && w.run in world.commands && w.phase.Writing?
    requires WorkerInv(world, s, w) && RunInv(world, s, w.run, s.runs[w.run])
    requires Saved(world, s, w, w.phase.seen, w.phase.draft).Ok?
    ensures var rows := Saved(world, s, w, w.phase.seen, w.phase.draft).value;
            var command, draft := world.commands[w.run], w.phase.draft;
            && w.run !in s.commits
            && Journaled(rows.0) && rows.0.runId == w.run && rows.0.threadId == s.runs[w.run].threadId
            && rows.0.status == Finished && EndsWith(rows.0.journal, Story(rows.0, command, draft))
            && (if command.patches then
                  s.thread.state == draft.before && rows.1.revision == s.thread.revision + 1 && rows.1.state == draft.after
                else rows.1 == s.thread)
  {
    hide Lifecycle, Story, EndsWith, Justified;
    var command, draft, run := world.commands[w.run], w.phase.draft, s.runs[w.run];
    StoryEnds(w.record, command, draft, run.journal);
    var events, change := Events(w.record, command, draft), ChangeOf(w.record, command, draft, w.phase.seen);
    AppendGives(run, s.thread, s.now, w.record.revision, events, change);
    SameStory(w.record, Saved(world, s, w, w.phase.seen, draft).value.0, command, draft);
  }

  lemma CommitKeepsLog(world: World, s: State, run: string, rows: (Record, Thread), draft: Draft)
    requires LogInv(world, s) && run in world.commands && run in s.runs && run !in s.commits
    requires if world.commands[run].patches then draft.before == s.thread.state && rows.1.state == draft.after
             else rows.1 == s.thread
    ensures LogInv(world, Committed(world, s, run, rows, draft))
  {
  }

  lemma CommitKeepsRun(world: World, s: State, id: string, draft: Draft)
    requires id in s.runs && id in s.commits && s.commits[id] == draft && id in world.commands
    requires Journaled(s.runs[id]) && s.runs[id].runId == id && s.runs[id].status == Finished
    requires EndsWith(s.runs[id].journal, Story(s.runs[id], world.commands[id], draft))
    requires Justified(world, world.commands[id], draft)
    requires world.commands[id].patches ==> s.log != [] && s.log[|s.log| - 1] == Patched(id, draft.before, draft.after)
    ensures RunInv(world, s, id, s.runs[id])
  {
  }

  lemma SameStory(record: Record, other: Record, command: Command, draft: Draft)
    requires record.threadId == other.threadId && record.runId == other.runId
    ensures Story(record, command, draft) == Story(other, command, draft)
  {
  }

  lemma StepKeeps(world: World, s: State, step: Step)
    requires Inv(world, s)
    ensures Inv(world, Apply(world, s, step))
  {
    hide Inv, ApplyTo;
    match step
    case Look(id) => if id in s.workers { QuietKeeps(world, s, step, s.workers[id]); }
    case Read(id) => if id in s.workers { QuietKeeps(world, s, step, s.workers[id]); }
    case Crash(id) => if id in s.workers { QuietKeeps(world, s, step, s.workers[id]); }
    case Abort(id, message) => if id in s.workers { AbortKeeps(world, s, id, message, s.workers[id]); }
    case Write(id, delivery) => if id in s.workers { WriteKeeps(world, s, id, delivery, s.workers[id]); }
    case Lend(run, seen, owner, ttl) => LendKeeps(world, s, run, seen, owner, ttl);
    case Begin(id, run) => BeginKeeps(world, s, id, run);
    case _ => ThreadKeeps(world, s, step);
  }

  lemma {:induction false} PlayKeeps(world: World, s: State, steps: seq<Step>)
    requires Inv(world, s)
    ensures Inv(world, Play(world, s, steps)) && Play(world, s, steps).initial == s.initial
    decreases |steps|
  {
    hide Inv, ApplyTo;
    if steps != [] {
      StepKeeps(world, s, steps[0]);
      InitialStays(world, s, steps[0]);
      PlayKeeps(world, Apply(world, s, steps[0]), steps[1..]);
    }
  }

  lemma InitialStays(world: World, s: State, step: Step)
    ensures Apply(world, s, step).initial == s.initial
  {
    hide Saved, Prepare;
  }

  // ---------- whole runs ----------

  lemma FreshHolds(world: World, s: State)
    requires Fresh(s)
    ensures Inv(world, s)
  {
  }

  /** Every state a fresh one can come to keeps the invariant. */
  lemma ReachableHolds(world: World, s: State, steps: seq<Step>)
    requires Fresh(s)
    ensures Inv(world, Play(world, s, steps))
    ensures Play(world, s, steps).initial == s.initial
  {
    hide Inv, Fresh, Play;
    FreshHolds(world, s);
    PlayKeeps(world, s, steps);
  }

  /** However commands interleave with each other and with other writers, no update is lost: the
      shared state is what the last write left, and each write, a command's or another's, starts
      from exactly what the write before it left. */
  lemma NoUpdateIsLost(world: World, s: State, steps: seq<Step>)
    requires Fresh(s)
    ensures var s' := Play(world, s, steps);
            Chained(s.initial, s'.log, s'.thread.state)
  {
    ReachableHolds(world, s, steps);
  }

  /** The shared state folded from the committed patches: each is the patch of its run's command
      applied to the state before it, and a foreign write replaces the state. */
  function Folded(world: World, state: string, log: seq<Entry>): Option<string>
    decreases |log|
  {
    if log == [] then Some(state)
    else match log[0]
         case Replaced(_, after) => Folded(world, after, log[1..])
         case Patched(run, _, _) =>
           if run !in world.commands then None
           else match world.patcher(state, world.commands[run].patch)
                case None => None
                case Some(after) => Folded(world, after, log[1..])
  }

  ghost predicate Applied(world: World, entry: Entry) {
    entry.Patched? ==>
      entry.run in world.commands && world.patcher(entry.before, world.commands[entry.run].patch) == Some(entry.after)
  }

  lemma {:induction false} ChainFolds(world: World, initial: string, log: seq<Entry>, state: string)
    requires Chained(initial, log, state)
    requires forall i | 0 <= i < |log| :: Applied(world, log[i])
    ensures Folded(world, initial, log) == Some(state)
    decreases |log|
  {
    if log != [] {
      assert Applied(world, log[0]);
      var rest := log[1..];
      forall i | 0 < i < |rest| ensures rest[i].before == rest[i - 1].after {
        assert rest[i] == log[i + 1] && rest[i - 1] == log[i];
      }
      assert rest != [] ==> rest[0] == log[1] && rest[|rest| - 1] == log[|log| - 1];
      assert Chained(log[0].after, rest, state);
      forall i | 0 <= i < |rest| ensures Applied(world, rest[i]) {
        assert rest[i] == log[i + 1];
      }
      ChainFolds(world, log[0].after, rest, state);
    }
  }

  /** The shared state equals the fold of the successful patches in commit order. */
  lemma StateIsTheFold(world: World, s: State, steps: seq<Step>)
    requires Fresh(s)
    ensures var s' := Play(world, s, steps);
            Folded(world, s.initial, s'.log) == Some(s'.thread.state)
  {
    ReachableHolds(world, s, steps);
    var s' := Play(world, s, steps);
    forall i | 0 <= i < |s'.log| ensures Applied(world, s'.log[i]) {
      if s'.log[i].Patched? {
        assert RunInv(world, s', s'.log[i].run, s'.runs[s'.log[i].run]);
      }
    }
    ChainFolds(world, s.initial, s'.log, s'.thread.state);
  }

  /** A finished patch is in the log exactly once, an unfinished one not at all; what it committed
      was computed from the state it replaced, and that state had the expected hash. */
  lemma FinishedMeansCommittedOnce(world: World, s: State, steps: seq<Step>, id: string)
    requires Fresh(s) && id in Play(world, s, steps).runs && id in world.commands && world.commands[id].patches
    ensures var s' := Play(world, s, steps);
            && (s'.runs[id].status == Finished <==> exists i | 0 <= i < |s'.log| :: s'.log[i].Patched? && s'.log[i].run == id)
            && (forall i, j | 0 <= i < j < |s'.log| && s'.log[i].Patched? && s'.log[j].Patched? :: s'.log[i].run != s'.log[j].run)
            && forall i | 0 <= i < |s'.log| && s'.log[i].Patched? && s'.log[i].run == id ::
                 && world.patcher(s'.log[i].before, world.commands[id].patch) == Some(s'.log[i].after)
                 && Matches(world.commands[id], world.digest(s'.log[i].before))
  {
    ReachableHolds(world, s, steps);
    var s' := Play(world, s, steps);
    assert RunInv(world, s', id, s'.runs[id]);
    if id in s'.commits {
      var entry := Patched(id, s'.commits[id].before, s'.commits[id].after);
      assert entry in s'.log;
      var i :| 0 <= i < |s'.log| && s'.log[i] == entry;
    }
  }

  /** An attempt never rebases: what it is about to commit was computed from the very state its
      command first read, given that distinct states have distinct hashes. */
  lemma NothingIsRebased(world: World, s: State, steps: seq<Step>, id: nat)
    requires Fresh(s)
    requires forall x, y :: world.digest(x).Some? && world.digest(x) == world.digest(y) ==> x == y
    requires id in Play(world, s, steps).workers && Play(world, s, steps).workers[id].phase.Writing?
    ensures var w := Play(world, s, steps).workers[id];
            w.phase.draft.before == w.first && w.phase.seen.state == w.first
  {
    ReachableHolds(world, s, steps);
    var s' := Play(world, s, steps);
    assert WorkerInv(world, s', s'.workers[id]);
  }

  // ---------- what a client makes of the journal ----------

  /** A client's view after one event: a snapshot replaces it, a delta patches it. */
  function Seen(world: World, view: Option<string>, e: Event): Option<string> {
    match e
    case Progress(kind, body, _) =>
      if kind == "STATE_SNAPSHOT" then Some(body)
      else if kind == "STATE_DELTA" && view.Some? then world.patcher(view.value, body)
      else view
    case _ => view
  }

  function Replay(world: World, view: Option<string>, events: seq<Event>): Option<string>
    decreases |events|
  {
    if events == [] then view else Replay(world, Seen(world, view, events[0]), events[1..])
  }

  lemma {:induction false} ReplayConcat(world: World, view: Option<string>, first: seq<Event>, second: seq<Event>)
    ensures Replay(world, view, first + second) == Replay(world, Replay(world, view, first), second)
    decreases |first|
  {
    if first == [] {
      assert first + second == second;
    } else {
      assert (first + second)[0] == first[0] && (first + second)[1..] == first[1..] + second;
      ReplayConcat(world, Seen(world, view, first[0]), first[1..], second);
    }
  }

  lemma StoryReplays(world: World, record: Record, command: Command, draft: Draft, view: Option<string>)
    requires Justified(world, command, draft)
    ensures Replay(world, view, Story(record, command, draft)) == Some(draft.after)
  {
    var tail := [Report(draft), RunFinished(record.threadId, record.runId, Success, "")];
    var deltas := if command.patches then [Delta(command.patch)] else [];
    assert Story(record, command, draft) == [Snapshot(draft.before)] + (deltas + tail);
    ReplayOne(world, view, Snapshot(draft.before), deltas + tail);
    if command.patches {
      ReplayOne(world, Some(draft.before), Delta(command.patch), tail);
    } else {
      assert deltas + tail == tail;
    }
    assert tail == [tail[0]] + ([tail[1]] + []);
    ReplayOne(world, Some(draft.after), tail[0], [tail[1]] + []);
    ReplayOne(world, Some(draft.after), tail[1], []);
  }

  lemma ReplayOne(world: World, view: Option<string>, e: Event, rest: seq<Event>)
    ensures Replay(world, view, [e] + rest) == Replay(world, Seen(world, view, e), rest)
  {
    assert ([e] + rest)[1..] == rest;
  }

  /** Replaying a finished run's whole journal from any view yields the state its result event
      reports, under the hash it reports. */
  lemma FinishedRunsReplay(world: World, s: State, steps: seq<Step>, id: string, view: Option<string>)
    requires Fresh(s) && id in Play(world, s, steps).runs && Play(world, s, steps).runs[id].status == Finished
    ensures var s' := Play(world, s, steps);
            && id in s'.commits
            && Replay(world, view, s'.runs[id].journal) == Some(s'.commits[id].after)
            && Report(s'.commits[id]) in s'.runs[id].journal
            && world.digest(s'.commits[id].after) == Some(s'.commits[id].hash)
  {
    ReachableHolds(world, s, steps);
    var s' := Play(world, s, steps);
    var run := s'.runs[id];
    assert RunInv(world, s', id, run);
    var command, draft := world.commands[id], s'.commits[id];
    var story := Story(run, command, draft);
    var k := |run.journal| - |story|;
    assert run.journal == run.journal[..k] + story;
    ReplayConcat(world, view, run.journal[..k], story);
    StoryReplays(world, run, command, draft, Replay(world, view, run.journal[..k]));
    assert Report(draft) in story;
  }

  // ---------- the command's own program ----------

  lemma {:induction false} PlayConcat(world: World, s: State, first: seq<Step>, second: seq<Step>)
    ensures Play(world, s, first + second) == Play(world, Play(world, s, first), second)
    decreases |first|
  {
    hide Apply;
    if first == [] {
      assert first + second == second;
    } else {
      assert (first + second)[0] == first[0] && (first + second)[1..] == first[1..] + second;
      PlayConcat(world, Apply(world, s, first[0]), first[1..], second);
    }
  }

  lemma PlayNext(world: World, s: State, steps: seq<Step>, step: Step)
    ensures Play(world, s, steps + [step]) == Apply(world, Play(world, s, steps), step)
  {
    hide Apply;
    PlayConcat(world, s, steps, [step]);
    var s' := Play(world, s, steps);
    assert [step][1..] == [];
    assert Play(world, s', [step]) == Play(world, Apply(world, s', step), []);
  }

  lemma PlayNothing(world: World, s: State)
    ensures Play(world, s, []) == s
  {
  }

  /** An attempt nobody interferes with commits what it prepared. */
  lemma UncontendedAttemptCommits(world: World, s: State, id: nat)
    requires Inv(world, s) && id in s.workers && s.workers[id].phase == Looking
    requires var w := s.workers[id];
             && w.run in s.runs && w.record == s.runs[w.run] && w.run in world.commands
             && !TerminalStatus(w.record.status) && !w.record.resumed && MayWrite(w.record, s.now, OwnerOf(w.record))
             && w.record.revision < MAX_INT64 && w.record.LastSequence() < MAX_INT64 - 5
             && 0 <= s.thread.revision < MAX_INT64
             && Prepare(world, world.commands[w.run], w.baseline, s.thread.state).Ok?
    ensures var w := s.workers[id];
            var s' := Play(world, s, [Look(id), Read(id), Write(id, Delivered)]);
            && id in s'.workers && s'.workers[id].phase == Completed
            && w.run in s'.commits && s'.commits[w.run] == Prepare(world, world.commands[w.run], w.baseline, s.thread.state).value
            && s'.thread.state == (if world.commands[w.run].patches then s'.commits[w.run].after else s.thread.state)
  {
    hide Play, Inv, Prepare, AppendTo;
    var w := s.workers[id];
    var command := world.commands[w.run];
    var draft := Prepare(world, command, w.baseline, s.thread.state).value;
    RunOf(world, s, w.run);
    var t := Apply(world, s, Look(id));
    var u := Apply(world, t, Read(id));
    assert u.workers[id].phase == Writing(s.thread, draft);
    DraftSaves(w.record, s.thread, s.now, command, draft);
    var v := Apply(world, u, Write(id, Delivered));
    PlayNext(world, s, [], Look(id));
    PlayNext(world, s, [] + [Look(id)], Read(id));
    PlayNext(world, s, [] + [Look(id)] + [Read(id)], Write(id, Delivered));
    PlayNothing(world, s);
    assert [] + [Look(id)] + [Read(id)] + [Write(id, Delivered)] == [Look(id), Read(id), Write(id, Delivered)];
  }

  lemma RunOf(world: World, s: State, run: string)
    requires Inv(world, s) && run in s.runs
    ensures Journaled(s.runs[run])
  {
    assert RunInv(world, s, run, s.runs[run]);
  }

  /** The append of a draft succeeds for an up-to-date owner of an open run. */
  lemma DraftSaves(record: Record, thread: Thread, now: int, command: Command, draft: Draft)
    requires Journaled(record) && !TerminalStatus(record.status) && !record.resumed && MayWrite(record, now, OwnerOf(record))
    requires record.revision < MAX_INT64 && record.LastSequence() < MAX_INT64 - 5 && 0 <= thread.revision < MAX_INT64
    ensures var saved := AppendTo(record, thread, now, record.revision, Events(record, command, draft),
                                  ChangeOf(record, command, draft, thread));
            && saved.Ok?
            && saved.value.1.state == if command.patches then draft.after else thread.state
  {
    StoryRuns(record, command, draft, record.LastSequence(), record.status);
    StoryRuns(record, command, draft, 1, Running);
    var story := Story(record, command, draft);
    var events := Events(record, command, draft);
    if record.LastSequence() == 0 {
      assert events[0].RunStarted? && events[1..] == story;
    } else {
      assert events == story;
    }
  }

  lemma StoryRuns(record: Record, command: Command, draft: Draft, before: nat, status: Status)
    ensures before > 0 ==> Lifecycle(record, before, status, Story(record, command, draft)).Ok?
  {
    if before > 0 {
      var tail := [Report(draft), RunFinished(record.threadId, record.runId, Success, "")];
      var deltas := if command.patches then [Delta(command.patch)] else [];
      TailRuns(record, draft, before + 1 + |deltas|, status);
      LifecycleNext(record, before, status, Snapshot(draft.before), deltas + tail);
      assert Story(record, command, draft) == [Snapshot(draft.before)] + (deltas + tail);
      if command.patches {
        LifecycleNext(record, before + 1, status, Delta(command.patch), tail);
      } else {
        assert deltas + tail == tail;
      }
    }
  }

  lemma TailRuns(record: Record, draft: Draft, before: nat, status: Status)
    requires before > 0
    ensures Lifecycle(record, before, status, [Report(draft), RunFinished(record.threadId, record.runId, Success, "")]).Ok?
  {
    var last := RunFinished(record.threadId, record.runId, Success, "");
    LifecycleNext(record, before, status, Report(draft), [last]);
    assert [Report(draft)] + [last] == [Report(draft), last];
  }

  lemma LifecycleNext(record: Record, before: nat, status: Status, e: Event, rest: seq<Event>)
    requires before > 0 && e.Progress?
    ensures Lifecycle(record, before, status, [e] + rest) == Lifecycle(record, before + 1, status, rest)
  {
    assert ([e] + rest)[1..] == rest;
  }

  class Resource {
    const world: World
    const store: JournalStore<()>

    constructor (world: World, store: JournalStore<()>)
      ensures this.world == world && this.store == store
    {
      this.world, this.store := world, store;
    }

    /** The rows this program touches are those of `s`. */
    ghost predicate At(s: State, run: string, now: int)
      reads store
    {
      && s.now == now && s.thread == store.thread && run in s.runs && s.runs[run] == store.run && run in world.commands
    }

    /** Other writers of the thread, between a read and an append. */
    method Meddle(ghost s: State, run: string, now: int, others: seq<Step>) returns (ghost t: State)
      requires At(s, run, now) && forall step | step in others :: step.Chat? || step.Replace?
      modifies store
      ensures t == Play(world, s, others) && At(t, run, now) && store.run == old(store.run)
      ensures t.workers == s.workers
    {
      hide Play;
      t := s;
      PlayNothing(world, s);
      for i := 0 to |others|
        invariant t == Play(world, s, others[..i]) && At(t, run, now) && store.run == old(store.run)
        invariant t.workers == s.workers
      {
        assert others[i] in others && others[..i + 1] == others[..i] + [others[i]];
        PlayNext(world, s, others[..i], others[i]);
        t := Apply(world, t, others[i]);
        match others[i] {
          case Chat(messages) => store.thread := Thread(store.thread.revision + 1, store.thread.state, messages);
          case Replace(state) => store.thread := Thread(store.thread.revision + 1, state, store.thread.messages);
        }
      }
      assert others[..|others|] == others;
    }

    /** One attempt after its look at the run: read the thread, prepare, let others write, append. */
    method Attempt(ghost s: State, id: nat, now: int, w: Worker, others: seq<Step>)
      returns (next: Worker, ghost steps: seq<Step>)
      requires At(s, w.run, now) && id in s.workers && s.workers[id] == w && w.phase == Reading
      requires forall step | step in others :: step.Chat? || step.Replace?
      modifies store
      ensures var t := Play(world, s, steps);
              At(t, w.run, now) && id in t.workers && t.workers[id] == next
      ensures next.run == w.run && next.record == w.record && (next.phase == Looking ==> next.attempt == w.attempt + 1 < ATTEMPTS)
      ensures next.phase == Looking || next.phase == Completed || next.phase.Failing?
      ensures next.phase != Completed ==> store.run == old(store.run)
    {
      hide Play, Prepare, AppendTo, Events, ChangeOf;
      var command := world.commands[w.run];
      next := Taken(world, w, command, store.thread);
      PlayNothing(world, s);
      PlayNext(world, s, [], Read(id));
      steps := [] + [Read(id)];
      ghost var t := Apply(world, s, Read(id));
      if next.phase.Failing? {
        return;
      }
      PlayConcat(world, s, steps, others);
      steps := steps + others;
      t := Meddle(t, w.run, now, others);
      PlayNext(world, s, steps, Write(id, Delivered));
      steps := steps + [Write(id, Delivered)];
      var r := store.Append(now, w.record.revision, Events(w.record, command, next.phase.draft),
                            ChangeOf(w.record, command, next.phase.draft, next.phase.seen));
      next := if r.Ok? then next.(phase := Completed) else Retried(next, r.error);
    }

    /** runAGUIStateCommand: at most eight attempts, each a run of the protocol's steps with the
        other writers' steps in between. */
    method Execute(ghost s: State, id: nat, now: int, w: Worker, others: seq<seq<Step>>)
      returns (r: Result<(), Failure>, ghost steps: seq<Step>)
      requires At(s, w.run, now) && id in s.workers && s.workers[id] == w && w.phase == Looking && w.attempt == 0
      requires |others| == ATTEMPTS && forall k | 0 <= k < ATTEMPTS :: forall step | step in others[k] :: step.Chat? || step.Replace?
      modifies store
      ensures var t := Play(world, s, steps);
              && At(t, w.run, now) && id in t.workers
              && t.workers[id].phase == if r.Ok? then Completed else Failing(r.error)
      ensures r.Err? ==> store.run == old(store.run)
    {
      hide Play, Apply;
      steps := [];
      PlayNothing(world, s);
      ghost var t := s;
      var self := w;
      while self.phase == Looking
        invariant t == Play(world, s, steps) && At(t, w.run, now) && id in t.workers && t.workers[id] == self
        invariant self.run == w.run && self.record == w.record
        invariant self.phase == Looking ==> self.attempt < ATTEMPTS
        invariant self.phase == Looking || self.phase == Completed || self.phase.Failing?
        invariant self.phase != Completed ==> store.run == old(store.run)
        decreases if self.phase == Looking then ATTEMPTS - self.attempt else -1
      {
        PlayNext(world, s, steps, Look(id));
        steps := steps + [Look(id)];
        LookApplies(world, t, id, self);
        t := Apply(world, t, Look(id));
        var latest := store.run;
        var attempt := self.attempt;
        self := self.(phase := Looked(latest, self.record));
        if self.phase == Reading {
          ghost var more: seq<Step>;
          self, more := Attempt(t, id, now, self, others[attempt]);
          PlayConcat(world, s, steps, more);
          steps := steps + more;
          t := Play(world, t, more);
        }
      }
      r := if self.phase == Completed then Ok(()) else Err(self.phase.failure);
    }
  }

  lemma LookApplies(world: World, s: State, id: nat, w: Worker)
    requires id in s.workers && s.workers[id] == w && w.phase == Looking && w.run in s.runs && w.run in world.commands
    ensures Apply(world, s, Look(id)) == Moved(s, id, w, Looked(s.runs[w.run], w.record))
  {
  }
}
