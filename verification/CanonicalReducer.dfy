/** The canonical conversation reducer: sdk/canonical_reducer.go and sdk/canonical_helpers.go.

    Text fields of an event hold their trimmed values. */
module CanonicalReducer {
  import opened Common

  datatype TurnStatus = Unset | Queued | Running | WaitingForUser | Completed | Failed | Canceled

  datatype Kind =
    | TurnStarted | TurnCompleted | TurnFailed | TurnCanceled | TurnQueued
    | ModelStarted | ModelCompleted
    | Narration | Assistant
    | TextDelta | ReasoningDelta
    | ToolCallsPlanned | ToolCallStarted | ToolCallDelta | ToolCallWaiting | ToolCallCompleted | ToolCallFailed | ToolCallCanceled
    | ElicitationRequested | ElicitationResolved
    | LinkedConversation
    | PlannerSelected | PlannerOutput | PlannerValidated | PlannerFailed
    | FeedActive | FeedInactive
    | Ignored

  datatype PlannedCall = PlannedCall(id: string, name: string)

  datatype Event = Event(kind: Kind, id: string, conversation: string, turn: string, created: int,
                         startedBy: string, userMessage: string, queueSeq: int, origin: string, goal: string, reason: string,
                         iteration: int, assistant: string, parent: string, mode: string, phase: string,
                         modelCall: string, status: string, content: string, narration: string, final: bool,
                         message: string, role: string, sequence: Option<int>,
                         planned: seq<PlannedCall>, toolCall: string, toolName: string, toolMessage: string,
                         operation: string, error: string,
                         elicitation: string, linked: string, linkedAgent: string, linkedTitle: string, attempt: int,
                         feed: string, feedTitle: string, feedDeveloperOnly: bool, feedCount: int, feedData: Option<string>)

  datatype ModelStep = ModelStep(id: string, assistant: string, status: string, mode: string, phase: string)

  datatype Operation = Operation(id: string, status: string, message: string, error: string)

  datatype ToolStep = ToolStep(id: string, name: string, message: string, parent: string, status: string, operation: string,
                               async: Option<Operation>, linked: string, linkedAgent: string, linkedTitle: string)

  datatype Page = Page(id: string, iteration: int, mode: string, assistant: string, parent: string, turn: string, phase: string,
                       content: string, narration: string, narrationMessage: string, final: bool, finalMessage: string,
                       modelSteps: seq<ModelStep>, toolSteps: seq<ToolStep>)

  datatype UserMessage = UserMessage(id: string, content: string)

  /** The turn's user message: an object of its own, or one of the turn's `users`, shared. */
  datatype UserRef = Nobody | Own(message: UserMessage) | Shared(index: nat)

  datatype Message = Message(id: string, role: string, content: string, created: int, sequence: int, mode: string, status: string)

  datatype Link = Link(conversation: string, toolCall: string, agent: string, title: string)

  datatype Elicitation = Elicitation(id: string, status: string, message: string)

  datatype Planner = Planner(status: string, attempt: int)

  /** `created` is 0 for the zero time; `active` is the active page's index. */
  datatype Turn = Turn(id: string, status: TurnStatus, created: int, startedBy: string, queueSeq: int,
                       origin: string, goal: string, reason: string,
                       user: UserRef, users: seq<UserMessage>, messages: seq<Message>, narration: Option<(string, string)>,
                       pages: seq<Page>, active: nat, elicitation: Option<Elicitation>, links: seq<Link>, planner: Option<Planner>)

  datatype Feed = Feed(id: string, turn: string, title: string, developerOnly: bool, count: int, data: Option<string>)

  datatype State = State(conversation: string, turns: seq<Turn>, feeds: seq<Feed>)

  const EMPTY := State("", [], [])

  function Or(first: string, second: string): string {
    if first != "" then first else second
  }

  // ---------- one page ----------

  /** deriveExecutionPagePhase */
  function Derived(page: Page): Page {
    if page.phase != "" || page.final || page.toolSteps == [] then page else page.(phase := "sidecar")
  }

  function NewPage(e: Event): Page {
    Page(e.assistant, e.iteration, e.mode, "", "", "", "", "", "", "", false, "", [], [])
  }

  /** ensureCurrentPage on the page it found or made. */
  function Filled(page: Page, e: Event): Page {
    Derived(page.(id := Or(page.id, e.assistant), assistant := Or(page.assistant, e.assistant), parent := Or(page.parent, e.parent),
                  turn := Or(page.turn, e.turn), mode := Or(page.mode, e.mode), phase := Or(page.phase, e.phase)))
  }

  /** Position of the first item that matches, or the length. */
  function FirstAt<T>(items: seq<T>, matches: T -> bool): (k: nat)
    ensures k <= |items| && (k < |items| ==> matches(items[k]))
    ensures forall i | 0 <= i < k :: !matches(items[i])
    decreases |items|
  {
    if items == [] || matches(items[0]) then 0 else 1 + FirstAt(items[1..], matches)
  }

  method Find<T>(items: seq<T>, matches: T -> bool) returns (k: nat)
    ensures k <= |items| && (k < |items| ==> matches(items[k]))
    ensures forall i | 0 <= i < k :: !matches(items[i])
  {
    k := 0;
    while k < |items|
      invariant k <= |items| && forall i | 0 <= i < k :: !matches(items[i])
    {
      if matches(items[k]) {
        return;
      }
      k := k + 1;
    }
  }

  function ModelAt(steps: seq<ModelStep>, id: string): nat { FirstAt(steps, (x: ModelStep) => x.id == id) }

  function ToolAt(steps: seq<ToolStep>, id: string): nat { FirstAt(steps, (x: ToolStep) => x.id == id) }

  function PageAt(pages: seq<Page>, iteration: int): nat { FirstAt(pages, (x: Page) => x.iteration == iteration) }

  /** Where upsertModelStep puts a step: a named one keeps its place, an anonymous one is new. */
  function ModelSlot(steps: seq<ModelStep>, id: string): (k: nat)
    ensures k <= |steps|
  {
    if id == "" then |steps| else ModelAt(steps, id)
  }

  function ToolSlot(steps: seq<ToolStep>, id: string): (k: nat)
    ensures k <= |steps|
  {
    if id == "" then |steps| else ToolAt(steps, id)
  }

  function NewTool(id: string): ToolStep {
    ToolStep(id, "", "", "", "", "", None, "", "", "")
  }

  function ModelStatus(e: Event, status: string): string {
    if e.status != "" then e.status
    else if e.kind == TextDelta then "streaming"
    else Or(status, "running")
  }

  function StartedModel(step: ModelStep, e: Event): ModelStep {
    step.(mode := Or(e.mode, step.mode), assistant := Or(step.assistant, e.assistant),
          status := ModelStatus(e, step.status), phase := Or(e.phase, step.phase))
  }

  function CompletedModel(step: ModelStep, e: Event): ModelStep {
    step.(mode := Or(e.mode, step.mode), assistant := Or(step.assistant, e.assistant),
          status := Or(e.status, step.status), phase := Or(e.phase, step.phase))
  }

  function ModelId(e: Event): string { Or(e.modelCall, e.assistant) }

  function WithModel(page: Page, k: nat, step: ModelStep): Page
    requires k <= |page.modelSteps|
  {
    page.(modelSteps := page.modelSteps[..k] + [step] + (if k < |page.modelSteps| then page.modelSteps[k + 1..] else []))
  }

  function WithTool(page: Page, k: nat, step: ToolStep): Page
    requires k <= |page.toolSteps|
  {
    page.(toolSteps := page.toolSteps[..k] + [step] + (if k < |page.toolSteps| then page.toolSteps[k + 1..] else []))
  }

  function ToolIn(page: Page, k: nat, id: string): ToolStep {
    if k < |page.toolSteps| then page.toolSteps[k] else NewTool(id)
  }

  /** applyAsyncOperation */
  function Operated(step: ToolStep, e: Event): ToolStep {
    if e.operation == "" then step else
      var base := if step.async.Some? then step.async.value else Operation(e.operation, "", "", "");
      step.(operation := e.operation,
            async := Some(Operation(Or(base.id, e.operation), Or(e.status, base.status),
                                    Or(e.content, base.message), Or(e.error, base.error))))
  }

  function PlannedTool(step: ToolStep, call: PlannedCall): ToolStep {
    step.(id := Or(step.id, call.id), name := Or(call.name, step.name), status := "planned")
  }

  function StartedTool(step: ToolStep, e: Event): ToolStep {
    Operated(step.(status := Or(e.status, step.status), parent := Or(step.parent, e.parent),
                   message := Or(step.message, e.toolMessage), name := Or(e.toolName, step.name)), e)
  }

  function CompletedTool(step: ToolStep, e: Event): ToolStep {
    var done := Operated(step.(status := Or(e.status, step.status), parent := Or(step.parent, e.parent),
                               linked := Or(e.linked, step.linked)), e);
    done.(message := Or(done.message, e.toolMessage), name := Or(done.name, e.toolName))
  }

  function UpdatedTool(step: ToolStep, e: Event): ToolStep {
    var seen := Operated(step.(name := Or(step.name, e.toolName), message := Or(step.message, e.toolMessage)), e);
    seen.(status := Or(e.status, seen.status))
  }

  /** The planned calls, one after another; one with neither id nor name is skipped. */
  function PlanTools(page: Page, calls: seq<PlannedCall>): Page
    decreases |calls|
  {
    if calls == [] then page else
      var call := calls[0];
      if call.id == "" && call.name == "" then PlanTools(page, calls[1..])
      else
        var k := ToolSlot(page.toolSteps, call.id);
        PlanTools(WithTool(page, k, PlannedTool(ToolIn(page, k, call.id), call)), calls[1..])
  }

  function StreamModels(steps: seq<ModelStep>, e: Event): (r: seq<ModelStep>)
    ensures |r| == |steps| && forall k | 0 <= k < |r| :: r[k] == steps[k].(status := ModelStatus(e, steps[k].status))
  {
    seq(|steps|, k requires 0 <= k < |steps| => steps[k].(status := ModelStatus(e, steps[k].status)))
  }

  predicate OnPage(kind: Kind) {
    kind == ModelStarted || kind == ModelCompleted || kind == Narration || kind == TextDelta || kind == ReasoningDelta
    || kind == ToolCallsPlanned || kind == ToolCallStarted || kind == ToolCallCompleted
    || kind == ToolCallWaiting || kind == ToolCallFailed || kind == ToolCallCanceled
  }

  function ToolId(e: Event): string {
    if e.kind == ToolCallWaiting || e.kind == ToolCallFailed || e.kind == ToolCallCanceled then Or(e.toolCall, e.operation) else e.toolCall
  }

  function OnTool(page: Page, e: Event): Page {
    var k := ToolSlot(page.toolSteps, ToolId(e));
    var step := ToolIn(page, k, ToolId(e));
    WithTool(page, k, if e.kind == ToolCallStarted then StartedTool(step, e)
                      else if e.kind == ToolCallCompleted then CompletedTool(step, e) else UpdatedTool(step, e))
  }

  function OnModel(page: Page, e: Event): Page {
    if e.kind == ModelStarted then
      var k := ModelSlot(page.modelSteps, ModelId(e));
      var step := if k < |page.modelSteps| then page.modelSteps[k] else ModelStep(ModelId(e), "", "", "", "");
      WithModel(page, k, StartedModel(step, e))
    else
      var k := ModelAt(page.modelSteps, ModelId(e));
      var page' := if k < |page.modelSteps| then WithModel(page, k, CompletedModel(page.modelSteps[k], e)) else page;
      Derived(page'.(content := Or(e.content, page.content), narration := Or(e.narration, page.narration),
                     final := page.final || e.final, finalMessage := if e.final then e.assistant else page.finalMessage))
  }

  /** What an event does to the current page of its turn. */
  function ApplyToPage(page: Page, e: Event): Page
    requires OnPage(e.kind)
  {
    match e.kind
    case ModelStarted => OnModel(page, e)
    case ModelCompleted => OnModel(page, e)
    case Narration => Derived(page.(narration := Or(e.narration, e.content), narrationMessage := Or(e.assistant, e.message)))
    case TextDelta => page.(content := page.content + e.content, modelSteps := StreamModels(page.modelSteps, e))
    case ReasoningDelta => page.(narration := page.narration + e.content)
    case ToolCallsPlanned =>
      PlanTools(page.(content := Or(e.content, page.content), narration := Or(e.narration, page.narration)), e.planned)
    case _ => OnTool(page, e)
  }

  // ---------- one turn ----------

  function NewTurn(id: string, status: TurnStatus, created: int): Turn {
    Turn(id, status, created, "", 0, "", "", "", Nobody, [], [], None, [], 0, None, [], None)
  }

  /** findOrCreateTurn on the turn it found. */
  function Touched(turn: Turn, e: Event): Turn {
    turn.(status := if turn.status == Unset then Running else turn.status,
          created := if turn.created == 0 then e.created else turn.created)
  }

  function StartedBy(e: Event): string { Or(e.startedBy, e.userMessage) }

  /** Renaming the turn's user message changes it wherever it is shared. */
  function Renamed(turn: Turn, id: string): Turn {
    match turn.user
    case Nobody => turn.(user := Own(UserMessage(id, "")))
    case Own(message) => turn.(user := Own(message.(id := id)))
    case Shared(k) => if k < |turn.users| then turn.(users := turn.users[k := turn.users[k].(id := id)]) else turn
  }

  function Restarted(turn: Turn, e: Event): Turn {
    var turn' := turn.(status := Running, startedBy := Or(StartedBy(e), turn.startedBy));
    if e.userMessage == "" then turn' else Renamed(turn', e.userMessage)
  }

  function Begun(e: Event): Turn {
    NewTurn(e.turn, Running, e.created).(startedBy := StartedBy(e),
                                         user := if e.userMessage == "" then Nobody else Own(UserMessage(e.userMessage, "")))
  }

  function Requeued(turn: Turn, e: Event): Turn {
    turn.(status := if turn.status in {Running, Completed, Failed, Canceled} then turn.status else Queued,
          origin := Or(turn.origin, e.origin), goal := Or(turn.goal, e.goal), reason := Or(turn.reason, e.reason))
  }

  function Enqueued(e: Event): Turn {
    NewTurn(e.turn, Queued, e.created).(startedBy := e.startedBy, queueSeq := e.queueSeq,
                                        origin := e.origin, goal := e.goal, reason := e.reason,
                                        user := if e.userMessage == "" then Nobody else Own(UserMessage(e.userMessage, "")))
  }

  /** finalizeTurn */
  function Finalized(turn: Turn, status: TurnStatus): Turn {
    if turn.status == Failed || turn.status == Canceled then turn else turn.(status := status)
  }

  function WithPage(turn: Turn, e: Event): Turn
    requires OnPage(e.kind)
  {
    var k := PageAt(turn.pages, e.iteration);
    if k < |turn.pages| then turn.(pages := turn.pages[k := ApplyToPage(Filled(turn.pages[k], e), e)])
    else turn.(pages := turn.pages + [ApplyToPage(Filled(NewPage(e), e), e)], active := |turn.pages|)
  }

  function MessageAt(messages: seq<Message>, id: string): nat { FirstAt(messages, (x: Message) => x.id == id) }

  function UserAt(users: seq<UserMessage>, id: string): nat { FirstAt(users, (x: UserMessage) => x.id == id) }

  function MessageId(e: Event): string { Or(e.message, Or(e.id, e.assistant)) }

  /** The assistant half of reduceAssistantMessage. */
  function Answered(turn: Turn, e: Event): Turn {
    var k := MessageAt(turn.messages, MessageId(e));
    var message := if k < |turn.messages| then turn.messages[k] else Message(MessageId(e), "", "", 0, 0, "", "");
    var message' := message.(role := "assistant", content := e.content, created := e.created,
                             sequence := if e.sequence.Some? then e.sequence.value else message.sequence,
                             mode := Or(e.mode, message.mode), status := Or(e.status, message.status));
    turn.(messages := if k < |turn.messages| then turn.messages[k := message'] else turn.messages + [message'])
  }

  /** The user half: the turn's own message first, then the list, then a new one; a turn without
      a user message takes this one, shared with the list. */
  function Spoken(turn: Turn, e: Event): Turn {
    var id := MessageId(e);
    if turn.user.Own? && turn.user.message.id == id then turn.(user := Own(turn.user.message.(content := e.content)))
    else if turn.user.Shared? && turn.user.index < |turn.users| && turn.users[turn.user.index].id == id then
      turn.(users := turn.users[turn.user.index := UserMessage(id, e.content)])
    else
      var k := UserAt(turn.users, id);
      turn.(users := if k < |turn.users| then turn.users[k := UserMessage(id, e.content)] else turn.users + [UserMessage(id, e.content)],
            user := if turn.user.Nobody? then Shared(k) else turn.user)
  }

  predicate Blank(text: string) {
    forall k | 0 <= k < |text| :: text[k] in " \t\r\n"
  }

  function Said(turn: Turn, e: Event): Turn {
    if MessageId(e) == "" || Blank(e.content) then turn
    else if e.role == "user" then Spoken(turn, e)
    else if e.role == "assistant" then Answered(turn, e)
    else turn
  }

  function Asked(turn: Turn, e: Event): Turn {
    turn.(status := WaitingForUser, elicitation := Some(Elicitation(e.elicitation, "pending", e.content)))
  }

  /** elicitationStatusForEventStatus */
  function Resolution(status: string): string {
    if status in {"pending", "accepted", "failed"} then status
    else if status in {"cancel", "canceled", "cancelled"} then "canceled"
    else "declined"
  }

  function Resolved(turn: Turn, e: Event): Turn {
    turn.(elicitation := Some(if turn.elicitation.Some? then turn.elicitation.value.(status := Resolution(e.status))
                              else Elicitation(e.elicitation, Resolution(e.status), "")),
          status := if turn.status == WaitingForUser then Running else turn.status)
  }

  function LinkTool(step: ToolStep, e: Event): ToolStep {
    if step.id != e.toolCall then step
    else step.(linked := e.linked, linkedAgent := e.linkedAgent, linkedTitle := e.linkedTitle)
  }

  function LinkTools(steps: seq<ToolStep>, e: Event): (r: seq<ToolStep>)
    ensures |r| == |steps| && forall k | 0 <= k < |r| :: r[k] == LinkTool(steps[k], e)
  {
    seq(|steps|, k requires 0 <= k < |steps| => LinkTool(steps[k], e))
  }

  function LinkPages(pages: seq<Page>, e: Event): (r: seq<Page>)
    ensures |r| == |pages| && forall k | 0 <= k < |r| :: r[k] == pages[k].(toolSteps := LinkTools(pages[k].toolSteps, e))
  {
    seq(|pages|, k requires 0 <= k < |pages| => pages[k].(toolSteps := LinkTools(pages[k].toolSteps, e)))
  }

  function Linked(turn: Turn, e: Event): Turn {
    if e.linked == "" then turn else
      turn.(links := if exists k | 0 <= k < |turn.links| :: turn.links[k].conversation == e.linked then turn.links
                     else turn.links + [Link(e.linked, e.toolCall, e.linkedAgent, e.linkedTitle)],
            pages := if e.toolCall == "" then turn.pages else LinkPages(turn.pages, e))
  }

  function Planned(turn: Turn, e: Event): Turn {
    var planner := if turn.planner.Some? then turn.planner.value else Planner("", 0);
    var status := match e.kind
      case PlannerSelected => "selected"
      case PlannerOutput => "output"
      case PlannerValidated => "validated"
      case _ => "failed";
    turn.(planner := Some(Planner(status, if e.attempt > 0 then e.attempt else planner.attempt)))
  }

  /** What an event does to its turn once the turn has been found or made. */
  function ApplyToTurn(turn: Turn, e: Event): Turn {
    match e.kind
    case TurnCompleted => Finalized(turn, Completed)
    case TurnFailed => Finalized(turn, Failed)
    case TurnCanceled => Finalized(turn, Canceled)
    case Assistant => Said(turn, e)
    case Narration => WithPage(turn, e).(narration := Some((Or(e.assistant, e.message), Or(e.narration, e.content))))
    case ElicitationRequested => Asked(turn, e)
    case ElicitationResolved => Resolved(turn, e)
    case LinkedConversation => Linked(turn, e)
    case PlannerSelected => Planned(turn, e)
    case PlannerOutput => Planned(turn, e)
    case PlannerValidated => Planned(turn, e)
    case PlannerFailed => Planned(turn, e)
    case ToolCallDelta => turn
    case _ => if OnPage(e.kind) then WithPage(turn, e) else turn
  }

  // ---------- the conversation ----------

  predicate NamesTurn(e: Event) {
    e.turn != "" && e.kind != FeedActive && e.kind != FeedInactive && e.kind != Ignored
  }

  function TurnAt(turns: seq<Turn>, id: string): nat { FirstAt(turns, (x: Turn) => x.id == id) }

  function NextTurn(found: Option<Turn>, e: Event): Turn {
    match e.kind
    case TurnStarted => if found.Some? then Restarted(found.value, e) else Begun(e)
    case TurnQueued => if found.Some? then Requeued(found.value, e) else Enqueued(e)
    case _ => ApplyToTurn(if found.Some? then Touched(found.value, e) else NewTurn(e.turn, Running, e.created), e)
  }

  function ReduceTurns(turns: seq<Turn>, e: Event): seq<Turn> {
    if !NamesTurn(e) then turns else
      var k := TurnAt(turns, e.turn);
      if k < |turns| then turns[k := NextTurn(Some(turns[k]), e)] else turns + [NextTurn(None, e)]
  }

  function FeedAt(feeds: seq<Feed>, id: string): nat { FirstAt(feeds, (x: Feed) => x.id == id) }

  function Refreshed(feed: Feed, e: Event): Feed {
    Feed(feed.id, Or(e.turn, feed.turn), Or(e.feedTitle, feed.title), e.feedDeveloperOnly,
         if e.feedCount > 0 || feed.count == 0 then e.feedCount else feed.count,
         if e.feedData.Some? then e.feedData else feed.data)
  }

  function Without(feeds: seq<Feed>, id: string): seq<Feed>
    decreases |feeds|
  {
    if feeds == [] then [] else (if feeds[0].id == id then [] else [feeds[0]]) + Without(feeds[1..], id)
  }

  function ReduceFeeds(feeds: seq<Feed>, e: Event): seq<Feed> {
    if e.feed == "" then feeds
    else if e.kind == FeedActive then
      var k := FeedAt(feeds, e.feed);
      if k < |feeds| then feeds[k := Refreshed(feeds[k], e)]
      else feeds + [Feed(e.feed, e.turn, e.feedTitle, e.feedDeveloperOnly, e.feedCount, e.feedData)]
    else if e.kind == FeedInactive then Without(feeds, e.feed)
    else feeds
  }

  function Reduce(s: State, e: Event): State {
    State(Or(s.conversation, e.conversation), ReduceTurns(s.turns, e), ReduceFeeds(s.feeds, e))
  }

  function Fold(s: State, log: seq<Event>): State
    decreases |log|
  {
    if log == [] then s else Fold(Reduce(s, log[0]), log[1..])
  }

  // ---------- every turn depends on its own events ----------

  function Select(turns: seq<Turn>, id: string): Option<Turn> {
    var k := TurnAt(turns, id);
    if k < |turns| then Some(turns[k]) else None
  }

  function EventsOf(log: seq<Event>, id: string): seq<Event>
    decreases |log|
  {
    if log == [] then [] else (if log[0].turn == id then [log[0]] else []) + EventsOf(log[1..], id)
  }

  lemma NextKeepsId(found: Option<Turn>, e: Event)
    requires found.Some? ==> found.value.id == e.turn
    ensures NextTurn(found, e).id == e.turn
  {
    hide ApplyToTurn, Renamed;
    ApplyKeepsId(if found.Some? then Touched(found.value, e) else NewTurn(e.turn, Running, e.created), e);
    if found.Some? {
      RenamedKeepsId(found.value.(status := Running, startedBy := Or(StartedBy(e), found.value.startedBy)), e.userMessage);
    }
  }

  lemma RenamedKeepsId(turn: Turn, id: string)
    ensures Renamed(turn, id).id == turn.id && Renamed(turn, id).status == turn.status
  {
  }

  lemma ApplyKeepsId(turn: Turn, e: Event)
    ensures ApplyToTurn(turn, e).id == turn.id
  {
    hide ApplyToTurn, WithPage, Said, LinkPages;
    if OnPage(e.kind) {
      PageKeepsTurn(turn, e);
      OnlyNarrates(turn, e);
    } else if e.kind == Assistant {
      SaidKeeps(turn, e);
      ApplySaid(turn, e);
    } else if e.kind == LinkedConversation {
      ApplyLink(turn, e);
    } else {
      OthersChange(turn, e);
    }
  }

  lemma PageKeepsTurn(turn: Turn, e: Event)
    requires OnPage(e.kind)
    ensures var turn' := WithPage(turn, e); turn' == turn.(pages := turn'.pages, active := turn'.active)
  {
    hide ApplyToPage, Filled;
  }

  lemma AtOfUpdate(turns: seq<Turn>, k: nat, turn: Turn, id: string)
    requires k < |turns| && turn.id == turns[k].id
    ensures TurnAt(turns[k := turn], id) == TurnAt(turns, id)
  {
    var all := turns[k := turn];
    assert forall i | 0 <= i < |turns| :: all[i].id == turns[i].id;
    var before, after := TurnAt(turns, id), TurnAt(all, id);
    assert after < |turns| ==> all[after].id == turns[after].id;
    assert before < |turns| ==> all[before].id == turns[before].id;
  }

  lemma AtOfAppend(turns: seq<Turn>, turn: Turn, id: string)
    ensures TurnAt(turns + [turn], id) == if TurnAt(turns, id) < |turns| || turn.id == id then TurnAt(turns, id) else |turns| + 1
  {
    var k, all := TurnAt(turns, id), turns + [turn];
    assert all[|turns|] == turn && forall i | 0 <= i < |turns| :: all[i] == turns[i];
    var first := TurnAt(all, id);
    assert !(first < k);
    assert k < |turns| ==> !(k < first);
  }

  /** One event changes the turn it names, as a function of that turn alone, and no other. */
  lemma ReduceIsLocal(turns: seq<Turn>, e: Event, id: string)
    ensures Select(ReduceTurns(turns, e), id)
         == if NamesTurn(e) && e.turn == id then Some(NextTurn(Select(turns, id), e)) else Select(turns, id)
  {
    hide NextTurn;
    if NamesTurn(e) {
      var k := TurnAt(turns, e.turn);
      if k < |turns| {
        NextKeepsId(Some(turns[k]), e);
        AtOfUpdate(turns, k, NextTurn(Some(turns[k]), e), id);
      } else {
        NextKeepsId(None, e);
        AtOfAppend(turns, NextTurn(None, e), id);
      }
    }
  }

  lemma {:induction false} FoldIsLocal(s: State, t: State, log: seq<Event>, id: string)
    requires Select(s.turns, id) == Select(t.turns, id)
    ensures Select(Fold(s, log).turns, id) == Select(Fold(t, EventsOf(log, id)).turns, id)
    decreases |log|
  {
    hide NextTurn, ReduceTurns, Select;
    if log != [] {
      var e, rest := log[0], log[1..];
      ReduceIsLocal(s.turns, e, id);
      if e.turn == id {
        ReduceIsLocal(t.turns, e, id);
        FoldIsLocal(Reduce(s, e), Reduce(t, e), rest, id);
        assert EventsOf(log, id)[1..] == EventsOf(rest, id);
      } else {
        FoldIsLocal(Reduce(s, e), t, rest, id);
        assert EventsOf(log, id) == EventsOf(rest, id);
      }
    }
  }

  /** The final state of a turn depends only on the events naming it: folding the whole log and
      selecting the turn equals folding the filtered log and selecting it. */
  lemma TurnDependsOnItsEvents(log: seq<Event>, id: string)
    ensures Select(Fold(EMPTY, log).turns, id) == Select(Fold(EMPTY, EventsOf(log, id)).turns, id)
  {
    FoldIsLocal(EMPTY, EMPTY, log, id);
  }

  /** Events of distinct turns commute, up to the order of the turn list. */
  lemma DistinctTurnsCommute(s: State, a: Event, b: Event, id: string)
    requires a.turn != b.turn
    ensures Select(Reduce(Reduce(s, a), b).turns, id) == Select(Reduce(Reduce(s, b), a).turns, id)
  {
    hide NextTurn, ReduceTurns, Select;
    ReduceIsLocal(s.turns, a, id);
    ReduceIsLocal(s.turns, b, id);
    ReduceIsLocal(Reduce(s, a).turns, b, id);
    ReduceIsLocal(Reduce(s, b).turns, a, id);
  }

  /** Two logs that agree on every turn's events, in their order, agree on every turn. */
  lemma InterleavingsAgree(first: seq<Event>, second: seq<Event>, id: string)
    requires EventsOf(first, id) == EventsOf(second, id)
    ensures Select(Fold(EMPTY, first).turns, id) == Select(Fold(EMPTY, second).turns, id)
  {
    TurnDependsOnItsEvents(first, id);
    TurnDependsOnItsEvents(second, id);
  }

  // ---------- the text of a page ----------

  /** The text shown for one iteration of a turn; none before its page exists. */
  function TextOf(turn: Option<Turn>, iteration: int): string {
    if turn.None? then "" else
      var k := PageAt(turn.value.pages, iteration);
      if k < |turn.value.pages| then turn.value.pages[k].content else ""
  }

  /** A delta extends the text; a completed model call or a plan replaces it, if it has any. */
  function NextText(text: string, e: Event): string {
    if e.kind == TextDelta then text + e.content
    else if e.kind == ModelCompleted || e.kind == ToolCallsPlanned then Or(e.content, text)
    else text
  }

  /** The text written by the events of one turn and one iteration. */
  function Written(text: string, log: seq<Event>, id: string, iteration: int): string
    decreases |log|
  {
    if log == [] then text
    else Written(if NamesTurn(log[0]) && log[0].turn == id && log[0].iteration == iteration then NextText(text, log[0]) else text,
                 log[1..], id, iteration)
  }

  lemma {:induction false} PlanKeepsText(page: Page, calls: seq<PlannedCall>)
    ensures PlanTools(page, calls).content == page.content
    decreases |calls|
  {
    hide PlannedTool, ToolIn;
    if calls != [] && !(calls[0].id == "" && calls[0].name == "") {
      var k := ToolSlot(page.toolSteps, calls[0].id);
      PlanKeepsText(WithTool(page, k, PlannedTool(ToolIn(page, k, calls[0].id), calls[0])), calls[1..]);
    } else if calls != [] {
      PlanKeepsText(page, calls[1..]);
    }
  }

  lemma PageText(page: Page, e: Event)
    requires OnPage(e.kind)
    ensures ApplyToPage(Filled(page, e), e).content == NextText(page.content, e)
    ensures ApplyToPage(Filled(page, e), e).iteration == page.iteration
  {
    hide PlanTools, StartedTool, CompletedTool, UpdatedTool, StartedModel, CompletedModel, ToolSlot, ModelAt;
    var filled := Filled(page, e);
    var text := filled.(content := Or(e.content, filled.content), narration := Or(e.narration, filled.narration));
    PlanKeepsText(text, e.planned);
    PlanKeepsIteration(text, e.planned);
  }

  lemma {:induction false} PlanKeepsIteration(page: Page, calls: seq<PlannedCall>)
    ensures PlanTools(page, calls).iteration == page.iteration
    decreases |calls|
  {
    hide PlannedTool, ToolIn;
    if calls != [] && !(calls[0].id == "" && calls[0].name == "") {
      var k := ToolSlot(page.toolSteps, calls[0].id);
      PlanKeepsIteration(WithTool(page, k, PlannedTool(ToolIn(page, k, calls[0].id), calls[0])), calls[1..]);
    } else if calls != [] {
      PlanKeepsIteration(page, calls[1..]);
    }
  }

  lemma PageAtUpdate(pages: seq<Page>, k: nat, page: Page, iteration: int)
    requires k < |pages| && page.iteration == pages[k].iteration
    ensures PageAt(pages[k := page], iteration) == PageAt(pages, iteration)
  {
    var all := pages[k := page];
    assert forall i | 0 <= i < |pages| :: all[i].iteration == pages[i].iteration;
    var before, after := PageAt(pages, iteration), PageAt(all, iteration);
    assert after < |pages| ==> all[after].iteration == pages[after].iteration;
    assert before < |pages| ==> all[before].iteration == pages[before].iteration;
  }

  lemma PageAtAppend(pages: seq<Page>, page: Page, iteration: int)
    ensures PageAt(pages + [page], iteration)
         == if PageAt(pages, iteration) < |pages| || page.iteration == iteration then PageAt(pages, iteration) else |pages| + 1
  {
    var k, all := PageAt(pages, iteration), pages + [page];
    assert all[|pages|] == page && forall i | 0 <= i < |pages| :: all[i] == pages[i];
    var first := PageAt(all, iteration);
    assert !(first < k);
    assert k < |pages| ==> !(k < first);
  }

  lemma PageTextStays(turn: Turn, e: Event, iteration: int)
    requires OnPage(e.kind)
    ensures TextOf(Some(WithPage(turn, e)), iteration)
         == if e.iteration == iteration then NextText(TextOf(Some(turn), iteration), e) else TextOf(Some(turn), iteration)
  {
    hide ApplyToPage, Filled, NextText;
    var k := PageAt(turn.pages, e.iteration);
    var page := if k < |turn.pages| then turn.pages[k] else NewPage(e);
    PageText(page, e);
    var page' := ApplyToPage(Filled(page, e), e);
    if k < |turn.pages| {
      PageAtUpdate(turn.pages, k, page', iteration);
    } else {
      PageAtAppend(turn.pages, page', iteration);
    }
  }

  lemma LinkKeepsPages(turn: Turn, e: Event)
    ensures var pages := Linked(turn, e).pages;
            && |pages| == |turn.pages|
            && forall i | 0 <= i < |pages| :: pages[i].iteration == turn.pages[i].iteration && pages[i].content == turn.pages[i].content
  {
    hide LinkTools;
  }

  lemma LinkKeepsText(turn: Turn, e: Event, iteration: int)
    ensures TextOf(Some(Linked(turn, e)), iteration) == TextOf(Some(turn), iteration)
  {
    var pages := Linked(turn, e).pages;
    LinkKeepsPages(turn, e);
    hide Linked, LinkTools, LinkPages;
    var before, after := PageAt(turn.pages, iteration), PageAt(pages, iteration);
    assert after < |pages| ==> pages[after].iteration == turn.pages[after].iteration;
    assert before < |pages| ==> pages[before].iteration == turn.pages[before].iteration;
  }

  lemma OthersKeepPages(turn: Turn, e: Event)
    requires !OnPage(e.kind) && e.kind != LinkedConversation
    ensures ApplyToTurn(turn, e).pages == turn.pages
  {
    hide ApplyToTurn, Blank, MessageAt, UserAt;
    if e.kind == Assistant {
      ApplySaid(turn, e);
    } else {
      OthersChange(turn, e);
    }
  }

  lemma ApplyText(turn: Turn, e: Event, iteration: int)
    ensures TextOf(Some(ApplyToTurn(turn, e)), iteration)
         == if e.iteration == iteration then NextText(TextOf(Some(turn), iteration), e) else TextOf(Some(turn), iteration)
  {
    hide ApplyToTurn, WithPage, Linked, NextText, TextOf;
    OtherText(TextOf(Some(turn), iteration), e);
    if OnPage(e.kind) {
      PageTextStays(turn, e, iteration);
      ApplyOnPage(turn, e);
      SamePagesSameText(WithPage(turn, e), ApplyToTurn(turn, e), iteration);
    } else if e.kind == LinkedConversation {
      LinkKeepsText(turn, e, iteration);
      ApplyLink(turn, e);
    } else {
      OthersKeepPages(turn, e);
      SamePagesSameText(turn, ApplyToTurn(turn, e), iteration);
    }
  }

  lemma NextTurnText(found: Option<Turn>, e: Event, iteration: int)
    ensures TextOf(Some(NextTurn(found, e)), iteration)
         == if e.iteration == iteration then NextText(TextOf(found, iteration), e) else TextOf(found, iteration)
  {
    hide ApplyToTurn, NextText, TextOf, Restarted, Requeued, Begun, Enqueued;
    var turn := if found.Some? then Touched(found.value, e) else NewTurn(e.turn, Running, e.created);
    StartsKeepText(found, e, iteration);
    ApplyText(turn, e, iteration);
    OtherText(TextOf(found, iteration), e);
  }

  lemma SamePagesSameText(a: Turn, b: Turn, iteration: int)
    requires a.pages == b.pages
    ensures TextOf(Some(a), iteration) == TextOf(Some(b), iteration)
  {
  }

  lemma OtherText(text: string, e: Event)
    ensures !OnPage(e.kind) ==> NextText(text, e) == text
  {
  }

  /** Starting or queueing a turn writes no text. */
  lemma StartsKeepText(found: Option<Turn>, e: Event, iteration: int)
    ensures found.Some? ==>
              && TextOf(Some(Restarted(found.value, e)), iteration) == TextOf(found, iteration)
              && TextOf(Some(Requeued(found.value, e)), iteration) == TextOf(found, iteration)
    ensures TextOf(Some(Begun(e)), iteration) == "" && TextOf(Some(Enqueued(e)), iteration) == ""
    ensures found.Some? ==> TextOf(Some(Touched(found.value, e)), iteration) == TextOf(found, iteration)
    ensures TextOf(Some(NewTurn(e.turn, Running, e.created)), iteration) == "" && TextOf(None, iteration) == ""
  {
  }

  lemma ApplyOnPage(turn: Turn, e: Event)
    requires OnPage(e.kind)
    ensures ApplyToTurn(turn, e).pages == WithPage(turn, e).pages
  {
    hide WithPage;
  }

  lemma ApplyLink(turn: Turn, e: Event)
    requires e.kind == LinkedConversation
    ensures ApplyToTurn(turn, e) == Linked(turn, e)
  {
    hide Linked;
  }

  /** After any log the text of every page is what its own events wrote, in order: the last text
      that replaced it followed by the deltas since. No other event of any kind touches it. */
  lemma {:induction false} TextIsWhatWasWritten(s: State, log: seq<Event>, id: string, iteration: int)
    ensures TextOf(Select(Fold(s, log).turns, id), iteration) == Written(TextOf(Select(s.turns, id), iteration), log, id, iteration)
    decreases |log|
  {
    hide ReduceTurns, NextTurn, Select, TextOf, NextText;
    if log != [] {
      ReduceIsLocal(s.turns, log[0], id);
      NextTurnText(Select(s.turns, id), log[0], iteration);
      TextIsWhatWasWritten(Reduce(s, log[0]), log[1..], id, iteration);
    }
  }

  // ---------- every reachable state is well formed ----------

  predicate UniqueModels(steps: seq<ModelStep>) {
    forall i, j | 0 <= i < j < |steps| :: steps[i].id == steps[j].id ==> steps[i].id == ""
  }

  predicate UniqueTools(steps: seq<ToolStep>) {
    forall i, j | 0 <= i < j < |steps| :: steps[i].id == steps[j].id ==> steps[i].id == ""
  }

  predicate WellFormedPage(page: Page) {
    UniqueModels(page.modelSteps) && UniqueTools(page.toolSteps)
  }

  predicate UniquePages(pages: seq<Page>) {
    && (forall i, j | 0 <= i < j < |pages| :: pages[i].iteration != pages[j].iteration)
    && (forall i | 0 <= i < |pages| :: WellFormedPage(pages[i]))
  }

  predicate UniqueMessages(messages: seq<Message>) {
    && (forall i, j | 0 <= i < j < |messages| :: messages[i].id != messages[j].id)
    && (forall i | 0 <= i < |messages| :: messages[i].id != "")
  }

  predicate UniqueLinks(links: seq<Link>) {
    forall i, j | 0 <= i < j < |links| :: links[i].conversation != links[j].conversation
  }

  predicate WellFormedTurn(turn: Turn) {
    && turn.id != ""
    && UniquePages(turn.pages) && (turn.pages != [] ==> turn.active < |turn.pages|)
    && UniqueMessages(turn.messages) && UniqueLinks(turn.links)
    && (turn.user.Shared? ==> turn.user.index < |turn.users|)
  }

  predicate UniqueTurns(turns: seq<Turn>) {
    && (forall i, j | 0 <= i < j < |turns| :: turns[i].id != turns[j].id)
    && (forall i | 0 <= i < |turns| :: WellFormedTurn(turns[i]))
  }

  predicate UniqueFeeds(feeds: seq<Feed>) {
    && (forall i, j | 0 <= i < j < |feeds| :: feeds[i].id != feeds[j].id)
    && (forall i | 0 <= i < |feeds| :: feeds[i].id != "")
  }

  predicate WellFormed(s: State) {
    UniqueTurns(s.turns) && UniqueFeeds(s.feeds)
  }

  lemma WithToolKeeps(page: Page, id: string, step: ToolStep)
    requires WellFormedPage(page)
    requires var k := ToolSlot(page.toolSteps, id); step.id == ToolIn(page, k, id).id
    ensures var page' := WithTool(page, ToolSlot(page.toolSteps, id), step);
            WellFormedPage(page') && page'.iteration == page.iteration
  {
  }

  lemma {:induction false} PlanToolsKeeps(page: Page, calls: seq<PlannedCall>)
    requires WellFormedPage(page)
    ensures WellFormedPage(PlanTools(page, calls)) && PlanTools(page, calls).iteration == page.iteration
    decreases |calls|
  {
    hide WellFormedPage, WithTool;
    if calls != [] {
      var call := calls[0];
      if call.id == "" && call.name == "" {
        PlanToolsKeeps(page, calls[1..]);
      } else {
        var k := ToolSlot(page.toolSteps, call.id);
        var step := PlannedTool(ToolIn(page, k, call.id), call);
        WithToolKeeps(page, call.id, step);
        PlanToolsKeeps(WithTool(page, k, step), calls[1..]);
      }
    }
  }

  lemma OnToolKeeps(page: Page, e: Event)
    requires WellFormedPage(page)
    ensures WellFormedPage(OnTool(page, e)) && OnTool(page, e).iteration == page.iteration
  {
    hide WellFormedPage, WithTool;
    var k := ToolSlot(page.toolSteps, ToolId(e));
    var step := ToolIn(page, k, ToolId(e));
    WithToolKeeps(page, ToolId(e), if e.kind == ToolCallStarted then StartedTool(step, e)
                                   else if e.kind == ToolCallCompleted then CompletedTool(step, e) else UpdatedTool(step, e));
  }

  lemma OnModelKeeps(page: Page, e: Event)
    requires WellFormedPage(page)
    ensures WellFormedPage(OnModel(page, e)) && OnModel(page, e).iteration == page.iteration
  {
    hide UniqueTools;
    if e.kind == ModelStarted {
      var k := ModelSlot(page.modelSteps, ModelId(e));
      var step := if k < |page.modelSteps| then page.modelSteps[k] else ModelStep(ModelId(e), "", "", "", "");
      WithModelKeeps(page, k, ModelId(e), StartedModel(step, e));
    } else {
      var k := ModelAt(page.modelSteps, ModelId(e));
      if k < |page.modelSteps| {
        WithModelKeeps(page, k, ModelId(e), CompletedModel(page.modelSteps[k], e));
      }
    }
  }

  lemma WithModelKeeps(page: Page, k: nat, id: string, step: ModelStep)
    requires WellFormedPage(page) && k <= |page.modelSteps| && step.id == id
    requires if k < |page.modelSteps| then page.modelSteps[k].id == id
             else id == "" || forall i | 0 <= i < |page.modelSteps| :: page.modelSteps[i].id != id
    ensures WellFormedPage(WithModel(page, k, step)) && WithModel(page, k, step).iteration == page.iteration
  {
  }

  lemma ApplyToPageKeeps(page: Page, e: Event)
    requires OnPage(e.kind) && WellFormedPage(page)
    ensures WellFormedPage(ApplyToPage(page, e)) && ApplyToPage(page, e).iteration == page.iteration
  {
    hide OnTool, OnModel, PlanTools;
    match e.kind
    case ModelStarted => OnModelKeeps(page, e);
    case ModelCompleted => OnModelKeeps(page, e);
    case Narration =>
    case TextDelta =>
    case ReasoningDelta =>
    case ToolCallsPlanned =>
      PlanToolsKeeps(page.(content := Or(e.content, page.content), narration := Or(e.narration, page.narration)), e.planned);
    case _ => OnToolKeeps(page, e);
  }

  lemma WithPageKeeps(turn: Turn, e: Event)
    requires OnPage(e.kind) && WellFormedTurn(turn)
    ensures WellFormedTurn(WithPage(turn, e))
  {
    hide ApplyToPage, UniqueMessages, UniqueLinks, UniqueModels, UniqueTools;
    var k := PageAt(turn.pages, e.iteration);
    FilledKeeps(if k < |turn.pages| then turn.pages[k] else NewPage(e), e);
    ApplyToPageKeeps(Filled(if k < |turn.pages| then turn.pages[k] else NewPage(e), e), e);
  }

  lemma FilledKeeps(page: Page, e: Event)
    ensures Filled(page, e).iteration == page.iteration
    ensures WellFormedPage(page) ==> WellFormedPage(Filled(page, e))
    ensures WellFormedPage(NewPage(e))
  {
  }

  lemma LinkedKeeps(turn: Turn, e: Event)
    requires WellFormedTurn(turn)
    ensures WellFormedTurn(Linked(turn, e))
  {
    hide UniqueMessages;
    var pages := LinkPages(turn.pages, e);
    forall i | 0 <= i < |pages| ensures WellFormedPage(pages[i]) && pages[i].iteration == turn.pages[i].iteration {
      assert WellFormedPage(turn.pages[i]);
    }
  }

  lemma AnsweredKeeps(turn: Turn, e: Event)
    requires WellFormedTurn(turn) && MessageId(e) != ""
    ensures WellFormedTurn(Answered(turn, e))
  {
    hide UniquePages, UniqueLinks;
  }

  lemma SpokenKeeps(turn: Turn, e: Event)
    requires WellFormedTurn(turn)
    ensures WellFormedTurn(Spoken(turn, e))
  {
    hide UniquePages, UniqueMessages, UniqueLinks;
  }

  lemma ApplyToTurnKeeps(turn: Turn, e: Event)
    requires WellFormedTurn(turn)
    ensures WellFormedTurn(ApplyToTurn(turn, e))
  {
    hide ApplyToTurn, WithPage, Linked, Said, UniquePages, UniqueMessages, UniqueLinks;
    if OnPage(e.kind) {
      WithPageKeeps(turn, e);
      OnlyNarrates(turn, e);
    } else if e.kind == LinkedConversation {
      LinkedKeeps(turn, e);
      ApplyLink(turn, e);
    } else if e.kind == Assistant {
      SaidKeepsWellFormed(turn, e);
      ApplySaid(turn, e);
    } else {
      OthersKeepLists(turn, e);
    }
  }

  lemma OnlyNarrates(turn: Turn, e: Event)
    requires OnPage(e.kind)
    ensures ApplyToTurn(turn, e) == WithPage(turn, e).(narration := ApplyToTurn(turn, e).narration)
  {
    hide WithPage;
  }

  lemma ApplySaid(turn: Turn, e: Event)
    requires e.kind == Assistant
    ensures ApplyToTurn(turn, e) == Said(turn, e)
  {
    hide Said;
  }

  lemma OthersKeepLists(turn: Turn, e: Event)
    requires !OnPage(e.kind) && e.kind != LinkedConversation && e.kind != Assistant
    ensures var turn' := ApplyToTurn(turn, e);
            && turn'.id == turn.id && turn'.pages == turn.pages && turn'.active == turn.active
            && turn'.messages == turn.messages && turn'.links == turn.links
            && turn'.user == turn.user && turn'.users == turn.users
  {
    hide ApplyToTurn;
    OthersChange(turn, e);
  }

  /** The other kinds touch the status, the elicitation and the planner at most. */
  lemma OthersChange(turn: Turn, e: Event)
    requires !OnPage(e.kind) && e.kind != LinkedConversation && e.kind != Assistant
    ensures var turn' := ApplyToTurn(turn, e);
            turn' == turn.(status := turn'.status, elicitation := turn'.elicitation, planner := turn'.planner)
  {
    hide ApplyToTurn;
    if e.kind == TurnCompleted || e.kind == TurnFailed || e.kind == TurnCanceled {
      var status := if e.kind == TurnCompleted then Completed else if e.kind == TurnFailed then Failed else Canceled;
      ApplyEnding(turn, e, status);
      FinalizedChanges(turn, status);
    } else {
      ApplyOther(turn, e);
      AskedChanges(turn, e);
      ResolvedChanges(turn, e);
      PlannedChanges(turn, e);
    }
  }

  lemma ApplyEnding(turn: Turn, e: Event, status: TurnStatus)
    requires (e.kind == TurnCompleted && status == Completed) || (e.kind == TurnFailed && status == Failed)
             || (e.kind == TurnCanceled && status == Canceled)
    ensures ApplyToTurn(turn, e) == Finalized(turn, status)
  {
    hide Finalized;
  }

  lemma ApplyOther(turn: Turn, e: Event)
    requires !OnPage(e.kind) && e.kind != LinkedConversation && e.kind != Assistant
    requires e.kind != TurnCompleted && e.kind != TurnFailed && e.kind != TurnCanceled
    ensures var turn' := ApplyToTurn(turn, e);
            turn' == Asked(turn, e) || turn' == Resolved(turn, e) || turn' == Planned(turn, e) || turn' == turn
  {
    hide Asked, Resolved, Planned, WithPage, Linked, Said;
  }

  lemma AskedChanges(turn: Turn, e: Event)
    ensures var turn' := Asked(turn, e); turn' == turn.(status := turn'.status, elicitation := turn'.elicitation)
  {
  }

  lemma ResolvedChanges(turn: Turn, e: Event)
    ensures var turn' := Resolved(turn, e); turn' == turn.(status := turn'.status, elicitation := turn'.elicitation)
  {
    hide Resolution;
  }

  lemma FinalizedChanges(turn: Turn, status: TurnStatus)
    ensures Finalized(turn, status) == turn.(status := Finalized(turn, status).status)
  {
  }

  lemma PlannedChanges(turn: Turn, e: Event)
    ensures Planned(turn, e) == turn.(planner := Planned(turn, e).planner)
  {
  }

  lemma SaidKeepsWellFormed(turn: Turn, e: Event)
    requires WellFormedTurn(turn)
    ensures WellFormedTurn(Said(turn, e))
  {
    hide WellFormedTurn, Answered, Spoken, Blank;
    if MessageId(e) != "" {
      AnsweredKeeps(turn, e);
    }
    SpokenKeeps(turn, e);
  }

  lemma NextTurnKeeps(found: Option<Turn>, e: Event)
    requires e.turn != "" && (found.Some? ==> WellFormedTurn(found.value))
    ensures WellFormedTurn(NextTurn(found, e))
  {
    hide ApplyToTurn, WellFormedPage;
    assert UniquePages([]) && UniqueMessages([]) && UniqueLinks([]);
    hide UniquePages, UniqueMessages, UniqueLinks;
    ApplyToTurnKeeps(if found.Some? then Touched(found.value, e) else NewTurn(e.turn, Running, e.created), e);
  }

  lemma {:induction false} WithoutMeans(feeds: seq<Feed>, id: string)
    ensures forall feed :: feed in Without(feeds, id) <==> feed in feeds && feed.id != id
    decreases |feeds|
  {
    if feeds != [] {
      WithoutMeans(feeds[1..], id);
      assert feeds == [feeds[0]] + feeds[1..];
    }
  }

  lemma {:induction false} WithoutKeeps(feeds: seq<Feed>, id: string)
    requires UniqueFeeds(feeds)
    ensures UniqueFeeds(Without(feeds, id))
    decreases |feeds|
  {
    if feeds != [] {
      var first, rest := feeds[0], feeds[1..];
      assert feeds == [first] + rest;
      RestUnique(first, rest);
      WithoutKeeps(rest, id);
      WithoutMeans(rest, id);
      hide UniqueFeeds;
      if first.id == id {
        assert Without(feeds, id) == Without(rest, id);
      } else {
        assert Without(feeds, id) == [first] + Without(rest, id);
        ConsUnique(first, Without(rest, id));
      }
    }
  }

  lemma RestUnique(first: Feed, rest: seq<Feed>)
    requires UniqueFeeds([first] + rest)
    ensures UniqueFeeds(rest) && first.id != "" && forall feed | feed in rest :: feed.id != first.id
  {
    var feeds := [first] + rest;
    assert feeds[0] == first && forall i | 0 <= i < |rest| :: feeds[i + 1] == rest[i];
    forall i, j | 0 <= i < j < |rest| ensures rest[i].id != rest[j].id {
      assert feeds[i + 1].id != feeds[j + 1].id;
    }
  }

  lemma ConsUnique(first: Feed, rest: seq<Feed>)
    requires UniqueFeeds(rest) && first.id != "" && forall feed | feed in rest :: feed.id != first.id
    ensures UniqueFeeds([first] + rest)
  {
    var feeds := [first] + rest;
    assert forall i | 0 < i < |feeds| :: feeds[i] == rest[i - 1] && feeds[i] in rest;
  }

  lemma ReduceTurnsKeeps(turns: seq<Turn>, e: Event)
    requires UniqueTurns(turns)
    ensures UniqueTurns(ReduceTurns(turns, e))
  {
    hide NextTurn, WellFormedTurn;
    if NamesTurn(e) {
      var k := TurnAt(turns, e.turn);
      var found := if k < |turns| then Some(turns[k]) else None;
      NextTurnKeeps(found, e);
      NextKeepsId(found, e);
    }
  }

  lemma ReduceFeedsKeeps(feeds: seq<Feed>, e: Event)
    requires UniqueFeeds(feeds)
    ensures UniqueFeeds(ReduceFeeds(feeds, e))
  {
    WithoutKeeps(feeds, e.feed);
  }

  lemma ReduceKeepsWellFormed(s: State, e: Event)
    requires WellFormed(s)
    ensures WellFormed(Reduce(s, e))
  {
    hide ReduceTurns, ReduceFeeds, UniqueTurns, UniqueFeeds;
    ReduceTurnsKeeps(s.turns, e);
    ReduceFeedsKeeps(s.feeds, e);
  }

  /** Every state folded from the empty conversation has distinct, nonempty turn ids; in each turn
      distinct page iterations, an active page that exists, distinct message ids and links; in
      each page distinct nonempty model-call and tool-call ids; and distinct, nonempty feed ids. */
  lemma {:induction false} ReachableIsWellFormed(s: State, log: seq<Event>)
    requires WellFormed(s)
    ensures WellFormed(Fold(s, log))
    decreases |log|
  {
    hide WellFormed, Reduce;
    if log != [] {
      ReduceKeepsWellFormed(s, log[0]);
      ReachableIsWellFormed(Reduce(s, log[0]), log[1..]);
    }
  }

  // ---------- feeds ----------

  predicate Activates(e: Event, id: string) { e.kind == FeedActive && e.feed == id }
  predicate Deactivates(e: Event, id: string) { e.kind == FeedInactive && e.feed == id }

  predicate HasFeed(feeds: seq<Feed>, id: string) {
    exists k | 0 <= k < |feeds| :: feeds[k].id == id
  }

  predicate LastActivation(log: seq<Event>, i: nat, id: string) {
    i < |log| && Activates(log[i], id) && forall j | i < j < |log| :: !Deactivates(log[j], id)
  }

  /** The last lifecycle event of this feed, if any, activates it. */
  predicate EndsActive(log: seq<Event>, id: string) {
    exists i: nat | i < |log| :: LastActivation(log, i, id)
  }

  predicate NeverDeactivated(log: seq<Event>, id: string) {
    forall j | 0 <= j < |log| :: !Deactivates(log[j], id)
  }

  lemma ReduceHasFeed(s: State, e: Event, id: string)
    requires id != ""
    ensures HasFeed(Reduce(s, e).feeds, id) <==> Activates(e, id) || (HasFeed(s.feeds, id) && !Deactivates(e, id))
  {
    WithoutMeans(s.feeds, e.feed);
    var feeds, left := s.feeds, Without(s.feeds, e.feed);
    if e.kind == FeedInactive && e.feed != "" {
      if HasFeed(left, id) {
        var k :| 0 <= k < |left| && left[k].id == id;
        assert left[k] in left && left[k] in feeds;
      }
      if HasFeed(feeds, id) && e.feed != id {
        var k :| 0 <= k < |feeds| && feeds[k].id == id;
        assert feeds[k] in feeds && feeds[k] in left;
      }
    } else if e.kind == FeedActive && e.feed != "" {
      var feeds' := Reduce(s, e).feeds;
      var k := FeedAt(feeds, e.feed);
      assert k < |feeds'| && feeds'[k].id == e.feed;
      assert forall i | 0 <= i < |feeds| :: feeds'[i].id == feeds[i].id;
    }
  }

  /** After any log a feed is in the list exactly when its last lifecycle event activated it; the
      list is well formed, so it is there once. */
  lemma {:induction false} FeedsFollowTheirLastEvent(s: State, log: seq<Event>, id: string)
    requires id != ""
    ensures HasFeed(Fold(s, log).feeds, id) <==> EndsActive(log, id) || (HasFeed(s.feeds, id) && NeverDeactivated(log, id))
    decreases |log|
  {
    hide Reduce, HasFeed, Activates, Deactivates;
    if log != [] {
      var e, rest := log[0], log[1..];
      ReduceHasFeed(s, e, id);
      FeedsFollowTheirLastEvent(Reduce(s, e), rest, id);
      EndsCons(e, rest, id);
      assert log == [e] + rest;
    }
  }

  lemma Shifted(e: Event, rest: seq<Event>, i: nat, id: string)
    ensures LastActivation([e] + rest, i + 1, id) <==> LastActivation(rest, i, id)
  {
    hide Activates, Deactivates;
    var log := [e] + rest;
    if LastActivation(log, i + 1, id) {
      forall j | i < j < |rest| ensures !Deactivates(rest[j], id) {
        assert log[j + 1] == rest[j];
      }
    }
    if LastActivation(rest, i, id) {
      forall j | i + 1 < j < |log| ensures !Deactivates(log[j], id) {
        assert log[j] == rest[j - 1];
      }
    }
  }

  lemma NeverCons(e: Event, rest: seq<Event>, id: string)
    ensures NeverDeactivated([e] + rest, id) <==> !Deactivates(e, id) && NeverDeactivated(rest, id)
  {
    hide Deactivates;
    var log := [e] + rest;
    assert log[0] == e && log[1..] == rest;
    if NeverDeactivated(log, id) {
      forall j | 0 <= j < |rest| ensures !Deactivates(rest[j], id) {
        assert log[j + 1] == rest[j];
      }
    }
  }

  lemma EndsCons(e: Event, rest: seq<Event>, id: string)
    ensures EndsActive([e] + rest, id) <==> EndsActive(rest, id) || (Activates(e, id) && NeverDeactivated(rest, id))
    ensures NeverDeactivated([e] + rest, id) <==> !Deactivates(e, id) && NeverDeactivated(rest, id)
  {
    var log := [e] + rest;
    NeverCons(e, rest, id);
    assert LastActivation(log, 0, id) <==> Activates(e, id) && NeverDeactivated(rest, id) by {
      FirstActivation(e, rest, id);
    }
    hide LastActivation, NeverDeactivated, Activates;
    if EndsActive(rest, id) {
      var i: nat :| i < |rest| && LastActivation(rest, i, id);
      Shifted(e, rest, i, id);
    }
    if EndsActive(log, id) {
      var i: nat :| i < |log| && LastActivation(log, i, id);
      if i > 0 {
        Shifted(e, rest, i - 1, id);
      }
    }
  }

  lemma FirstActivation(e: Event, rest: seq<Event>, id: string)
    ensures LastActivation([e] + rest, 0, id) <==> Activates(e, id) && NeverDeactivated(rest, id)
  {
    hide Activates, Deactivates;
    var log := [e] + rest;
    if LastActivation(log, 0, id) {
      forall j | 0 <= j < |rest| ensures !Deactivates(rest[j], id) {
        assert log[j + 1] == rest[j];
      }
    }
  }

  // ---------- turn status ----------

  predicate Reopens(e: Event) {
    e.kind == TurnStarted || e.kind == ElicitationRequested
  }

  /** A failed or canceled turn leaves that status exactly when it is started again or asks for
      input; a later terminal event does not change it. */
  lemma FailureIsLeftExactlyByReopening(turn: Turn, e: Event)
    requires turn.status == Failed || turn.status == Canceled
    ensures NextTurn(Some(turn), e).status != turn.status <==> Reopens(e)
  {
    hide ApplyToTurn, Renamed;
    StatusAfter(Touched(turn, e), e);
    RenamedKeepsId(turn.(status := Running, startedBy := Or(StartedBy(e), turn.startedBy)), e.userMessage);
  }

  /** Over a whole log: once failed or canceled, and not reopened, a turn stays so. */
  lemma {:induction false} FailureIsKept(s: State, log: seq<Event>, id: string)
    requires Select(s.turns, id).Some? && Select(s.turns, id).value.status in {Failed, Canceled}
    requires forall e | e in log && e.turn == id :: !Reopens(e)
    ensures Select(Fold(s, log).turns, id).Some? && Select(Fold(s, log).turns, id).value.status == Select(s.turns, id).value.status
    decreases |log|
  {
    hide NextTurn, ReduceTurns;
    if log != [] {
      ReduceIsLocal(s.turns, log[0], id);
      assert log[0] in log;
      FailureIsLeftExactlyByReopening(Select(s.turns, id).value, log[0]);
      FailureIsKept(Reduce(s, log[0]), log[1..], id);
    }
  }

  /** Completed is not such a status: a later failure replaces it. */
  lemma CompletionIsReplaced(turn: Turn, e: Event)
    requires turn.status == Completed
    ensures NextTurn(Some(turn), e).status ==
              match e.kind
              case TurnStarted => Running
              case TurnFailed => Failed
              case TurnCanceled => Canceled
              case ElicitationRequested => WaitingForUser
              case _ => Completed
  {
    hide ApplyToTurn, Renamed;
    StatusAfter(Touched(turn, e), e);
    RenamedKeepsId(turn.(status := Running, startedBy := Or(StartedBy(e), turn.startedBy)), e.userMessage);
  }

  // ---------- messages ----------

  lemma MessageAtUpdate(messages: seq<Message>, k: nat, message: Message)
    requires MessageAt(messages, message.id) == k
    ensures k < |messages| ==> MessageAt(messages[k := message], message.id) == k
    ensures k == |messages| ==> MessageAt(messages + [message], message.id) == k
  {
    var all := if k < |messages| then messages[k := message] else messages + [message];
    assert all[k] == message && forall i | 0 <= i < k :: all[i] == messages[i] && messages[i].id != message.id;
    var first := MessageAt(all, message.id);
    assert !(first < k) && !(k < first);
  }

  lemma UserAtUpdate(users: seq<UserMessage>, k: nat, message: UserMessage)
    requires UserAt(users, message.id) == k
    ensures k < |users| ==> UserAt(users[k := message], message.id) == k
    ensures k == |users| ==> UserAt(users + [message], message.id) == k
  {
    var all := if k < |users| then users[k := message] else users + [message];
    assert all[k] == message && forall i | 0 <= i < k :: all[i] == users[i] && users[i].id != message.id;
    var first := UserAt(all, message.id);
    assert !(first < k) && !(k < first);
  }

  lemma SaidTwice(turn: Turn, e: Event)
    ensures Said(Said(turn, e), e) == Said(turn, e)
  {
    hide Answered, Spoken, Blank;
    AnsweredTwice(turn, e);
    SpokenTwice(turn, e);
  }

  lemma AnsweredTwice(turn: Turn, e: Event)
    ensures Answered(Answered(turn, e), e) == Answered(turn, e)
  {
    var k := MessageAt(turn.messages, MessageId(e));
    var turn' := Answered(turn, e);
    MessageAtUpdate(turn.messages, k, turn'.messages[k]);
    assert turn'.messages[k := turn'.messages[k]] == turn'.messages;
  }

  lemma SpokenTwice(turn: Turn, e: Event)
    ensures Spoken(Spoken(turn, e), e) == Spoken(turn, e)
  {
    hide FirstAt;
    var message := UserMessage(MessageId(e), e.content);
    if turn.user.Own? && turn.user.message.id == message.id {
    } else if turn.user.Shared? && turn.user.index < |turn.users| && turn.users[turn.user.index].id == message.id {
      SetAgain(turn.users, turn.user.index, message);
    } else {
      var k := UserAt(turn.users, message.id);
      UserAtUpdate(turn.users, k, message);
      SetAgain(turn.users, k, message);
    }
  }

  lemma SetAgain(users: seq<UserMessage>, k: nat, message: UserMessage)
    ensures k < |users| ==> users[k := message][k := message] == users[k := message]
    ensures k == |users| ==> (users + [message])[k := message] == users + [message]
  {
  }

  /** Message events are idempotent: delivered twice they leave what delivering them once leaves. */
  lemma MessagesAreIdempotent(s: State, e: Event)
    requires e.kind == Assistant
    ensures Reduce(Reduce(s, e), e) == Reduce(s, e)
  {
    hide NextTurn;
    if NamesTurn(e) {
      var k := TurnAt(s.turns, e.turn);
      var found := if k < |s.turns| then Some(s.turns[k]) else None;
      var turns' := ReduceTurns(s.turns, e);
      NextKeepsId(found, e);
      if found.Some? {
        AtOfUpdate(s.turns, k, turns'[k], e.turn);
      } else {
        AtOfAppend(s.turns, turns'[k], e.turn);
      }
      TurnTwice(found, e);
      assert turns'[k := turns'[k]] == turns';
    }
  }

  lemma TurnTwice(found: Option<Turn>, e: Event)
    requires e.kind == Assistant
    ensures NextTurn(Some(NextTurn(found, e)), e) == NextTurn(found, e)
  {
    hide Said;
    var turn := if found.Some? then Touched(found.value, e) else NewTurn(e.turn, Running, e.created);
    SaidKeeps(turn, e);
    SaidTwice(turn, e);
    assert Touched(Said(turn, e), e) == Said(turn, e);
  }

  lemma SaidKeeps(turn: Turn, e: Event)
    ensures var turn' := Said(turn, e);
            turn'.id == turn.id && turn'.status == turn.status && turn'.created == turn.created
  {
  }

  /** What each kind of event makes of the status. */
  lemma StatusAfter(turn: Turn, e: Event)
    ensures ApplyToTurn(turn, e).status ==
              match e.kind
              case TurnCompleted => Finalized(turn, Completed).status
              case TurnFailed => Finalized(turn, Failed).status
              case TurnCanceled => Finalized(turn, Canceled).status
              case ElicitationRequested => WaitingForUser
              case ElicitationResolved => if turn.status == WaitingForUser then Running else turn.status
              case _ => turn.status
  {
    hide WithPage, Said, LinkPages;
    if OnPage(e.kind) {
      PageKeepsTurn(turn, e);
    } else if e.kind == Assistant {
      SaidKeeps(turn, e);
    }
  }

  predicate UniqueUsers(users: seq<UserMessage>) {
    forall i, j | 0 <= i < j < |users| :: users[i].id != users[j].id
  }

  /** Starting an existing turn again renames its user message; a shared one is renamed in the list
      too, where another message may already have the name. */
  predicate Collides(turn: Turn, e: Event) {
    && e.kind == TurnStarted && e.userMessage != "" && turn.user.Shared?
    && exists k | 0 <= k < |turn.users| && k != turn.user.index :: turn.users[k].id == e.userMessage
  }

  /** A turn's user messages keep distinct ids under every event but such a renaming. */
  lemma UsersStayUnique(turn: Turn, e: Event)
    requires WellFormedTurn(turn) && UniqueUsers(turn.users)
    ensures UniqueUsers(NextTurn(Some(turn), e).users) <==> !Collides(turn, e)
  {
    hide UniquePages, UniqueMessages, UniqueLinks, WithPage, Answered, Linked;
    if OnPage(e.kind) {
      PageKeepsTurn(Touched(turn, e), e);
    } else if e.kind == TurnStarted {
      RenamedUsers(turn, e);
    } else {
      OthersKeepUsers(turn, e);
    }
  }

  const NO_EVENT := Event(Ignored, "", "", "", 0, "", "", 0, "", "", "", 0, "", "", "", "", "", "", "", "", false,
                          "", "", None, [], "", "", "", "", "", "", "", "", "", 0, "", "", false, 0, None)

  function UserSays(id: string): Event {
    NO_EVENT.(kind := Assistant, turn := "t", role := "user", message := id, content := "hello")
  }

  const RENAMING := NO_EVENT.(kind := TurnStarted, turn := "t", userMessage := "u2")

  /** Such a turn is reached: two user messages, then the turn is started again by the second. */
  lemma UserIdsCanRepeat()
    ensures var turn := Select(Fold(EMPTY, [UserSays("u1"), UserSays("u2"), RENAMING]).turns, "t");
            turn.Some? && |turn.value.users| == 2 && turn.value.users[0].id == "u2" && turn.value.users[1].id == "u2"
  {
    var first, second := UserSays("u1"), UserSays("u2");
    hide Fold, ReduceTurns, ReduceFeeds, Select, NextTurn;
    FoldThree(EMPTY, first, second, RENAMING);
    var s1 := Reduce(EMPTY, first);
    var s2 := Reduce(s1, second);
    ReduceIsLocal([], first, "t");
    ReduceIsLocal(s1.turns, second, "t");
    ReduceIsLocal(s2.turns, RENAMING, "t");
    NothingSelected("t");
    FirstUser(first);
    SecondUser(second);
    LastRenames();
  }

  lemma LastRenames()
    ensures var turn := NextTurn(Some(SPOKEN_TWICE), RENAMING);
            |turn.users| == 2 && turn.users[0].id == "u2" && turn.users[1].id == "u2"
  {
    hide ApplyToTurn, Requeued;
  }

  lemma NothingSelected(id: string)
    ensures Select([], id) == None
  {
  }

  lemma FoldThree(s: State, a: Event, b: Event, c: Event)
    ensures Fold(s, [a, b, c]) == Reduce(Reduce(Reduce(s, a), b), c)
  {
    hide Reduce;
    assert [a, b, c][1..] == [b, c] && [b, c][1..] == [c] && [c][1..] == [];
    assert Fold(Reduce(Reduce(s, a), b), [c]) == Fold(Reduce(Reduce(Reduce(s, a), b), c), []);
    assert Fold(Reduce(s, a), [b, c]) == Fold(Reduce(Reduce(s, a), b), [c]);
  }

  const SPOKEN_ONCE := NewTurn("t", Running, 0).(users := [UserMessage("u1", "hello")], user := Shared(0))
  const SPOKEN_TWICE := SPOKEN_ONCE.(users := [UserMessage("u1", "hello"), UserMessage("u2", "hello")])

  lemma SaysSomething(turn: Turn, id: string)
    requires id != ""
    ensures ApplyToTurn(turn, UserSays(id)) == Spoken(turn, UserSays(id))
  {
    hide Spoken, Answered;
    assert !Blank("hello") by { assert "hello"[0] !in " \t\r\n"; }
    ApplySaid(turn, UserSays(id));
  }

  lemma FirstUser(e: Event)
    requires e == UserSays("u1")
    ensures NextTurn(None, e) == SPOKEN_ONCE
  {
    hide ApplyToTurn;
    SaysSomething(NewTurn("t", Running, 0), "u1");
    assert UserAt([], "u1") == 0;
  }

  lemma SecondUser(e: Event)
    requires e == UserSays("u2")
    ensures NextTurn(Some(SPOKEN_ONCE), e) == SPOKEN_TWICE
  {
    hide ApplyToTurn, Spoken;
    assert Touched(SPOKEN_ONCE, e) == SPOKEN_ONCE;
    SaysSomething(SPOKEN_ONCE, "u2");
    SpokenBySecond(SPOKEN_ONCE, e);
  }

  lemma SpokenBySecond(turn: Turn, e: Event)
    requires turn.user == Shared(0) && turn.users == [UserMessage("u1", "hello")] && MessageId(e) == "u2" && e.content == "hello"
    ensures Spoken(turn, e) == turn.(users := [UserMessage("u1", "hello"), UserMessage("u2", "hello")])
  {
    assert turn.users[0].id == "u1" && "u1" != "u2";
    assert UserAt(turn.users, "u2") == 1;
  }

  lemma RenamedUsers(turn: Turn, e: Event)
    requires e.kind == TurnStarted && UniqueUsers(turn.users) && (turn.user.Shared? ==> turn.user.index < |turn.users|)
    ensures UniqueUsers(Restarted(turn, e).users) <==> !Collides(turn, e)
  {
    if Collides(turn, e) {
      var k :| 0 <= k < |turn.users| && k != turn.user.index && turn.users[k].id == e.userMessage;
      var users := Restarted(turn, e).users;
      assert users[turn.user.index].id == users[k].id;
    }
  }

  lemma OthersKeepUsers(turn: Turn, e: Event)
    requires UniqueUsers(turn.users) && !OnPage(e.kind) && e.kind != TurnStarted
    ensures UniqueUsers(NextTurn(Some(turn), e).users)
  {
    hide ApplyToTurn, UniqueUsers;
    AppliedKeepsUsers(Touched(turn, e), e);
  }

  lemma AppliedKeepsUsers(turn: Turn, e: Event)
    requires UniqueUsers(turn.users) && !OnPage(e.kind)
    ensures UniqueUsers(ApplyToTurn(turn, e).users)
  {
    hide ApplyToTurn, Linked, Said, UniqueUsers;
    if e.kind == Assistant {
      SaidKeepsUsers(turn, e);
      ApplySaid(turn, e);
    } else if e.kind == LinkedConversation {
      LinkKeepsUsers(turn, e);
      ApplyLink(turn, e);
    } else {
      OthersChange(turn, e);
    }
  }

  lemma SaidKeepsUsers(turn: Turn, e: Event)
    requires UniqueUsers(turn.users)
    ensures UniqueUsers(Said(turn, e).users)
  {
    hide Blank;
  }

  lemma LinkKeepsUsers(turn: Turn, e: Event)
    ensures Linked(turn, e).users == turn.users
  {
    hide LinkPages;
  }

  // ---------- the reducer's own program ----------

  /** A conversation whose lists are updated in place. */
  class Conversation {
    var id: string
    var turns: seq<Turn>
    var feeds: seq<Feed>

    constructor ()
      ensures View() == EMPTY
    {
      id, turns, feeds := "", [], [];
    }

    function View(): State
      reads this
    {
      State(id, turns, feeds)
    }

    method FindTurn(turn: string) returns (k: nat)
      ensures k == TurnAt(turns, turn) && k <= |turns|
    {
      k := Find(turns, (x: Turn) => x.id == turn);
    }

    /** findOrCreateTurn */
    method FindOrCreateTurn(e: Event) returns (k: nat)
      modifies this`turns
      ensures k == TurnAt(old(turns), e.turn) && k < |turns|
      ensures turns == if k < |old(turns)| then old(turns)[k := Touched(old(turns)[k], e)]
                       else old(turns) + [NewTurn(e.turn, Running, e.created)]
    {
      k := FindTurn(e.turn);
      if k < |turns| {
        var turn := turns[k];
        if turn.status == Unset {
          turn := turn.(status := Running);
        }
        if turn.created == 0 && e.created != 0 {
          turn := turn.(created := e.created);
        }
        turns := turns[k := turn];
      } else {
        turns := turns + [NewTurn(e.turn, Running, e.created)];
      }
    }

    /** Reduce */
    method Handle(e: Event)
      modifies this
      ensures View() == Reduce(old(View()), e)
    {
      hide NextTurn, TurnAt, FeedAt, Without, Refreshed;
      if id == "" {
        id := e.conversation;
      }
      match e.kind {
        case FeedActive => Activate(e);
        case FeedInactive => Deactivate(e.feed);
        case Ignored =>
        case _ =>
          if e.turn != "" {
            HandleTurn(e);
          }
      }
    }

    method HandleTurn(e: Event)
      requires NamesTurn(e)
      modifies this`turns
      ensures turns == ReduceTurns(old(turns), e)
    {
      hide ApplyToTurn, Restarted, Requeued, Begun, Enqueued, Touched, NewTurn, TurnAt;
      if e.kind == TurnStarted || e.kind == TurnQueued {
        var k := FindTurn(e.turn);
        if k < |turns| {
          var turn := if e.kind == TurnStarted then Restarted(turns[k], e) else Requeued(turns[k], e);
          turns := turns[k := turn];
        } else {
          var turn := if e.kind == TurnStarted then Begun(e) else Enqueued(e);
          turns := turns + [turn];
        }
      } else {
        var k := FindOrCreateTurn(e);
        var turn := Update(turns[k], e);
        turns := turns[k := turn];
      }
    }

    /** activateFeed */
    method Activate(e: Event)
      requires e.kind == FeedActive
      modifies this`feeds
      ensures feeds == ReduceFeeds(old(feeds), e)
    {
      if e.feed == "" {
        return;
      }
      var k := Find(feeds, (x: Feed) => x.id == e.feed);
      if k < |feeds| {
        var feed := feeds[k];
        if e.turn != "" {
          feed := feed.(turn := e.turn);
        }
        if e.feedTitle != "" {
          feed := feed.(title := e.feedTitle);
        }
        feed := feed.(developerOnly := e.feedDeveloperOnly);
        if e.feedCount > 0 || feed.count == 0 {
          feed := feed.(count := e.feedCount);
        }
        if e.feedData.Some? {
          feed := feed.(data := e.feedData);
        }
        feeds := feeds[k := feed];
        return;
      }
      feeds := feeds + [Feed(e.feed, e.turn, e.feedTitle, e.feedDeveloperOnly, e.feedCount, e.feedData)];
    }

    /** deactivateFeed */
    method Deactivate(feed: string)
      modifies this`feeds
      ensures feeds == if feed == "" then old(feeds) else Without(old(feeds), feed)
    {
      if |feeds| == 0 || feed == "" {
        return;
      }
      var filtered: seq<Feed> := [];
      for k := 0 to |feeds|
        invariant feeds == old(feeds)
        invariant Without(feeds, feed) == filtered + Without(feeds[k..], feed)
      {
        assert feeds[k..][1..] == feeds[k + 1..];
        if feeds[k].id != feed {
          filtered := filtered + [feeds[k]];
        }
      }
      feeds := filtered;
    }
  }

  method FindPage(pages: seq<Page>, iteration: int) returns (k: nat)
    ensures k == PageAt(pages, iteration)
  {
    k := Find(pages, (x: Page) => x.iteration == iteration);
  }

  method FindModel(steps: seq<ModelStep>, id: string) returns (k: nat)
    ensures k == ModelAt(steps, id)
  {
    k := Find(steps, (x: ModelStep) => x.id == id);
  }

  /** upsertToolStep: where the step is, or where it goes. */
  method UpsertTool(steps: seq<ToolStep>, id: string) returns (k: nat)
    ensures k == ToolSlot(steps, id)
  {
    if id == "" {
      return |steps|;
    }
    k := Find(steps, (x: ToolStep) => x.id == id);
  }

  method SeedPlanned(page: Page, calls: seq<PlannedCall>) returns (r: Page)
    ensures r == PlanTools(page, calls)
  {
    hide WithTool, PlannedTool, ToolIn;
    r := page;
    assert calls[0..] == calls;
    for i := 0 to |calls|
      invariant PlanTools(page, calls) == PlanTools(r, calls[i..])
    {
      var call := calls[i];
      assert calls[i..][0] == call && calls[i..][1..] == calls[i + 1..];
      if call.id == "" && call.name == "" {
        continue;
      }
      var k := UpsertTool(r.toolSteps, call.id);
      r := WithTool(r, k, PlannedTool(ToolIn(r, k, call.id), call));
    }
  }

  method Stream(steps: seq<ModelStep>, e: Event) returns (r: seq<ModelStep>)
    ensures r == StreamModels(steps, e)
  {
    r := steps;
    for i := 0 to |steps|
      invariant |r| == |steps|
      invariant forall k | 0 <= k < |steps| :: r[k] == if k < i then steps[k].(status := ModelStatus(e, steps[k].status)) else steps[k]
    {
      r := r[i := r[i].(status := ModelStatus(e, r[i].status))];
    }
  }

  method UpdatePage(page: Page, e: Event) returns (r: Page)
    requires OnPage(e.kind)
    ensures r == ApplyToPage(page, e)
  {
    hide OnTool, WithModel, StartedModel, CompletedModel;
    match e.kind {
      case ModelStarted =>
        var k := |page.modelSteps|;
        if ModelId(e) != "" {
          k := FindModel(page.modelSteps, ModelId(e));
        }
        var step := if k < |page.modelSteps| then page.modelSteps[k] else ModelStep(ModelId(e), "", "", "", "");
        r := WithModel(page, k, StartedModel(step, e));
      case ModelCompleted =>
        var k := FindModel(page.modelSteps, ModelId(e));
        r := page;
        if k < |page.modelSteps| {
          r := WithModel(page, k, CompletedModel(page.modelSteps[k], e));
        }
        r := r.(content := Or(e.content, page.content), narration := Or(e.narration, page.narration));
        if e.final {
          r := r.(final := true, finalMessage := e.assistant);
        } else {
          r := r.(final := page.final, finalMessage := page.finalMessage);
        }
        r := Derived(r);
      case Narration =>
        r := Derived(page.(narration := Or(e.narration, e.content), narrationMessage := Or(e.assistant, e.message)));
      case TextDelta =>
        var steps := Stream(page.modelSteps, e);
        r := page.(content := page.content + e.content, modelSteps := steps);
      case ReasoningDelta =>
        r := page.(narration := page.narration + e.content);
      case ToolCallsPlanned =>
        r := SeedPlanned(page.(content := Or(e.content, page.content), narration := Or(e.narration, page.narration)), e.planned);
      case _ =>
        r := UpdateTool(page, e);
    }
  }

  method UpdateTool(page: Page, e: Event) returns (r: Page)
    ensures r == OnTool(page, e)
  {
    hide StartedTool, CompletedTool, UpdatedTool, WithTool;
    var k := UpsertTool(page.toolSteps, ToolId(e));
    var step := NewTool(ToolId(e));
    if k < |page.toolSteps| {
      step := page.toolSteps[k];
    }
    if e.kind == ToolCallStarted {
      step := StartedTool(step, e);
    } else if e.kind == ToolCallCompleted {
      step := CompletedTool(step, e);
    } else {
      step := UpdatedTool(step, e);
    }
    r := WithTool(page, k, step);
  }

  method FindMessage(messages: seq<Message>, id: string) returns (k: nat)
    ensures k == MessageAt(messages, id)
  {
    k := Find(messages, (x: Message) => x.id == id);
  }

  method FindUser(users: seq<UserMessage>, id: string) returns (k: nat)
    ensures k == UserAt(users, id)
  {
    k := Find(users, (x: UserMessage) => x.id == id);
  }

  /** reduceAssistantMessage on the turn it found. */
  method Say(turn: Turn, e: Event) returns (r: Turn)
    ensures r == Said(turn, e)
  {
    var id := MessageId(e);
    if id == "" || Blank(e.content) || (e.role != "assistant" && e.role != "user") {
      return turn;
    }
    if e.role == "user" {
      if turn.user.Own? && turn.user.message.id == id {
        return turn.(user := Own(turn.user.message.(content := e.content)));
      }
      if turn.user.Shared? && turn.user.index < |turn.users| && turn.users[turn.user.index].id == id {
        return turn.(users := turn.users[turn.user.index := UserMessage(id, e.content)]);
      }
      var k := FindUser(turn.users, id);
      r := turn;
      if k < |turn.users| {
        r := r.(users := turn.users[k := UserMessage(id, e.content)]);
      } else {
        r := r.(users := turn.users + [UserMessage(id, e.content)]);
      }
      if turn.user.Nobody? {
        r := r.(user := Shared(k));
      }
      return r;
    }
    var k := FindMessage(turn.messages, id);
    var message := Message(id, "", "", 0, 0, "", "");
    if k < |turn.messages| {
      message := turn.messages[k];
    }
    message := message.(role := "assistant", content := e.content, created := e.created);
    if e.sequence.Some? {
      message := message.(sequence := e.sequence.value);
    }
    if e.mode != "" {
      message := message.(mode := e.mode);
    }
    if e.status != "" {
      message := message.(status := e.status);
    }
    r := turn.(messages := if k < |turn.messages| then turn.messages[k := message] else turn.messages + [message]);
  }

  /** attachLinkedConversation and applyLinkedConversationToToolSteps */
  method Attach(turn: Turn, e: Event) returns (r: Turn)
    ensures r == Linked(turn, e)
  {
    if e.linked == "" {
      return turn;
    }
    var known := false;
    for k := 0 to |turn.links|
      invariant known <==> exists i | 0 <= i < k :: turn.links[i].conversation == e.linked
    {
      if turn.links[k].conversation == e.linked {
        known := true;
      }
    }
    r := turn;
    if !known {
      r := r.(links := turn.links + [Link(e.linked, e.toolCall, e.linkedAgent, e.linkedTitle)]);
    }
    if e.toolCall == "" {
      return;
    }
    var pages: seq<Page> := [];
    for p := 0 to |turn.pages|
      invariant |pages| == p
      invariant forall k | 0 <= k < p :: pages[k] == turn.pages[k].(toolSteps := LinkTools(turn.pages[k].toolSteps, e))
    {
      var steps := turn.pages[p].toolSteps;
      for i := 0 to |steps|
        invariant |steps| == |turn.pages[p].toolSteps|
        invariant forall k | 0 <= k < |steps| ::
                    steps[k] == if k < i then LinkTool(turn.pages[p].toolSteps[k], e) else turn.pages[p].toolSteps[k]
      {
        if steps[i].id == e.toolCall {
          steps := steps[i := steps[i].(linked := e.linked, linkedAgent := e.linkedAgent, linkedTitle := e.linkedTitle)];
        }
      }
      assert steps == LinkTools(turn.pages[p].toolSteps, e);
      pages := pages + [turn.pages[p].(toolSteps := steps)];
    }
    r := r.(pages := pages);
  }

  /** The reduce functions, on the turn that was found or made. */
  method Update(turn: Turn, e: Event) returns (r: Turn)
    ensures r == ApplyToTurn(turn, e)
  {
    hide ApplyToPage, Filled, Said, Linked;
    if OnPage(e.kind) {
      var k := FindPage(turn.pages, e.iteration);
      if k < |turn.pages| {
        var page := UpdatePage(Filled(turn.pages[k], e), e);
        r := turn.(pages := turn.pages[k := page]);
      } else {
        var page := UpdatePage(Filled(NewPage(e), e), e);
        r := turn.(pages := turn.pages + [page], active := |turn.pages|);
      }
      if e.kind == Narration {
        r := r.(narration := Some((Or(e.assistant, e.message), Or(e.narration, e.content))));
      }
      return;
    }
    match e.kind {
      case Assistant => r := Say(turn, e);
      case LinkedConversation => r := Attach(turn, e);
      case _ => r := ApplyToTurn(turn, e);
    }
  }
}
