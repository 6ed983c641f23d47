/** The streaming projection aguiPresentation.project of sdk/agui_rendering.go.

    The projector reassembles the raw text of each message from fragments, and sends a client
    only the plain text, as deltas at an offset or as snapshots. */
module Presentation {
  import opened Common
  import opened FencedText
  import opened FencedStreaming

  datatype Kind = TextDelta | Assistant | ModelCompleted | ItemCompleted | Narration | Other

  datatype Event = Event(kind: Kind, conversation: string, turn: string, assistantMessage: string, message: string,
                         number: int, internalMode: bool, userRole: bool,
                         content: string, narration: string, snapshot: bool, offset: Option<int>)

  datatype Key = Key(conversation: string, turn: string, id: string)

  datatype Output =
    | Passed(event: Event)                               // unchanged
    | Hollow(event: Event)                               // lifecycle data without its bodies
    | Narrated(content: string, narration: string)
    | Delta(key: Key, number: int, offset: nat, text: string)
    | Snapshot(key: Key, kind: Kind, number: int, text: string)

  datatype Message = Message(raw: string, visible: string, unresolved: bool)

  const NEW := Message("", "", false)

  function IdOf(e: Event): string {
    if e.assistantMessage != "" then e.assistantMessage else e.message
  }

  function KeyOf(e: Event): Key {
    Key(e.conversation, e.turn, IdOf(e))
  }

  predicate Terminal(e: Event) { e.kind != TextDelta }

  predicate UserPatch(e: Event) { e.kind == Assistant && e.userRole }

  // ---------- routing ----------

  datatype Route = Drop | Blank | Narrate | PassOn | ToMessage

  function RouteOf(internal: set<Key>, seen: set<(string, string, int)>, e: Event): Route {
    var hidden := (e.internalMode || KeyOf(e) in internal) && !UserPatch(e);
    if hidden && (e.kind == TextDelta || e.kind == Assistant || e.kind == ItemCompleted) then Drop
    else if hidden && e.kind == ModelCompleted then Blank
    else if e.kind == Narration then Narrate
    else if e.kind == Other || UserPatch(e) then PassOn
    else if e.number > 0 && (e.conversation, e.turn, e.number) in seen then Drop
    else if IdOf(e) == "" then PassOn
    else ToMessage
  }

  // ---------- the raw text ----------

  /** How one event changes the raw text; the flag says whether anything is projected. */
  function Absorb(m: Message, e: Event): (r: (Message, bool))
    ensures r.0.visible == m.visible
  {
    if e.kind == TextDelta then
      if e.snapshot then (m.(raw := e.content, unresolved := false), true)
      else if m.unresolved then (m, false)
      else if e.offset.None? then (m.(raw := m.raw + e.content), true)
      else
        var at := e.offset.value;
        if at < 0 || at > |m.raw| then (m.(unresolved := true), false)
        else
          var end := at + |e.content|;
          if end > |m.raw| then
            var overlap := |m.raw| - at;
            if m.raw[at..] != e.content[..overlap] then (m.(unresolved := true), false)
            else (m.(raw := m.raw + e.content[overlap..]), true)
          else if m.raw[at..end] != e.content then (m.(unresolved := true), false)
          else (m, true)
    else if e.content != "" then (m.(raw := e.content, unresolved := false), true)
    else (m, !m.unresolved)
  }

  function Next(valid: Validity, m: Message, e: Event): Message {
    var (after, projected) := Absorb(m, e);
    if projected then after.(visible := Plain(valid, after.raw, Terminal(e))) else after
  }

  /** What is sent when the shown text of a message goes from `before` to `after`. */
  function Announce(e: Event, before: string, after: string): seq<Output> {
    var key := KeyOf(e);
    if e.kind == TextDelta then
      if before <= after then [Delta(key, e.number, |before|, after[|before|..])]
      else [Snapshot(key, Assistant, e.number, after)]
    else
      (if e.kind != Assistant && after != before then [Snapshot(key, Assistant, 0, after)] else [])
      + [Snapshot(key, e.kind, e.number, after)]
  }

  // ---------- the client ----------

  type Client = map<Key, string>

  function Held(c: Client, k: Key): string {
    if k in c then c[k] else ""
  }

  /** A client appends a delta to what it holds and replaces it on a snapshot. */
  function Receive(c: Client, o: Output): Client {
    match o
    case Delta(k, _, _, text) => c[k := Held(c, k) + text]
    case Snapshot(k, _, _, text) => c[k := text]
    case _ => c
  }

  function ReceiveAll(c: Client, outputs: seq<Output>): Client
    decreases |outputs|
  {
    if outputs == [] then c else ReceiveAll(Receive(c, outputs[0]), outputs[1..])
  }

  /** Every delta starts exactly where the client's text ends. */
  ghost predicate Contiguous(c: Client, outputs: seq<Output>)
    decreases |outputs|
  {
    outputs == [] ||
    (&& (outputs[0].Delta? ==> outputs[0].offset == |Held(c, outputs[0].key)|)
     && Contiguous(Receive(c, outputs[0]), outputs[1..]))
  }

  /** The client holds the shown text of every message. */
  ghost predicate InSync(c: Client, messages: map<Key, Message>) {
    forall k :: Held(c, k) == if k in messages then messages[k].visible else ""
  }

  function Lookup(messages: map<Key, Message>, k: Key): Message {
    if k in messages then messages[k] else NEW
  }

  lemma AnnounceKeepsSync(valid: Validity, c: Client, messages: map<Key, Message>, e: Event)
    requires InSync(c, messages) && Absorb(Lookup(messages, KeyOf(e)), e).1
    ensures var m := Lookup(messages, KeyOf(e));
            var after := Next(valid, m, e);
            var outputs := Announce(e, m.visible, after.visible);
            && Contiguous(c, outputs)
            && InSync(ReceiveAll(c, outputs), messages[KeyOf(e) := after])
  {
    hide Plain, Absorb, Next;
    var m := Lookup(messages, KeyOf(e));
    AnnounceIsReceived(c, e, m.visible, Next(valid, m, e).visible);
  }

  /** A client holding the shown text holds the next one after what is announced, for this
      message and no other. */
  lemma AnnounceIsReceived(c: Client, e: Event, before: string, after: string)
    requires Held(c, KeyOf(e)) == before
    ensures var outputs := Announce(e, before, after);
            Contiguous(c, outputs) && ReceiveAll(c, outputs) == c[KeyOf(e) := after]
  {
    var outputs := Announce(e, before, after);
    if e.kind == TextDelta {
      ReceiveOne(c, outputs[0]);
      if before <= after {
        assert before + after[|before|..] == after;
      }
    } else if |outputs| == 2 {
      var once := Receive(c, outputs[0]);
      assert outputs[1..] == [outputs[1]] && once[KeyOf(e) := after] == c[KeyOf(e) := after];
      ReceiveOne(once, outputs[1]);
    } else {
      ReceiveOne(c, outputs[0]);
    }
  }

  lemma ReceiveOne(c: Client, o: Output)
    ensures ReceiveAll(c, [o]) == Receive(c, o)
    ensures Contiguous(c, [o]) <==> (o.Delta? ==> o.offset == |Held(c, o.key)|)
  {
    assert [o][1..] == [];
  }

  lemma SilentKeepsSync(c: Client, messages: map<Key, Message>, k: Key, m: Message)
    requires InSync(c, messages) && m.visible == Lookup(messages, k).visible
    ensures InSync(c, messages[k := m])
  {
  }

  lemma {:induction false} ReceiveJoins(c: Client, left: seq<Output>, right: seq<Output>)
    ensures ReceiveAll(c, left + right) == ReceiveAll(ReceiveAll(c, left), right)
    ensures Contiguous(c, left) && Contiguous(ReceiveAll(c, left), right) ==> Contiguous(c, left + right)
    decreases |left|
  {
    if left == [] {
      assert left + right == right;
    } else {
      assert (left + right)[1..] == left[1..] + right;
      ReceiveJoins(Receive(c, left[0]), left[1..], right);
    }
  }

  // ---------- what the messages hold ----------

  /** The shown text is the plain text of the raw text, partial or complete. */
  predicate ShowsPlain(valid: Validity, m: Message) {
    m.visible == Plain(valid, m.raw, false) || m.visible == Plain(valid, m.raw, true)
  }

  ghost predicate AllPlain(valid: Validity, messages: map<Key, Message>) {
    forall k <- messages :: ShowsPlain(valid, messages[k])
  }

  /** A fragment that really stands at its offset in `source`. */
  ghost predicate TrueFragment(e: Event, source: string) {
    && e.kind == TextDelta && !e.snapshot && e.offset.Some?
    && 0 <= e.offset.value && e.offset.value + |e.content| <= |source|
    && source[e.offset.value..e.offset.value + |e.content|] == e.content
  }

  /** Besides fragments, a source may be sent from its beginning, as a snapshot or by a terminal
      event. */
  ghost predicate TrueEvent(e: Event, source: string) {
    || TrueFragment(e, source)
    || ((e.kind == TextDelta ==> e.snapshot) && e.content <= source)
  }

  /** The raw text of every message is a beginning of its source. */
  ghost predicate Faithful(messages: map<Key, Message>, sources: Key -> string) {
    forall k <- messages :: messages[k].raw <= sources(k)
  }

  /** No message has lost text. */
  ghost predicate Grown(before: map<Key, Message>, after: map<Key, Message>) {
    forall k <- before :: k in after && before[k].raw <= after[k].raw
  }

  // ---------- the projector ----------

  class Projector {
    const valid: Validity
    var messages: map<Key, Message>
    var seen: set<(string, string, int)>
    var internal: set<Key>

    constructor (valid: Validity)
      ensures this.valid == valid && messages == map[] && seen == {} && internal == {}
    {
      this.valid := valid;
      messages, seen, internal := map[], {}, {};
    }

    method Project(e: Event) returns (outputs: seq<Output>)
      modifies this
      ensures internal == old(internal) + if e.internalMode && IdOf(e) != "" then {KeyOf(e)} else {}
      ensures var route := RouteOf(internal, old(seen), e);
              var m := Lookup(old(messages), KeyOf(e));
              && seen == old(seen) + (if e.number > 0 && !route.Drop? && !route.Blank? && !route.Narrate? && e.kind != Other && !UserPatch(e)
                                      then {(e.conversation, e.turn, e.number)} else {})
              && messages == (if route.ToMessage? then old(messages)[KeyOf(e) := Next(valid, m, e)] else old(messages))
              && match route
                 case Drop => outputs == []
                 case Blank => outputs == [Hollow(e)]
                 case Narrate => outputs == [Narrated(Plain(valid, e.content, true), Plain(valid, e.narration, true))]
                 case PassOn => outputs == [Passed(e)]
                 case ToMessage =>
                   outputs == if Absorb(m, e).1 then Announce(e, m.visible, Next(valid, m, e).visible) else []
    {
      hide Plain;
      var id := if e.assistantMessage != "" then e.assistantMessage else e.message;
      var key := Key(e.conversation, e.turn, id);
      if e.internalMode && id != "" {
        internal := internal + {key};
      }
      var hidden := e.internalMode || key in internal;
      var userPatch := e.kind == Assistant && e.userRole;
      if hidden && !userPatch {
        match e.kind {
          case TextDelta | Assistant | ItemCompleted => return [];
          case ModelCompleted => return [Hollow(e)];
          case Narration | Other =>
        }
      }
      if e.kind == Narration {
        var content, _ := PlainContent(valid, e.content, true);
        var narration, _ := PlainContent(valid, e.narration, true);
        return [Narrated(content, narration)];
      }
      if e.kind == Other || userPatch {
        return [Passed(e)];
      }
      if e.number > 0 {
        if (e.conversation, e.turn, e.number) in seen {
          return [];
        }
        seen := seen + {(e.conversation, e.turn, e.number)};
      }
      if id == "" {
        return [Passed(e)];
      }
      outputs := ProjectText(key, e);
    }

    /** The raw-text part of `project`: reassembles, or notices that it cannot. */
    method ReadText(previous: Message, e: Event) returns (state: Message, projected: bool)
      ensures (state, projected) == Absorb(previous, e)
    {
      state := previous;
      if state.unresolved && e.kind == TextDelta && !e.snapshot {
        return state, false;
      }
      if e.kind == TextDelta {
        if e.snapshot {
          state := state.(raw := e.content, unresolved := false);
        } else if e.offset.Some? {
          var offset := e.offset.value;
          if offset < 0 || offset > |state.raw| {
            return state.(unresolved := true), false;
          }
          var end := offset + |e.content|;
          if end > |state.raw| {
            var overlap := |state.raw| - offset;
            if state.raw[offset..] != e.content[..overlap] {
              return state.(unresolved := true), false;
            }
            state := state.(raw := state.raw + e.content[overlap..]);
          } else if state.raw[offset..end] != e.content {
            return state.(unresolved := true), false;
          }
        } else {
          state := state.(raw := state.raw + e.content);
        }
      } else if e.content != "" {
        state := state.(raw := e.content, unresolved := false);
      } else if state.unresolved {
        return state, false;
      }
      projected := true;
    }

    /** The message part of `project`. */
    method ProjectText(key: Key, e: Event) returns (outputs: seq<Output>)
      requires key == KeyOf(e)
      modifies this`messages
      ensures var m := Lookup(old(messages), key);
              && messages == old(messages)[key := Next(valid, m, e)]
              && outputs == if Absorb(m, e).1 then Announce(e, m.visible, Next(valid, m, e).visible) else []
    {
      hide Plain, Absorb;
      var state, projected := ReadText(if key in messages then messages[key] else NEW, e);
      messages := messages[key := state];
      if !projected {
        return [];
      }
      var visible, _ := PlainContent(valid, state.raw, e.kind != TextDelta);
      outputs := [];
      if e.kind == TextDelta {
        if state.visible <= visible {
          var offset := |state.visible|;
          outputs := [Delta(key, e.number, offset, visible[offset..])];
        } else {
          outputs := [Snapshot(key, Assistant, e.number, visible)];
        }
      } else {
        if e.kind != Assistant && visible != state.visible {
          outputs := [Snapshot(key, Assistant, 0, visible)];
        }
        outputs := outputs + [Snapshot(key, e.kind, e.number, visible)];
      }
      messages := messages[key := state.(visible := visible)];
    }

    /** A whole stream, whatever its messages and however its numbers repeat: a client that folds
        only what is sent stays in step with the shown text of every message, which is the plain
        text of its raw text, and no delta ever lands anywhere but at its end. When each message's
        events are true to its source, its raw text is a beginning of the source; when they are
        only fragments, it never shrinks. */
    method Deliver(events: seq<Event>, ghost client: Client, ghost sources: Key -> string) returns (outputs: seq<Output>)
      requires InSync(client, messages)
      modifies this
      ensures InSync(ReceiveAll(client, outputs), messages)
      ensures Contiguous(client, outputs)
      ensures AllPlain(valid, old(messages)) ==> AllPlain(valid, messages)
      ensures Faithful(old(messages), sources) && (forall e <- events :: TrueEvent(e, sources(KeyOf(e)))) ==>
                Faithful(messages, sources)
      ensures Faithful(old(messages), sources) && (forall e <- events :: TrueFragment(e, sources(KeyOf(e)))) ==>
                Grown(old(messages), messages)
    {
      hide Plain, Absorb, Announce, RouteOf, InSync, Next, Contiguous, ReceiveAll, AllPlain, Faithful, Grown;
      hide TrueEvent, TrueFragment;
      outputs := [];
      EmptyDelivery(client);
      GrownIsReflexive(messages);
      ghost var whole := Faithful(messages, sources) && forall e <- events :: TrueEvent(e, sources(KeyOf(e)));
      ghost var pieces := Faithful(messages, sources) && forall e <- events :: TrueFragment(e, sources(KeyOf(e)));
      FragmentsAreTrue(events, sources);
      for i := 0 to |events|
        invariant InSync(ReceiveAll(client, outputs), messages)
        invariant Contiguous(client, outputs)
        invariant AllPlain(valid, old(messages)) ==> AllPlain(valid, messages)
        invariant whole ==> Faithful(messages, sources)
        invariant pieces ==> Grown(old(messages), messages)
      {
        assert events[i] in events;
        ghost var before, marked, held := messages, seen, ReceiveAll(client, outputs);
        var more := Project(events[i]);
        StepKeepsSync(valid, held, before, events[i], RouteOf(internal, marked, events[i]), more, messages);
        StepKeepsTexts(valid, before, events[i], RouteOf(internal, marked, events[i]), messages, sources);
        if pieces {
          GrownChains(old(messages), before, messages);
        }
        ReceiveJoins(client, outputs, more);
        outputs := outputs + more;
      }
    }
  }

  lemma GrownIsReflexive(messages: map<Key, Message>)
    ensures Grown(messages, messages)
  {
  }

  lemma GrownChains(a: map<Key, Message>, b: map<Key, Message>, c: map<Key, Message>)
    ensures Grown(a, b) && Grown(b, c) ==> Grown(a, c)
  {
  }

  lemma FragmentsAreTrue(events: seq<Event>, sources: Key -> string)
    ensures (forall e <- events :: TrueFragment(e, sources(KeyOf(e)))) ==> forall e <- events :: TrueEvent(e, sources(KeyOf(e)))
  {
    hide TrueFragment;
  }

  /** One projected event keeps the messages plain and true to their sources. */
  lemma StepKeepsTexts(valid: Validity, before: map<Key, Message>, e: Event, route: Route, after: map<Key, Message>,
                       sources: Key -> string)
    requires after == if route.ToMessage? then before[KeyOf(e) := Next(valid, Lookup(before, KeyOf(e)), e)] else before
    ensures AllPlain(valid, before) ==> AllPlain(valid, after)
    ensures Faithful(before, sources) && TrueEvent(e, sources(KeyOf(e))) ==> Faithful(after, sources)
    ensures Faithful(before, sources) && TrueFragment(e, sources(KeyOf(e))) ==> Grown(before, after)
  {
    hide Plain, Absorb, Next, TrueFragment, TrueEvent;
    if route.ToMessage? {
      var m, source := Lookup(before, KeyOf(e)), sources(KeyOf(e));
      NewIsPlain(valid);
      if AllPlain(valid, before) {
        NextShowsPlain(valid, m, e);
      }
      if Faithful(before, sources) && TrueEvent(e, source) {
        NextIsFaithful(valid, m, e, source);
      }
      if Faithful(before, sources) && TrueFragment(e, source) {
        FragmentStep(valid, m, e, source);
      }
    }
  }

  lemma NewIsPlain(valid: Validity)
    ensures ShowsPlain(valid, NEW)
  {
    EndOfText(valid, "", false);
  }

  lemma NextShowsPlain(valid: Validity, m: Message, e: Event)
    requires ShowsPlain(valid, m)
    ensures ShowsPlain(valid, Next(valid, m, e))
  {
    hide Plain, Absorb, Next;
    ProjectedIsPlain(valid, m, e);
  }

  lemma NextIsFaithful(valid: Validity, m: Message, e: Event, source: string)
    requires m.raw <= source && TrueEvent(e, source)
    ensures Next(valid, m, e).raw <= source
  {
    hide Plain;
    if TrueFragment(e, source) {
      FragmentStep(valid, m, e, source);
    }
  }

  lemma EmptyDelivery(c: Client)
    ensures ReceiveAll(c, []) == c && Contiguous(c, [])
  {
  }

  /** One projected event, whatever its route, keeps the client in step. */
  lemma StepKeepsSync(valid: Validity, c: Client, before: map<Key, Message>, e: Event,
                      route: Route, outputs: seq<Output>, after: map<Key, Message>)
    requires InSync(c, before)
    requires var m := Lookup(before, KeyOf(e));
             if route.ToMessage? then
               && after == before[KeyOf(e) := Next(valid, m, e)]
               && outputs == if Absorb(m, e).1 then Announce(e, m.visible, Next(valid, m, e).visible) else []
             else after == before && |outputs| <= 1 && forall o <- outputs :: !o.Delta? && !o.Snapshot?
    ensures InSync(ReceiveAll(c, outputs), after) && Contiguous(c, outputs)
  {
    var m := Lookup(before, KeyOf(e));
    if route.ToMessage? {
      if Absorb(m, e).1 {
        AnnounceKeepsSync(valid, c, before, e);
      } else {
        SilentKeepsSync(c, before, KeyOf(e), Next(valid, m, e));
      }
    } else if outputs != [] {
      assert outputs[1..] == [];
    }
  }

  // ---------- fragments of one source text ----------

  function AbsorbAll(valid: Validity, m: Message, events: seq<Event>): Message
    decreases |events|
  {
    if events == [] then m else AbsorbAll(valid, Next(valid, m, events[0]), events[1..])
  }

  lemma FragmentStep(valid: Validity, m: Message, e: Event, source: string)
    requires m.raw <= source && TrueFragment(e, source)
    ensures var n := Next(valid, m, e);
            && m.raw <= n.raw <= source
            && (n.unresolved <==> m.unresolved || e.offset.value > |m.raw|)
            && (Absorb(m, e).1 <==> !n.unresolved)
            && (n.unresolved ==> n.raw == m.raw && n.visible == m.visible)
            && (!n.unresolved ==> |n.raw| == if e.offset.value + |e.content| > |m.raw| then e.offset.value + |e.content| else |m.raw|)
  {
    hide Plain;
    if e.offset.value <= |m.raw| {
      PiecesMeet(m.raw, source, e.offset.value, e.content);
    }
  }

  /** A true fragment agrees with a true beginning where they overlap, and lengthens it. */
  lemma PiecesMeet(raw: string, source: string, at: nat, content: string)
    requires raw <= source && at <= |raw| && at + |content| <= |source| && source[at..at + |content|] == content
    ensures at + |content| <= |raw| ==> raw[at..at + |content|] == content
    ensures at + |content| > |raw| ==>
              && raw[at..] == content[..|raw| - at]
              && raw <= raw + content[|raw| - at..] <= source
  {
    var end := at + |content|;
    assert raw == source[..|raw|];
    if end > |raw| {
      assert content[..|raw| - at] == source[at..|raw|];
      assert content[|raw| - at..] == source[|raw|..end];
      assert source[..end] == source[..|raw|] + source[|raw|..end];
    }
  }

  /** Fragments of one text with true offsets, lost, repeated, overlapping or reordered: the
      raw text stays a prefix of the source, never shrinks, and once a gap is noticed nothing
      is projected for the rest of the delivery. */
  lemma {:induction false} FragmentsAssembleAPrefix(valid: Validity, m: Message, events: seq<Event>, source: string, i: nat)
    requires m.raw <= source && i <= |events|
    requires forall e <- events :: TrueFragment(e, source)
    ensures var n := AbsorbAll(valid, m, events[..i]);
            && m.raw <= n.raw <= source
            && (n.unresolved && i < |events| ==> !Absorb(n, events[i]).1)
            && (m.unresolved ==> n == m)
    decreases i
  {
    hide Plain, Absorb, Next;
    if i > 0 {
      var step := Next(valid, m, events[0]);
      FragmentStep(valid, m, events[0], source);
      assert events[..i][1..] == events[1..][..i - 1];
      FragmentsAssembleAPrefix(valid, step, events[1..], source, i - 1);
      if m.unresolved {
        UnresolvedWaits(valid, m, events[0]);
      }
    }
    var n := AbsorbAll(valid, m, events[..i]);
    if n.unresolved && i < |events| {
      assert TrueFragment(events[i], source);
      UnresolvedWaits(valid, n, events[i]);
    }
  }

  /** An unresolved message waits for an authoritative text and for nothing else. */
  lemma UnresolvedWaits(valid: Validity, m: Message, e: Event)
    requires m.unresolved
    ensures var authoritative := if e.kind == TextDelta then e.snapshot else e.content != "";
            && (Absorb(m, e).1 <==> authoritative)
            && (Next(valid, m, e).unresolved <==> !authoritative)
            && (authoritative ==> Next(valid, m, e) == Message(e.content, Plain(valid, e.content, Terminal(e)), false))
            && (!authoritative ==> Next(valid, m, e) == m)
  {
    hide Plain;
  }

  /** After every projected event the shown text is the plain text of the raw text. */
  lemma ProjectedIsPlain(valid: Validity, m: Message, e: Event)
    ensures var n := Next(valid, m, e);
            if Absorb(m, e).1 then n.visible == Plain(valid, n.raw, Terminal(e)) && !n.unresolved
            else n.visible == m.visible && n.raw == m.raw && n.unresolved
  {
    hide Plain;
  }

  /** When the last fragment of the source arrives and no gap was noticed, the raw text is the
      whole source, in whatever order and however often the fragments came. */
  lemma {:induction false} LastFragmentCompletes(valid: Validity, m: Message, events: seq<Event>, source: string, k: nat)
    requires m.raw <= source && k < |events|
    requires forall e <- events :: TrueFragment(e, source)
    requires TrueFragment(events[k], source) && events[k].offset.value + |events[k].content| == |source|
    requires !AbsorbAll(valid, m, events).unresolved
    ensures AbsorbAll(valid, m, events).raw == source
    decreases k
  {
    hide Plain, Absorb, Next;
    var step := Next(valid, m, events[0]);
    FragmentStep(valid, m, events[0], source);
    assert events[1..][..|events| - 1] == events[1..];
    FragmentsAssembleAPrefix(valid, step, events[1..], source, |events| - 1);
    if k > 0 {
      LastFragmentCompletes(valid, step, events[1..], source, k - 1);
    }
  }

  /** Appending to a steady text sends exactly one delta, with only the new plain text. */
  lemma SteadyTextSendsDeltas(valid: Validity, m: Message, e: Event)
    requires m.visible == Plain(valid, m.raw, false) && Steady(Segments(valid, m.raw, 0, false), false)
    requires e.kind == TextDelta && Absorb(m, e).1 && m.raw <= Absorb(m, e).0.raw
    ensures var n := Next(valid, m, e);
            && m.visible <= n.visible
            && Announce(e, m.visible, n.visible) == [Delta(KeyOf(e), e.number, |m.visible|, n.visible[|m.visible|..])]
  {
    hide Plain, Steady;
    PlainGrowsExactlyWhenSteady(valid, m.raw);
    var n := Absorb(m, e).0;
    assert n.raw == m.raw + n.raw[|m.raw|..];
  }
}
