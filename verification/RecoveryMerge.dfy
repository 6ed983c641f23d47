/** Merging recovered native messages into journal messages: aguiMergeRecoveryMessages and
    aguiRecoveryMergeCalls of sdk/agui_recovery.go. */
module RecoveryMerge {
  import opened Common

  type Fields = map<string, string>

  /** A tool call as a JSON object; an absent key is None. */
  datatype Call = Call(id: Option<string>, body: Option<Fields>, other: Fields)

  /** A message as a JSON object.  An entry of its call list that is no object is None. */
  datatype Message = Message(id: Option<string>, role: Option<string>, toolCallId: Option<string>,
                             calls: Option<seq<Option<Call>>>, other: Fields)

  const NO_CALL := Call(None, None, map[])
  const NO_MESSAGE := Message(None, None, None, None, map[])

  predicate IsTool(m: Message) { m.role == Some("tool") }

  function CallsOf(m: Message): seq<Option<Call>> {
    if m.calls.Some? then m.calls.value else []
  }

  predicate HasCall(calls: seq<Option<Call>>, id: Option<string>) {
    exists c <- calls :: c.Some? && c.value.id == id
  }

  /** Some call of `m` is the one `id` names. */
  predicate Declares(m: Message, id: Option<string>) {
    HasCall(CallsOf(m), id)
  }

  function Or<T>(update: Option<T>, base: Option<T>): Option<T> {
    if update.Some? then update else base
  }

  // ---------- merging calls ----------

  /** A name already journaled stays; everything else is overwritten. */
  function JoinFunction(base: Fields, update: Fields): Fields {
    base + (if "name" in base then update - {"name"} else update)
  }

  function MergeFields(base: Call, update: Call): Call {
    Call(Or(update.id, base.id),
         if update.body.Some? then
           Some(JoinFunction(if base.body.Some? then base.body.value else map[], update.body.value))
         else base.body,
         base.other + update.other)
  }

  /** The first entry with this id, or the length of the list. */
  function FindCall(calls: seq<Option<Call>>, id: Option<string>): (r: nat)
    ensures r <= |calls|
    ensures forall i | 0 <= i < r :: !(calls[i].Some? && calls[i].value.id == id)
    ensures r < |calls| ==> calls[r].Some? && calls[r].value.id == id
  {
    if calls == [] then 0
    else if calls[0].Some? && calls[0].value.id == id then 0
    else 1 + FindCall(calls[1..], id)
  }

  function MergeCall(calls: seq<Option<Call>>, update: Option<Call>): seq<Option<Call>> {
    if update.None? then calls else
      var i := FindCall(calls, update.value.id);
      if i < |calls| then calls[i := Some(MergeFields(calls[i].value, update.value))]
      else calls + [Some(MergeFields(NO_CALL, update.value))]
  }

  function MergeCalls(base: seq<Option<Call>>, incoming: seq<Option<Call>>): seq<Option<Call>>
    decreases |incoming|
  {
    if incoming == [] then base else
      var front := incoming[..|incoming| - 1];
      MergeCall(MergeCalls(base, front), incoming[|incoming| - 1])
  }

  /** aguiRecoveryMergeCalls. */
  method MergeCallList(base: seq<Option<Call>>, incoming: seq<Option<Call>>) returns (result: seq<Option<Call>>)
    ensures result == MergeCalls(base, incoming)
  {
    result := base;
    for k := 0 to |incoming|
      invariant result == MergeCalls(base, incoming[..k])
    {
      assert incoming[..k + 1][..k] == incoming[..k];
      if incoming[k].None? {
        continue;
      }
      var update := incoming[k].value;
      var position := 0;
      while position < |result| && !(result[position].Some? && result[position].value.id == update.id)
        invariant 0 <= position <= |result|
        invariant forall i | 0 <= i < position :: !(result[i].Some? && result[i].value.id == update.id)
      {
        position := position + 1;
      }
      if position < |result| {
        result := result[position := Some(MergeFields(result[position].value, update))];
      } else {
        result := result + [Some(MergeFields(NO_CALL, update))];
      }
    }
    assert incoming[..|incoming|] == incoming;
  }

  ghost predicate KeepsCall(before: Option<Call>, after: Option<Call>) {
    if before.None? then after == before else
      && after.Some? && after.value.id == before.value.id
      && (before.value.body.Some? && "name" in before.value.body.value ==>
          && after.value.body.Some? && "name" in after.value.body.value
          && after.value.body.value["name"] == before.value.body.value["name"])
  }

  /** Merging calls never moves, renames or drops a journaled call. */
  lemma {:induction false} CallsAreKept(base: seq<Option<Call>>, incoming: seq<Option<Call>>)
    ensures var result := MergeCalls(base, incoming);
            && |result| >= |base|
            && (forall i | 0 <= i < |base| :: KeepsCall(base[i], result[i]))
            && (forall id :: HasCall(result, id) <==> HasCall(base, id) || HasCall(incoming, id))
    decreases |incoming|
  {
    if incoming != [] {
      var front, last := incoming[..|incoming| - 1], incoming[|incoming| - 1];
      CallsAreKept(base, front);
      assert incoming == front + [last];
      OneCallIsKept(MergeCalls(base, front), last);
    }
  }

  lemma OneCallIsKept(calls: seq<Option<Call>>, update: Option<Call>)
    ensures var result := MergeCall(calls, update);
            && |result| >= |calls|
            && (forall i | 0 <= i < |calls| :: KeepsCall(calls[i], result[i]))
            && (forall id :: HasCall(result, id) <==> HasCall(calls, id) || (update.Some? && update.value.id == id))
  {
    var result := MergeCall(calls, update);
    forall id | HasCall(calls, id)
      ensures HasCall(result, id)
    {
      var c :| c in calls && c.Some? && c.value.id == id;
      var i :| 0 <= i < |calls| && calls[i] == c;
      assert result[i] in result;
    }
    if update.Some? {
      var i := FindCall(calls, update.value.id);
      assert result[i].value.id == update.value.id && result[i] in result;
    }
  }

  // ---------- merging a call list twice ----------

  /** The entry a call id names, empty if there is none. */
  function EntryOf(calls: seq<Option<Call>>, id: Option<string>): Call {
    var i := FindCall(calls, id);
    if i < |calls| then calls[i].value else NO_CALL
  }

  /** The updates for one call, in order. */
  function UpdatesFor(incoming: seq<Option<Call>>, id: Option<string>): seq<Call>
    decreases |incoming|
  {
    if incoming == [] then [] else
      var last := incoming[|incoming| - 1];
      UpdatesFor(incoming[..|incoming| - 1], id) + if last.Some? && last.value.id == id then [last.value] else []
  }

  function MergeAllFields(base: Call, updates: seq<Call>): Call
    decreases |updates|
  {
    if updates == [] then base
    else MergeFields(MergeAllFields(base, updates[..|updates| - 1]), updates[|updates| - 1])
  }

  lemma EntryAfterMerge(calls: seq<Option<Call>>, update: Option<Call>, id: Option<string>)
    ensures EntryOf(MergeCall(calls, update), id)
         == if update.Some? && update.value.id == id then MergeFields(EntryOf(calls, id), update.value) else EntryOf(calls, id)
  {
    if update.Some? {
      var result := MergeCall(calls, update);
      var at, i, r := FindCall(calls, update.value.id), FindCall(calls, id), FindCall(result, id);
      assert result[at] == Some(MergeFields(EntryOf(calls, update.value.id), update.value));
      assert result[at].value.id == update.value.id;
      assert forall k | 0 <= k < |calls| && k != at :: result[k] == calls[k];
      if update.value.id == id {
        assert !(r < at) && !(at < r);
      } else if i < |calls| {
        assert result[i] == calls[i];
        assert !(r < i) && !(i < r);
      } else {
        assert r == |result|;
      }
    }
  }

  lemma {:induction false} EntryAfterMerges(base: seq<Option<Call>>, incoming: seq<Option<Call>>, id: Option<string>)
    ensures EntryOf(MergeCalls(base, incoming), id) == MergeAllFields(EntryOf(base, id), UpdatesFor(incoming, id))
    decreases |incoming|
  {
    hide MergeCall, EntryOf, MergeFields;
    if incoming != [] {
      var front, last := incoming[..|incoming| - 1], incoming[|incoming| - 1];
      EntryAfterMerges(base, front, id);
      EntryAfterMerge(MergeCalls(base, front), last, id);
      var updates := UpdatesFor(incoming, id);
      if last.Some? && last.value.id == id {
        assert updates[..|updates| - 1] == UpdatesFor(front, id) && updates[|updates| - 1] == last.value;
      } else {
        assert updates == UpdatesFor(front, id);
      }
    }
  }

  lemma {:induction false} UpdatesHaveTheId(incoming: seq<Option<Call>>, id: Option<string>)
    ensures forall u <- UpdatesFor(incoming, id) :: u.id == id
    decreases |incoming|
  {
    if incoming != [] {
      UpdatesHaveTheId(incoming[..|incoming| - 1], id);
    }
  }

  /** Two lists naming the same calls, which differ only in entries their ids name. */
  predicate SameCalls(a: seq<Option<Call>>, b: seq<Option<Call>>) {
    && |a| == |b|
    && (forall i | 0 <= i < |a| :: (a[i].Some? <==> b[i].Some?) && (a[i].Some? ==> a[i].value.id == b[i].value.id))
    && (forall i | 0 <= i < |a| && a[i] != b[i] :: a[i].Some? && FindCall(a, a[i].value.id) == i)
  }

  lemma SameCallsFind(a: seq<Option<Call>>, b: seq<Option<Call>>, id: Option<string>)
    requires SameCalls(a, b)
    ensures FindCall(a, id) == FindCall(b, id)
  {
    var i, j := FindCall(a, id), FindCall(b, id);
    assert i < |a| ==> b[i].Some? && b[i].value.id == id;
    assert j < |b| ==> a[j].Some? && a[j].value.id == id;
  }

  lemma MergeKeepsCalls(start: seq<Option<Call>>, calls: seq<Option<Call>>, update: Option<Call>)
    requires SameCalls(start, calls) && (update.Some? ==> FindCall(start, update.value.id) < |start|)
    ensures SameCalls(start, MergeCall(calls, update))
  {
    if update.Some? {
      SameCallsFind(start, calls, update.value.id);
    }
  }

  lemma {:induction false} MergesKeepCalls(start: seq<Option<Call>>, incoming: seq<Option<Call>>)
    requires forall u <- incoming :: u.Some? ==> FindCall(start, u.value.id) < |start|
    ensures SameCalls(start, MergeCalls(start, incoming))
    decreases |incoming|
  {
    hide MergeCall;
    if incoming != [] {
      var front, last := incoming[..|incoming| - 1], incoming[|incoming| - 1];
      assert forall u <- front :: u in incoming;
      MergesKeepCalls(start, front);
      MergeKeepsCalls(start, MergeCalls(start, front), last);
    }
  }

  lemma SameEntriesSameCalls(a: seq<Option<Call>>, b: seq<Option<Call>>)
    requires SameCalls(a, b) && forall id :: EntryOf(a, id) == EntryOf(b, id)
    ensures a == b
  {
    forall i | 0 <= i < |a|
      ensures a[i] == b[i]
    {
      if a[i].Some? {
        var id := a[i].value.id;
        SameCallsFind(a, b, id);
        assert FindCall(a, id) == i ==> EntryOf(a, id) == a[i].value && EntryOf(b, id) == b[i].value;
      }
    }
  }

  /** Merging one call list twice is merging it once. */
  lemma MergeCallsIsIdempotent(base: seq<Option<Call>>, incoming: seq<Option<Call>>)
    ensures MergeCalls(MergeCalls(base, incoming), incoming) == MergeCalls(base, incoming)
  {
    hide MergeCalls, EntryOf, MergeAllFields;
    var once := MergeCalls(base, incoming);
    forall u | u in incoming && u.Some?
      ensures FindCall(once, u.value.id) < |once|
    {
      CallsAreKept(base, incoming);
      assert HasCall(once, u.value.id);
    }
    MergesKeepCalls(once, incoming);
    forall id
      ensures EntryOf(once, id) == EntryOf(MergeCalls(once, incoming), id)
    {
      EntryAfterMerges(base, incoming, id);
      EntryAfterMerges(once, incoming, id);
      UpdatesHaveTheId(incoming, id);
      MergeAllFieldsTwice(EntryOf(base, id), UpdatesFor(incoming, id), id);
    }
    SameEntriesSameCalls(once, MergeCalls(once, incoming));
  }

  lemma {:induction false} MergeCallsJoin(base: seq<Option<Call>>, a: seq<Option<Call>>, b: seq<Option<Call>>)
    ensures MergeCalls(base, a + b) == MergeCalls(MergeCalls(base, a), b)
    decreases |b|
  {
    hide MergeCall;
    if b == [] {
      assert a + b == a;
    } else {
      var all := a + b;
      assert all[..|all| - 1] == a + b[..|b| - 1] && all[|all| - 1] == b[|b| - 1];
      MergeCallsJoin(base, a, b[..|b| - 1]);
    }
  }

  // ---------- merging one call twice ----------

  function BodyOf(call: Call): Fields {
    if call.body.Some? then call.body.value else map[]
  }

  function Sum(parts: seq<Fields>): Fields
    decreases |parts|
  {
    if parts == [] then map[] else Sum(parts[..|parts| - 1]) + parts[|parts| - 1]
  }

  function Bodies(updates: seq<Call>): (r: seq<Fields>)
    ensures |r| == |updates| && forall i | 0 <= i < |r| :: r[i] == BodyOf(updates[i])
  {
    seq(|updates|, i requires 0 <= i < |updates| => BodyOf(updates[i]))
  }

  function Rests(updates: seq<Call>): (r: seq<Fields>)
    ensures |r| == |updates| && forall i | 0 <= i < |r| :: r[i] == updates[i].other
  {
    seq(|updates|, i requires 0 <= i < |updates| => updates[i].other)
  }

  /** All updates at once: the last writer of a field wins. */
  lemma {:induction false} MergedRest(base: Call, updates: seq<Call>)
    ensures MergeAllFields(base, updates).other == base.other + Sum(Rests(updates))
    decreases |updates|
  {
    hide JoinFunction;
    if updates != [] {
      var n := |updates| - 1;
      var front, last := updates[..n], updates[n];
      assert Rests(updates)[..n] == Rests(front);
      MergedRest(base, front);
      assert base.other + (Sum(Rests(front)) + last.other) == (base.other + Sum(Rests(front))) + last.other;
    }
  }

  lemma {:induction false} MergedHeader(base: Call, updates: seq<Call>, id: Option<string>)
    requires forall u <- updates :: u.id == id
    ensures var result := MergeAllFields(base, updates);
            && result.id == (if updates == [] then base.id else Or(id, base.id))
            && (result.body.Some? <==> base.body.Some? || exists u <- updates :: u.body.Some?)
    decreases |updates|
  {
    hide JoinFunction;
    if updates != [] {
      var front, last := updates[..|updates| - 1], updates[|updates| - 1];
      assert updates == front + [last];
      MergedHeader(base, front, id);
    }
  }

  /** The body: the last writer of a field wins, except that the first name stays. */
  lemma {:induction false} MergedBody(base: Call, updates: seq<Call>)
    ensures var result := BodyOf(MergeAllFields(base, updates));
            && result - {"name"} == (BodyOf(base) + Sum(Bodies(updates))) - {"name"}
            && ("name" in BodyOf(base) ==> "name" in result && result["name"] == BodyOf(base)["name"])
            && ("name" in result <==> "name" in BodyOf(base) || exists u <- updates :: "name" in BodyOf(u))
    decreases |updates|
  {
    hide MergeFields, BodyOf;
    if updates != [] {
      var n := |updates| - 1;
      var front, last := updates[..n], updates[n];
      assert updates == front + [last];
      assert Bodies(updates)[..n] == Bodies(front);
      MergedBody(base, front);
      MergedField(MergeAllFields(base, front), last);
      RegroupFields(BodyOf(base), Sum(Bodies(front)), BodyOf(last), BodyOf(MergeAllFields(base, front)));
    }
  }

  lemma RegroupFields(a: Fields, b: Fields, c: Fields, ab: Fields)
    requires ab - {"name"} == (a + b) - {"name"}
    ensures (ab + c) - {"name"} == (a + (b + c)) - {"name"}
  {
    assert forall k | k in (ab + c) - {"name"} && k !in c :: k in ab - {"name"};
    assert forall k | k in (a + (b + c)) - {"name"} && k !in c :: k in (a + b) - {"name"};
  }

  lemma MergedField(base: Call, update: Call)
    ensures var result := MergeFields(base, update);
            && BodyOf(result) - {"name"} == (BodyOf(base) + BodyOf(update)) - {"name"}
            && ("name" in BodyOf(base) ==> "name" in BodyOf(result) && BodyOf(result)["name"] == BodyOf(base)["name"])
            && ("name" in BodyOf(result) <==> "name" in BodyOf(base) || "name" in BodyOf(update))
  {
  }

  lemma MergeAllFieldsTwice(base: Call, updates: seq<Call>, id: Option<string>)
    requires forall u <- updates :: u.id == id
    ensures MergeAllFields(MergeAllFields(base, updates), updates) == MergeAllFields(base, updates)
  {
    hide MergeAllFields, Sum;
    var once := MergeAllFields(base, updates);
    var twice := MergeAllFields(once, updates);
    MergedHeader(base, updates, id);
    MergedHeader(once, updates, id);
    MergedRest(base, updates);
    MergedRest(once, updates);
    assert twice.other == once.other;
    MergedBody(base, updates);
    MergedBody(once, updates);
    SameFields(BodyOf(base), Sum(Bodies(updates)), BodyOf(once), BodyOf(twice));
    SameBodies(BodyOf(once), BodyOf(twice));
  }

  lemma SameFields(a: Fields, b: Fields, once: Fields, twice: Fields)
    requires once - {"name"} == (a + b) - {"name"} && twice - {"name"} == (once + b) - {"name"}
    ensures twice - {"name"} == once - {"name"}
  {
    RegroupFields(a, b, b, once);
    assert b + b == b;
  }

  lemma SameBodies(a: Fields, b: Fields)
    requires a - {"name"} == b - {"name"} && ("name" in a <==> "name" in b) && ("name" in a ==> a["name"] == b["name"])
    ensures a == b
  {
    assert forall k | k in a && k != "name" :: k in a - {"name"};
    assert forall k | k in b && k != "name" :: k in b - {"name"};
  }

  // ---------- merging messages ----------

  predicate Live(m: Message) {
    m.id.Some? && m.id.value != ""
  }

  function IdOrEmpty(m: Message): string {
    if m.id.Some? then m.id.value else ""
  }

  /** The message id a recovered tool result goes to: an existing result for the same call wins. */
  function ToolHome(messages: seq<Message>, callId: Option<string>, home: string): string {
    if messages == [] then home
    else if IsTool(messages[0]) && messages[0].toolCallId == callId then IdOrEmpty(messages[0])
    else ToolHome(messages[1..], callId, home)
  }

  /** The last message declaring this call, if any. */
  function CallHome(messages: seq<Message>, id: Option<string>, home: string): string
    decreases |messages|
  {
    if messages == [] then home else
      var last := messages[|messages| - 1];
      if Declares(last, id) then IdOrEmpty(last) else CallHome(messages[..|messages| - 1], id, home)
  }

  function CallsHome(messages: seq<Message>, calls: seq<Option<Call>>, home: string): string
    decreases |calls|
  {
    if calls == [] then home else
      var front := CallsHome(messages, calls[..|calls| - 1], home);
      var last := calls[|calls| - 1];
      if last.Some? then CallHome(messages, last.value.id, front) else front
  }

  /** Existing wire aliases win over native identifiers. */
  function Home(messages: seq<Message>, update: Message): string
    requires Live(update)
  {
    if IsTool(update) then ToolHome(messages, update.toolCallId, update.id.value)
    else CallsHome(messages, CallsOf(update), update.id.value)
  }

  function Merge(base: Message, update: Message, id: string): Message {
    Message(Some(id), Or(update.role, base.role), Or(update.toolCallId, base.toolCallId),
            if update.calls.Some? then Some(MergeCalls(CallsOf(base), update.calls.value)) else base.calls,
            base.other + update.other)
  }

  function FindMessage(messages: seq<Message>, id: string): (r: nat)
    ensures r <= |messages|
    ensures forall i | 0 <= i < r :: messages[i].id != Some(id)
    ensures r < |messages| ==> messages[r].id == Some(id)
  {
    if messages == [] || messages[0].id == Some(id) then 0 else 1 + FindMessage(messages[1..], id)
  }

  /** Merges into the message with this id, or appends one. */
  function Put(messages: seq<Message>, id: string, update: Message): seq<Message> {
    var i := FindMessage(messages, id);
    if i < |messages| then messages[i := Merge(messages[i], update, id)]
    else messages + [Merge(NO_MESSAGE, update, id)]
  }

  function Upsert(messages: seq<Message>, update: Message): seq<Message> {
    if !Live(update) then messages else Put(messages, Home(messages, update), update)
  }

  function UpsertAll(messages: seq<Message>, incoming: seq<Message>): seq<Message>
    decreases |incoming|
  {
    if incoming == [] then messages else
      Upsert(UpsertAll(messages, incoming[..|incoming| - 1]), incoming[|incoming| - 1])
  }

  // ---------- reinserting tool results ----------

  function Tools(messages: seq<Message>): seq<Message> {
    if messages == [] then [] else
      (if IsTool(messages[0]) then [messages[0]] else []) + Tools(messages[1..])
  }

  function Others(messages: seq<Message>): seq<Message> {
    if messages == [] then [] else
      (if IsTool(messages[0]) then [] else [messages[0]]) + Others(messages[1..])
  }

  /** The first message declaring the call, or the length. */
  function FindOwner(messages: seq<Message>, id: Option<string>): (r: nat)
    ensures r <= |messages|
    ensures forall i | 0 <= i < r :: !Declares(messages[i], id)
    ensures r < |messages| ==> Declares(messages[r], id)
  {
    if messages == [] || Declares(messages[0], id) then 0 else 1 + FindOwner(messages[1..], id)
  }

  function SkipTools(messages: seq<Message>, from: nat): (r: nat)
    requires from <= |messages|
    ensures from <= r <= |messages|
    ensures forall i | from <= i < r :: IsTool(messages[i])
    ensures r < |messages| ==> !IsTool(messages[r])
    decreases |messages| - from
  {
    if from < |messages| && IsTool(messages[from]) then SkipTools(messages, from + 1) else from
  }

  function InsertTool(ordered: seq<Message>, tool: Message): seq<Message> {
    var owner := FindOwner(ordered, tool.toolCallId);
    var position := SkipTools(ordered, if owner < |ordered| then owner + 1 else |ordered|);
    ordered[..position] + [tool] + ordered[position..]
  }

  function InsertTools(ordered: seq<Message>, tools: seq<Message>): seq<Message>
    decreases |tools|
  {
    if tools == [] then ordered else
      InsertTool(InsertTools(ordered, tools[..|tools| - 1]), tools[|tools| - 1])
  }

  function Reinsert(messages: seq<Message>): seq<Message> {
    InsertTools(Others(messages), Tools(messages))
  }

  // ---------- the algorithm ----------

  method FindToolHome(messages: seq<Message>, update: Message) returns (home: string)
    requires Live(update) && IsTool(update)
    ensures home == Home(messages, update)
  {
    var i := 0;
    while i < |messages|
      invariant 0 <= i <= |messages|
      invariant ToolHome(messages, update.toolCallId, update.id.value) == ToolHome(messages[i..], update.toolCallId, update.id.value)
    {
      if IsTool(messages[i]) && messages[i].toolCallId == update.toolCallId {
        return IdOrEmpty(messages[i]);
      }
      assert messages[i..][1..] == messages[i + 1..];
      i := i + 1;
    }
    return update.id.value;
  }

  method FindCallsHome(messages: seq<Message>, update: Message) returns (home: string)
    requires Live(update) && !IsTool(update)
    ensures home == Home(messages, update)
  {
    home := update.id.value;
    var calls := CallsOf(update);
    for k := 0 to |calls|
      invariant home == CallsHome(messages, calls[..k], update.id.value)
    {
      assert calls[..k + 1][..k] == calls[..k];
      ghost var front := home;
      for i := 0 to |messages|
        invariant home == if calls[k].Some? then CallHome(messages[..i], calls[k].value.id, front) else front
      {
        assert messages[..i + 1][..i] == messages[..i];
        var declared := false;
        var saved := CallsOf(messages[i]);
        for j := 0 to |saved|
          invariant declared <==> calls[k].Some? && HasCall(saved[..j], calls[k].value.id)
        {
          assert saved[..j + 1] == saved[..j] + [saved[j]];
          if calls[k].Some? && saved[j].Some? && saved[j].value.id == calls[k].value.id {
            declared := true;
          }
        }
        assert saved[..|saved|] == saved;
        if declared {
          home := IdOrEmpty(messages[i]);
        }
      }
      assert messages[..|messages|] == messages;
    }
    assert calls[..|calls|] == calls;
  }

  /** aguiMergeRecoveryMessages. */
  method MergeMessages(existing: seq<Message>, incoming: seq<Message>) returns (ordered: seq<Message>)
    ensures ordered == Reinsert(UpsertAll(existing, incoming))
  {
    var result := existing;
    for k := 0 to |incoming|
      invariant result == UpsertAll(existing, incoming[..k])
    {
      assert incoming[..k + 1][..k] == incoming[..k];
      var update := incoming[k];
      if !Live(update) {
        continue;
      }
      var id;
      if IsTool(update) {
        id := FindToolHome(result, update);
      } else {
        id := FindCallsHome(result, update);
      }
      var found := 0;
      while found < |result| && result[found].id != Some(id)
        invariant 0 <= found <= |result|
        invariant forall i | 0 <= i < found :: result[i].id != Some(id)
      {
        found := found + 1;
      }
      var merged := if found < |result| then result[found] else NO_MESSAGE;
      var calls := merged.calls;
      if update.calls.Some? {
        var list := MergeCallList(CallsOf(merged), update.calls.value);
        calls := Some(list);
      }
      merged := Message(Some(id), Or(update.role, merged.role), Or(update.toolCallId, merged.toolCallId), calls, merged.other + update.other);
      result := if found < |result| then result[found := merged] else result + [merged];
    }
    assert incoming[..|incoming|] == incoming;
    ordered := ReinsertTools(result);
  }

  method SplitTools(result: seq<Message>) returns (tools: seq<Message>, ordered: seq<Message>)
    ensures tools == Tools(result) && ordered == Others(result)
  {
    tools, ordered := [], [];
    var k := 0;
    while k < |result|
      invariant 0 <= k <= |result|
      invariant tools + Tools(result[k..]) == Tools(result) && ordered + Others(result[k..]) == Others(result)
    {
      assert result[k..][1..] == result[k + 1..];
      if IsTool(result[k]) {
        tools := tools + [result[k]];
      } else {
        ordered := ordered + [result[k]];
      }
      k := k + 1;
    }
  }

  method PlaceTool(messages: seq<Message>, tool: Message) returns (ordered: seq<Message>)
    ensures ordered == InsertTool(messages, tool)
  {
    hide Declares;
    var owner := 0;
    while owner < |messages| && !Declares(messages[owner], tool.toolCallId)
      invariant 0 <= owner <= |messages|
      invariant forall i | 0 <= i < owner :: !Declares(messages[i], tool.toolCallId)
    {
      owner := owner + 1;
    }
    assert owner == FindOwner(messages, tool.toolCallId);
    var start := if owner < |messages| then owner + 1 else |messages|;
    var position := start;
    while position < |messages| && IsTool(messages[position])
      invariant start <= position <= |messages|
      invariant SkipTools(messages, start) == SkipTools(messages, position)
    {
      position := position + 1;
    }
    ordered := messages[..position] + [tool] + messages[position..];
  }

  method ReinsertTools(result: seq<Message>) returns (ordered: seq<Message>)
    ensures ordered == Reinsert(result)
  {
    hide InsertTool;
    var tools;
    tools, ordered := SplitTools(result);
    for n := 0 to |tools|
      invariant ordered == InsertTools(Others(result), tools[..n])
    {
      assert tools[..n + 1][..n] == tools[..n];
      ordered := PlaceTool(ordered, tools[n]);
    }
    assert tools[..|tools|] == tools;
  }

  // ---------- nothing is lost, nothing is repeated ----------

  predicate DistinctIds(messages: seq<Message>) {
    forall i, j | 0 <= i < j < |messages| && messages[i].id.Some? :: messages[i].id != messages[j].id
  }

  /** Every existing message keeps its place and its id, and no id appears twice. */
  lemma {:induction false} UpsertKeepsMessages(existing: seq<Message>, incoming: seq<Message>)
    ensures var result := UpsertAll(existing, incoming);
            && |result| >= |existing|
            && (forall i | 0 <= i < |existing| :: result[i].id == existing[i].id)
            && (DistinctIds(existing) ==> DistinctIds(result))
    decreases |incoming|
  {
    if incoming != [] {
      UpsertKeepsMessages(existing, incoming[..|incoming| - 1]);
    }
  }

  /** Where a tool result is inserted. */
  lemma InsertToolSplits(ordered: seq<Message>, tool: Message) returns (p: nat)
    ensures p <= |ordered| && InsertTool(ordered, tool) == ordered[..p] + [tool] + ordered[p..]
  {
    hide Declares, FindOwner, SkipTools;
    var owner := FindOwner(ordered, tool.toolCallId);
    p := SkipTools(ordered, if owner < |ordered| then owner + 1 else |ordered|);
  }

  lemma InsertToolKeeps(ordered: seq<Message>, tool: Message)
    requires IsTool(tool)
    ensures multiset(InsertTool(ordered, tool)) == multiset(ordered) + multiset{tool}
    ensures Others(InsertTool(ordered, tool)) == Others(ordered)
  {
    hide InsertTool, Others, IsTool;
    var p := InsertToolSplits(ordered, tool);
    assert ordered == ordered[..p] + ordered[p..];
    OneMoreElement(ordered[..p], tool, ordered[p..]);
    OneMoreTool(ordered[..p], tool, ordered[p..]);
  }

  lemma OneMoreElement(left: seq<Message>, m: Message, right: seq<Message>)
    ensures multiset(left + [m] + right) == multiset(left + right) + multiset{m}
  {
  }

  lemma OneMoreTool(left: seq<Message>, tool: Message, right: seq<Message>)
    requires IsTool(tool)
    ensures Others(left + [tool] + right) == Others(left + right)
  {
    hide Others, Tools, IsTool;
    assert left + [tool] + right == left + ([tool] + right);
    SplitsJoin(left, [tool] + right);
    SplitsJoin(left, right);
    SplitsCons(tool, right);
  }

  lemma {:induction false} SplitsJoin(a: seq<Message>, b: seq<Message>)
    ensures Others(a + b) == Others(a) + Others(b)
    ensures Tools(a + b) == Tools(a) + Tools(b)
  {
    hide Others, Tools, IsTool;
    SplitsNothing();
    if a == [] {
      assert a + b == b;
    } else {
      var first, rest := a[0], a[1..];
      SplitsJoin(rest, b);
      assert a + b == [first] + (rest + b);
      assert a == [first] + rest;
      SplitsCons(first, rest + b);
      SplitsCons(first, rest);
      if IsTool(first) {
        assert [first] + Tools(rest) + Tools(b) == [first] + (Tools(rest) + Tools(b));
      } else {
        assert [first] + Others(rest) + Others(b) == [first] + (Others(rest) + Others(b));
      }
    }
  }

  lemma SplitsNothing()
    ensures Others([]) == [] && Tools([]) == []
  {
  }

  lemma SplitsCons(first: Message, rest: seq<Message>)
    ensures Others([first] + rest) == if IsTool(first) then Others(rest) else [first] + Others(rest)
    ensures Tools([first] + rest) == if IsTool(first) then [first] + Tools(rest) else Tools(rest)
  {
    hide IsTool;
    assert ([first] + rest)[1..] == rest;
  }

  lemma {:induction false} SplitsPartition(messages: seq<Message>)
    ensures multiset(Others(messages)) + multiset(Tools(messages)) == multiset(messages)
    ensures forall m <- Tools(messages) :: IsTool(m)
    ensures forall m <- Others(messages) :: !IsTool(m)
  {
    if messages != [] {
      assert messages == [messages[0]] + messages[1..];
      SplitsPartition(messages[1..]);
    }
  }

  lemma {:induction false} InsertToolsKeep(ordered: seq<Message>, tools: seq<Message>)
    requires forall t <- tools :: IsTool(t)
    ensures multiset(InsertTools(ordered, tools)) == multiset(ordered) + multiset(tools)
    ensures Others(InsertTools(ordered, tools)) == Others(ordered)
    decreases |tools|
  {
    if tools != [] {
      var front, last := tools[..|tools| - 1], tools[|tools| - 1];
      assert tools == front + [last];
      InsertToolsKeep(ordered, front);
      InsertToolKeeps(InsertTools(ordered, front), last);
    }
  }

  /** Moving the tool results is a permutation, and the other messages keep their order. */
  lemma ReinsertIsPermutation(messages: seq<Message>)
    ensures multiset(Reinsert(messages)) == multiset(messages)
    ensures Others(Reinsert(messages)) == Others(messages)
  {
    SplitsPartition(messages);
    InsertToolsKeep(Others(messages), Tools(messages));
    NoTools(Others(messages));
  }

  lemma {:induction false} OnlyTools(messages: seq<Message>)
    requires forall m <- messages :: IsTool(m)
    ensures Tools(messages) == messages && Others(messages) == []
  {
    if messages != [] {
      OnlyTools(messages[1..]);
    }
  }

  lemma {:induction false} NoTools(messages: seq<Message>)
    requires forall m <- messages :: !IsTool(m)
    ensures Others(messages) == messages && Tools(messages) == []
  {
    if messages != [] {
      NoTools(messages[1..]);
    }
  }

  // ---------- where a tool result ends up ----------

  /** The position, among the other messages, of the one a tool result follows: the first that
      declares its call, or the last of all. */
  function GroupOf(others: seq<Message>, tool: Message): int {
    var owner := FindOwner(others, tool.toolCallId);
    if owner < |others| then owner else |others| - 1
  }

  /** The tools of one group, in order. */
  function Group(others: seq<Message>, tools: seq<Message>, k: int): seq<Message>
    decreases |tools|
  {
    if tools == [] then [] else
      var front, last := tools[..|tools| - 1], tools[|tools| - 1];
      Group(others, front, k) + if GroupOf(others, last) == k then [last] else []
  }

  /** Every other message from `k` on, each followed by its tools. */
  function Layout(others: seq<Message>, tools: seq<Message>, k: nat): seq<Message>
    requires k <= |others|
    decreases |others| - k
  {
    if k == |others| then [] else
      [others[k]] + Group(others, tools, k) + Layout(others, tools, k + 1)
  }

  /** On the wire only an assistant message declares calls. */
  ghost predicate ToolsDeclareNothing(messages: seq<Message>) {
    forall m <- messages :: IsTool(m) ==> forall id :: !Declares(m, id)
  }

  lemma {:induction false} GroupsAreTools(others: seq<Message>, tools: seq<Message>, k: int)
    ensures forall t <- Group(others, tools, k) :: t in tools && GroupOf(others, t) == k
    decreases |tools|
  {
    if tools != [] {
      GroupsAreTools(others, tools[..|tools| - 1], k);
    }
  }

  lemma FindOwnerAfter(left: seq<Message>, right: seq<Message>, id: Option<string>)
    requires forall m <- left :: !Declares(m, id)
    ensures FindOwner(left + right, id) == |left| + FindOwner(right, id)
  {
    hide Declares;
    var all := left + right;
    var r, n := FindOwner(all, id), |left| + FindOwner(right, id);
    forall i | 0 <= i < n
      ensures !Declares(all[i], id)
    {
      if i < |left| { assert all[i] in left; } else { assert all[i] == right[i - |left|]; }
    }
    if n < |all| {
      assert all[n] == right[n - |left|];
    }
  }

  lemma SkipToolsAfter(left: seq<Message>, right: seq<Message>, from: nat)
    requires from <= |right|
    ensures SkipTools(left + right, |left| + from) == |left| + SkipTools(right, from)
  {
    var all := left + right;
    var r, n := SkipTools(all, |left| + from), |left| + SkipTools(right, from);
    forall i | |left| + from <= i < n
      ensures IsTool(all[i])
    {
      assert all[i] == right[i - |left|];
    }
    if n < |all| {
      assert all[n] == right[n - |left|];
    }
    if r < |all| {
      assert all[r] == right[r - |left|];
    }
  }

  /** Inserting past messages that do not declare the call. */
  lemma InsertAfter(left: seq<Message>, right: seq<Message>, tool: Message)
    requires forall m <- left :: !Declares(m, tool.toolCallId)
    ensures InsertTool(left + right, tool) == left + InsertTool(right, tool)
  {
    hide Declares, FindOwner, SkipTools, IsTool;
    FindOwnerAfter(left, right, tool.toolCallId);
    var owner := FindOwner(right, tool.toolCallId);
    var start := if owner < |right| then owner + 1 else |right|;
    SkipToolsAfter(left, right, start);
    var p := SkipTools(right, start);
    SpliceAfter(left, right, p, tool);
  }

  lemma SpliceAfter(left: seq<Message>, right: seq<Message>, p: nat, tool: Message)
    requires p <= |right|
    ensures var all := left + right;
            all[..|left| + p] + [tool] + all[|left| + p..] == left + (right[..p] + [tool] + right[p..])
  {
  }

  /** Inserting a tool result at its owner's group: it goes to the end of the group. */
  lemma InsertAtOwner(owner: Message, group: seq<Message>, right: seq<Message>, tool: Message)
    requires Declares(owner, tool.toolCallId) && forall t <- group :: IsTool(t)
    requires right != [] ==> !IsTool(right[0])
    ensures InsertTool([owner] + group + right, tool) == [owner] + group + [tool] + right
  {
    hide Declares;
    var all := [owner] + group + right;
    assert FindOwner(all, tool.toolCallId) == 0;
    var p := SkipTools(all, 1);
    forall i | 1 <= i < 1 + |group|
      ensures IsTool(all[i])
    {
      assert all[i] == group[i - 1];
    }
    assert 1 + |group| < |all| ==> all[1 + |group|] == right[0];
    assert p == 1 + |group|;
  }

  /** The owner's group takes the tool at its end; the groups after it stay. */
  lemma InsertAtOwnerOfLayout(others: seq<Message>, tools: seq<Message>, tool: Message, k: nat)
    requires k < |others| && GroupOf(others, tool) == k && Declares(others[k], tool.toolCallId)
    requires (forall m <- others :: !IsTool(m)) && (forall t <- tools :: IsTool(t))
    ensures InsertTool(Layout(others, tools, k), tool) == Layout(others, tools + [tool], k)
  {
    hide Declares, InsertTool, Layout, Group, GroupOf, IsTool;
    var group, right := Group(others, tools, k), Layout(others, tools, k + 1);
    GroupsAreTools(others, tools, k);
    LayoutStep(others, tools, k);
    LayoutStep(others, tools + [tool], k);
    LayoutStartsWithOther(others, tools, k + 1);
    GroupJoins(others, tools, [tool], k);
    GroupOfOne(others, tool, k);
    InsertAtOwner(others[k], group, right, tool);
    LaterGroupsSame(others, tools, tool, k + 1);
    assert [others[k]] + group + [tool] + right == [others[k]] + (group + [tool]) + right;
  }

  lemma LayoutStartsWithOther(others: seq<Message>, tools: seq<Message>, k: nat)
    requires k <= |others| && forall m <- others :: !IsTool(m)
    ensures Layout(others, tools, k) != [] ==> !IsTool(Layout(others, tools, k)[0])
  {
    hide Group, IsTool;
    if k < |others| {
      assert others[k] in others;
    }
  }

  /** A group that does not take the tool is passed. */
  lemma InsertPastGroup(others: seq<Message>, tools: seq<Message>, tool: Message, k: nat)
    requires k < |others| && !Declares(others[k], tool.toolCallId)
    requires forall t <- tools :: IsTool(t)
    requires ToolsDeclareNothing(tools)
    ensures InsertTool(Layout(others, tools, k), tool) == [others[k]] + Group(others, tools, k) + InsertTool(Layout(others, tools, k + 1), tool)
  {
    hide Declares, InsertTool, Layout, Group, GroupOf, IsTool;
    GroupsAreTools(others, tools, k);
    LayoutStep(others, tools, k);
    InsertAfter([others[k]] + Group(others, tools, k), Layout(others, tools, k + 1), tool);
  }

  lemma {:induction false} InsertIntoLayout(others: seq<Message>, tools: seq<Message>, tool: Message, k: nat)
    requires k < |others|
    requires (forall m <- others :: !IsTool(m)) && (forall t <- tools :: IsTool(t))
    requires ToolsDeclareNothing(tools)
    requires forall j | 0 <= j < k :: !Declares(others[j], tool.toolCallId)
    ensures InsertTool(Layout(others, tools, k), tool) == Layout(others, tools + [tool], k)
    decreases |others| - k
  {
    hide Declares, InsertTool, Layout, Group, IsTool, ToolsDeclareNothing;
    if Declares(others[k], tool.toolCallId) {
      assert GroupOf(others, tool) == k;
      InsertAtOwnerOfLayout(others, tools, tool, k);
    } else {
      InsertPastGroup(others, tools, tool, k);
      LayoutStep(others, tools + [tool], k);
      GroupJoins(others, tools, [tool], k);
      GroupOfOne(others, tool, k);
      var group := Group(others, tools, k);
      if k + 1 < |others| {
        InsertIntoLayout(others, tools, tool, k + 1);
        assert GroupOf(others, tool) != k;
        assert group + [] == group;
      } else {
        assert GroupOf(others, tool) == k;
        LayoutStep(others, tools, k + 1);
        LayoutStep(others, tools + [tool], k + 1);
        InsertIntoEmpty(tool);
        assert [others[k]] + (group + [tool]) + [] == [others[k]] + group + [tool];
      }
    }
  }

  lemma InsertIntoEmpty(tool: Message)
    ensures InsertTool([], tool) == [tool]
  {
  }

  lemma {:induction false} LaterGroupsSame(others: seq<Message>, tools: seq<Message>, tool: Message, k: nat)
    requires k <= |others| && GroupOf(others, tool) < k
    ensures Layout(others, tools + [tool], k) == Layout(others, tools, k)
    decreases |others| - k
  {
    hide Group, GroupOf;
    if k < |others| {
      GroupJoins(others, tools, [tool], k);
      GroupOfOne(others, tool, k);
      LaterGroupsSame(others, tools, tool, k + 1);
    }
  }

  /** The reinsertion loop lays the messages out by owner. */
  lemma {:induction false} InsertToolsIsLayout(others: seq<Message>, tools: seq<Message>)
    requires (forall m <- others :: !IsTool(m)) && (forall t <- tools :: IsTool(t))
    requires ToolsDeclareNothing(tools) && others != []
    ensures InsertTools(others, tools) == Layout(others, tools, 0)
    decreases |tools|
  {
    if tools == [] {
      LayoutWithoutTools(others, 0);
      assert others[0..] == others;
    } else {
      hide InsertTool, Layout, IsTool, Declares, ToolsDeclareNothing;
      var front, last := tools[..|tools| - 1], tools[|tools| - 1];
      assert front + [last] == tools;
      FrontDeclaresNothing(front, last);
      InsertToolsIsLayout(others, front);
      InsertIntoLayout(others, front, last, 0);
    }
  }

  lemma FrontDeclaresNothing(front: seq<Message>, last: Message)
    requires ToolsDeclareNothing(front + [last]) && forall t <- front + [last] :: IsTool(t)
    ensures ToolsDeclareNothing(front) && forall t <- front :: IsTool(t)
  {
    hide IsTool, Declares;
    assert forall t <- front :: t in front + [last];
  }

  lemma {:induction false} LayoutWithoutTools(others: seq<Message>, k: nat)
    requires k <= |others|
    ensures Layout(others, [], k) == others[k..]
    decreases |others| - k
  {
    if k < |others| {
      LayoutWithoutTools(others, k + 1);
    }
  }

  lemma InsertAmongTools(ordered: seq<Message>, tool: Message)
    requires forall t <- ordered :: IsTool(t)
    ensures InsertTool(ordered, tool) == ordered + [tool]
  {
    hide Declares, IsTool;
    var owner := FindOwner(ordered, tool.toolCallId);
    var p := SkipTools(ordered, if owner < |ordered| then owner + 1 else |ordered|);
    assert p == |ordered| by {
      assert forall i | 0 <= i < |ordered| :: ordered[i] in ordered;
    }
  }

  lemma {:induction false} InsertToolsIntoNothing(tools: seq<Message>)
    requires forall t <- tools :: IsTool(t)
    ensures InsertTools([], tools) == tools
    decreases |tools|
  {
    hide InsertTool, IsTool;
    if tools != [] {
      var front, last := tools[..|tools| - 1], tools[|tools| - 1];
      InsertToolsIntoNothing(front);
      InsertAmongTools(front, last);
    }
  }

  lemma {:induction false} LayoutHoldsLaterGroups(others: seq<Message>, tools: seq<Message>, k: nat, j: nat)
    requires k <= |others| && j < |Layout(others, tools, k)|
    requires forall m <- others :: !IsTool(m)
    requires IsTool(Layout(others, tools, k)[j])
    ensures Layout(others, tools, k)[j] in tools && GroupOf(others, Layout(others, tools, k)[j]) >= k
    decreases |others| - k
  {
    hide Group, GroupOf, IsTool;
    var group := Group(others, tools, k);
    GroupsAreTools(others, tools, k);
    if j <= |group| {
      assert others[k] in others && j > 0;
      assert Layout(others, tools, k)[j] == group[j - 1];
    } else {
      LayoutHoldsLaterGroups(others, tools, k + 1, j - 1 - |group|);
    }
  }

  /** Message `j` directly follows, tools apart, the first message declaring its call; with no
      such message, only tools follow it. */
  ghost predicate Placed(messages: seq<Message>, j: nat)
    requires j < |messages|
  {
    var owner := FindOwner(messages, messages[j].toolCallId);
    if owner < |messages| then owner < j && forall i | owner < i < j :: IsTool(messages[i])
    else forall i | j < i < |messages| :: IsTool(messages[i])
  }

  /** A tool in the first group of a layout. */
  lemma FirstGroupPlaces(others: seq<Message>, tools: seq<Message>, k: nat, j: nat)
    requires k < |others| && 0 < j <= |Group(others, tools, k)|
    requires (forall t <- tools :: IsTool(t)) && ToolsDeclareNothing(tools)
    ensures Placed(Layout(others, tools, k), j)
  {
    hide Declares, IsTool;
    var all, group := Layout(others, tools, k), Group(others, tools, k);
    var id := all[j].toolCallId;
    GroupsAreTools(others, tools, k);
    forall i | 0 < i <= |group|
      ensures all[i] == group[i - 1] && all[i] in tools
    {
      assert group[i - 1] in group;
    }
    if Declares(others[k], id) {
      assert FindOwner(all, id) == 0;
    } else {
      LastGroupIsLast(others, tools, all[j], k);
      assert all == [others[k]] + group;
      forall i | 0 <= i < |all|
        ensures !Declares(all[i], id)
      {
      }
      assert FindOwner(all, id) == |all|;
    }
  }

  /** What stands in front, declaring nothing of the kind, does not disturb the placement. */
  lemma PlacedBehind(block: seq<Message>, right: seq<Message>, n: nat)
    requires n < |right| && Placed(right, n)
    requires forall m <- block :: !Declares(m, right[n].toolCallId)
    ensures Placed(block + right, |block| + n)
  {
    hide Declares, IsTool, FindOwner;
    FindOwnerAfter(block, right, right[n].toolCallId);
    var all := block + right;
    assert forall i | |block| <= i < |all| :: all[i] == right[i - |block|];
  }

  lemma {:induction false} LayoutPlaces(others: seq<Message>, tools: seq<Message>, k: nat, j: nat)
    requires k <= |others| && j < |Layout(others, tools, k)|
    requires (forall m <- others :: !IsTool(m)) && (forall t <- tools :: IsTool(t)) && ToolsDeclareNothing(tools)
    requires IsTool(Layout(others, tools, k)[j])
    ensures Placed(Layout(others, tools, k), j)
    decreases |others| - k
  {
    hide Declares, InsertTool, Placed, FindOwner;
    var group, right := Group(others, tools, k), Layout(others, tools, k + 1);
    var block := [others[k]] + group;
    assert others[k] in others;
    if j <= |group| {
      FirstGroupPlaces(others, tools, k, j);
    } else {
      var n := j - |block|;
      assert Layout(others, tools, k)[j] == right[n];
      LayoutPlaces(others, tools, k + 1, n);
      LayoutHoldsLaterGroups(others, tools, k + 1, n);
      EarlierOwnersDoNot(others, right[n], k);
      GroupsAreTools(others, tools, k);
      forall m | m in block
        ensures !Declares(m, right[n].toolCallId)
      {
        assert m == others[k] || m in group;
      }
      PlacedBehind(block, right, n);
    }
  }

  lemma EarlierOwnersDoNot(others: seq<Message>, tool: Message, k: nat)
    requires k < |others| && GroupOf(others, tool) > k
    ensures !Declares(others[k], tool.toolCallId)
  {
  }

  /** A tool in a group whose message does not declare its call is an orphan in the last group. */
  lemma LastGroupIsLast(others: seq<Message>, tools: seq<Message>, tool: Message, k: nat)
    requires k < |others| && GroupOf(others, tool) == k && !Declares(others[k], tool.toolCallId)
    ensures k == |others| - 1 && Layout(others, tools, k + 1) == []
  {
  }

  /** After the merge every tool result stands right behind its call. */
  lemma ToolsFollowTheirCalls(messages: seq<Message>, j: nat)
    requires ToolsDeclareNothing(messages)
    requires j < |Reinsert(messages)| && IsTool(Reinsert(messages)[j])
    ensures Placed(Reinsert(messages), j)
  {
    hide Placed, InsertTools, Layout, Others, Tools, IsTool, Declares;
    var others, tools := Others(messages), Tools(messages);
    SplitsPartition(messages);
    SplitsAreParts(messages);
    assert ToolsDeclareNothing(tools);
    if others == [] {
      InsertToolsIntoNothing(tools);
      OnlyToolsPlaced(tools, j);
    } else {
      InsertToolsIsLayout(others, tools);
      LayoutPlaces(others, tools, 0, j);
    }
  }

  lemma OnlyToolsPlaced(tools: seq<Message>, j: nat)
    requires j < |tools| && (forall t <- tools :: IsTool(t)) && ToolsDeclareNothing(tools)
    ensures Placed(tools, j)
  {
    hide IsTool, Declares;
    assert forall i | 0 <= i < |tools| :: tools[i] in tools;
  }

  lemma {:induction false} SplitsAreParts(messages: seq<Message>)
    ensures forall m <- Tools(messages) :: m in messages
    ensures forall m <- Others(messages) :: m in messages
  {
    if messages != [] {
      SplitsAreParts(messages[1..]);
    }
  }

  // ---------- reinserting again ----------

  lemma {:induction false} GroupJoins(others: seq<Message>, a: seq<Message>, b: seq<Message>, k: int)
    ensures Group(others, a + b, k) == Group(others, a, k) + Group(others, b, k)
    decreases |b|
  {
    if b == [] {
      assert a + b == a;
    } else {
      var front := b[..|b| - 1];
      assert (a + b)[..|a + b| - 1] == a + front;
      GroupJoins(others, a, front, k);
    }
  }

  lemma GroupOfOne(others: seq<Message>, tool: Message, k: int)
    ensures Group(others, [tool], k) == if GroupOf(others, tool) == k then [tool] else []
  {
    assert [tool][..0] == [];
  }

  lemma {:induction false} GroupOfGroup(others: seq<Message>, tools: seq<Message>, j: int, k: int)
    ensures Group(others, Group(others, tools, j), k) == if j == k then Group(others, tools, k) else []
    decreases |tools|
  {
    hide GroupOf;
    if tools != [] {
      var front, last := tools[..|tools| - 1], tools[|tools| - 1];
      GroupOfGroup(others, front, j, k);
      if GroupOf(others, last) == j {
        assert Group(others, tools, j) == Group(others, front, j) + [last];
        GroupJoins(others, Group(others, front, j), [last], k);
        GroupOfOne(others, last, k);
      } else {
        assert Group(others, tools, j) == Group(others, front, j);
      }
    }
  }

  lemma {:induction false} GroupOfLayout(others: seq<Message>, tools: seq<Message>, j: nat, k: nat)
    requires j <= |others| && forall m <- others :: !IsTool(m)
    requires forall t <- tools :: IsTool(t)
    ensures Group(others, Tools(Layout(others, tools, j)), k) == if j <= k < |others| then Group(others, tools, k) else []
    decreases |others| - j
  {
    hide Group, GroupOf, Tools;
    if j < |others| {
      var group, right := Group(others, tools, j), Layout(others, tools, j + 1);
      ToolsOfLayout(others, tools, j);
      GroupJoins(others, group, Tools(right), k);
      GroupOfGroup(others, tools, j, k);
      GroupOfLayout(others, tools, j + 1, k);
    } else {
      NoGroups(others, k);
    }
  }

  lemma NoGroups(others: seq<Message>, k: int)
    ensures Tools([]) == [] && Group(others, [], k) == []
  {
  }

  lemma ToolsOfLayout(others: seq<Message>, tools: seq<Message>, j: nat)
    requires j < |others| && (forall m <- others :: !IsTool(m)) && (forall t <- tools :: IsTool(t))
    ensures Tools(Layout(others, tools, j)) == Group(others, tools, j) + Tools(Layout(others, tools, j + 1))
  {
    var group, right := Group(others, tools, j), Layout(others, tools, j + 1);
    GroupsAreTools(others, tools, j);
    OnlyTools(group);
    assert others[j] in others;
    assert Layout(others, tools, j) == [others[j]] + (group + right);
    assert ([others[j]] + (group + right))[1..] == group + right;
    SplitsJoin(group, right);
  }

  lemma LayoutStep(others: seq<Message>, tools: seq<Message>, k: nat)
    requires k <= |others|
    ensures Layout(others, tools, k) ==
            if k == |others| then [] else [others[k]] + Group(others, tools, k) + Layout(others, tools, k + 1)
  {
    hide Group;
  }

  lemma {:induction false} SameGroupsSameLayout(others: seq<Message>, a: seq<Message>, b: seq<Message>, k: nat)
    requires k <= |others| && forall i: nat | i < |others| :: Group(others, a, i) == Group(others, b, i)
    ensures Layout(others, a, k) == Layout(others, b, k)
    decreases |others| - k
  {
    hide Group, Layout;
    LayoutStep(others, a, k);
    LayoutStep(others, b, k);
    if k < |others| {
      assert Group(others, a, k) == Group(others, b, k);
      SameGroupsSameLayout(others, a, b, k + 1);
    }
  }

  /** Moving the tool results a second time changes nothing. */
  lemma ReinsertIsIdempotent(messages: seq<Message>)
    requires ToolsDeclareNothing(messages)
    ensures Reinsert(Reinsert(messages)) == Reinsert(messages)
  {
    var others, tools := Others(messages), Tools(messages);
    var once := Reinsert(messages);
    SplitsPartition(messages);
    SplitsAreParts(messages);
    ReinsertIsPermutation(messages);
    if others == [] {
      InsertToolsIntoNothing(tools);
      OnlyTools(tools);
    } else {
      InsertToolsIsLayout(others, tools);
      SplitsPartition(once);
      SplitsAreParts(once);
      forall t | t in Tools(once)
        ensures t in messages
      {
        assert t in multiset(once) && t in multiset(messages);
      }
      InsertToolsIsLayout(others, Tools(once));
      forall i: nat | i < |others|
        ensures Group(others, Tools(once), i) == Group(others, tools, i)
      {
        GroupOfLayout(others, tools, 0, i);
      }
      SameGroupsSameLayout(others, Tools(once), tools, 0);
    }
  }
}
