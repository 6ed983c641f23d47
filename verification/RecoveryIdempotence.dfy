/** Merging one recovered batch twice: aguiMergeRecoveryMessages of sdk/agui_recovery.go.

    A crash after the merge was journaled makes recovery run it again on its own result, so on
    consistently identified messages the second merge must change nothing. */
module RecoveryIdempotence {
  import opened Common
  import opened RecoveryMerge

  function MergeAll(existing: seq<Message>, incoming: seq<Message>): seq<Message> {
    Reinsert(UpsertAll(existing, incoming))
  }

  // ---------- consistent identities ----------

  /** No call is declared by two messages. */
  ghost predicate OwnedOnce(messages: seq<Message>) {
    forall i, j, id | 0 <= i < j < |messages| && Live(messages[i]) && Live(messages[j]) ::
      !(Declares(messages[i], id) && Declares(messages[j], id))
  }

  /** All calls of one recovered message are journaled in the same message, or nowhere. */
  ghost predicate OneOwner(existing: seq<Message>, f: Message) {
    forall a <- existing, b <- existing, c <- CallsOf(f), d <- CallsOf(f) ::
      c.Some? && d.Some? && Declares(a, c.value.id) && Declares(b, d.value.id) ==> a.id == b.id
  }

  /** Both are tool results, for the same call, or neither is one. */
  predicate SameKind(a: Message, b: Message) {
    (IsTool(a) <==> IsTool(b)) && (IsTool(a) ==> a.toolCallId == b.toolCallId)
  }

  ghost predicate SharedIdsAgree(existing: seq<Message>, incoming: seq<Message>) {
    && (forall e <- existing, f <- incoming :: Live(f) && e.id == f.id ==> SameKind(e, f))
    && (forall f <- incoming, g <- incoming :: Live(f) && f.id == g.id ==> SameKind(f, g))
  }

  /** Identities as one thread's journal and transcript hold them: each call is owned by one
      message on each side, all calls of a recovered message by the same journaled one or by
      none, and messages sharing an id are of one kind, tool results for the same call. Several
      recovered messages may well go into one journaled message. */
  ghost predicate Consistent(existing: seq<Message>, incoming: seq<Message>) {
    && DistinctIds(existing) && (forall m <- existing :: Live(m))
    && ToolsDeclareNothing(existing) && ToolsDeclareNothing(incoming)
    && OwnedOnce(existing) && OwnedOnce(incoming)
    && (forall f <- incoming :: Live(f) && !IsTool(f) ==> OneOwner(existing, f))
    && SharedIdsAgree(existing, incoming)
  }

  // ---------- merging into one message twice ----------

  function FoldInto(base: Message, id: string, updates: seq<Message>): Message
    decreases |updates|
  {
    if updates == [] then base
    else Merge(FoldInto(base, id, updates[..|updates| - 1]), updates[|updates| - 1], id)
  }

  /** The last present value. */
  function LastOf<T>(parts: seq<Option<T>>, base: Option<T>): Option<T>
    decreases |parts|
  {
    if parts == [] then base else Or(parts[|parts| - 1], LastOf(parts[..|parts| - 1], base))
  }

  function AllCalls(updates: seq<Message>): seq<Option<Call>>
    decreases |updates|
  {
    if updates == [] then [] else AllCalls(updates[..|updates| - 1]) + CallsOf(updates[|updates| - 1])
  }

  function Roles(updates: seq<Message>): (r: seq<Option<string>>)
    ensures |r| == |updates| && forall i | 0 <= i < |r| :: r[i] == updates[i].role
  {
    seq(|updates|, i requires 0 <= i < |updates| => updates[i].role)
  }

  function Targets(updates: seq<Message>): (r: seq<Option<string>>)
    ensures |r| == |updates| && forall i | 0 <= i < |r| :: r[i] == updates[i].toolCallId
  {
    seq(|updates|, i requires 0 <= i < |updates| => updates[i].toolCallId)
  }

  function RestsOf(updates: seq<Message>): (r: seq<Fields>)
    ensures |r| == |updates| && forall i | 0 <= i < |r| :: r[i] == updates[i].other
  {
    seq(|updates|, i requires 0 <= i < |updates| => updates[i].other)
  }

  /** Merging several updates into one message, at once. */
  lemma {:induction false} FoldedHeader(base: Message, id: string, updates: seq<Message>)
    ensures var result := FoldInto(base, id, updates);
            && result.id == (if updates == [] then base.id else Some(id))
            && result.role == LastOf(Roles(updates), base.role)
            && result.toolCallId == LastOf(Targets(updates), base.toolCallId)
    decreases |updates|
  {
    hide MergeCalls, CallsOf;
    if updates != [] {
      var n := |updates| - 1;
      var front := updates[..n];
      FoldedHeader(base, id, front);
      assert Roles(updates)[..n] == Roles(front);
      assert Targets(updates)[..n] == Targets(front);
    }
  }

  lemma {:induction false} FoldedRest(base: Message, id: string, updates: seq<Message>)
    ensures FoldInto(base, id, updates).other == base.other + Sum(RestsOf(updates))
    decreases |updates|
  {
    hide MergeCalls, CallsOf;
    if updates != [] {
      var n := |updates| - 1;
      var front, last := updates[..n], updates[n];
      FoldedRest(base, id, front);
      assert RestsOf(updates)[..n] == RestsOf(front);
      assert base.other + (Sum(RestsOf(front)) + last.other) == (base.other + Sum(RestsOf(front))) + last.other;
    }
  }

  lemma {:induction false} FoldedCalls(base: Message, id: string, updates: seq<Message>)
    ensures var result := FoldInto(base, id, updates);
            && CallsOf(result) == MergeCalls(CallsOf(base), AllCalls(updates))
            && (result.calls.Some? <==> base.calls.Some? || exists u <- updates :: u.calls.Some?)
    decreases |updates|
  {
    hide MergeCalls;
    if updates != [] {
      var front, last := updates[..|updates| - 1], updates[|updates| - 1];
      assert updates == front + [last];
      FoldedCalls(base, id, front);
      MergeCallsJoin(CallsOf(base), AllCalls(front), CallsOf(last));
      MergeNoCalls(CallsOf(FoldInto(base, id, front)));
    } else {
      MergeNoCalls(CallsOf(base));
    }
  }

  lemma MergeNoCalls(base: seq<Option<Call>>)
    ensures MergeCalls(base, []) == base
  {
  }

  lemma {:induction false} LastOfTwice<T>(parts: seq<Option<T>>, base: Option<T>)
    ensures LastOf(parts, LastOf(parts, base)) == LastOf(parts, base)
    ensures (forall p <- parts :: p.None?) ==> LastOf(parts, base) == base
    ensures (exists p <- parts :: p.Some?) ==> forall other :: LastOf(parts, other) == LastOf(parts, base)
    decreases |parts|
  {
    if parts != [] {
      var front, last := parts[..|parts| - 1], parts[|parts| - 1];
      assert parts == front + [last];
      LastOfTwice(front, base);
      if last.None? && forall p <- front :: p.None? {
        LastOfTwice(front, LastOf(parts, base));
      }
    }
  }

  lemma FoldIntoTwice(base: Message, id: string, updates: seq<Message>)
    ensures FoldInto(FoldInto(base, id, updates), id, updates) == FoldInto(base, id, updates)
  {
    hide FoldInto, MergeCalls, AllCalls, LastOf, Sum;
    var once := FoldInto(base, id, updates);
    FoldedHeader(base, id, updates);
    FoldedHeader(once, id, updates);
    FoldedRest(base, id, updates);
    FoldedRest(once, id, updates);
    LastOfTwice(Roles(updates), base.role);
    LastOfTwice(Targets(updates), base.toolCallId);
    assert (base.other + Sum(RestsOf(updates))) + Sum(RestsOf(updates)) == base.other + Sum(RestsOf(updates));
    FoldedCalls(base, id, updates);
    FoldedCalls(once, id, updates);
    MergeCallsIsIdempotent(CallsOf(base), AllCalls(updates));
  }

  // ---------- merging into a list twice ----------

  function BaseOf(messages: seq<Message>, id: string): Message {
    var i := FindMessage(messages, id);
    if i < |messages| then messages[i] else NO_MESSAGE
  }

  /** Where each update goes. */
  type Delivery = (string, Message)

  function PutAll(messages: seq<Message>, deliveries: seq<Delivery>): seq<Message>
    decreases |deliveries|
  {
    if deliveries == [] then messages else
      var last := deliveries[|deliveries| - 1];
      Put(PutAll(messages, deliveries[..|deliveries| - 1]), last.0, last.1)
  }

  function SentTo(deliveries: seq<Delivery>, id: string): seq<Message>
    decreases |deliveries|
  {
    if deliveries == [] then [] else
      var last := deliveries[|deliveries| - 1];
      SentTo(deliveries[..|deliveries| - 1], id) + if last.0 == id then [last.1] else []
  }

  lemma BaseAfterPut(messages: seq<Message>, at: string, update: Message, id: string)
    ensures BaseOf(Put(messages, at, update), id) == if id == at then Merge(BaseOf(messages, at), update, at) else BaseOf(messages, id)
  {
    hide Merge;
    MergeSetsId(BaseOf(messages, at), update, at);
    var result := Put(messages, at, update);
    var n, i, r := FindMessage(messages, at), FindMessage(messages, id), FindMessage(result, id);
    assert result[n] == Merge(BaseOf(messages, at), update, at);
    assert forall k | 0 <= k < |messages| && k != n :: result[k] == messages[k];
    if id == at {
      assert !(r < n) && !(n < r);
    } else if i < |messages| {
      assert result[i] == messages[i];
      assert !(r < i) && !(i < r);
    } else {
      assert r == |result|;
    }
  }

  lemma MergeSetsId(base: Message, update: Message, id: string)
    ensures Merge(base, update, id).id == Some(id)
  {
  }

  lemma {:induction false} BaseAfterPuts(messages: seq<Message>, deliveries: seq<Delivery>, id: string)
    ensures BaseOf(PutAll(messages, deliveries), id) == FoldInto(BaseOf(messages, id), id, SentTo(deliveries, id))
    decreases |deliveries|
  {
    hide Put, BaseOf, Merge;
    if deliveries != [] {
      var front, last := deliveries[..|deliveries| - 1], deliveries[|deliveries| - 1];
      BaseAfterPuts(messages, front, id);
      BaseAfterPut(PutAll(messages, front), last.0, last.1, id);
      var sent := SentTo(deliveries, id);
      if last.0 == id {
        assert sent[..|sent| - 1] == SentTo(front, id) && sent[|sent| - 1] == last.1;
      } else {
        assert sent == SentTo(front, id);
      }
    }
  }

  /** Two lists with the same ids, which differ only in messages their ids name. */
  predicate SameIds(a: seq<Message>, b: seq<Message>) {
    && |a| == |b|
    && (forall i | 0 <= i < |a| :: a[i].id == b[i].id)
    && (forall i | 0 <= i < |a| && a[i] != b[i] :: a[i].id.Some? && FindMessage(a, a[i].id.value) == i)
  }

  lemma SameIdsFind(a: seq<Message>, b: seq<Message>, id: string)
    requires SameIds(a, b)
    ensures FindMessage(a, id) == FindMessage(b, id)
  {
    var i, j := FindMessage(a, id), FindMessage(b, id);
    assert i < |a| ==> b[i].id == Some(id);
    assert j < |b| ==> a[j].id == Some(id);
  }

  lemma PutKeepsIds(start: seq<Message>, messages: seq<Message>, id: string, update: Message)
    requires SameIds(start, messages) && FindMessage(start, id) < |start|
    ensures SameIds(start, Put(messages, id, update))
  {
    hide Merge;
    SameIdsFind(start, messages, id);
    MergeSetsId(BaseOf(messages, id), update, id);
  }

  lemma {:induction false} PutsKeepIds(start: seq<Message>, deliveries: seq<Delivery>)
    requires forall d <- deliveries :: FindMessage(start, d.0) < |start|
    ensures SameIds(start, PutAll(start, deliveries))
    decreases |deliveries|
  {
    hide Put;
    if deliveries != [] {
      var front, last := deliveries[..|deliveries| - 1], deliveries[|deliveries| - 1];
      assert forall d <- front :: d in deliveries;
      PutsKeepIds(start, front);
      PutKeepsIds(start, PutAll(start, front), last.0, last.1);
    }
  }

  lemma SameBasesSameMessages(a: seq<Message>, b: seq<Message>)
    requires SameIds(a, b) && forall id :: BaseOf(a, id) == BaseOf(b, id)
    ensures a == b
  {
    forall i | 0 <= i < |a|
      ensures a[i] == b[i]
    {
      if a[i].id.Some? {
        var id := a[i].id.value;
        SameIdsFind(a, b, id);
        assert FindMessage(a, id) == i ==> BaseOf(a, id) == a[i] && BaseOf(b, id) == b[i];
      }
    }
  }

  /** Whatever the deliveries, a list that already holds what they make of another list absorbs
      them. */
  lemma PutAllIsAbsorbed(base: seq<Message>, deliveries: seq<Delivery>, once: seq<Message>)
    requires forall id :: BaseOf(once, id) == BaseOf(PutAll(base, deliveries), id)
    requires forall d <- deliveries :: FindMessage(once, d.0) < |once|
    ensures PutAll(once, deliveries) == once
  {
    hide PutAll, BaseOf, FoldInto;
    PutsKeepIds(once, deliveries);
    forall id
      ensures BaseOf(once, id) == BaseOf(PutAll(once, deliveries), id)
    {
      BaseAfterPuts(base, deliveries, id);
      BaseAfterPuts(once, deliveries, id);
      FoldIntoTwice(BaseOf(base, id), id, SentTo(deliveries, id));
    }
    SameBasesSameMessages(once, PutAll(once, deliveries));
  }

  // ---------- resolving identities ----------

  lemma {:induction false} ToolHomeIs(messages: seq<Message>, callId: Option<string>, own: string, home: string)
    requires forall m <- messages :: IsTool(m) && m.toolCallId == callId ==> m.id == Some(home)
    requires own == home || exists m <- messages :: IsTool(m) && m.toolCallId == callId
    ensures ToolHome(messages, callId, own) == home
  {
    if messages != [] && !(IsTool(messages[0]) && messages[0].toolCallId == callId) {
      ToolHomeIs(messages[1..], callId, own, home);
    }
  }

  lemma {:induction false} ToolHomeIsFound(messages: seq<Message>, callId: Option<string>, own: string)
    ensures ToolHome(messages, callId, own) == own || exists m <- messages :: IsTool(m) && m.toolCallId == callId
  {
    if messages != [] {
      ToolHomeIsFound(messages[1..], callId, own);
    }
  }

  ghost predicate Declared(messages: seq<Message>, id: Option<string>) {
    exists m <- messages :: Declares(m, id)
  }

  lemma {:induction false} CallHomeIs(messages: seq<Message>, id: Option<string>, own: string, home: string)
    requires forall m <- messages :: Declares(m, id) ==> m.id == Some(home)
    ensures CallHome(messages, id, own) == if Declared(messages, id) then home else own
    decreases |messages|
  {
    hide Declares;
    if messages != [] {
      var front, last := messages[..|messages| - 1], messages[|messages| - 1];
      assert messages == front + [last];
      if !Declares(last, id) {
        CallHomeIs(front, id, own, home);
      }
    }
  }

  ghost predicate AnyDeclared(messages: seq<Message>, calls: seq<Option<Call>>) {
    exists c <- calls :: c.Some? && Declared(messages, c.value.id)
  }

  /** Whatever declares one of these calls has this id. */
  ghost predicate OwnedAt(messages: seq<Message>, calls: seq<Option<Call>>, home: string) {
    forall m <- messages, c <- calls :: c.Some? && Declares(m, c.value.id) ==> m.id == Some(home)
  }

  lemma {:induction false} CallsHomeIs(messages: seq<Message>, calls: seq<Option<Call>>, own: string, home: string)
    requires OwnedAt(messages, calls, home)
    ensures CallsHome(messages, calls, own) == if AnyDeclared(messages, calls) then home else own
    decreases |calls|
  {
    hide Declares, Declared;
    if calls != [] {
      var front, last := calls[..|calls| - 1], calls[|calls| - 1];
      assert calls == front + [last];
      CallsHomeIs(messages, front, own, home);
      if last.Some? {
        CallHomeIs(messages, last.value.id, CallsHome(messages, front, own), home);
      }
    }
  }

  ghost predicate HasTool(messages: seq<Message>, callId: Option<string>) {
    exists m <- messages :: IsTool(m) && m.toolCallId == callId
  }

  /** The first recovered result for a call, or the length. */
  function FirstResult(incoming: seq<Message>, callId: Option<string>): (r: nat)
    ensures r <= |incoming|
    ensures forall i | 0 <= i < r :: !(Live(incoming[i]) && IsTool(incoming[i]) && incoming[i].toolCallId == callId)
    ensures r < |incoming| ==> Live(incoming[r]) && IsTool(incoming[r]) && incoming[r].toolCallId == callId
  {
    if incoming == [] then 0
    else if Live(incoming[0]) && IsTool(incoming[0]) && incoming[0].toolCallId == callId then 0
    else 1 + FirstResult(incoming[1..], callId)
  }

  /** Where a recovered message ends up: at its journaled home, and a result of a call without one
      at the first recovered result of that call. */
  ghost function Goal(existing: seq<Message>, incoming: seq<Message>, i: nat): string
    requires i < |incoming| && Live(incoming[i])
  {
    var f := incoming[i];
    if IsTool(f) && !HasTool(existing, f.toolCallId) then
      incoming[FirstResult(incoming, f.toolCallId)].id.value
    else Home(existing, f)
  }

  // ---------- goals fit together ----------

  lemma ToolHomeIsATool(messages: seq<Message>, callId: Option<string>, own: string)
    requires HasTool(messages, callId) && forall m <- messages :: Live(m)
    ensures exists m <- messages :: IsTool(m) && m.toolCallId == callId && m.id == Some(ToolHome(messages, callId, own))
  {
    if !(IsTool(messages[0]) && messages[0].toolCallId == callId) {
      ToolHomeIsATool(messages[1..], callId, own);
    }
  }

  lemma OwnerOfAll(existing: seq<Message>, f: Message, owner: Message, c: Option<Call>)
    requires OneOwner(existing, f) && owner in existing && Live(owner)
    requires c in CallsOf(f) && c.Some? && Declares(owner, c.value.id)
    ensures OwnedAt(existing, CallsOf(f), owner.id.value)
  {
    hide Declares, CallsOf;
  }

  lemma NobodyOwns(existing: seq<Message>, calls: seq<Option<Call>>, home: string)
    requires !AnyDeclared(existing, calls)
    ensures OwnedAt(existing, calls, home)
  {
    hide Declares;
    forall m, c | m in existing && c in calls && c.Some?
      ensures !Declares(m, c.value.id)
    {
      assert !Declared(existing, c.value.id);
    }
  }

  /** The home of a message that declares calls is the message owning them, or its own id. */
  lemma HomeOfCalls(existing: seq<Message>, f: Message) returns (owner: Message)
    requires Live(f) && !IsTool(f) && OneOwner(existing, f) && forall m <- existing :: Live(m)
    ensures OwnedAt(existing, CallsOf(f), Home(existing, f))
    ensures if AnyDeclared(existing, CallsOf(f)) then
              owner in existing && owner.id == Some(Home(existing, f)) && exists c <- CallsOf(f) :: c.Some? && Declares(owner, c.value.id)
            else Home(existing, f) == f.id.value
  {
    hide Declares, Home, OneOwner, OwnedAt, CallsOf, CallsHome;
    HomeByCalls(existing, f);
    var calls := CallsOf(f);
    if AnyDeclared(existing, calls) {
      var c :| c in calls && c.Some? && Declared(existing, c.value.id);
      owner :| owner in existing && Declares(owner, c.value.id);
      OwnerOfAll(existing, f, owner, c);
      CallsHomeIs(existing, calls, f.id.value, owner.id.value);
    } else {
      owner := NO_MESSAGE;
      NobodyOwns(existing, calls, f.id.value);
      CallsHomeIs(existing, calls, f.id.value, f.id.value);
    }
  }

  /** A goal is the id of a recovered message of the same kind, or of a journaled one. */
  lemma GoalIsNamed(existing: seq<Message>, incoming: seq<Message>, i: nat) returns (named: Message)
    requires Consistent(existing, incoming) && i < |incoming| && Live(incoming[i])
    ensures named.id == Some(Goal(existing, incoming, i)) && SameKind(named, incoming[i])
    ensures named in existing || (named in incoming && Live(named))
  {
    hide Declares, Home, OwnedOnce;
    var f := incoming[i];
    if IsTool(f) {
      if HasTool(existing, f.toolCallId) {
        ToolHomeIsATool(existing, f.toolCallId, f.id.value);
        ToolHomeOf(existing, f);
        named :| named in existing && IsTool(named) && named.toolCallId == f.toolCallId
                 && named.id == Some(ToolHome(existing, f.toolCallId, f.id.value));
      } else {
        assert f in incoming;
        named := incoming[FirstResult(incoming, f.toolCallId)];
      }
    } else {
      assert f in incoming;
      var owner := HomeOfCalls(existing, f);
      if AnyDeclared(existing, CallsOf(f)) {
        named := owner;
        assert !IsTool(owner);
      } else {
        named := f;
      }
    }
  }

  lemma ToolHomeOf(messages: seq<Message>, f: Message)
    requires Live(f) && IsTool(f)
    ensures Home(messages, f) == ToolHome(messages, f.toolCallId, f.id.value)
  {
  }

  lemma GoalFitsExisting(existing: seq<Message>, incoming: seq<Message>, i: nat, e: Message)
    requires Consistent(existing, incoming) && i < |incoming| && Live(incoming[i])
    requires e in existing && e.id == Some(Goal(existing, incoming, i))
    ensures SameKind(e, incoming[i])
  {
    hide Declares, Goal, OwnedOnce, OneOwner, ToolsDeclareNothing;
    var named := GoalIsNamed(existing, incoming, i);
    if named in existing {
      assert named == e;
    }
  }

  lemma GoalsFit(existing: seq<Message>, incoming: seq<Message>, i: nat, j: nat)
    requires Consistent(existing, incoming) && i < |incoming| && Live(incoming[i]) && j < |incoming| && Live(incoming[j])
    requires Goal(existing, incoming, i) == Goal(existing, incoming, j)
    ensures SameKind(incoming[i], incoming[j])
  {
    hide Declares, Goal, OwnedOnce, OneOwner, ToolsDeclareNothing;
    var a := GoalIsNamed(existing, incoming, i);
    var b := GoalIsNamed(existing, incoming, j);
    if a in existing && b in existing {
      assert a == b;
    }
  }

  // ---------- the messages after a merge ----------

  predicate Alike(a: Message, b: Message) {
    a.id == b.id && SameKind(a, b)
  }

  ghost predicate Covers(m: Message, f: Message) {
    forall id :: Declares(f, id) ==> Declares(m, id)
  }

  /** Where the calls of a merged message come from. */
  ghost predicate DeclaredFor(existing: seq<Message>, incoming: seq<Message>, n: nat, m: Message, id: Option<string>)
    requires n <= |incoming|
  {
    || (exists e <- existing :: e.id == m.id && Declares(e, id))
    || (exists k: nat | k < n :: Live(incoming[k]) && m.id == Some(Goal(existing, incoming, k)) && Declares(incoming[k], id))
  }

  ghost predicate Sourced(existing: seq<Message>, incoming: seq<Message>, n: nat, m: Message)
    requires n <= |incoming|
  {
    && ((exists e <- existing :: Alike(e, m))
        || exists k: nat | k < n :: Live(incoming[k]) && m.id == Some(Goal(existing, incoming, k)) && SameKind(incoming[k], m))
    && forall id {:trigger Declares(m, id)} :: Declares(m, id) ==> DeclaredFor(existing, incoming, n, m, id)
  }

  /** Some message holds `f` under this id. */
  ghost predicate Holds(messages: seq<Message>, id: Option<string>, f: Message) {
    exists m <- messages :: m.id == id && SameKind(f, m) && Covers(m, f)
  }

  /** After `n` recovered messages, up to order: every message stems from both sides, every
      journaled message is kept, and each of the `n` stands at its goal. */
  ghost predicate Settled(existing: seq<Message>, incoming: seq<Message>, n: nat, messages: seq<Message>)
    requires n <= |incoming|
  {
    && DistinctIds(messages)
    && (forall m <- messages :: Sourced(existing, incoming, n, m))
    && (forall e <- existing :: Holds(messages, e.id, e))
    && (forall k: nat | k < n && Live(incoming[k]) :: Holds(messages, Some(Goal(existing, incoming, k)), incoming[k]))
  }

  ghost predicate PrefixAlike(existing: seq<Message>, messages: seq<Message>) {
    |messages| >= |existing| && forall i | 0 <= i < |existing| :: Alike(existing[i], messages[i])
  }

  /** The first result of a journaled call is still the first. */
  ghost predicate SameResults(existing: seq<Message>, messages: seq<Message>) {
    forall callId, own {:trigger ToolHome(messages, callId, own)} ::
      HasTool(existing, callId) ==> ToolHome(messages, callId, own) == ToolHome(existing, callId, own)
  }

  lemma {:induction false} PrefixResults(existing: seq<Message>, messages: seq<Message>, callId: Option<string>, own: string)
    requires PrefixAlike(existing, messages) && HasTool(existing, callId)
    ensures ToolHome(messages, callId, own) == ToolHome(existing, callId, own)
  {
    assert Alike(existing[0], messages[0]);
    if !(IsTool(existing[0]) && existing[0].toolCallId == callId) {
      var rest, more := existing[1..], messages[1..];
      forall i | 0 <= i < |rest|
        ensures Alike(rest[i], more[i])
      {
        assert Alike(existing[i + 1], messages[i + 1]);
      }
      PrefixResults(rest, more, callId, own);
    }
  }

  /** A merged tool result without a journaled one stands at the first recovered one. */
  lemma ResultAtGoal(existing: seq<Message>, incoming: seq<Message>, n: nat, m: Message, i: nat)
    requires n <= |incoming| && Sourced(existing, incoming, n, m) && IsTool(m)
    requires i < |incoming| && Live(incoming[i]) && IsTool(incoming[i]) && m.toolCallId == incoming[i].toolCallId
    requires !HasTool(existing, m.toolCallId)
    ensures m.id == Some(Goal(existing, incoming, i))
  {
    hide Declares, Home, DeclaredFor;
    forall e | e in existing
      ensures !Alike(e, m)
    {
      assert !(IsTool(e) && e.toolCallId == m.toolCallId);
    }
    var k: nat :| k < n && Live(incoming[k]) && m.id == Some(Goal(existing, incoming, k)) && SameKind(incoming[k], m);
  }

  /** However far the merge has come, the next recovered message, and each one before it, finds
      its goal. */
  lemma HomeIsGoal(existing: seq<Message>, incoming: seq<Message>, n: nat, messages: seq<Message>, i: nat)
    requires Consistent(existing, incoming) && n <= |incoming| && Settled(existing, incoming, n, messages)
    requires SameResults(existing, messages)
    requires i < |incoming| && i <= n && Live(incoming[i])
    ensures Home(messages, incoming[i]) == Goal(existing, incoming, i)
  {
    if IsTool(incoming[i]) {
      ToolFindsGoal(existing, incoming, n, messages, i);
    } else {
      CallsFindGoal(existing, incoming, n, messages, i);
    }
  }

  lemma ToolFindsGoal(existing: seq<Message>, incoming: seq<Message>, n: nat, messages: seq<Message>, i: nat)
    requires n <= |incoming| && Settled(existing, incoming, n, messages)
    requires SameResults(existing, messages)
    requires i < |incoming| && i <= n && Live(incoming[i]) && IsTool(incoming[i])
    ensures Home(messages, incoming[i]) == Goal(existing, incoming, i)
  {
    hide Declares, Sourced, Covers;
    var f := incoming[i];
    var goal := Goal(existing, incoming, i);
    ToolHomeOf(messages, f);
    ToolHomeOf(existing, f);
    if !HasTool(existing, f.toolCallId) {
      forall m | m in messages && IsTool(m) && m.toolCallId == f.toolCallId
        ensures m.id == Some(goal)
      {
        ResultAtGoal(existing, incoming, n, m, i);
      }
      var first := FirstResult(incoming, f.toolCallId);
      assert first <= i;
      if first < n {
        assert Goal(existing, incoming, first) == goal;
        assert Holds(messages, Some(goal), incoming[first]);
      }
      ToolHomeIs(messages, f.toolCallId, f.id.value, goal);
    }
  }

  lemma CallsFindGoal(existing: seq<Message>, incoming: seq<Message>, n: nat, messages: seq<Message>, i: nat)
    requires Consistent(existing, incoming) && n <= |incoming| && Settled(existing, incoming, n, messages)
    requires i < |incoming| && Live(incoming[i]) && !IsTool(incoming[i])
    ensures Home(messages, incoming[i]) == Goal(existing, incoming, i)
  {
    hide Declares, Home, SharedIdsAgree, ToolsDeclareNothing, OwnedOnce, OneOwner, Sourced, OwnedAt, CallsOf, CallsHome;
    var f := incoming[i];
    var goal, calls := Goal(existing, incoming, i), CallsOf(f);
    assert f in incoming;
    var owner := HomeOfCalls(existing, f);
    CallsAtGoal(existing, incoming, n, messages, i);
    CallsHomeIs(messages, calls, f.id.value, goal);
    HomeByCalls(messages, f);
    if AnyDeclared(existing, calls) {
      var c :| c in calls && c.Some? && Declares(owner, c.value.id);
      assert Holds(messages, owner.id, owner);
      var m :| m in messages && m.id == owner.id && Covers(m, owner);
      assert Declares(m, c.value.id) && Declared(messages, c.value.id);
    }
  }

  lemma CallsAtGoal(existing: seq<Message>, incoming: seq<Message>, n: nat, messages: seq<Message>, i: nat)
    requires n <= |incoming| && (forall m <- messages :: Sourced(existing, incoming, n, m)) && OwnedOnce(incoming)
    requires i < |incoming| && Live(incoming[i]) && OwnedAt(existing, CallsOf(incoming[i]), Goal(existing, incoming, i))
    ensures OwnedAt(messages, CallsOf(incoming[i]), Goal(existing, incoming, i))
  {
    hide Declares, Goal, Sourced, OwnedOnce, CallsOf;
    forall m, c | m in messages && c in CallsOf(incoming[i]) && c.Some? && Declares(m, c.value.id)
      ensures m.id == Some(Goal(existing, incoming, i))
    {
      CallAtGoal(existing, incoming, n, m, i, c);
    }
  }

  lemma HomeByCalls(messages: seq<Message>, f: Message)
    requires Live(f) && !IsTool(f)
    ensures Home(messages, f) == CallsHome(messages, CallsOf(f), f.id.value)
  {
  }

  lemma CallAtGoal(existing: seq<Message>, incoming: seq<Message>, n: nat, m: Message, i: nat, c: Option<Call>)
    requires n <= |incoming| && Sourced(existing, incoming, n, m) && OwnedOnce(incoming)
    requires i < |incoming| && Live(incoming[i]) && c in CallsOf(incoming[i]) && c.Some? && Declares(m, c.value.id)
    requires forall e <- existing :: Declares(e, c.value.id) ==> e.id == Some(Goal(existing, incoming, i))
    ensures m.id == Some(Goal(existing, incoming, i))
  {
    hide Goal;
    var id := c.value.id;
    assert Declares(incoming[i], id);
    assert DeclaredFor(existing, incoming, n, m, id);
    if e :| e in existing && e.id == m.id && Declares(e, id) {
    } else {
      var k: nat :| k < n && Live(incoming[k]) && m.id == Some(Goal(existing, incoming, k)) && Declares(incoming[k], id);
      assert !(k < i) && !(i < k);
    }
  }

  // ---------- one step of the merge ----------

  lemma MergedKind(base: Message, f: Message, id: string)
    requires base == NO_MESSAGE || SameKind(base, f)
    ensures SameKind(f, Merge(base, f, id)) && Merge(base, f, id).id == Some(id)
    ensures base != NO_MESSAGE ==> SameKind(base, Merge(base, f, id))
  {
    hide MergeCalls;
  }

  lemma MergedDeclares(base: Message, f: Message, at: string, id: Option<string>)
    ensures Declares(Merge(base, f, at), id) <==> Declares(base, id) || Declares(f, id)
  {
    hide HasCall;
    CallsAreKept(CallsOf(base), CallsOf(f));
    NoCallsHaveNone(id);
  }

  lemma NoCallsHaveNone(id: Option<string>)
    ensures !HasCall([], id)
  {
  }

  lemma NothingDeclares(id: Option<string>)
    ensures !Declares(NO_MESSAGE, id)
  {
  }

  /** Everything a merged message stems from is of its kind. */
  lemma SourcesFit(existing: seq<Message>, incoming: seq<Message>, n: nat, m: Message)
    requires Consistent(existing, incoming) && n <= |incoming| && Sourced(existing, incoming, n, m)
    ensures forall e <- existing :: e.id == m.id ==> SameKind(e, m)
    ensures forall k: nat | k < |incoming| && Live(incoming[k]) && m.id == Some(Goal(existing, incoming, k)) :: SameKind(incoming[k], m)
  {
    hide Goal, Declares, OwnedOnce, OneOwner, ToolsDeclareNothing, SharedIdsAgree, DeclaredFor;
    if e :| e in existing && Alike(e, m) {
      forall k: nat | k < |incoming| && Live(incoming[k]) && m.id == Some(Goal(existing, incoming, k))
        ensures SameKind(incoming[k], m)
      {
        GoalFitsExisting(existing, incoming, k, e);
      }
    } else {
      var j: nat :| j < n && Live(incoming[j]) && m.id == Some(Goal(existing, incoming, j)) && SameKind(incoming[j], m);
      forall e | e in existing && e.id == m.id
        ensures SameKind(e, m)
      {
        GoalFitsExisting(existing, incoming, j, e);
      }
      forall k: nat | k < |incoming| && Live(incoming[k]) && m.id == Some(Goal(existing, incoming, k))
        ensures SameKind(incoming[k], m)
      {
        GoalsFit(existing, incoming, k, j);
      }
    }
  }

  lemma SourcedLater(existing: seq<Message>, incoming: seq<Message>, n: nat, m: Message)
    requires n < |incoming| && Sourced(existing, incoming, n, m)
    ensures Sourced(existing, incoming, n + 1, m)
  {
    hide Goal, Declares, Alike;
    forall id | Declares(m, id)
      ensures DeclaredFor(existing, incoming, n + 1, m, id)
    {
      assert DeclaredFor(existing, incoming, n, m, id);
    }
  }

  lemma MergedIsSourced(existing: seq<Message>, incoming: seq<Message>, n: nat, base: Message)
    requires n < |incoming| && Live(incoming[n])
    requires base == NO_MESSAGE || (Sourced(existing, incoming, n, base) && base.id == Some(Goal(existing, incoming, n)))
    requires base == NO_MESSAGE || SameKind(base, incoming[n])
    ensures Sourced(existing, incoming, n + 1, Merge(base, incoming[n], Goal(existing, incoming, n)))
  {
    hide Goal, Declares, Merge;
    var f, goal := incoming[n], Goal(existing, incoming, n);
    var m := Merge(base, f, goal);
    MergedKind(base, f, goal);
    forall id | Declares(m, id)
      ensures DeclaredFor(existing, incoming, n + 1, m, id)
    {
      MergedDeclares(base, f, goal, id);
      NothingDeclares(id);
      if !Declares(f, id) {
        assert DeclaredFor(existing, incoming, n, base, id);
      }
    }
  }

  /** What a message held is still held when one message has been replaced by a larger one. */
  lemma HoldsAfter(messages: seq<Message>, after: seq<Message>, i: nat, id: Option<string>, f: Message)
    requires Holds(messages, id, f) && |after| >= |messages|
    requires forall j | 0 <= j < |messages| && j != i :: after[j] == messages[j]
    requires i < |messages| ==> Alike(messages[i], after[i]) && Covers(after[i], messages[i])
    ensures Holds(after, id, f)
  {
    hide Declares;
    var m :| m in messages && m.id == id && SameKind(f, m) && Covers(m, f);
    var j :| 0 <= j < |messages| && messages[j] == m;
    assert after[j] in after && Covers(after[j], f);
  }

  lemma CoversBoth(base: Message, f: Message, at: string)
    ensures Covers(Merge(base, f, at), base) && Covers(Merge(base, f, at), f)
  {
    hide Declares, Merge;
    forall id
      ensures Declares(Merge(base, f, at), id) <==> Declares(base, id) || Declares(f, id)
    {
      MergedDeclares(base, f, at, id);
    }
  }

  lemma PutSettles(existing: seq<Message>, incoming: seq<Message>, n: nat, messages: seq<Message>)
    requires Consistent(existing, incoming) && n < |incoming| && Live(incoming[n])
    requires Settled(existing, incoming, n, messages) && PrefixAlike(existing, messages)
    ensures var after := Put(messages, Goal(existing, incoming, n), incoming[n]);
            Settled(existing, incoming, n + 1, after) && PrefixAlike(existing, after)
  {
    hide Goal, Merge, Consistent, Sourced, Holds, Covers, SameKind;
    var f, goal := incoming[n], Goal(existing, incoming, n);
    var i := FindMessage(messages, goal);
    var base := BaseOf(messages, goal);
    var after := Put(messages, goal, f);
    if i < |messages| {
      assert base in messages;
      SourcesFit(existing, incoming, n, base);
      KindsAgree(f, base);
    }
    MergedKind(base, f, goal);
    MergedIsSourced(existing, incoming, n, base);
    CoversBoth(base, f, goal);
    assert after[i] == Merge(base, f, goal) && after[i] in after;
    PutIsDistinct(messages, goal, f);
    forall m | m in after
      ensures Sourced(existing, incoming, n + 1, m)
    {
      if m in messages {
        SourcedLater(existing, incoming, n, m);
      }
    }
    forall e | e in existing
      ensures Holds(after, e.id, e)
    {
      HoldsAfter(messages, after, i, e.id, e);
    }
    HoldsItself(after, after[i], f);
    forall k: nat | k < n + 1 && Live(incoming[k])
      ensures Holds(after, Some(Goal(existing, incoming, k)), incoming[k])
    {
      if k < n {
        HoldsAfter(messages, after, i, Some(Goal(existing, incoming, k)), incoming[k]);
      }
    }
    PutKeepsPrefix(existing, messages, after, i);
  }

  lemma KindsAgree(a: Message, b: Message)
    requires SameKind(a, b)
    ensures SameKind(b, a)
  {
  }

  lemma HoldsItself(messages: seq<Message>, m: Message, f: Message)
    requires m in messages && SameKind(f, m) && Covers(m, f)
    ensures Holds(messages, m.id, f)
  {
    hide Covers;
  }

  lemma PutIsDistinct(messages: seq<Message>, id: string, f: Message)
    requires DistinctIds(messages)
    ensures DistinctIds(Put(messages, id, f))
    ensures forall m <- Put(messages, id, f) :: m in messages || m == Merge(BaseOf(messages, id), f, id)
  {
    hide Merge;
    MergeSetsId(BaseOf(messages, id), f, id);
  }

  lemma PutKeepsPrefix(existing: seq<Message>, messages: seq<Message>, after: seq<Message>, i: nat)
    requires PrefixAlike(existing, messages) && |after| >= |messages|
    requires forall j | 0 <= j < |messages| && j != i :: after[j] == messages[j]
    requires i < |messages| ==> Alike(messages[i], after[i])
    ensures PrefixAlike(existing, after)
  {
  }

  // ---------- one merge ----------

  ghost function Deliveries(existing: seq<Message>, incoming: seq<Message>, n: nat): seq<Delivery>
    requires n <= |incoming|
  {
    if n == 0 then []
    else if Live(incoming[n - 1]) then
      Deliveries(existing, incoming, n - 1) + [(Goal(existing, incoming, n - 1), incoming[n - 1])]
    else Deliveries(existing, incoming, n - 1)
  }

  lemma StartsSettled(existing: seq<Message>, incoming: seq<Message>)
    requires DistinctIds(existing)
    ensures Settled(existing, incoming, 0, existing) && PrefixAlike(existing, existing)
  {
    hide Declares;
  }

  lemma SkipSettles(existing: seq<Message>, incoming: seq<Message>, n: nat, messages: seq<Message>)
    requires n < |incoming| && !Live(incoming[n]) && Settled(existing, incoming, n, messages)
    ensures Settled(existing, incoming, n + 1, messages)
  {
    hide Goal, Sourced, Holds;
    forall m | m in messages
      ensures Sourced(existing, incoming, n + 1, m)
    {
      SourcedLater(existing, incoming, n, m);
    }
  }

  /** After each recovered message: the list stems from exactly the messages merged so far, each
      at its goal, and it is what delivering them there makes of the journal. */
  lemma {:induction false} MergeProgress(existing: seq<Message>, incoming: seq<Message>, n: nat)
    requires Consistent(existing, incoming) && n <= |incoming|
    ensures var messages := UpsertAll(existing, incoming[..n]);
            && Settled(existing, incoming, n, messages) && PrefixAlike(existing, messages)
            && messages == PutAll(existing, Deliveries(existing, incoming, n))
  {
    hide Settled, Consistent, PrefixAlike, Put, Goal, Home;
    if n == 0 {
      assert incoming[..0] == [];
      ConsistentIsDistinct(existing, incoming);
      StartsSettled(existing, incoming);
    } else {
      MergeProgress(existing, incoming, n - 1);
      assert incoming[..n][..n - 1] == incoming[..n - 1];
      var before := UpsertAll(existing, incoming[..n - 1]);
      if Live(incoming[n - 1]) {
        PrefixKeepsResults(existing, before);
        HomeIsGoal(existing, incoming, n - 1, before, n - 1);
        PutSettles(existing, incoming, n - 1, before);
        var deliveries := Deliveries(existing, incoming, n);
        assert deliveries[..|deliveries| - 1] == Deliveries(existing, incoming, n - 1);
      } else {
        SkipSettles(existing, incoming, n - 1, before);
      }
    }
  }

  lemma ConsistentIsDistinct(existing: seq<Message>, incoming: seq<Message>)
    requires Consistent(existing, incoming)
    ensures DistinctIds(existing)
  {
  }

  lemma PrefixKeepsResults(existing: seq<Message>, messages: seq<Message>)
    requires PrefixAlike(existing, messages)
    ensures SameResults(existing, messages)
  {
    hide PrefixAlike;
    forall callId, own | HasTool(existing, callId)
      ensures ToolHome(messages, callId, own) == ToolHome(existing, callId, own)
    {
      PrefixResults(existing, messages, callId, own);
    }
  }

  // ---------- reinserting keeps what was settled ----------

  lemma {:induction false} ToolHomeJoin(a: seq<Message>, b: seq<Message>, callId: Option<string>, own: string)
    ensures ToolHome(a + b, callId, own) == ToolHome(a, callId, ToolHome(b, callId, own))
  {
    if a == [] {
      assert a + b == b;
    } else {
      assert (a + b)[1..] == a[1..] + b;
      ToolHomeJoin(a[1..], b, callId, own);
    }
  }

  lemma {:induction false} ToolHomeOfTools(messages: seq<Message>, callId: Option<string>, own: string)
    ensures ToolHome(Tools(messages), callId, own) == ToolHome(messages, callId, own)
  {
    if messages != [] {
      ToolHomeOfTools(messages[1..], callId, own);
      var rest := Tools(messages[1..]);
      assert [messages[0]] + rest != [] && ([messages[0]] + rest)[1..] == rest && [] + rest == rest;
    }
  }

  /** All results of a call stand in one group, so the first of the group is the first of all. */
  lemma {:induction false} ToolHomeOfGroup(others: seq<Message>, tools: seq<Message>, k: int, callId: Option<string>, own: string)
    requires forall t: Message :: t.toolCallId == callId ==> GroupOf(others, t) == k
    ensures ToolHome(Group(others, tools, k), callId, own) == ToolHome(tools, callId, own)
    decreases |tools|
  {
    hide GroupOf;
    if tools != [] {
      var front, last := tools[..|tools| - 1], tools[|tools| - 1];
      var rest := ToolHome([last], callId, own);
      ToolHomeOfGroup(others, front, k, callId, rest);
      ToolHomeOfGroup(others, front, k, callId, own);
      assert tools == front + [last];
      ToolHomeJoin(front, [last], callId, own);
      ToolHomeJoin(Group(others, front, k), [last], callId, own);
      assert GroupOf(others, last) != k ==> last.toolCallId != callId;
      assert [last][1..] == [] && Group(others, front, k) + [] == Group(others, front, k);
    }
  }

  lemma ReinsertKeepsResults(messages: seq<Message>, callId: Option<string>, own: string)
    requires ToolsDeclareNothing(messages)
    ensures ToolHome(Reinsert(messages), callId, own) == ToolHome(messages, callId, own)
  {
    hide Declares, InsertTools, Layout, Tools, Others, Group, ToolHome;
    var others, tools := Others(messages), Tools(messages);
    ToolHomeOfTools(messages, callId, own);
    SplitsPartition(messages);
    SplitsAreParts(messages);
    assert ToolsDeclareNothing(tools);
    if others == [] {
      InsertToolsIntoNothing(tools);
    } else {
      InsertToolsIsLayout(others, tools);
      var once := Layout(others, tools, 0);
      var k := GroupOf(others, NO_MESSAGE.(toolCallId := callId));
      ToolHomeOfTools(once, callId, own);
      ToolHomeOfGroup(others, tools, k, callId, own);
      ToolHomeOfGroup(others, Tools(once), k, callId, own);
      GroupOfLayout(others, tools, 0, k);
    }
  }

  lemma SettledPermutes(existing: seq<Message>, incoming: seq<Message>, n: nat, a: seq<Message>, b: seq<Message>)
    requires n <= |incoming| && Settled(existing, incoming, n, a) && multiset(a) == multiset(b)
    ensures Settled(existing, incoming, n, b)
  {
    hide Goal, Sourced, Covers, SameKind;
    DistinctIdsPermute(a, b);
    assert forall m :: m in a <==> m in multiset(a);
    assert forall m :: m in b <==> m in multiset(b);
    forall id, f | Holds(a, id, f)
      ensures Holds(b, id, f)
    {
      var m :| m in a && m.id == id && SameKind(f, m) && Covers(m, f);
      assert m in b;
    }
  }

  lemma BasePermutes(a: seq<Message>, b: seq<Message>, id: string)
    requires DistinctIds(a) && multiset(a) == multiset(b)
    ensures BaseOf(b, id) == BaseOf(a, id)
  {
    var i, j := FindMessage(a, id), FindMessage(b, id);
    DistinctIdsPermute(a, b);
    assert i < |a| ==> a[i] in multiset(a) && a[i] in b;
    assert j < |b| ==> b[j] in multiset(b) && b[j] in a;
  }

  lemma SettledToolsDeclareNothing(existing: seq<Message>, incoming: seq<Message>, messages: seq<Message>)
    requires Consistent(existing, incoming) && Settled(existing, incoming, |incoming|, messages)
    ensures ToolsDeclareNothing(messages)
  {
    hide Declares, Goal, Holds, OwnedOnce, OneOwner, SharedIdsAgree;
    forall m, id | m in messages && IsTool(m)
      ensures !Declares(m, id)
    {
      SourcesFit(existing, incoming, |incoming|, m);
      NothingToDeclare(existing, incoming, m, id);
    }
  }

  lemma NothingToDeclare(existing: seq<Message>, incoming: seq<Message>, m: Message, id: Option<string>)
    requires Consistent(existing, incoming) && IsTool(m)
    requires forall e <- existing :: e.id == m.id ==> SameKind(e, m)
    requires forall k: nat | k < |incoming| && Live(incoming[k]) && m.id == Some(Goal(existing, incoming, k)) :: SameKind(incoming[k], m)
    ensures !DeclaredFor(existing, incoming, |incoming|, m, id)
  {
    hide Declares, Goal, OwnedOnce, OneOwner, SharedIdsAgree;
  }

  // ---------- the second merge ----------

  /** The same ids, kinds and declared calls, position by position. */
  ghost predicate SameOutline(a: seq<Message>, b: seq<Message>) {
    && |a| == |b|
    && forall i | 0 <= i < |a| :: Alike(a[i], b[i]) && SameDeclared(a[i], b[i])
  }

  ghost predicate SameDeclared(a: Message, b: Message) {
    forall id :: Declares(a, id) <==> Declares(b, id)
  }

  lemma {:induction false} ToolHomeOfOutline(a: seq<Message>, b: seq<Message>, callId: Option<string>, own: string)
    requires SameOutline(a, b)
    ensures ToolHome(a, callId, own) == ToolHome(b, callId, own)
  {
    hide SameDeclared;
    if a != [] {
      assert Alike(a[0], b[0]);
      OutlineOfRest(a, b);
      ToolHomeOfOutline(a[1..], b[1..], callId, own);
    }
  }

  lemma OutlineOfRest(a: seq<Message>, b: seq<Message>)
    requires SameOutline(a, b) && a != []
    ensures SameOutline(a[1..], b[1..]) && SameOutline(a[..|a| - 1], b[..|b| - 1])
  {
    hide SameDeclared, Alike;
  }

  lemma {:induction false} CallHomeOfOutline(a: seq<Message>, b: seq<Message>, id: Option<string>, own: string)
    requires SameOutline(a, b)
    ensures CallHome(a, id, own) == CallHome(b, id, own)
    decreases |a|
  {
    hide Declares, SameKind;
    if a != [] {
      var n := |a| - 1;
      assert Alike(a[n], b[n]) && SameDeclared(a[n], b[n]);
      assert Declares(a[n], id) <==> Declares(b[n], id);
      OutlineOfRest(a, b);
      CallHomeOfOutline(a[..n], b[..n], id, own);
    }
  }

  lemma {:induction false} CallsHomeOfOutline(a: seq<Message>, b: seq<Message>, calls: seq<Option<Call>>, own: string)
    requires SameOutline(a, b)
    ensures CallsHome(a, calls, own) == CallsHome(b, calls, own)
    decreases |calls|
  {
    hide SameOutline;
    if calls != [] {
      var last := calls[|calls| - 1];
      CallsHomeOfOutline(a, b, calls[..|calls| - 1], own);
      if last.Some? {
        CallHomeOfOutline(a, b, last.value.id, CallsHome(a, calls[..|calls| - 1], own));
      }
    }
  }

  lemma HomeOfOutline(a: seq<Message>, b: seq<Message>, f: Message)
    requires Live(f) && SameOutline(a, b)
    ensures Home(a, f) == Home(b, f)
  {
    hide SameOutline;
    ToolHomeOfOutline(a, b, f.toolCallId, f.id.value);
    CallsHomeOfOutline(a, b, CallsOf(f), f.id.value);
  }

  /** Merging a message into a list that already holds it keeps the outline. */
  lemma PutKeepsOutline(once: seq<Message>, messages: seq<Message>, id: string, f: Message)
    requires DistinctIds(once) && SameOutline(once, messages) && Holds(once, Some(id), f)
    ensures SameOutline(once, Put(messages, id, f)) && FindMessage(once, id) < |once|
  {
    hide Declares, Merge;
    var m :| m in once && m.id == Some(id) && SameKind(f, m) && Covers(m, f);
    var i := FindMessage(once, id);
    assert once[i] == m;
    assert Alike(once[i], messages[i]) && SameDeclared(once[i], messages[i]);
    var j := FindMessage(messages, id);
    assert j < |messages| ==> Alike(once[j], messages[j]);
    assert j == i;
    MergedKind(messages[i], f, id);
    forall call
      ensures Declares(Merge(messages[i], f, id), call) <==> Declares(once[i], call)
    {
      MergedDeclares(messages[i], f, id, call);
    }
    var after := Put(messages, id, f);
    assert SameDeclared(once[i], after[i]);
    forall k | 0 <= k < |once|
      ensures Alike(once[k], after[k]) && SameDeclared(once[k], after[k])
    {
      assert k != i ==> after[k] == messages[k];
    }
  }

  /** Merged into a list where everything is settled, each message goes to its goal again. */
  lemma {:induction false} SecondMerge(existing: seq<Message>, incoming: seq<Message>, once: seq<Message>, n: nat)
    requires Consistent(existing, incoming) && n <= |incoming|
    requires Settled(existing, incoming, |incoming|, once) && SameResults(existing, once)
    ensures var messages := UpsertAll(once, incoming[..n]);
            messages == PutAll(once, Deliveries(existing, incoming, n)) && SameOutline(once, messages)
    ensures forall d <- Deliveries(existing, incoming, n) :: FindMessage(once, d.0) < |once|
  {
    hide Consistent, Put, Goal, Home, SameOutline, Sourced, Holds, SameResults;
    if n == 0 {
      assert incoming[..0] == [];
      OutlineOfItself(once);
    } else {
      SecondMerge(existing, incoming, once, n - 1);
      assert incoming[..n][..n - 1] == incoming[..n - 1];
      var before := UpsertAll(once, incoming[..n - 1]);
      if Live(incoming[n - 1]) {
        HomeIsGoal(existing, incoming, |incoming|, once, n - 1);
        HomeOfOutline(once, before, incoming[n - 1]);
        PutKeepsOutline(once, before, Goal(existing, incoming, n - 1), incoming[n - 1]);
        var deliveries := Deliveries(existing, incoming, n);
        assert deliveries[..|deliveries| - 1] == Deliveries(existing, incoming, n - 1);
      }
    }
  }

  lemma OutlineOfItself(messages: seq<Message>)
    ensures SameOutline(messages, messages)
  {
  }

  /** The merged list is settled: nothing in it stems from elsewhere, everything is held. */
  lemma MergeSettles(existing: seq<Message>, incoming: seq<Message>)
    requires Consistent(existing, incoming)
    ensures Settled(existing, incoming, |incoming|, MergeAll(existing, incoming))
    ensures SameResults(existing, MergeAll(existing, incoming))
    ensures ToolsDeclareNothing(UpsertAll(existing, incoming))
  {
    hide Consistent, Settled, UpsertAll, Reinsert, ToolsDeclareNothing, PrefixAlike, ToolHome;
    var upserted := UpsertAll(existing, incoming);
    MergeProgress(existing, incoming, |incoming|);
    assert incoming[..|incoming|] == incoming;
    ReinsertIsPermutation(upserted);
    SettledPermutes(existing, incoming, |incoming|, upserted, Reinsert(upserted));
    SettledToolsDeclareNothing(existing, incoming, upserted);
    PrefixKeepsResults(existing, upserted);
    forall callId, own
      ensures ToolHome(Reinsert(upserted), callId, own) == ToolHome(upserted, callId, own)
    {
      ReinsertKeepsResults(upserted, callId, own);
    }
  }

  lemma SettledIsDistinct(existing: seq<Message>, incoming: seq<Message>, n: nat, messages: seq<Message>)
    requires n <= |incoming| && Settled(existing, incoming, n, messages)
    ensures DistinctIds(messages)
  {
  }

  /** Merging one recovered batch into its own result changes nothing: no field, no call, no
      position. */
  lemma MergeIsIdempotent(existing: seq<Message>, incoming: seq<Message>)
    requires Consistent(existing, incoming)
    ensures MergeAll(MergeAll(existing, incoming), incoming) == MergeAll(existing, incoming)
  {
    hide Consistent, Settled, UpsertAll, PutAll, Reinsert, ToolsDeclareNothing, SameResults, SameOutline, BaseOf;
    var upserted := UpsertAll(existing, incoming);
    var once := Reinsert(upserted);
    var deliveries := Deliveries(existing, incoming, |incoming|);
    assert incoming[..|incoming|] == incoming;
    MergeProgress(existing, incoming, |incoming|);
    MergeSettles(existing, incoming);
    SecondMerge(existing, incoming, once, |incoming|);
    ReinsertIsPermutation(upserted);
    SettledIsDistinct(existing, incoming, |incoming|, upserted);
    forall id
      ensures BaseOf(once, id) == BaseOf(PutAll(existing, deliveries), id)
    {
      BasePermutes(upserted, once, id);
    }
    PutAllIsAbsorbed(existing, deliveries, once);
    ReinsertIsIdempotent(upserted);
  }

  /** In the merged list only tool results lie between a tool result and the first message that
      declares its call. */
  lemma MergePlacesTools(existing: seq<Message>, incoming: seq<Message>, j: nat)
    requires Consistent(existing, incoming)
    requires j < |MergeAll(existing, incoming)| && IsTool(MergeAll(existing, incoming)[j])
    ensures Placed(MergeAll(existing, incoming), j)
  {
    hide Consistent, Settled, UpsertAll, Reinsert, ToolsDeclareNothing, Placed;
    MergeSettles(existing, incoming);
    ToolsFollowTheirCalls(UpsertAll(existing, incoming), j);
  }

  /** The merged list, on any input: no journaled message is lost or renamed, no id is repeated,
      and the messages that are no tool results keep their order. */
  lemma MergeKeepsEverything(existing: seq<Message>, incoming: seq<Message>)
    requires DistinctIds(existing)
    ensures var upserted := UpsertAll(existing, incoming);
            var merged := MergeAll(existing, incoming);
            && multiset(merged) == multiset(upserted)
            && Others(merged) == Others(upserted)
            && |upserted| >= |existing|
            && (forall i | 0 <= i < |existing| :: upserted[i].id == existing[i].id)
            && DistinctIds(merged)
  {
    hide Reinsert, UpsertAll;
    var upserted := UpsertAll(existing, incoming);
    UpsertKeepsMessages(existing, incoming);
    ReinsertIsPermutation(upserted);
    DistinctIdsPermute(upserted, Reinsert(upserted));
  }

  lemma DistinctIdsPermute(a: seq<Message>, b: seq<Message>)
    requires DistinctIds(a) && multiset(a) == multiset(b)
    ensures DistinctIds(b)
  {
    forall i, j | 0 <= i < j < |b| && b[i].id.Some?
      ensures b[i].id != b[j].id
    {
      if b[i] == b[j] {
        assert b == b[..i] + [b[i]] + b[i + 1..j] + [b[j]] + b[j + 1..];
        assert multiset(a)[b[i]] >= 2;
        NoTwice(a, b[i]);
      } else {
        assert b[i] in multiset(a) && b[j] in multiset(a);
      }
    }
  }

  lemma {:induction false} NoTwice(a: seq<Message>, m: Message)
    requires DistinctIds(a) && m.id.Some?
    ensures multiset(a)[m] <= 1
  {
    if a != [] {
      assert a == [a[0]] + a[1..];
      NoTwice(a[1..], m);
    }
  }

  const CALL_C := Call(Some("c"), None, map[])
  const CALL_D := Call(Some("d"), None, map[])
  const FIRST := Message(Some("n0"), Some("assistant"), None, Some([Some(CALL_D)]), map[])
  const SECOND := Message(Some("n1"), Some("assistant"), None, Some([Some(CALL_C)]), map[])
  const RESULT := Message(Some("t"), Some("tool"), Some("c"), None, map[])
  const DECLARING := Message(Some("u"), Some("tool"), Some("d"), Some([Some(CALL_C)]), map[])

  /** Tool messages that declare calls, which the wire schema does not admit, would break the
      placement: the first declaring message may then be a tool moved in front later. */
  lemma DeclaringToolBreaksPlacement()
    ensures Reinsert([FIRST, SECOND, RESULT, DECLARING]) == [FIRST, DECLARING, SECOND, RESULT]
    ensures !Placed([FIRST, DECLARING, SECOND, RESULT], 3)
  {
    WhoDeclares();
    hide Declares, FindOwner, InsertTool;
    NoTools([FIRST, SECOND]);
    OnlyTools([RESULT, DECLARING]);
    SplitsJoin([FIRST, SECOND], [RESULT, DECLARING]);
    assert [FIRST, SECOND] + [RESULT, DECLARING] == [FIRST, SECOND, RESULT, DECLARING];
    InsertsInTurn();
    var tools := [RESULT, DECLARING];
    assert tools[..1] == [RESULT] && [RESULT][..0] == [];
    assert InsertTools([FIRST, SECOND], [RESULT]) == [FIRST, SECOND, RESULT];
    assert InsertTools([FIRST, SECOND], tools) == [FIRST, DECLARING, SECOND, RESULT];
    assert Others([FIRST, SECOND, RESULT, DECLARING]) == [FIRST, SECOND];
    assert Tools([FIRST, SECOND, RESULT, DECLARING]) == tools;
    var out := [FIRST, DECLARING, SECOND, RESULT];
    assert !Declares(out[0], Some("c")) && Declares(out[1], Some("c"));
    assert FindOwner(out, Some("c")) == 1 && !IsTool(out[2]);
  }

  lemma WhoDeclares()
    ensures Declares(FIRST, Some("d")) && !Declares(FIRST, Some("c"))
    ensures Declares(SECOND, Some("c")) && Declares(DECLARING, Some("c"))
  {
    assert Some(CALL_D) in CallsOf(FIRST) && Some(CALL_C) in CallsOf(SECOND) && Some(CALL_C) in CallsOf(DECLARING);
  }

  lemma InsertsInTurn()
    ensures InsertTool([FIRST, SECOND], RESULT) == [FIRST, SECOND, RESULT]
    ensures InsertTool([FIRST, SECOND, RESULT], DECLARING) == [FIRST, DECLARING, SECOND, RESULT]
  {
    WhoDeclares();
    hide Declares, FindOwner, SkipTools;
    var two, three := [FIRST, SECOND], [FIRST, SECOND, RESULT];
    assert !Declares(two[0], Some("c")) && Declares(two[1], Some("c"));
    assert FindOwner(two, Some("c")) == 1;
    assert Declares(three[0], Some("d"));
    assert FindOwner(three, Some("d")) == 0;
    assert !IsTool(three[1]) && SkipTools(three, 1) == 1;
  }

  // ---------- a journaled message that takes up two ----------

  const OWNER := Message(Some("m"), Some("assistant"), None, Some([Some(CALL_D), Some(CALL_C)]), map[])

  /** Two recovered messages, each with one of the calls of one journaled message, both go into
      that message, and merging such a batch again changes nothing. */
  lemma SharedHomeIsSettled()
    ensures Consistent([OWNER], [FIRST, SECOND])
    ensures Home([OWNER], FIRST) == "m" && Home([OWNER], SECOND) == "m"
    ensures MergeAll(MergeAll([OWNER], [FIRST, SECOND]), [FIRST, SECOND]) == MergeAll([OWNER], [FIRST, SECOND])
  {
    hide MergeAll, Consistent, Home;
    SharedIsConsistent();
    GoesToOwner(FIRST, CALL_D);
    GoesToOwner(SECOND, CALL_C);
    MergeIsIdempotent([OWNER], [FIRST, SECOND]);
  }

  lemma SharedIsConsistent()
    ensures Consistent([OWNER], [FIRST, SECOND])
  {
    hide Declares, OwnedOnce, OneOwner, SharedIdsAgree;
    OwnedApart(FIRST, SECOND);
    OwnedAlone(OWNER);
    OneOwnerAlone(OWNER, FIRST);
    OneOwnerAlone(OWNER, SECOND);
    NoSharedIds(OWNER, FIRST, SECOND);
  }

  lemma OwnedApart(a: Message, b: Message)
    requires a == FIRST && b == SECOND
    ensures OwnedOnce([a, b])
  {
    hide Declares;
    OwnsOnly(a, CALL_D);
    OwnsOnly(b, CALL_C);
  }

  lemma OwnedAlone(m: Message)
    ensures OwnedOnce([m])
  {
  }

  lemma OneOwnerAlone(m: Message, f: Message)
    ensures OneOwner([m], f)
  {
    hide Declares;
  }

  lemma NoSharedIds(e: Message, f: Message, g: Message)
    requires e.id != f.id && e.id != g.id && f.id != g.id
    ensures SharedIdsAgree([e], [f, g])
  {
  }

  lemma GoesToOwner(m: Message, call: Call)
    requires call == CALL_C || call == CALL_D
    requires Live(m) && !IsTool(m) && m.calls == Some([Some(call)])
    ensures Home([OWNER], m) == "m"
  {
    assert CallsOf(m)[..0] == [] && [OWNER][..0] == [];
    assert Some(call) in CallsOf(OWNER);
  }

  lemma OwnsOnly(m: Message, call: Call)
    requires m.calls == Some([Some(call)])
    ensures forall id :: Declares(m, id) <==> id == call.id
  {
    assert Some(call) in CallsOf(m);
  }
}
