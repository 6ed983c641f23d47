/** The delegated-turn graph of sdk/agui_dependency_resume.go: resuming it, leaf to root.

    The durable call and turn rows are the checkpoints.  A pass may stop anywhere, so what a
    pass does is recorded as a history of durable steps; every prefix of a history is what a
    crash leaves behind. */
module DependencyResume {
  import opened Common
  import opened DependencyGraph

  // ---------- durable rows ----------

  datatype CallStatus = CallWaiting | CallCompleted | CallFailed | CallCanceled | CallOther

  /** The tool-call row behind one tool message. */
  datatype CallRow = CallRow(isTool: bool, owner: Key, id: string, status: CallStatus, text: string, failure: string)

  datatype TurnStatus = TurnWaiting | TurnRunning | TurnEnded | TurnUnknown

  datatype TurnRow = TurnRow(parent: Key, status: TurnStatus, content: string, failure: string)

  datatype Store = Store(calls: map<string, CallRow>, turns: map<Key, TurnRow>)

  predicate Identified(s: Store, call: Call) {
    && call.toolMessage in s.calls
    && var row := s.calls[call.toolMessage];
       row.isTool && row.owner == call.owner && row.id == call.id
  }

  predicate TerminalStatus(status: CallStatus) {
    status == CallCompleted || status == CallFailed || status == CallCanceled
  }

  predicate CallIs(s: Store, call: Call, status: CallStatus) {
    Identified(s, call) && s.calls[call.toolMessage].status == status
  }

  predicate CallTerminal(s: Store, call: Call) {
    Identified(s, call) && TerminalStatus(s.calls[call.toolMessage].status)
  }

  /** `aguiDependencyCallStatus`: None is the identity mismatch. */
  function ReadCall(s: Store, call: Call): Option<CallStatus> {
    if Identified(s, call) then Some(s.calls[call.toolMessage].status) else None
  }

  // ---------- the world outside ----------

  /** What resuming a native turn returns. */
  datatype Resumption = Failed | Paused(calls: seq<Call>, edges: seq<Edge>) | Ended(content: string, terminal: bool)

  /** The choices of everything the pass does not control: which rows polling sees before
      the context ends, what a resumed turn returns, what row it leaves, and the rows of the
      calls it makes.  A run adds call rows; it does not write those that are there. */
  datatype World = World(
    polls: Key -> seq<TurnRow>, resume: Key -> Resumption, after: Key -> TurnRow, made: Key -> map<string, CallRow>)

  // ---------- histories ----------

  datatype Act = Resume(edge: Edge, paused: bool) | Complete(edge: Edge) | Poll(edge: Edge) | Outside

  /** `graph` is the edge list of the pass that took the step. */
  datatype Event = Event(graph: seq<Edge>, act: Act, before: Store, after: Store)

  /** Every call this turn owns has been answered. */
  ghost predicate Settled(edges: seq<Edge>, s: Store, key: Key) {
    forall e <- edges :: e.Parent() == key ==> CallTerminal(s, e.call)
  }

  /** Answered calls keep their rows. */
  ghost predicate KeepsRows(before: Store, after: Store) {
    forall m <- before.calls :: TerminalStatus(before.calls[m].status) ==> m in after.calls && after.calls[m] == before.calls[m]
  }

  /** Every row that is there stays as it is. */
  ghost predicate OnlyAdds(before: Store, after: Store) {
    forall m <- before.calls :: m in after.calls && after.calls[m] == before.calls[m]
  }

  /** One durable step, with the guard under which a pass may take it.  Outside the passes
      anything may happen but to an answered call. */
  ghost predicate Legal(ev: Event) {
    && (ev.act.Outside? || (ev.act.edge in ev.graph && CallIs(ev.before, ev.act.edge.call, CallWaiting)))
    && match ev.act
       case Resume(e, _) =>
         && e.child in ev.before.turns && ev.before.turns[e.child].status == TurnWaiting
         && Settled(ev.graph, ev.before, e.child)
         && OnlyAdds(ev.before, ev.after)
       case Complete(e) =>
         && Settled(ev.graph, ev.before, e.child)
         && CallTerminal(ev.after, e.call)
         && ev.after.calls[e.call.toolMessage].status
            == (if ev.after.calls[e.call.toolMessage].failure != "" then CallFailed else CallCompleted)
         && ev.after.calls == ev.before.calls[e.call.toolMessage := ev.after.calls[e.call.toolMessage]]
         && ev.after.turns == ev.before.turns
       case Poll(e) =>
         && ev.after.calls == ev.before.calls
         && ev.after.turns - {e.child} == ev.before.turns - {e.child}
       case Outside => KeepsRows(ev.before, ev.after)
  }

  /** Legal steps, each starting where the one before it ended. */
  ghost predicate History(start: Store, trace: seq<Event>, end: Store) {
    && (forall i | 0 <= i < |trace| :: Legal(trace[i]))
    && (forall i | 0 < i < |trace| :: trace[i].before == trace[i - 1].after)
    && (if trace == [] then start == end else trace[0].before == start && trace[|trace| - 1].after == end)
  }

  /** All steps of one pass over `edges`. */
  ghost predicate Of(edges: seq<Edge>, trace: seq<Event>) {
    forall i | 0 <= i < |trace| :: trace[i].graph == edges && !trace[i].act.Outside?
  }

  ghost predicate Pauses(ev: Event) {
    ev.act.Resume? && ev.act.paused
  }

  ghost predicate NoPause(trace: seq<Event>) {
    forall i | 0 <= i < |trace| :: !Pauses(trace[i])
  }

  /** Nothing follows a pause. */
  ghost predicate PauseIsLast(trace: seq<Event>) {
    forall i | 0 <= i < |trace| - 1 :: !Pauses(trace[i])
  }

  ghost function Resumed(trace: seq<Event>): set<Key> {
    set i | 0 <= i < |trace| && trace[i].act.Resume? :: trace[i].act.edge.child
  }

  lemma ResumedGrows(trace: seq<Event>, ev: Event)
    ensures Resumed(trace + [ev]) == Resumed(trace) + if ev.act.Resume? then {ev.act.edge.child} else {}
    ensures ResumedOnce(trace) && (ev.act.Resume? ==> ev.act.edge.child !in Resumed(trace)) ==> ResumedOnce(trace + [ev])
  {
    var all := trace + [ev];
    forall k | k in Resumed(trace)
      ensures k in Resumed(all)
    {
      var i :| 0 <= i < |trace| && trace[i].act.Resume? && trace[i].act.edge.child == k;
      assert all[i] == trace[i];
    }
    assert all[|trace|] == ev;
    forall i | 0 <= i < |trace| && trace[i].act.Resume?
      ensures trace[i].act.edge.child in Resumed(trace)
    {
    }
  }

  ghost predicate ResumedOnce(trace: seq<Event>) {
    forall i, j | 0 <= i < j < |trace| && trace[i].act.Resume? && trace[j].act.Resume? ::
      trace[i].act.edge.child != trace[j].act.edge.child
  }

  /** The answer written by step `i` is the child's own: its terminal row as stored, or what
      resuming it one step earlier returned. */
  ghost predicate GenuineAt(world: World, trace: seq<Event>, i: nat)
    requires i < |trace|
  {
    trace[i].act.Complete? ==>
      var e := trace[i].act.edge;
      && e.call.toolMessage in trace[i].after.calls
      && var row := trace[i].after.calls[e.call.toolMessage];
         || EndedWith(trace[i].before, e.child, row.text, row.failure)
         || (i > 0 && trace[i - 1].act == Resume(e, false) && world.resume(e.child) == Ended(row.text, true) && row.failure == "")
  }

  ghost predicate EndedWith(s: Store, key: Key, content: string, failure: string) {
    && key in s.turns && s.turns[key].status == TurnEnded
    && s.turns[key].content == content && s.turns[key].failure == failure
  }

  ghost predicate Genuine(world: World, trace: seq<Event>) {
    forall i | 0 <= i < |trace| :: GenuineAt(world, trace, i)
  }

  lemma HistoriesJoin(a: Store, left: seq<Event>, b: Store, right: seq<Event>, c: Store)
    requires History(a, left, b) && History(b, right, c)
    ensures History(a, left + right, c)
  {
  }

  lemma OneStep(ev: Event)
    requires Legal(ev)
    ensures History(ev.before, [ev], ev.after)
  {
  }

  lemma OfGrows(edges: seq<Edge>, trace: seq<Event>, ev: Event)
    requires Of(edges, trace) && ev.graph == edges && !ev.act.Outside?
    ensures Of(edges, trace + [ev])
  {
  }

  lemma GenuineGrows(world: World, trace: seq<Event>, ev: Event)
    requires Genuine(world, trace) && GenuineAt(world, trace + [ev], |trace|)
    ensures Genuine(world, trace + [ev])
  {
    forall i | 0 <= i < |trace|
      ensures GenuineAt(world, trace + [ev], i)
    {
      assert GenuineAt(world, trace, i);
    }
  }

  lemma PausesGrow(trace: seq<Event>, ev: Event)
    requires NoPause(trace)
    ensures PauseIsLast(trace + [ev]) && (NoPause(trace + [ev]) <==> !Pauses(ev))
  {
    assert (trace + [ev])[|trace|] == ev;
  }

  lemma {:induction false} AnsweredStaysAnswered(start: Store, trace: seq<Event>, end: Store, call: Call)
    requires History(start, trace, end) && CallTerminal(start, call)
    ensures CallTerminal(end, call) && end.calls[call.toolMessage] == start.calls[call.toolMessage]
    decreases |trace|
  {
    if trace != [] {
      var last := |trace| - 1;
      assert Legal(trace[last]);
      if last > 0 {
        assert trace[last].before == trace[last - 1].after;
      }
      AnsweredStaysAnswered(start, trace[..last], trace[last].before, call);
    }
  }

  /** Across any number of passes, each cut short anywhere, and whatever other steps happen
      in between: a call is completed at most once, and after that its child turn is neither
      polled nor resumed on its behalf again. */
  lemma CompletedIsFinal(start: Store, trace: seq<Event>, end: Store, i: nat, j: nat)
    requires History(start, trace, end)
    requires i < j < |trace| && trace[i].act.Complete? && !trace[j].act.Outside?
    ensures trace[j].act.edge.call.toolMessage != trace[i].act.edge.call.toolMessage
  {
    var e, f := trace[i].act.edge, trace[j].act.edge;
    assert Legal(trace[i]) && Legal(trace[j]);
    var mid := trace[i + 1..j];
    assert trace[i + 1].before == trace[i].after;
    assert forall k | 0 <= k < |mid| :: mid[k] == trace[i + 1 + k];
    if mid != [] {
      assert mid[|mid| - 1] == trace[j - 1];
      assert trace[j].before == trace[j - 1].after;
    }
    AnsweredStaysAnswered(trace[i].after, mid, trace[j].before, e.call);
  }

  /** A turn is resumed only once the rows prove that everything it delegated came back. */
  lemma ResumedAfterDelegates(start: Store, trace: seq<Event>, end: Store, j: nat, e: Edge)
    requires History(start, trace, end)
    requires j < |trace| && trace[j].act.Resume?
    requires e in trace[j].graph && e.Parent() == trace[j].act.edge.child
    ensures CallTerminal(end, e.call)
    ensures forall k | j < k < |trace| && !trace[k].act.Outside? :: trace[k].act.edge.call.toolMessage != e.call.toolMessage
  {
    assert Legal(trace[j]);
    assert CallTerminal(trace[j].before, e.call);
    forall k | j < k <= |trace|
      ensures CallTerminal(if k < |trace| then trace[k].before else end, e.call)
    {
      var mid := trace[j..k];
      assert forall n | 0 <= n < |mid| :: mid[n] == trace[j + n];
      assert mid[|mid| - 1] == trace[k - 1];
      AnsweredStaysAnswered(trace[j].before, mid, if k < |trace| then trace[k].before else end, e.call);
    }
    forall k | j < k < |trace| && !trace[k].act.Outside?
      ensures trace[k].act.edge.call.toolMessage != e.call.toolMessage
    {
      assert Legal(trace[k]);
      assert CallTerminal(trace[k].before, e.call);
    }
  }

  // ---------- what a pass may change ----------

  predicate Answers(was: CallRow, now: CallRow) {
    && was.status == CallWaiting && TerminalStatus(now.status)
    && now.isTool == was.isTool && now.owner == was.owner && now.id == was.id
  }

  /** Waiting calls of `owners` may have been answered, rows of `turns` may have changed and
      call rows may be new; everything else is as before. */
  ghost predicate Advances(before: Store, after: Store, owners: set<Key>, turns: set<Key>) {
    && (forall m <- before.calls ::
          && m in after.calls
          && (|| after.calls[m] == before.calls[m]
              || (before.calls[m].owner in owners && Answers(before.calls[m], after.calls[m]))))
    && before.turns - turns == after.turns - turns
  }

  lemma AdvancesSelf(s: Store, owners: set<Key>, turns: set<Key>)
    ensures Advances(s, s, owners, turns)
  {
  }

  lemma AdvancesChain(a: Store, b: Store, c: Store, owners: set<Key>, turns: set<Key>)
    requires Advances(a, b, owners, turns) && Advances(b, c, owners, turns)
    ensures Advances(a, c, owners, turns)
  {
  }

  lemma AdvancesWiden(a: Store, b: Store, owners: set<Key>, turns: set<Key>, allOwners: set<Key>, allTurns: set<Key>)
    requires Advances(a, b, owners, turns) && owners <= allOwners && turns <= allTurns
    ensures Advances(a, b, allOwners, allTurns)
  {
    assert a.turns - allTurns == (a.turns - turns) - allTurns;
    assert b.turns - allTurns == (b.turns - turns) - allTurns;
  }

  lemma AdvancesKeepCalls(a: Store, b: Store, owners: set<Key>, turns: set<Key>, call: Call)
    requires Advances(a, b, owners, turns)
    ensures CallTerminal(a, call) ==> CallTerminal(b, call)
    ensures CallIs(a, call, CallWaiting) ==> CallIs(b, call, CallWaiting) || CallTerminal(b, call)
    ensures CallIs(a, call, CallWaiting) && call.owner !in owners ==> CallIs(b, call, CallWaiting)
  {
  }

  lemma AdvancesKeepSettled(edges: seq<Edge>, a: Store, b: Store, owners: set<Key>, turns: set<Key>, key: Key)
    requires Advances(a, b, owners, turns) && Settled(edges, a, key)
    ensures Settled(edges, b, key)
  {
    forall e | e in edges && e.Parent() == key
      ensures CallTerminal(b, e.call)
    {
      AdvancesKeepCalls(a, b, owners, turns, e.call);
    }
  }

  // ---------- when a pass gets through ----------

  predicate EndsWell(r: Resumption) {
    r.Ended? && r.terminal
  }

  /** A row says what is to be had from the turn. */
  predicate Concludes(row: TurnRow, r: Resumption) {
    row.status == TurnEnded || (row.status == TurnWaiting && EndsWell(r))
  }

  /** Polling finds the turn ended, or waiting and ready to be resumed to its end. */
  ghost predicate Obtainable(rows: seq<TurnRow>, parent: Key, r: Resumption) {
    exists i :: 0 <= i < |rows| && ObtainedAt(rows, parent, r, i)
  }

  ghost predicate ObtainedAt(rows: seq<TurnRow>, parent: Key, r: Resumption, i: nat)
    requires i < |rows|
  {
    && (forall j | 0 <= j <= i :: rows[j].parent == parent)
    && (forall j | 0 <= j < i :: rows[j].status == TurnRunning)
    && Concludes(rows[i], r)
  }

  /** The call is on record and answered, or it waits and its turn's result can be had. */
  ghost predicate Willing(world: World, s: Store, e: Edge) {
    || CallTerminal(s, e.call)
    || (&& CallIs(s, e.call, CallWaiting)
        && e.child in s.turns
        && Obtainable([s.turns[e.child]] + world.polls(e.child), e.Parent(), world.resume(e.child)))
  }

  ghost predicate WillingIn(edges: seq<Edge>, world: World, s: Store, keys: set<Key>) {
    forall e <- edges :: e.child in keys ==> Willing(world, s, e)
  }

  lemma WillingSurvives(edges: seq<Edge>, world: World, a: Store, b: Store, owners: set<Key>, turns: set<Key>, keys: set<Key>)
    requires Advances(a, b, owners, turns) && keys !! turns && WillingIn(edges, world, a, keys)
    ensures WillingIn(edges, world, b, keys)
  {
    forall e | e in edges && e.child in keys
      ensures Willing(world, b, e)
    {
      WillingStays(world, a, b, owners, turns, e);
    }
  }

  // ---------- one turn's edges ----------

  /** The edges from `i` on are untouched so far. */
  ghost predicate Ahead(edges: seq<Edge>, world: World, out: seq<Edge>, trace: seq<Event>, s: Store, i: nat, willing: bool) {
    forall j | i <= j < |out| ::
      && Resumed(trace) !! Subtree(edges, out[j].child)
      && (willing ==> WillingIn(edges, world, s, Subtree(edges, out[j].child)))
  }

  ghost predicate Behind(out: seq<Edge>, s: Store, i: nat)
    requires i <= |out|
  {
    forall j | 0 <= j < i :: CallTerminal(s, out[j].call)
  }

  lemma AllAhead(edges: seq<Edge>, root: Key, world: World, key: Key, trace: seq<Event>, s: Store)
    requires IsRootedTree(edges, root) && Resumed(trace) !! Descendants(edges, key)
    ensures Ahead(edges, world, OutEdges(edges, key), trace, s, 0, WillingIn(edges, world, s, Descendants(edges, key)))
  {
    hide IsRootedTree, Descendants, Subtree, Willing, Resumed;
    var out := OutEdges(edges, key);
    forall j | 0 <= j < |out|
      ensures Subtree(edges, out[j].child) <= Descendants(edges, key)
    {
      assert out[j] in out;
      ChildSubtreeShrinks(edges, root, out[j]);
    }
  }

  lemma AheadStep(
    edges: seq<Edge>, root: Key, world: World, key: Key, was: seq<Event>, before: Store, now: seq<Event>, after: Store, i: nat,
    willing: bool)
    requires IsRootedTree(edges, root) && i < |OutEdges(edges, key)|
    requires Ahead(edges, world, OutEdges(edges, key), was, before, i, willing)
    requires var below := Subtree(edges, OutEdges(edges, key)[i].child);
             Resumed(now) <= Resumed(was) + below && Advances(before, after, below + {key}, below)
    ensures Ahead(edges, world, OutEdges(edges, key), now, after, i + 1, willing)
  {
    hide Descendants, Subtree, Willing, WillingIn, Resumed, Advances;
    var out := OutEdges(edges, key);
    OutEdgesDistinct(edges, key);
    hide DistinctChildren;
    var below := Subtree(edges, out[i].child);
    forall j | i < j < |out|
      ensures Resumed(now) !! Subtree(edges, out[j].child)
      ensures willing ==> WillingIn(edges, world, after, Subtree(edges, out[j].child))
    {
      assert out[i] in out && out[j] in out;
      SiblingsDiffer(out, i, j);
      SiblingSubtreesDisjoint(edges, root, out[i], out[j]);
      if willing {
        WillingSurvives(edges, world, before, after, below + {key}, below, Subtree(edges, out[j].child));
      }
    }
  }

  lemma SiblingsDiffer(out: seq<Edge>, i: nat, j: nat)
    requires DistinctChildren(out) && i < j < |out|
    ensures out[i].child != out[j].child
  {
  }

  lemma BehindStep(out: seq<Edge>, before: Store, after: Store, owners: set<Key>, turns: set<Key>, i: nat)
    requires i < |out| && Behind(out, before, i)
    requires Advances(before, after, owners, turns) && CallTerminal(after, out[i].call)
    ensures Behind(out, after, i + 1)
  {
    hide Advances;
    forall j | 0 <= j < i
      ensures CallTerminal(after, out[j].call)
    {
      AdvancesKeepCalls(before, after, owners, turns, out[j].call);
    }
  }

  lemma AllBehind(edges: seq<Edge>, key: Key, s: Store)
    requires Behind(OutEdges(edges, key), s, |OutEdges(edges, key)|)
    ensures Settled(edges, s, key)
  {
  }

  lemma AheadAt(edges: seq<Edge>, world: World, out: seq<Edge>, trace: seq<Event>, s: Store, i: nat, willing: bool)
    requires i < |out| && Ahead(edges, world, out, trace, s, i, willing)
    ensures Resumed(trace) !! Subtree(edges, out[i].child)
    ensures willing ==> WillingIn(edges, world, s, Subtree(edges, out[i].child))
  {
  }

  lemma NoneBehind(out: seq<Edge>, s: Store)
    ensures Behind(out, s, 0)
  {
  }

  /** One edge's share of the turn's advance. */
  lemma WithinTurn(edges: seq<Edge>, start: Store, before: Store, after: Store, e: Edge)
    requires Subtree(edges, e.child) <= Descendants(edges, e.Parent())
    requires Advances(start, before, Subtree(edges, e.Parent()), Descendants(edges, e.Parent()))
    requires Advances(before, after, Subtree(edges, e.child) + {e.Parent()}, Subtree(edges, e.child))
    ensures Advances(start, after, Subtree(edges, e.Parent()), Descendants(edges, e.Parent()))
  {
    hide Advances, Descendants;
    var owners, turns := Subtree(edges, e.Parent()), Descendants(edges, e.Parent());
    AdvancesWiden(before, after, Subtree(edges, e.child) + {e.Parent()}, Subtree(edges, e.child), owners, turns);
    AdvancesChain(start, before, after, owners, turns);
  }

  /** What the willing subtree of an edge gives for the edge itself and for what lies below. */
  lemma WillingAt(edges: seq<Edge>, world: World, s: Store, e: Edge)
    requires e in edges
    ensures WillingIn(edges, world, s, Subtree(edges, e.child)) ==>
              Willing(world, s, e) && WillingIn(edges, world, s, Descendants(edges, e.child))
  {
  }

  lemma WillingStays(world: World, a: Store, b: Store, owners: set<Key>, turns: set<Key>, e: Edge)
    requires Advances(a, b, owners, turns) && e.child !in turns && Willing(world, a, e)
    ensures Willing(world, b, e)
  {
    AdvancesKeepCalls(a, b, owners, turns, e.call);
    if e.child in a.turns {
      assert e.child in a.turns - turns && (a.turns - turns)[e.child] == (b.turns - turns)[e.child];
    }
  }

  // ---------- one pass ----------

  datatype ChildView = Unreadable | StillWaiting | Final(content: string, failure: string)

  class Pass {
    const edges: seq<Edge>
    const root: Key
    const world: World
    var store: Store
    var paused: bool
    var nextCalls: seq<Call>
    var nextEdges: seq<Edge>
    ghost var trace: seq<Event>
    ghost var start: Store

    constructor (edges: seq<Edge>, root: Key, world: World, store: Store)
      requires IsRootedTree(edges, root)
      ensures this.edges == edges && this.root == root && this.world == world
      ensures this.store == store && this.start == store && trace == [] && !paused && nextCalls == [] && nextEdges == edges
    {
      this.edges, this.root, this.world, this.store, this.start := edges, root, world, store, store;
      paused, nextCalls, nextEdges, trace := false, [], edges, [];
    }

    ghost predicate Valid()
      reads this
    {
      && IsRootedTree(edges, root)
      && History(start, trace, store)
      && Of(edges, trace) && ResumedOnce(trace) && Genuine(world, trace)
      && (if paused then trace != [] && Pauses(trace[|trace| - 1]) && PauseIsLast(trace) else NoPause(trace))
    }

    /** What a pass will report: untouched until the pause, then what the paused turn returned. */
    ghost predicate Reports()
      reads this
    {
      if paused then
        && trace != [] && trace[|trace| - 1].act.Resume?
        && var returned := world.resume(trace[|trace| - 1].act.edge.child);
           returned.Paused? && nextCalls == returned.calls && nextEdges == Merged(edges, returned.edges)
      else nextCalls == [] && nextEdges == edges
    }

    ghost method Log(act: Act, before: Store)
      requires IsRootedTree(edges, root) && History(start, trace, before)
      requires Of(edges, trace) && ResumedOnce(trace) && NoPause(trace) && Genuine(world, trace)
      requires GenuineAt(world, trace + [Event(edges, act, before, store)], |trace|)
      requires Legal(Event(edges, act, before, store))
      requires !act.Outside? && (act.Resume? ==> act.edge.child !in Resumed(trace))
      requires paused <==> act.Resume? && act.paused
      modifies this`trace
      ensures Valid()
      ensures trace == old(trace) + [Event(edges, act, before, store)]
      ensures Resumed(trace) == Resumed(old(trace)) + if act.Resume? then {act.edge.child} else {}
    {
      hide History, Genuine, ResumedOnce, Of, Resumed, Legal, IsRootedTree;
      var ev := Event(edges, act, before, store);
      OneStep(ev);
      HistoriesJoin(start, trace, before, [ev], store);
      ResumedGrows(trace, ev);
      OfGrows(edges, trace, ev);
      GenuineGrows(world, trace, ev);
      PausesGrow(trace, ev);
      trace := trace + [ev];
    }

    /** `aguiDependencyChildResult`: polls the child's row until it is not running. */
    method ReadChild(edge: Edge) returns (view: ChildView)
      requires Valid() && !paused && edge in edges && CallIs(store, edge.call, CallWaiting)
      modifies this`store, this`trace
      ensures Valid() && old(trace) <= trace && Resumed(trace) == Resumed(old(trace))
      ensures store.calls == old(store).calls && Advances(old(store), store, {}, {edge.child})
      ensures edge.child in old(store).turns && old(store).turns[edge.child].status == TurnEnded ==>
                && store == old(store) && trace == old(trace)
                && (view.Unreadable? || view == Final(store.turns[edge.child].content, store.turns[edge.child].failure))
      ensures view.StillWaiting? ==> edge.child in store.turns && store.turns[edge.child].status == TurnWaiting
      ensures view.Final? ==>
                && edge.child in store.turns && store.turns[edge.child].status == TurnEnded
                && view == Final(store.turns[edge.child].content, store.turns[edge.child].failure)
      ensures Willing(world, old(store), edge) ==>
                view.Final? || (view.StillWaiting? && EndsWell(world.resume(edge.child)))
    {
      hide History, Genuine, ResumedOnce;
      var observations := world.polls(edge.child);
      ghost var rows := if edge.child in store.turns then [store.turns[edge.child]] + observations else [];
      var i := 0;
      while true
        invariant 0 <= i <= |observations|
        invariant Valid() && old(trace) <= trace && Resumed(trace) == Resumed(old(trace))
        invariant store.calls == old(store).calls && store.turns - {edge.child} == old(store).turns - {edge.child}
        invariant i == 0 ==> store == old(store) && trace == old(trace)
        invariant i > 0 ==> edge.child in store.turns && rows != []
        invariant rows != [] ==> edge.child in store.turns && store.turns[edge.child] == rows[i]
        invariant forall j | 0 <= j < i :: rows[j].status == TurnRunning
        invariant edge.child in old(store).turns && old(store).turns[edge.child].status == TurnEnded ==> i == 0
        decreases |observations| - i
      {
        if edge.child !in store.turns || store.turns[edge.child].parent != edge.Parent() {
          return Unreadable;
        }
        var row := store.turns[edge.child];
        match row.status {
          case TurnWaiting => return StillWaiting;
          case TurnEnded => return Final(row.content, row.failure);
          case TurnUnknown => return Unreadable;
          case TurnRunning =>
        }
        if i == |observations| {
          return Unreadable;
        }
        ghost var before := store;
        store := store.(turns := store.turns[edge.child := observations[i]]);
        Log(Poll(edge), before);
        i := i + 1;
      }
    }

    /** `CompleteDependency`: writes the result onto the original call. */
    method CompleteCall(edge: Edge, text: string, failure: string) returns (ok: bool)
      requires Valid() && !paused && edge in edges && Settled(edges, store, edge.child)
      requires || EndedWith(store, edge.child, text, failure)
               || (trace != [] && trace[|trace| - 1].act == Resume(edge, false)
                   && world.resume(edge.child) == Ended(text, true) && failure == "")
      modifies this`store, this`trace
      ensures Valid() && old(trace) <= trace && Resumed(trace) == Resumed(old(trace))
      ensures store.turns == old(store).turns && Advances(old(store), store, {edge.Parent()}, {})
      ensures !ok ==> store == old(store) && trace == old(trace)
      ensures ok ==>
                && CallTerminal(store, edge.call)
                && store.calls[edge.call.toolMessage].text == text
                && store.calls[edge.call.toolMessage].failure == failure
      ensures CallIs(old(store), edge.call, CallWaiting) ==> ok
    {
      hide History, Genuine, ResumedOnce;
      if !Identified(store, edge.call) {
        return false;
      }
      var row := store.calls[edge.call.toolMessage];
      if row.status == CallCompleted || row.status == CallFailed {
        return row.text == text && row.failure == failure;
      }
      if row.status != CallWaiting {
        return false;
      }
      ghost var before := store;
      var done := row.(status := if failure != "" then CallFailed else CallCompleted, text := text, failure := failure);
      store := store.(calls := store.calls[edge.call.toolMessage := done]);
      Log(Complete(edge), before);
      return true;
    }

    /** `mergeEdges`: replaces an edge with the same id in place, appends the others. */
    method MergeEdges(incoming: seq<Edge>)
      modifies this`nextEdges
      ensures nextEdges == Merged(old(nextEdges), incoming)
    {
      var k := 0;
      while k < |incoming|
        invariant 0 <= k <= |incoming|
        invariant Merged(nextEdges, incoming[k..]) == Merged(old(nextEdges), incoming)
      {
        var i := 0;
        while i < |nextEdges| && nextEdges[i].id != incoming[k].id
          invariant 0 <= i <= |nextEdges|
          invariant forall j | 0 <= j < i :: nextEdges[j].id != incoming[k].id
        {
          i := i + 1;
        }
        assert incoming[k..][0] == incoming[k] && incoming[k..][1..] == incoming[k + 1..];
        PutAt(nextEdges, incoming[k], i);
        nextEdges := if i < |nextEdges| then nextEdges[i := incoming[k]] else nextEdges + [incoming[k]];
        k := k + 1;
      }
      assert incoming[|incoming|..] == [];
    }

    /** Everything below `key`, in post-order.  Willing turns all come back. */
    method ResumeChildren(key: Key) returns (ok: bool)
      requires Valid() && !paused && Reports()
      requires Resumed(trace) !! Descendants(edges, key)
      modifies this`store, this`trace, this`paused, this`nextCalls, this`nextEdges
      ensures Valid() && Reports() && old(trace) <= trace
      ensures Resumed(trace) <= Resumed(old(trace)) + Descendants(edges, key)
      ensures Advances(old(store), store, Subtree(edges, key), Descendants(edges, key))
      ensures ok && !paused ==> Settled(edges, store, key)
      ensures WillingIn(edges, world, old(store), Descendants(edges, key)) ==> ok && !paused
      decreases Descendants(edges, key), 1
    {
      hide History, Of, Genuine, ResumedOnce, Resumed, Descendants, Advances, Willing, WillingIn, Ahead, Behind, OutEdges, IsRootedTree;
      ghost var willing := WillingIn(edges, world, store, Descendants(edges, key));
      var out := OutEdges(edges, key);
      AllAhead(edges, root, world, key, trace, store);
      AdvancesSelf(store, Subtree(edges, key), Descendants(edges, key));
      NoneBehind(out, store);
      var i := 0;
      while i < |out|
        invariant 0 <= i <= |out|
        invariant Valid() && Reports() && !paused && old(trace) <= trace
        invariant Resumed(trace) <= Resumed(old(trace)) + Descendants(edges, key)
        invariant Advances(old(store), store, Subtree(edges, key), Descendants(edges, key))
        invariant Ahead(edges, world, out, trace, store, i, willing)
        invariant Behind(out, store, i)
      {
        assert out[i] in out;
        ghost var before, was := store, trace;
        AheadAt(edges, world, out, trace, store, i, willing);
        ChildSubtreeShrinks(edges, root, out[i]);
        ok := ResumeEdge(out[i]);
        WithinTurn(edges, old(store), before, store, out[i]);
        if !ok || paused {
          return;
        }
        AheadStep(edges, root, world, key, was, before, trace, store, i, willing);
        BehindStep(out, before, store, Subtree(edges, out[i].child) + {key}, Subtree(edges, out[i].child), i);
        i := i + 1;
      }
      AllBehind(edges, key, store);
      ok := true;
    }

    /** The body of the loop over one turn's edges. */
    method ResumeEdge(edge: Edge) returns (ok: bool)
      requires Valid() && !paused && Reports() && edge in edges
      requires Resumed(trace) !! Subtree(edges, edge.child)
      modifies this`store, this`trace, this`paused, this`nextCalls, this`nextEdges
      ensures Valid() && Reports() && old(trace) <= trace
      ensures Resumed(trace) <= Resumed(old(trace)) + Subtree(edges, edge.child)
      ensures Advances(old(store), store, Subtree(edges, edge.child) + {edge.Parent()}, Subtree(edges, edge.child))
      ensures ok && !paused ==> CallTerminal(store, edge.call)
      ensures WillingIn(edges, world, old(store), Subtree(edges, edge.child)) ==> ok && !paused
      decreases Descendants(edges, edge.Parent()), 0
    {
      hide History, Of, Genuine, ResumedOnce, Resumed, Descendants, Advances, WillingIn, IsRootedTree;
      ghost var owners, turns := Subtree(edges, edge.child) + {edge.Parent()}, Subtree(edges, edge.child);
      AdvancesSelf(store, owners, turns);
      WillingAt(edges, world, store, edge);
      var status := ReadCall(store, edge.call);
      if status.None? {
        return false;
      }
      if TerminalStatus(status.value) {
        return true;
      }
      if status.value != CallWaiting {
        return false;
      }
      ChildSubtreeShrinks(edges, root, edge);
      ParentIsOutside(edges, root, edge);
      ok := ResumeChildren(edge.child);
      AdvancesWiden(old(store), store, Subtree(edges, edge.child), Descendants(edges, edge.child), owners, turns);
      if !ok || paused {
        return;
      }
      AdvancesKeepCalls(old(store), store, Subtree(edges, edge.child), Descendants(edges, edge.child), edge.call);
      if Willing(world, old(store), edge) {
        WillingStays(world, old(store), store, Subtree(edges, edge.child), Descendants(edges, edge.child), edge);
      }
      ghost var middle := store;
      ok := FinishEdge(edge);
      AdvancesWiden(middle, store, {edge.Parent()}, {edge.child}, owners, turns);
      AdvancesChain(old(store), middle, store, owners, turns);
    }

    /** The rest of the loop body, once everything below the child has come back: read the
        child or resume it, then answer the original call. */
    method FinishEdge(edge: Edge) returns (ok: bool)
      requires Valid() && !paused && Reports() && edge in edges
      requires CallIs(store, edge.call, CallWaiting) && Settled(edges, store, edge.child)
      requires edge.child !in Resumed(trace)
      modifies this`store, this`trace, this`paused, this`nextCalls, this`nextEdges
      ensures Valid() && Reports() && old(trace) <= trace
      ensures Resumed(trace) <= Resumed(old(trace)) + {edge.child}
      ensures edge.child in old(store).turns && old(store).turns[edge.child].status == TurnEnded ==>
                && Resumed(trace) == Resumed(old(trace))
                && (ok ==>
                      && edge.call.toolMessage in store.calls
                      && store.calls[edge.call.toolMessage].text == old(store).turns[edge.child].content
                      && store.calls[edge.call.toolMessage].failure == old(store).turns[edge.child].failure)
      ensures Advances(old(store), store, {edge.Parent()}, {edge.child})
      ensures ok && !paused ==> CallTerminal(store, edge.call)
      ensures Willing(world, old(store), edge) ==> ok && !paused
    {
      hide History, Of, Genuine, ResumedOnce, Resumed, Advances, Willing, IsRootedTree;
      ghost var parent, child := {edge.Parent()}, {edge.child};
      var view := ReadChild(edge);
      AdvancesWiden(old(store), store, {}, child, parent, child);
      if view.Unreadable? {
        return false;
      }
      var text, failure := "", "";
      if view.Final? {
        text, failure := view.content, view.failure;
      } else {
        var resumption := world.resume(edge.child);
        ghost var read := store;
        RunChild(edge, resumption.Paused?);
        AdvancesWiden(read, store, {}, child, parent, child);
        AdvancesChain(old(store), read, store, parent, child);
        match resumption {
          case Failed => return false;
          case Paused(calls, more) =>
            nextCalls := nextCalls + calls;
            MergeEdges(more);
            return true;
          case Ended(content, terminal) =>
            if !terminal {
              return false;
            }
            text := content;
        }
      }
      ghost var ready := store;
      AdvancesKeepSettled(edges, old(store), ready, parent, child, edge.child);
      ok := CompleteCall(edge, text, failure);
      AdvancesWiden(ready, store, parent, {}, parent, child);
      AdvancesChain(old(store), ready, store, parent, child);
    }

    /** `ResumeContinuation` on the child: its row becomes whatever the run left, and the calls
        it made are on record. */
    method RunChild(edge: Edge, pausing: bool)
      requires Valid() && !paused && edge in edges
      requires CallIs(store, edge.call, CallWaiting)
      requires edge.child in store.turns && store.turns[edge.child].status == TurnWaiting
      requires Settled(edges, store, edge.child)
      requires edge.child !in Resumed(trace)
      modifies this`store, this`trace, this`paused
      ensures Valid() && paused == pausing && old(trace) <= trace
      ensures Resumed(trace) == Resumed(old(trace)) + {edge.child}
      ensures trace[|trace| - 1].act == Resume(edge, pausing)
      ensures store == Store(world.made(edge.child) + old(store).calls, old(store).turns[edge.child := world.after(edge.child)])
      ensures Advances(old(store), store, {}, {edge.child}) && CallIs(store, edge.call, CallWaiting)
    {
      hide History, Genuine, ResumedOnce;
      ghost var before := store;
      store := Store(world.made(edge.child) + store.calls, store.turns[edge.child := world.after(edge.child)]);
      paused := pausing;
      Log(Resume(edge, pausing), before);
    }
  }

  /** The edges of a list whose original calls still wait. */
  function StillOpen(s: Store, edges: seq<Edge>): seq<Edge> {
    if edges == [] then [] else
      var front := StillOpen(s, edges[..|edges| - 1]);
      var last := edges[|edges| - 1];
      if CallIs(s, last.call, CallWaiting) then front + [last] else front
  }

  datatype Outcome =
    | Rejected(reason: GraphError)
    | Aborted
    | WaitingAgain(calls: seq<Call>, edges: seq<Edge>)
    | AlreadyFinal(row: TurnRow)
    | RootResumed

  lemma NothingHappened(edges: seq<Edge>, world: World, s: Store)
    ensures History(s, [], s) && Of(edges, []) && ResumedOnce([]) && Resumed([]) == {} && Genuine(world, [])
    ensures NoPause([]) && PauseIsLast([])
  {
  }

  /** The edges handed on after a pause; None is an identity mismatch. */
  method CarryOn(s: Store, edges: seq<Edge>) returns (open: Option<seq<Edge>>)
    ensures open.Some? <==> forall e <- edges :: Identified(s, e.call)
    ensures open.Some? ==> open.value == StillOpen(s, edges)
  {
    var waiting: seq<Edge> := [];
    var i := 0;
    while i < |edges|
      invariant 0 <= i <= |edges|
      invariant waiting == StillOpen(s, edges[..i])
      invariant forall j | 0 <= j < i :: Identified(s, edges[j].call)
    {
      var status := ReadCall(s, edges[i].call);
      if status.None? {
        return None;
      }
      if status.value == CallWaiting {
        waiting := waiting + [edges[i]];
      }
      assert edges[..i + 1][..i] == edges[..i];
      i := i + 1;
    }
    assert edges[..i] == edges;
    return Some(waiting);
  }

  /** `aguiResumeGraph`, from the admission check to the resumption of the root turn. */
  method ResumeGraph(edges: seq<Edge>, root: Key, world: World, store: Store)
    returns (outcome: Outcome, after: Store, ghost trace: seq<Event>)
    ensures outcome.Rejected? <==> !(|edges| <= MAXIMUM_DEPENDENCIES && (forall e <- edges :: e.WellFormed()) && IsRootedTree(edges, root))
    ensures outcome.Rejected? ==> after == store && trace == []
    ensures History(store, trace, after)
    ensures Of(edges, trace) && ResumedOnce(trace) && Resumed(trace) <= Children(edges) && Genuine(world, trace)
    ensures PauseIsLast(trace) && Advances(store, after, Nodes(edges, root), Children(edges))
    ensures outcome.WaitingAgain? ==> trace != [] && Pauses(trace[|trace| - 1])
    ensures outcome.WaitingAgain? ==>
              var child := trace[|trace| - 1].act.edge.child;
              && world.resume(child).Paused? && outcome.calls == world.resume(child).calls
              && outcome.edges == StillOpen(after, Merged(edges, world.resume(child).edges))
    ensures outcome.RootResumed? || outcome.AlreadyFinal? ==> NoPause(trace) && Settled(edges, after, root)
    ensures !outcome.Rejected? && WillingIn(edges, world, store, Children(edges)) ==> outcome.RootResumed? || outcome.AlreadyFinal?
    ensures outcome.RootResumed? ==> root !in after.turns || after.turns[root].status != TurnEnded
    ensures outcome.AlreadyFinal? ==> root in after.turns && after.turns[root] == outcome.row && outcome.row.status == TurnEnded
  {
    hide History, Of, Genuine, ResumedOnce, Resumed, Advances, IsRootedTree, Willing, Settled, StillOpen, Merged;
    NothingHappened(edges, world, store);
    var checked := Validate(edges, root);
    if checked.Err? {
      AdvancesSelf(store, Nodes(edges, root), Children(edges));
      return Rejected(checked.error), store, [];
    }
    var pass := new Pass(edges, root, world, store);
    var ok := pass.ResumeChildren(root);
    after, trace := pass.store, pass.trace;
    assert Resumed(trace) <= Children(edges);
    AdvancesWiden(store, after, Subtree(edges, root), Descendants(edges, root), Nodes(edges, root), Children(edges));
    if !ok {
      return Aborted, after, trace;
    }
    if pass.paused {
      var open := CarryOn(after, pass.nextEdges);
      if open.None? {
        return Aborted, after, trace;
      }
      return WaitingAgain(pass.nextCalls, open.value), after, trace;
    }
    if root in after.turns && after.turns[root].status == TurnEnded {
      return AlreadyFinal(after.turns[root]), after, trace;
    }
    return RootResumed, after, trace;
  }

  lemma ParentIsOutside(edges: seq<Edge>, root: Key, e: Edge)
    requires IsRootedTree(edges, root) && e in edges
    ensures e.Parent() !in Subtree(edges, e.child)
    ensures e.child !in Descendants(edges, e.child)
  {
    var n: nat :| Steps(edges, root, e.child, n);
    TreeIsAcyclic(edges, root, e.child, n);
    BelowIsDescendant(edges, e.child, e.child);
    EdgeIsBelow(edges, e);
    if e.Parent() in Subtree(edges, e.child) {
      BelowIsDescendant(edges, e.child, e.Parent());
      BelowIsReach(edges, e.child, e.Parent());
      if e.Parent() == e.child {
        ReachSelf(edges, e.child);
      }
      ReachCompose(edges, e.child, e.Parent(), e.child);
    }
  }

  function Put(edges: seq<Edge>, e: Edge): seq<Edge> {
    if edges == [] then [e]
    else if edges[0].id == e.id then [e] + edges[1..]
    else [edges[0]] + Put(edges[1..], e)
  }

  function Merged(edges: seq<Edge>, incoming: seq<Edge>): seq<Edge>
    decreases |incoming|
  {
    if incoming == [] then edges else Merged(Put(edges, incoming[0]), incoming[1..])
  }

  lemma {:induction false} PutAt(edges: seq<Edge>, e: Edge, i: nat)
    requires i <= |edges| && forall j | 0 <= j < i :: edges[j].id != e.id
    requires i < |edges| ==> edges[i].id == e.id
    ensures Put(edges, e) == if i < |edges| then edges[i := e] else edges + [e]
  {
    if edges != [] && i > 0 {
      PutAt(edges[1..], e, i - 1);
      if i < |edges| {
        assert edges[i := e] == [edges[0]] + edges[1..][i - 1 := e];
      } else {
        assert edges + [e] == [edges[0]] + (edges[1..] + [e]);
      }
    }
  }
}
