/** The list a pass of sdk/agui_dependency_resume.go hands on when a turn pauses again.

    The next pass puts that list through the same admission check.  It is a rooted tree again
    exactly when every open edge hangs from the root or from another open edge, and it does so
    when answers come from the leaves up, which every pass keeps. */
module DependencyHandover {
  import opened DependencyGraph
  import opened DependencyResume

  // ---------- answers come from the leaves up ----------

  /** Every call is on record, waiting or answered, and answered only once all calls of the
      turn it waited for are. */
  ghost predicate Layered(edges: seq<Edge>, s: Store) {
    forall e <- edges ::
      && (CallIs(s, e.call, CallWaiting) || CallTerminal(s, e.call))
      && (CallTerminal(s, e.call) ==> Settled(edges, s, e.child))
  }

  /** No call waits for two turns. */
  ghost predicate OwnCalls(edges: seq<Edge>) {
    forall e, f | e in edges && f in edges && e.call.toolMessage == f.call.toolMessage :: e == f
  }

  lemma CallThroughStep(edges: seq<Edge>, ev: Event, e: Edge)
    requires Legal(ev) && ev.graph == edges && !ev.act.Outside? && OwnCalls(edges) && e in edges
    requires CallIs(ev.before, e.call, CallWaiting) || CallTerminal(ev.before, e.call)
    ensures CallTerminal(ev.before, e.call) ==> CallTerminal(ev.after, e.call)
    ensures ev.act != Complete(e) ==>
              && (CallTerminal(ev.after, e.call) ==> CallTerminal(ev.before, e.call))
              && (CallIs(ev.before, e.call, CallWaiting) ==> CallIs(ev.after, e.call, CallWaiting))
    ensures ev.act == Complete(e) ==> CallTerminal(ev.after, e.call) && Settled(edges, ev.before, e.child)
  {
    if ev.act.Complete? && ev.act.edge != e {
      assert ev.act.edge.call.toolMessage != e.call.toolMessage;
    }
  }

  lemma LayeredStep(edges: seq<Edge>, ev: Event)
    requires Legal(ev) && ev.graph == edges && !ev.act.Outside? && OwnCalls(edges)
    requires Layered(edges, ev.before)
    ensures Layered(edges, ev.after)
  {
    hide Legal, OwnCalls, CallIs, CallTerminal;
    forall e | e in edges
      ensures CallIs(ev.after, e.call, CallWaiting) || CallTerminal(ev.after, e.call)
      ensures CallTerminal(ev.after, e.call) ==> Settled(edges, ev.after, e.child)
    {
      CallThroughStep(edges, ev, e);
      forall f | f in edges && f.Parent() == e.child && CallTerminal(ev.after, e.call)
        ensures CallTerminal(ev.after, f.call)
      {
        CallThroughStep(edges, ev, f);
      }
    }
  }

  /** A pass answers from the leaves up, wherever it is cut off. */
  lemma {:induction false} PassKeepsLayers(edges: seq<Edge>, start: Store, trace: seq<Event>, end: Store)
    requires History(start, trace, end) && Of(edges, trace) && OwnCalls(edges) && Layered(edges, start)
    ensures Layered(edges, end)
    decreases |trace|
  {
    hide Layered, OwnCalls, Legal;
    if trace != [] {
      var last := |trace| - 1;
      if last > 0 {
        assert trace[last].before == trace[last - 1].after;
      }
      PassKeepsLayers(edges, start, trace[..last], trace[last].before);
      LayeredStep(edges, trace[last]);
    }
  }

  // ---------- the open part of a tree ----------

  lemma {:induction false} OpenMembers(s: Store, edges: seq<Edge>)
    ensures forall e :: e in StillOpen(s, edges) <==> e in edges && CallIs(s, e.call, CallWaiting)
    ensures DistinctChildren(edges) ==> DistinctChildren(StillOpen(s, edges))
  {
    if edges != [] {
      var front, last := edges[..|edges| - 1], edges[|edges| - 1];
      OpenMembers(s, front);
      assert edges == front + [last];
      if DistinctChildren(edges) {
        forall e | e in StillOpen(s, front)
          ensures e.child != last.child
        {
          var i :| 0 <= i < |front| && front[i] == e;
          assert edges[i] == e;
        }
      }
    }
  }

  /** Every open edge belongs to the root or to a turn that another open edge waits for. */
  ghost predicate Hangs(s: Store, edges: seq<Edge>, root: Key) {
    forall e <- edges :: CallIs(s, e.call, CallWaiting) ==> HangsFrom(s, edges, root, e.Parent())
  }

  ghost predicate HangsFrom(s: Store, edges: seq<Edge>, root: Key, parent: Key) {
    parent == root || exists f <- edges :: f.child == parent && CallIs(s, f.call, CallWaiting)
  }

  lemma {:induction false} OpenChainReaches(s: Store, edges: seq<Edge>, root: Key, e: Edge, n: nat)
    requires IsRootedTree(edges, root) && Hangs(s, edges, root)
    requires e in edges && CallIs(s, e.call, CallWaiting) && Steps(edges, root, e.child, n)
    ensures Reach(StillOpen(s, edges), root, e.child)
    decreases n
  {
    hide CallIs;
    var open := StillOpen(s, edges);
    OpenMembers(s, edges);
    EdgeIsBelow(open, e);
    var x :| x in edges && x.child == e.child && Steps(edges, root, x.Parent(), n - 1);
    UniqueParent(edges, x, e);
    if e.Parent() != root {
      var f :| f in edges && f.child == e.Parent() && CallIs(s, f.call, CallWaiting);
      OpenChainReaches(s, edges, root, f, n - 1);
      ReachCompose(open, root, e.Parent(), e.child);
    }
  }

  /** What remains open of a rooted tree is a rooted tree exactly when it hangs together. */
  lemma OpenPartIsTree(s: Store, edges: seq<Edge>, root: Key)
    requires IsRootedTree(edges, root)
    ensures IsRootedTree(StillOpen(s, edges), root) <==> Hangs(s, edges, root)
  {
    hide CallIs;
    var open := StillOpen(s, edges);
    OpenMembers(s, edges);
    if Hangs(s, edges, root) {
      forall e | e in open
        ensures e.child != root && Reach(open, root, e.child)
      {
        var n: nat :| Steps(edges, root, e.child, n);
        OpenChainReaches(s, edges, root, e, n);
      }
    }
    if IsRootedTree(open, root) {
      forall e | e in edges && CallIs(s, e.call, CallWaiting)
        ensures HangsFrom(s, edges, root, e.Parent())
      {
        assert e in open;
        var n: nat :| Steps(open, root, e.child, n);
        var x :| x in open && x.child == e.child && Steps(open, root, x.Parent(), n - 1);
        UniqueParent(edges, x, e);
      }
    }
  }

  lemma LayeredHangs(s: Store, edges: seq<Edge>, root: Key)
    requires IsRootedTree(edges, root) && Layered(edges, s)
    ensures Hangs(s, edges, root)
  {
    forall e | e in edges && CallIs(s, e.call, CallWaiting)
      ensures HangsFrom(s, edges, root, e.Parent())
    {
      if e.Parent() != root {
        var n: nat :| Steps(edges, root, e.child, n);
        var x :| x in edges && x.child == e.child && Steps(edges, root, x.Parent(), n - 1);
        UniqueParent(edges, x, e);
        var f :| f in edges && f.child == e.Parent() && Steps(edges, root, f.Parent(), n - 2);
        assert !CallTerminal(s, e.call);
        assert !Settled(edges, s, f.child);
      }
    }
  }

  // ---------- joining the returned edges ----------

  lemma {:induction false} StepsWiden(some: seq<Edge>, all: seq<Edge>, a: Key, b: Key, n: nat)
    requires (forall e <- some :: e in all) && Steps(some, a, b, n)
    ensures Steps(all, a, b, n)
    decreases n
  {
    if n > 0 {
      var e :| e in some && e.child == b && Steps(some, a, e.Parent(), n - 1);
      StepsWiden(some, all, a, e.Parent(), n - 1);
    }
  }

  lemma ReachWiden(some: seq<Edge>, all: seq<Edge>, a: Key, b: Key)
    requires (forall e <- some :: e in all) && Reach(some, a, b)
    ensures Reach(all, a, b)
  {
    var n: nat :| Steps(some, a, b, n);
    StepsWiden(some, all, a, b, n);
  }

  /** A tree below one turn of another tree, all its turns new, makes one tree. */
  lemma TreesGraft(edges: seq<Edge>, root: Key, more: seq<Edge>, key: Key)
    requires IsRootedTree(edges, root) && key in Nodes(edges, root)
    requires IsRootedTree(more, key) && Children(more) !! Nodes(edges, root)
    ensures IsRootedTree(edges + more, root)
  {
    hide Steps, Reach, Below;
    var all := edges + more;
    ReachSelf(all, root);
    assert Reach(all, root, key) by {
      if key != root {
        var e :| e in edges && e.child == key;
        ReachWiden(edges, all, root, e.child);
      }
    }
    forall e | e in all
      ensures e.child != root && Reach(all, root, e.child)
    {
      if e in edges {
        ReachWiden(edges, all, root, e.child);
      } else {
        assert e.child in Children(more);
        ReachWiden(more, all, key, e.child);
        ReachCompose(all, root, key, e.child);
      }
    }
    forall i, j | 0 <= i < j < |all|
      ensures all[i].child != all[j].child
    {
      if i < |edges| <= j {
        assert all[i] in edges && all[j] in more;
        assert all[i].child in Children(edges) && all[j].child in Children(more);
      }
    }
  }

  ghost predicate NewIds(edges: seq<Edge>, more: seq<Edge>) {
    && (forall i, j | 0 <= i < |edges| && 0 <= j < |more| :: edges[i].id != more[j].id)
    && (forall i, j | 0 <= i < j < |more| :: more[i].id != more[j].id)
  }

  /** Edges with new ids are appended in order. */
  lemma {:induction false} NewEdgesAreAppended(edges: seq<Edge>, more: seq<Edge>)
    requires NewIds(edges, more)
    ensures Merged(edges, more) == edges + more
    decreases |more|
  {
    if more == [] {
      assert edges + more == edges;
    } else {
      PutAt(edges, more[0], |edges|);
      var next := edges + [more[0]];
      forall i, j | 0 <= i < |next| && 0 <= j < |more[1..]|
        ensures next[i].id != more[1..][j].id
      {
        assert more[1..][j] == more[j + 1];
      }
      NewEdgesAreAppended(next, more[1..]);
      assert next + more[1..] == edges + more;
    }
  }

  // ---------- the next pass ----------

  /** What a paused turn returned: a tree of new turns below it, whose answers are layered. */
  ghost predicate Grafts(edges: seq<Edge>, root: Key, s: Store, paused: Key, more: seq<Edge>) {
    && (forall e <- more :: e.WellFormed())
    && NewIds(edges, more) && Children(more) !! Nodes(edges, root)
    && IsRootedTree(more, paused) && Layered(more, s)
  }

  lemma GraftHangs(edges: seq<Edge>, root: Key, s: Store, e: Edge, more: seq<Edge>)
    requires IsRootedTree(edges, root) && Layered(edges, s)
    requires e in edges && CallIs(s, e.call, CallWaiting) && Grafts(edges, root, s, e.child, more)
    ensures Hangs(s, edges + more, root)
  {
    hide CallIs, Layered, IsRootedTree, NewIds;
    LayeredHangs(s, edges, root);
    LayeredHangs(s, more, e.child);
    var all := edges + more;
    forall x | x in all && CallIs(s, x.call, CallWaiting)
      ensures HangsFrom(s, all, root, x.Parent())
    {
      if x in edges {
        assert HangsFrom(s, edges, root, x.Parent());
      } else if x.Parent() == e.child {
        assert e in all;
      } else {
        assert HangsFrom(s, more, e.child, x.Parent());
      }
    }
  }

  /** After a pause of any pass, cut off nowhere else, the list handed on passes the admission
      check but for its size, and is fit for another pass. */
  lemma HandedOverListIsAccepted(edges: seq<Edge>, root: Key, start: Store, trace: seq<Event>, end: Store, more: seq<Edge>)
    requires (forall e <- edges :: e.WellFormed()) && IsRootedTree(edges, root)
    requires OwnCalls(edges) && Layered(edges, start)
    requires History(start, trace, end) && Of(edges, trace)
    requires trace != [] && Pauses(trace[|trace| - 1])
    requires Grafts(edges, root, end, trace[|trace| - 1].act.edge.child, more)
    ensures Merged(edges, more) == edges + more
    ensures var open := StillOpen(end, Merged(edges, more));
            && (forall e <- open :: e.WellFormed()) && IsRootedTree(open, root)
            && Layered(open, end) && (OwnCalls(edges + more) ==> OwnCalls(open))
  {
    hide IsRootedTree, OwnCalls, Of, Layered;
    var last := trace[|trace| - 1];
    assert Legal(last) && last.after == end;
    assert last.act.edge in edges && CallIs(end, last.act.edge.call, CallWaiting) by { WaitsOn(edges, trace); }
    hide History, Legal, CallIs, Pauses;
    PassKeepsLayers(edges, start, trace, end);
    NewEdgesAreAppended(edges, more);
    TreesGraft(edges, root, more, last.act.edge.child);
    GraftHangs(edges, root, end, last.act.edge, more);
    OpenPartIsTree(end, edges + more, root);
    OpenIsLayered(end, edges + more);
  }

  lemma WaitsOn(edges: seq<Edge>, trace: seq<Event>)
    requires Of(edges, trace) && trace != [] && Pauses(trace[|trace| - 1]) && Legal(trace[|trace| - 1])
    ensures var last := trace[|trace| - 1];
            last.act.edge in edges && CallIs(last.after, last.act.edge.call, CallWaiting)
  {
  }

  lemma OpenIsLayered(s: Store, edges: seq<Edge>)
    ensures var open := StillOpen(s, edges);
            && Layered(open, s) && (OwnCalls(edges) ==> OwnCalls(open))
            && forall e <- open :: e in edges
  {
    OpenMembers(s, edges);
  }
}
