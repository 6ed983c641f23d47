/** The delegated-turn graph of sdk/agui_dependency_resume.go: its shape.

    An edge says that a tool call of one turn waits for a child turn.  `Validate` is the
    admission check; the theorem is that it accepts exactly the trees rooted at the admitted
    turn. */
module DependencyGraph {
  import opened Common

  /** A turn, named by its conversation and its own id. */
  datatype Key = Key(conversation: string, turn: string)

  datatype Call = Call(id: string, toolMessage: string, owner: Key)

  datatype Edge = Edge(id: string, call: Call, child: Key, knownAdapter: bool) {
    function Parent(): Key { call.owner }

    predicate WellFormed() {
      && id != "" && call.id != "" && call.toolMessage != ""
      && call.owner.conversation != "" && call.owner.turn != ""
      && child.conversation != "" && child.turn != "" && knownAdapter
    }
  }

  const MAXIMUM_DEPENDENCIES := 128

  datatype GraphError = TooManyEdges | InvalidEdge | DuplicateChild | Cyclic | Disconnected

  // ---------- the shape a graph must have ----------

  /** `n` edges lead from `a` down to `b`. */
  ghost predicate Steps(edges: seq<Edge>, a: Key, b: Key, n: nat)
    decreases n
  {
    if n == 0 then a == b else exists e <- edges :: e.child == b && Steps(edges, a, e.Parent(), n - 1)
  }

  ghost predicate Reach(edges: seq<Edge>, a: Key, b: Key) {
    exists n: nat :: Steps(edges, a, b, n)
  }

  ghost predicate Below(edges: seq<Edge>, a: Key, b: Key) {
    exists n: nat :: n > 0 && Steps(edges, a, b, n)
  }

  ghost predicate DistinctChildren(edges: seq<Edge>) {
    forall i, j | 0 <= i < j < |edges| :: edges[i].child != edges[j].child
  }

  ghost predicate IsRootedTree(edges: seq<Edge>, root: Key) {
    && DistinctChildren(edges)
    && (forall e <- edges :: e.child != root)
    && (forall e <- edges :: Reach(edges, root, e.child))
  }

  ghost predicate CycleBelow(edges: seq<Edge>, root: Key) {
    exists k :: Reach(edges, root, k) && Below(edges, k, k)
  }

  function Children(edges: seq<Edge>): set<Key> {
    set e <- edges :: e.child
  }

  function Nodes(edges: seq<Edge>, root: Key): set<Key> {
    {root} + Children(edges)
  }

  /** The edges of one turn, in the order they were listed. */
  function OutEdges(edges: seq<Edge>, key: Key): (out: seq<Edge>)
    ensures forall e :: e in out <==> e in edges && e.Parent() == key
  {
    if edges == [] then [] else
      var before := OutEdges(edges[..|edges| - 1], key);
      var last := edges[|edges| - 1];
      assert edges == edges[..|edges| - 1] + [last];
      if last.Parent() == key then before + [last] else before
  }

  // ---------- facts about reachability ----------

  lemma {:induction false} StepsCompose(edges: seq<Edge>, a: Key, b: Key, c: Key, m: nat, n: nat)
    requires Steps(edges, a, b, m) && Steps(edges, b, c, n)
    ensures Steps(edges, a, c, m + n)
    decreases n
  {
    if n > 0 {
      var e :| e in edges && e.child == c && Steps(edges, b, e.Parent(), n - 1);
      StepsCompose(edges, a, b, e.Parent(), m, n - 1);
    }
  }

  lemma ReachCompose(edges: seq<Edge>, a: Key, b: Key, c: Key)
    requires Reach(edges, a, b) && Reach(edges, b, c)
    ensures Reach(edges, a, c)
    ensures Below(edges, a, b) || Below(edges, b, c) ==> Below(edges, a, c)
  {
    var m: nat :| Steps(edges, a, b, m);
    var n: nat :| Steps(edges, b, c, n);
    StepsCompose(edges, a, b, c, m, n);
    if Below(edges, a, b) {
      var k: nat :| k > 0 && Steps(edges, a, b, k);
      StepsCompose(edges, a, b, c, k, n);
    }
    if Below(edges, b, c) {
      var k: nat :| k > 0 && Steps(edges, b, c, k);
      StepsCompose(edges, a, b, c, m, k);
    }
  }

  lemma BelowIsReach(edges: seq<Edge>, a: Key, b: Key)
    ensures Below(edges, a, b) ==> Reach(edges, a, b)
    ensures Reach(edges, a, b) && a != b ==> Below(edges, a, b)
  {
  }

  lemma EdgeIsBelow(edges: seq<Edge>, e: Edge)
    requires e in edges
    ensures Below(edges, e.Parent(), e.child) && Reach(edges, e.Parent(), e.child)
  {
    assert Steps(edges, e.Parent(), e.Parent(), 0);
    assert Steps(edges, e.Parent(), e.child, 1);
  }

  lemma ReachSelf(edges: seq<Edge>, a: Key)
    ensures Reach(edges, a, a)
  {
    assert Steps(edges, a, a, 0);
  }

  lemma UniqueParent(edges: seq<Edge>, e: Edge, f: Edge)
    requires DistinctChildren(edges) && e in edges && f in edges && e.child == f.child
    ensures e == f
  {
  }

  /** A tree has no cycle below its root. */
  lemma {:induction false} TreeIsAcyclic(edges: seq<Edge>, root: Key, k: Key, n: nat)
    requires DistinctChildren(edges) && (forall e <- edges :: e.child != root)
    requires Steps(edges, root, k, n)
    ensures !Below(edges, k, k)
    decreases n
  {
    if Below(edges, k, k) {
      var m: nat :| m > 0 && Steps(edges, k, k, m);
      var last :| last in edges && last.child == k && Steps(edges, k, last.Parent(), m - 1);
      if n > 0 {
        var e :| e in edges && e.child == k && Steps(edges, root, e.Parent(), n - 1);
        UniqueParent(edges, e, last);
        var p := e.Parent();
        EdgeIsBelow(edges, e);
        assert Reach(edges, k, p);
        ReachCompose(edges, p, k, p);
        TreeIsAcyclic(edges, root, p, n - 1);
      }
    }
  }

  /** The turns strictly below `key`. */
  ghost function Descendants(edges: seq<Edge>, key: Key): set<Key> {
    set k <- Children(edges) | Below(edges, key, k)
  }

  ghost function Subtree(edges: seq<Edge>, key: Key): set<Key> {
    {key} + Descendants(edges, key)
  }

  lemma BelowIsDescendant(edges: seq<Edge>, a: Key, b: Key)
    ensures Below(edges, a, b) <==> b in Descendants(edges, a)
  {
    if Below(edges, a, b) {
      var n: nat :| n > 0 && Steps(edges, a, b, n);
      var e :| e in edges && e.child == b && Steps(edges, a, e.Parent(), n - 1);
    }
  }

  /** What lies below a child lies below its parent, and the child itself is the difference. */
  lemma ChildSubtreeShrinks(edges: seq<Edge>, root: Key, e: Edge)
    requires IsRootedTree(edges, root) && e in edges
    ensures Subtree(edges, e.child) <= Descendants(edges, e.Parent())
    ensures Descendants(edges, e.child) < Descendants(edges, e.Parent())
  {
    EdgeIsBelow(edges, e);
    forall k | k in Subtree(edges, e.child)
      ensures k in Descendants(edges, e.Parent())
    {
      if k != e.child {
        BelowIsDescendant(edges, e.child, k);
        BelowIsReach(edges, e.child, k);
        ReachCompose(edges, e.Parent(), e.child, k);
      }
      BelowIsDescendant(edges, e.Parent(), k);
    }
    var n: nat :| Steps(edges, root, e.child, n);
    TreeIsAcyclic(edges, root, e.child, n);
    BelowIsDescendant(edges, e.child, e.child);
  }

  /** Two children of one turn have disjoint subtrees. */
  lemma {:induction false} SiblingsDoNotMeet(edges: seq<Edge>, root: Key, e: Edge, f: Edge, k: Key, n: nat)
    requires IsRootedTree(edges, root) && e in edges && f in edges
    requires e.Parent() == f.Parent() && e.child != f.child
    requires Steps(edges, e.child, k, n)
    ensures !Reach(edges, f.child, k)
    decreases n
  {
    if Reach(edges, f.child, k) {
      if n == 0 {
        var m: nat :| Steps(edges, f.child, k, m);
        MeetsOnlyAboveParent(edges, root, f, e, m);
      } else {
        var x :| x in edges && x.child == k && Steps(edges, e.child, x.Parent(), n - 1);
        var m: nat :| Steps(edges, f.child, k, m);
        if m == 0 {
          MeetsOnlyAboveParent(edges, root, e, f, n);
        } else {
          var y :| y in edges && y.child == k && Steps(edges, f.child, y.Parent(), m - 1);
          UniqueParent(edges, x, y);
          SiblingsDoNotMeet(edges, root, e, f, x.Parent(), n - 1);
        }
      }
    }
  }

  /** One sibling never reaches another. */
  lemma MeetsOnlyAboveParent(edges: seq<Edge>, root: Key, e: Edge, f: Edge, m: nat)
    requires IsRootedTree(edges, root) && e in edges && f in edges
    requires e.Parent() == f.Parent() && e.child != f.child
    ensures !Steps(edges, e.child, f.child, m)
  {
    if Steps(edges, e.child, f.child, m) {
      var y :| y in edges && y.child == f.child && Steps(edges, e.child, y.Parent(), m - 1);
      UniqueParent(edges, y, f);
      EdgeIsBelow(edges, e);
      assert Reach(edges, e.child, e.Parent());
      ReachCompose(edges, e.child, e.Parent(), e.child);
      var n: nat :| Steps(edges, root, e.child, n);
      TreeIsAcyclic(edges, root, e.child, n);
    }
  }

  lemma SiblingSubtreesDisjoint(edges: seq<Edge>, root: Key, e: Edge, f: Edge)
    requires IsRootedTree(edges, root) && e in edges && f in edges
    requires e.Parent() == f.Parent() && e.child != f.child
    ensures Subtree(edges, e.child) !! Subtree(edges, f.child)
  {
    forall k | k in Subtree(edges, e.child) && k in Subtree(edges, f.child)
      ensures false
    {
      ReachSelf(edges, k);
      BelowIsDescendant(edges, e.child, k);
      BelowIsDescendant(edges, f.child, k);
      BelowIsReach(edges, e.child, k);
      BelowIsReach(edges, f.child, k);
      var n: nat :| Steps(edges, e.child, k, n);
      SiblingsDoNotMeet(edges, root, e, f, k, n);
    }
  }

  lemma {:induction false} OutEdgesDistinct(edges: seq<Edge>, key: Key)
    requires DistinctChildren(edges)
    ensures DistinctChildren(OutEdges(edges, key))
  {
    if edges != [] {
      var front := edges[..|edges| - 1];
      OutEdgesDistinct(front, key);
      forall e | e in OutEdges(front, key)
        ensures e.child != edges[|edges| - 1].child
      {
        var i :| 0 <= i < |front| && front[i] == e;
        assert edges[i] == e;
      }
    }
  }

  // ---------- the depth-first check ----------

  ghost predicate Closed(edges: seq<Edge>, keys: set<Key>) {
    forall e <- edges :: e.Parent() in keys ==> e.child in keys
  }

  /** Reading a Go map of slices: a missing key holds the empty slice. */
  function Bucket(byParent: map<Key, seq<Edge>>, k: Key): seq<Edge> {
    if k in byParent then byParent[k] else []
  }

  ghost predicate Bucketed(byParent: map<Key, seq<Edge>>, edges: seq<Edge>) {
    forall k {:trigger Bucket(byParent, k)} :: Bucket(byParent, k) == OutEdges(edges, k)
  }

  lemma BucketsGrow(edges: seq<Edge>, i: nat, byParent: map<Key, seq<Edge>>)
    requires i < |edges| && Bucketed(byParent, edges[..i])
    ensures Children(edges[..i + 1]) == Children(edges[..i]) + {edges[i].child}
    ensures var p := edges[i].Parent();
            Bucketed(byParent[p := Bucket(byParent, p) + [edges[i]]], edges[..i + 1])
  {
    var p := edges[i].Parent();
    var after := byParent[p := Bucket(byParent, p) + [edges[i]]];
    assert edges[..i + 1] == edges[..i] + [edges[i]];
    assert edges[..i + 1][..i] == edges[..i];
    forall k
      ensures Bucket(after, k) == OutEdges(edges[..i + 1], k)
    {
      assert Bucket(byParent, k) == OutEdges(edges[..i], k);
    }
  }

  lemma ChildIsListed(edges: seq<Edge>, bound: nat, k: Key)
    requires bound <= |edges|
    ensures k in Children(edges[..bound]) <==> exists j :: 0 <= j < bound && edges[j].child == k
  {
    if k in Children(edges[..bound]) {
      var f :| f in edges[..bound] && f.child == k;
      var j :| 0 <= j < bound && edges[j] == f;
    }
    if j :| 0 <= j < bound && edges[j].child == k {
      assert edges[..bound][j] == edges[j];
    }
  }

  lemma AllBelowChild(edges: seq<Edge>, keys: set<Key>, e: Edge)
    requires e in edges && forall v <- keys :: Below(edges, v, e.Parent())
    ensures forall v <- keys + {e.Parent()} :: Below(edges, v, e.child)
  {
    EdgeIsBelow(edges, e);
    forall v | v in keys
      ensures Below(edges, v, e.child)
    {
      BelowIsReach(edges, v, e.Parent());
      ReachCompose(edges, v, e.Parent(), e.child);
    }
  }

  lemma AllReachedFromParent(edges: seq<Edge>, keys: set<Key>, e: Edge)
    requires e in edges && forall k <- keys :: Reach(edges, e.child, k)
    ensures forall k <- keys :: Reach(edges, e.Parent(), k)
  {
    EdgeIsBelow(edges, e);
    forall k | k in keys
      ensures Reach(edges, e.Parent(), k)
    {
      ReachCompose(edges, e.Parent(), e.child, k);
    }
  }

  lemma CycleBelowParent(edges: seq<Edge>, e: Edge)
    requires e in edges && CycleBelow(edges, e.child)
    ensures CycleBelow(edges, e.Parent())
  {
    EdgeIsBelow(edges, e);
    var c :| Reach(edges, e.child, c) && Below(edges, c, c);
    ReachCompose(edges, e.Parent(), e.child, c);
  }

  lemma CycleAtSelf(edges: seq<Edge>, key: Key)
    requires Below(edges, key, key)
    ensures CycleBelow(edges, key)
  {
    ReachSelf(edges, key);
  }

  ghost predicate Admissible(edges: seq<Edge>) {
    (forall e <- edges :: e.WellFormed()) && DistinctChildren(edges)
  }

  /** Edge `i` is the first one refused, for this reason. */
  ghost predicate RejectedAt(edges: seq<Edge>, i: nat, reason: GraphError)
    requires i < |edges|
  {
    && Admissible(edges[..i])
    && match reason
       case InvalidEdge => !edges[i].WellFormed()
       case DuplicateChild => edges[i].WellFormed() && edges[i].child in Children(edges[..i])
       case _ => false
  }

  lemma RejectionIsFinal(edges: seq<Edge>, i: nat, reason: GraphError)
    requires i < |edges| && RejectedAt(edges, i, reason)
    ensures !Admissible(edges)
    ensures reason == InvalidEdge ==> exists e <- edges :: !e.WellFormed()
    ensures reason == DuplicateChild ==> !DistinctChildren(edges)
  {
    if reason == DuplicateChild {
      ChildIsListed(edges, i, edges[i].child);
    }
  }

  lemma AdmissibleGrows(edges: seq<Edge>, i: nat)
    requires i < |edges| && Admissible(edges[..i])
    requires edges[i].WellFormed() && edges[i].child !in Children(edges[..i])
    ensures Admissible(edges[..i + 1])
  {
    ChildIsListed(edges, i, edges[i].child);
    var all := edges[..i + 1];
    assert all == edges[..i] + [edges[i]];
    forall j, k | 0 <= j < k < |all|
      ensures all[j].child != all[k].child
    {
      if k < i {
        assert edges[..i][j].child != edges[..i][k].child;
      }
    }
  }

  class Validation {
    const edges: seq<Edge>
    const root: Key
    var byParent: map<Key, seq<Edge>>
    var byChild: map<Key, Edge>
    var visiting: set<Key>
    var visited: set<Key>

    constructor (edges: seq<Edge>, root: Key)
      ensures this.edges == edges && this.root == root
      ensures byParent == map[] && byChild == map[] && visiting == {} && visited == {}
    {
      this.edges, this.root := edges, root;
      byParent, byChild, visiting, visited := map[], map[], {}, {};
    }

    ghost predicate Indexed(bound: nat)
      requires bound <= |edges|
      reads this
    {
      && byChild.Keys == Children(edges[..bound])
      && Bucketed(byParent, edges[..bound])
    }

    /** Fills the two indexes, or reports the first edge that cannot be admitted. */
    method Index() returns (r: Result<(), GraphError>)
      requires Indexed(0)
      modifies this`byParent, this`byChild
      ensures r.Ok? ==> Indexed(|edges|) && Admissible(edges)
      ensures r.Err? ==> exists i :: 0 <= i < |edges| && RejectedAt(edges, i, r.error)
    {
      var i := 0;
      while i < |edges|
        invariant 0 <= i <= |edges|
        invariant Indexed(i)
        invariant Admissible(edges[..i])
      {
        var e := edges[i];
        if !e.WellFormed() {
          assert RejectedAt(edges, i, InvalidEdge);
          return Err(InvalidEdge);
        }
        if e.child in byChild {
          assert RejectedAt(edges, i, DuplicateChild);
          return Err(DuplicateChild);
        }
        BucketsGrow(edges, i, byParent);
        AdmissibleGrows(edges, i);
        byChild := byChild[e.child := e];
        byParent := byParent[e.Parent() := Bucket(byParent, e.Parent()) + [e]];
        i := i + 1;
      }
      assert edges[..|edges|] == edges;
      return Ok(());
    }

    method Visit(key: Key) returns (ok: bool)
      requires Indexed(|edges|)
      requires key in Nodes(edges, root)
      requires visiting !! visited && Closed(edges, visited)
      requires forall v <- visiting :: Below(edges, v, key)
      modifies this`visiting, this`visited
      ensures ok ==> visiting == old(visiting) && visiting !! visited && Closed(edges, visited)
      ensures ok ==> old(visited) + {key} <= visited <= old(visited) + Nodes(edges, root)
      ensures ok ==> forall k <- visited - old(visited) :: Reach(edges, key, k)
      ensures !ok ==> CycleBelow(edges, key)
      decreases Nodes(edges, root) - visiting - visited
    {
      hide Reach, Below, CycleBelow, OutEdges;
      ReachSelf(edges, key);
      if key in visiting {
        CycleAtSelf(edges, key);
        return false;
      }
      if key in visited {
        return true;
      }
      visiting := visiting + {key};
      assert edges[..|edges|] == edges;
      var out := Bucket(byParent, key);
      assert out == OutEdges(edges, key);
      var i := 0;
      while i < |out|
        invariant 0 <= i <= |out|
        invariant visiting == old(visiting) + {key} && visiting !! visited
        invariant Closed(edges, visited)
        invariant old(visited) <= visited <= old(visited) + Nodes(edges, root)
        invariant forall k | 0 <= k < i :: out[k].child in visited
        invariant forall k <- visited - old(visited) :: Reach(edges, key, k)
      {
        var e := out[i];
        assert e in out;
        AllBelowChild(edges, old(visiting), e);
        ghost var before := visited;
        assert key in Nodes(edges, root) - old(visiting) - old(visited);
        ok := Visit(e.child);
        if !ok {
          CycleBelowParent(edges, e);
          return false;
        }
        AllReachedFromParent(edges, visited - before, e);
        i := i + 1;
      }
      visiting := visiting - {key};
      visited := visited + {key};
      return true;
    }
  }

  /** Everything the graph function checks before it resumes anything. */
  method Validate(edges: seq<Edge>, root: Key) returns (r: Result<(), GraphError>)
    ensures r.Ok? <==> |edges| <= MAXIMUM_DEPENDENCIES && (forall e <- edges :: e.WellFormed()) && IsRootedTree(edges, root)
    ensures r == Err(TooManyEdges) <==> |edges| > MAXIMUM_DEPENDENCIES
    ensures r == Err(InvalidEdge) ==> exists e <- edges :: !e.WellFormed()
    ensures r == Err(DuplicateChild) ==> !DistinctChildren(edges)
    ensures r == Err(Cyclic) ==> CycleBelow(edges, root)
    ensures r == Err(Disconnected) ==> exists e <- edges :: e.child == root || !Reach(edges, root, e.child)
  {
    if |edges| > MAXIMUM_DEPENDENCIES {
      return Err(TooManyEdges);
    }
    var v := new Validation(edges, root);
    assert edges[..0] == [];
    r := v.Index();
    if r.Err? {
      ghost var i :| 0 <= i < |edges| && RejectedAt(edges, i, r.error);
      RejectionIsFinal(edges, i, r.error);
      return;
    }
    var ok := v.Visit(root);
    if !ok {
      CycleIsNoTree(edges, root);
      return Err(Cyclic);
    }
    if |v.visited| != |v.byChild| + 1 {
      assert edges[..|edges|] == edges;
      CountDetectsDisconnection(edges, root, v.visited);
      return Err(Disconnected);
    }
    assert edges[..|edges|] == edges;
    CountProvesTree(edges, root, v.visited);
    return Ok(());
  }

  lemma CycleIsNoTree(edges: seq<Edge>, root: Key)
    requires CycleBelow(edges, root)
    ensures !IsRootedTree(edges, root)
  {
    if IsRootedTree(edges, root) {
      var k :| Reach(edges, root, k) && Below(edges, k, k);
      var n: nat :| Steps(edges, root, k, n);
      TreeIsAcyclic(edges, root, k, n);
    }
  }

  lemma SubsetCount<T>(a: set<T>, b: set<T>)
    requires a <= b
    ensures |a| <= |b|
    ensures |a| == |b| ==> a == b
  {
    assert b == a + (b - a);
  }

  /** The count test: a search that found one turn more than there are children found the
      root and all of them. */
  lemma CountProvesTree(edges: seq<Edge>, root: Key, found: set<Key>)
    requires DistinctChildren(edges)
    requires root in found && found <= Nodes(edges, root)
    requires forall k <- found :: Reach(edges, root, k)
    requires |found| == |Children(edges)| + 1
    ensures IsRootedTree(edges, root)
  {
    if root in Children(edges) {
      assert Nodes(edges, root) == Children(edges);
      SubsetCount(found, Children(edges));
    }
    SubsetCount(found, Nodes(edges, root));
    forall e | e in edges
      ensures e.child != root && Reach(edges, root, e.child)
    {
      assert e.child in Children(edges);
    }
  }

  lemma CountDetectsDisconnection(edges: seq<Edge>, root: Key, found: set<Key>)
    requires root in found && found <= Nodes(edges, root) && Closed(edges, found)
    requires |found| != |Children(edges)| + 1
    ensures exists e <- edges :: e.child == root || !Reach(edges, root, e.child)
  {
    if root in Children(edges) {
      var e :| e in edges && e.child == root;
    } else if forall e <- edges :: Reach(edges, root, e.child) {
      forall k | k in Nodes(edges, root)
        ensures k in found
      {
        if k != root {
          var e :| e in edges && e.child == k;
          var n: nat :| Steps(edges, root, k, n);
          ClosedHoldsReach(edges, root, k, n, found);
        }
      }
      assert found == Nodes(edges, root);
    }
  }

  lemma {:induction false} ClosedHoldsReach(edges: seq<Edge>, a: Key, b: Key, n: nat, keys: set<Key>)
    requires Closed(edges, keys) && a in keys && Steps(edges, a, b, n)
    ensures b in keys
    decreases n
  {
    if n > 0 {
      var e :| e in edges && e.child == b && Steps(edges, a, e.Parent(), n - 1);
      ClosedHoldsReach(edges, a, e.Parent(), n - 1, keys);
    }
  }
}
