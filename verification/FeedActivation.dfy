/** The feed lifecycle frontier of sdk/agui_feed_activation.go.

    Facts about one feed are only partially ordered: by a genuine timestamp, or by the
    sequence numbers of one run's journal.  The observer keeps the undominated facts and
    reports the feed as active or inactive only when they all agree. */
module FeedActivation {
  import opened Common

  datatype Origin = Origin(runId: string, sequence: int)

  /** `at` counts from Go's zero time, so 0 is exactly the undated fact. */
  datatype Fact = Fact(active: bool, at: int, origin: Option<Origin>,
                       journal: Option<Origin>, inherited: bool)

  datatype Relation = Before | Same | After | Unordered

  function Compare(left: Fact, right: Fact): Relation {
    if left.at != 0 && right.at != 0 && left.at != right.at then
      if left.at < right.at then Before else After
    else if (left.at == 0) != (right.at == 0) then
      Unordered
    else if && left.origin.Some? && right.origin.Some?
            && left.origin.value.runId == right.origin.value.runId
            && left.origin.value.sequence != right.origin.value.sequence then
      if left.origin.value.sequence < right.origin.value.sequence then Before else After
    else if left.active == right.active && left.at == right.at && left.origin == right.origin then
      Same
    else
      Unordered
  }

  /** What a fact says, without where it was found. */
  datatype Evidence = Evidence(active: bool, at: int, origin: Option<Origin>)

  function EvidenceOf(f: Fact): Evidence {
    Evidence(f.active, f.at, f.origin)
  }

  ghost predicate BelowOrSame(f: Fact, g: Fact) {
    Compare(f, g) == Before || Compare(f, g) == Same
  }

  /** The comparison is a strict partial order whose equivalence is equality of evidence,
      and the order cannot tell equivalent facts apart. */
  lemma CompareIsStrictPartialOrder(a: Fact, b: Fact, c: Fact)
    ensures Compare(a, a) == Same
    ensures Compare(a, b) == Before <==> Compare(b, a) == After
    ensures Compare(a, b) == Same <==> EvidenceOf(a) == EvidenceOf(b)
    ensures Compare(a, b) == Before && Compare(b, c) == Before ==> Compare(a, c) == Before
    ensures Compare(a, b) == Same ==> Compare(a, c) == Compare(b, c) && Compare(c, a) == Compare(c, b)
  {
  }

  // ---------- the frontier ----------

  ghost predicate Maximal(f: Fact, seen: set<Fact>) {
    f in seen && forall g <- seen :: Compare(f, g) != Before
  }

  /** Some listed fact carries the evidence of `g`. */
  ghost predicate Represented(frontier: seq<Fact>, g: Fact) {
    exists i :: 0 <= i < |frontier| && EvidenceOf(frontier[i]) == EvidenceOf(g)
  }

  /** Some listed fact is at or above `g`. */
  ghost predicate Covered(frontier: seq<Fact>, g: Fact) {
    exists i :: 0 <= i < |frontier| && BelowOrSame(g, frontier[i])
  }

  /** `frontier` is exactly the set of maximal facts of `seen`, one per evidence. */
  ghost predicate IsFrontier(frontier: seq<Fact>, seen: set<Fact>) {
    && (forall i | 0 <= i < |frontier| :: Maximal(frontier[i], seen))
    && (forall g {:trigger Represented(frontier, g)} | Maximal(g, seen) :: Represented(frontier, g))
    && (forall i, j | 0 <= i < j < |frontier| :: EvidenceOf(frontier[i]) != EvidenceOf(frontier[j]))
  }

  /** Every observed fact lies below some frontier fact. */
  ghost predicate Covers(frontier: seq<Fact>, seen: set<Fact>) {
    forall g {:trigger Covered(frontier, g)} | g in seen :: Covered(frontier, g)
  }

  /** What an observer may conclude from a set of facts, stated on the maximal facts alone:
      a value only when they agree, the latest of their dates, an origin only when there is
      a single piece of maximal evidence. */
  datatype View = View(active: Option<bool>, at: int, origin: Option<Origin>)

  ghost predicate Top(e: Evidence, seen: set<Fact>) {
    exists f :: Maximal(f, seen) && EvidenceOf(f) == e
  }

  ghost predicate Agreed(seen: set<Fact>, value: bool) {
    seen != {} && forall e | Top(e, seen) :: e.active == value
  }

  ghost predicate Single(seen: set<Fact>, e: Evidence) {
    Top(e, seen) && forall other | Top(other, seen) :: other == e
  }

  ghost predicate Latest(seen: set<Fact>, at: int) {
    && at >= 0
    && (forall e | Top(e, seen) :: e.at <= at)
    && (at == 0 || exists e :: Top(e, seen) && e.at == at)
  }

  ghost predicate Concludes(seen: set<Fact>, v: View) {
    && (forall b: bool :: v.active == Some(b) <==> Agreed(seen, b))
    && (if v.active.Some? then Latest(seen, v.at) else v.at == 0)
    && (v.origin.Some? <==> exists e :: Single(seen, e) && e.origin.Some?)
    && (forall e | Single(seen, e) :: v.origin == e.origin)
  }

  // ---------- the observer ----------

  class Activation {
    var active: Option<bool>
    var at: int
    var origin: Option<Origin>
    var frontier: seq<Fact>
    ghost var seen: set<Fact>

    ghost predicate Valid()
      reads this
    {
      && IsFrontier(frontier, seen)
      && Covers(frontier, seen)
      && Concludes(seen, View(active, at, origin))
    }

    constructor ()
      ensures Valid() && seen == {}
    {
      active, at, origin, frontier, seen := None, 0, None, [], {};
    }

    method Observe(fact: Fact)
      requires Valid()
      modifies this
      ensures Valid() && seen == old(seen) + {fact}
    {
      hide IsFrontier, Covers, Concludes, Filtered, Compare;
      var next: seq<Fact> := [];
      NothingFiltered(frontier, fact);
      ghost var kept: seq<nat> := [];
      var i := 0;
      while i < |frontier|
        invariant 0 <= i <= |frontier|
        invariant unchanged(this)
        invariant Filtered(frontier, fact, next, kept, i)
      {
        var relation := Compare(fact, frontier[i]);
        if relation == Before || relation == Same {
          seen := seen + {fact};
          AbsorbKeepsConclusion(frontier, old(seen), fact, i, View(active, at, origin));
          return;
        }
        FilterStep(frontier, fact, next, kept, i);
        if relation != After {
          next := next + [frontier[i]];
          kept := kept + [i];
        }
        i := i + 1;
      }
      ReplaceKeepsFrontier(frontier, seen, next, kept, fact);
      next := next + [fact];
      frontier := next;
      seen := seen + {fact};
      Summarize();
    }

    /** The tail of `observe`: the reported fields, from a frontier just rewritten. */
    method Summarize()
      requires frontier != [] && IsFrontier(frontier, seen) && Covers(frontier, seen)
      modifies this
      ensures frontier == old(frontier) && seen == old(seen)
      ensures Concludes(seen, View(active, at, origin))
    {
      active, at, origin := None, 0, None;
      var first := frontier[0].active;
      var i := 0;
      while i < |frontier|
        invariant 0 <= i <= |frontier|
        invariant frontier == old(frontier) && seen == old(seen)
        invariant active.None? && origin.None?
        invariant at >= 0
        invariant forall k | 0 <= k < i :: frontier[k].active == first && frontier[k].at <= at
        invariant at == 0 || exists k :: 0 <= k < i && frontier[k].at == at
      {
        if frontier[i].active != first {
          at := 0;
          DisagreementConcludes(frontier, seen, i);
          return;
        }
        if frontier[i].at > at {
          at := frontier[i].at;
        }
        i := i + 1;
      }
      active := Some(first);
      if |frontier| == 1 && frontier[0].origin.Some? {
        origin := frontier[0].origin;
      }
      AgreementConcludes(frontier, seen, View(active, at, origin));
    }
  }

  /** `recoverAGUIFeedActivation`, after the facts have been read and validated. */
  method Recover(facts: seq<Fact>) returns (state: Activation)
    ensures fresh(state) && state.Valid()
    ensures state.seen == set f <- facts
  {
    hide IsFrontier, Covers, Concludes;
    state := new Activation();
    for i := 0 to |facts|
      invariant fresh(state) && state.Valid()
      invariant state.seen == set f <- facts[..i]
    {
      state.Observe(facts[i]);
      assert facts[..i + 1] == facts[..i] + [facts[i]];
    }
    assert facts[..|facts|] == facts;
  }

  // ---------- order independence ----------

  ghost predicate Shown(e: Evidence, seen: set<Fact>) {
    exists f :: f in seen && EvidenceOf(f) == e
  }

  /** The conclusion depends on the evidence observed and on nothing else: not on the order,
      the multiplicity or the journal position of the facts. */
  lemma ConclusionIsOrderIndependent(s1: set<Fact>, s2: set<Fact>, v1: View, v2: View)
    requires forall e :: Shown(e, s1) <==> Shown(e, s2)
    requires Concludes(s1, v1) && Concludes(s2, v2)
    ensures v1 == v2
  {
    assert s1 == {} <==> s2 == {} by {
      if f :| f in s1 { assert Shown(EvidenceOf(f), s2); }
      if f :| f in s2 { assert Shown(EvidenceOf(f), s1); }
    }
    forall e
      ensures Top(e, s1) <==> Top(e, s2)
    {
      if Top(e, s1) { TopIsShared(e, s1, s2); }
      if Top(e, s2) { TopIsShared(e, s2, s1); }
    }
    SameConclusion(s1, s2, v1);
    ConclusionIsUnique(s2, v1, v2);
  }

  ghost predicate Listed(e: Evidence, facts: seq<Fact>) {
    exists i :: 0 <= i < |facts| && EvidenceOf(facts[i]) == e
  }

  /** Recovering any two fact lists with the same evidence ends in the same report; permuting
      or repeating facts is the special case of lists with the same elements. */
  lemma RecoveredViewsAgree(xs: seq<Fact>, ys: seq<Fact>, v1: View, v2: View)
    requires forall e :: Listed(e, xs) <==> Listed(e, ys)
    requires Concludes((set x <- xs), v1) && Concludes((set y <- ys), v2)
    ensures v1 == v2
  {
    var s1, s2 := (set x <- xs), (set y <- ys);
    forall e
      ensures Shown(e, s1) <==> Shown(e, s2)
    {
      ListedIsShown(e, xs);
      ListedIsShown(e, ys);
    }
    ConclusionIsOrderIndependent(s1, s2, v1, v2);
  }

  lemma ListedIsShown(e: Evidence, xs: seq<Fact>)
    ensures Listed(e, xs) <==> Shown(e, (set x <- xs))
  {
    if i :| 0 <= i < |xs| && EvidenceOf(xs[i]) == e {
      assert xs[i] in (set x <- xs);
    }
  }

  lemma TopIsShared(e: Evidence, s1: set<Fact>, s2: set<Fact>)
    requires forall o :: Shown(o, s1) <==> Shown(o, s2)
    requires Top(e, s1)
    ensures Top(e, s2)
  {
    var f :| Maximal(f, s1) && EvidenceOf(f) == e;
    assert Shown(e, s1);
    var g :| g in s2 && EvidenceOf(g) == e;
    forall h | h in s2
      ensures Compare(g, h) != Before
    {
      assert Shown(EvidenceOf(h), s2);
      var k :| k in s1 && EvidenceOf(k) == EvidenceOf(h);
      assert Compare(f, k) != Before;
    }
    assert Maximal(g, s2);
  }

  lemma SameConclusion(s1: set<Fact>, s2: set<Fact>, v: View)
    requires s1 == {} <==> s2 == {}
    requires forall e :: Top(e, s1) <==> Top(e, s2)
    requires Concludes(s1, v)
    ensures Concludes(s2, v)
  {
    forall b: bool ensures Agreed(s1, b) <==> Agreed(s2, b) {}
    forall e ensures Single(s1, e) <==> Single(s2, e) {}
  }

  lemma ConclusionIsUnique(seen: set<Fact>, v: View, w: View)
    requires Concludes(seen, v) && Concludes(seen, w)
    ensures v == w
  {
    if v.active.Some? { assert Agreed(seen, v.active.value); }
    if w.active.Some? { assert Agreed(seen, w.active.value); }
    if v.origin.Some? { var e :| Single(seen, e) && e.origin.Some?; }
    if w.origin.Some? { var e :| Single(seen, e) && e.origin.Some?; }
  }

  // ---------- proof steps of Observe ----------

  /** `next` lists, in order, the elements of `all[..bound]` at the indices `kept`. */
  ghost predicate Subsequence(next: seq<Fact>, all: seq<Fact>, kept: seq<nat>, bound: nat) {
    && |kept| == |next|
    && (forall k | 0 <= k < |kept| :: kept[k] < bound && kept[k] < |all| && next[k] == all[kept[k]])
    && (forall j, k | 0 <= j < k < |kept| :: kept[j] < kept[k])
  }

  /** The facts of `frontier[..bound]`, none of them at or above `fact`, without those below it. */
  ghost predicate Filtered(frontier: seq<Fact>, fact: Fact, next: seq<Fact>, kept: seq<nat>, bound: nat)
    requires bound <= |frontier|
  {
    && (forall k | 0 <= k < bound :: !BelowOrSame(fact, frontier[k]))
    && Subsequence(next, frontier, kept, bound)
    && (forall k | 0 <= k < |next| :: Compare(fact, next[k]) != After)
    && (forall k | 0 <= k < bound :: Compare(fact, frontier[k]) == After || frontier[k] in next)
  }

  lemma NothingFiltered(frontier: seq<Fact>, fact: Fact)
    ensures Filtered(frontier, fact, [], [], 0)
  {
  }

  lemma FilterStep(frontier: seq<Fact>, fact: Fact, next: seq<Fact>, kept: seq<nat>, i: nat)
    requires i < |frontier| && Filtered(frontier, fact, next, kept, i) && !BelowOrSame(fact, frontier[i])
    ensures if Compare(fact, frontier[i]) == After then Filtered(frontier, fact, next, kept, i + 1)
            else Filtered(frontier, fact, next + [frontier[i]], kept + [i], i + 1)
  {
    hide Compare;
    var more := next + [frontier[i]];
    assert more[|next|] == frontier[i];
    assert forall x | x in next :: x in more;
  }

  /** A fact below a frontier fact changes nothing. */
  lemma AbsorbKeepsFrontier(frontier: seq<Fact>, seen: set<Fact>, fact: Fact, at: nat)
    requires IsFrontier(frontier, seen) && Covers(frontier, seen)
    requires at < |frontier| && BelowOrSame(fact, frontier[at])
    ensures IsFrontier(frontier, seen + {fact}) && Covers(frontier, seen + {fact})
  {
    var more := seen + {fact};
    forall i | 0 <= i < |frontier|
      ensures Maximal(frontier[i], more)
    {
      assert Maximal(frontier[i], seen);
      assert frontier[at] in seen;
      CompareIsStrictPartialOrder(frontier[i], fact, frontier[at]);
    }
    forall g | Maximal(g, more)
      ensures Represented(frontier, g)
    {
      assert Maximal(frontier[at], more);
      if g == fact {
        assert EvidenceOf(frontier[at]) == EvidenceOf(g);
      } else {
        assert Maximal(g, seen) && Represented(frontier, g);
      }
    }
    forall g | g in more
      ensures Covered(frontier, g)
    {
      assert g in seen ==> Covered(frontier, g);
    }
  }

  lemma AbsorbKeepsConclusion(frontier: seq<Fact>, seen: set<Fact>, fact: Fact, at: nat, v: View)
    requires IsFrontier(frontier, seen) && Covers(frontier, seen) && Concludes(seen, v)
    requires at < |frontier| && BelowOrSame(fact, frontier[at])
    ensures IsFrontier(frontier, seen + {fact}) && Covers(frontier, seen + {fact})
    ensures Concludes(seen + {fact}, v)
  {
    AbsorbKeepsFrontier(frontier, seen, fact, at);
    TopsAreListed(frontier, seen);
    TopsAreListed(frontier, seen + {fact});
    assert Maximal(frontier[at], seen);
    SameConclusion(seen, seen + {fact}, v);
  }

  /** A fact below no frontier fact joins it, and the facts below it leave. */
  lemma ReplaceKeepsFrontier(frontier: seq<Fact>, seen: set<Fact>, next: seq<Fact>, kept: seq<nat>, fact: Fact)
    requires IsFrontier(frontier, seen) && Covers(frontier, seen)
    requires Filtered(frontier, fact, next, kept, |frontier|)
    ensures IsFrontier(next + [fact], seen + {fact}) && Covers(next + [fact], seen + {fact})
  {
    var more, all := seen + {fact}, next + [fact];
    FreshIsMaximal(frontier, seen, fact);
    forall i | 0 <= i < |all|
      ensures Maximal(all[i], more)
    {
      if i < |next| {
        assert Maximal(frontier[kept[i]], seen);
        CompareIsStrictPartialOrder(next[i], fact, fact);
      }
    }
    forall g | g in more
      ensures Covered(all, g)
    {
      CompareIsStrictPartialOrder(fact, fact, fact);
      assert all[|next|] == fact;
      if g != fact {
        assert Covered(frontier, g);
        var k :| 0 <= k < |frontier| && BelowOrSame(g, frontier[k]);
        if Compare(fact, frontier[k]) == After {
          CompareIsStrictPartialOrder(g, frontier[k], fact);
          CompareIsStrictPartialOrder(frontier[k], fact, fact);
        } else {
          var j :| 0 <= j < |next| && next[j] == frontier[k];
          assert all[j] == frontier[k];
        }
      }
    }
    forall g | Maximal(g, more)
      ensures Represented(all, g)
    {
      assert Covered(all, g);
      var i :| 0 <= i < |all| && BelowOrSame(g, all[i]);
      assert all[i] in more;
      CompareIsStrictPartialOrder(g, all[i], all[i]);
    }
    forall i, j | 0 <= i < j < |all|
      ensures EvidenceOf(all[i]) != EvidenceOf(all[j])
    {
      if j == |next| {
        CompareIsStrictPartialOrder(fact, frontier[kept[i]], fact);
      } else {
        assert kept[i] < kept[j];
      }
    }
  }

  lemma FreshIsMaximal(frontier: seq<Fact>, seen: set<Fact>, fact: Fact)
    requires Covers(frontier, seen)
    requires forall k | 0 <= k < |frontier| :: !BelowOrSame(fact, frontier[k])
    ensures Maximal(fact, seen + {fact})
  {
    CompareIsStrictPartialOrder(fact, fact, fact);
    forall g | g in seen
      ensures Compare(fact, g) != Before
    {
      assert Covered(frontier, g);
      var k :| 0 <= k < |frontier| && BelowOrSame(g, frontier[k]);
      CompareIsStrictPartialOrder(fact, g, frontier[k]);
      CompareIsStrictPartialOrder(g, frontier[k], fact);
    }
  }

  /** On a frontier, the maximal evidence is what the list shows. */
  lemma TopsAreListed(frontier: seq<Fact>, seen: set<Fact>)
    requires IsFrontier(frontier, seen)
    ensures forall e :: Top(e, seen) <==> exists i :: 0 <= i < |frontier| && EvidenceOf(frontier[i]) == e
  {
    forall e
      ensures Top(e, seen) <==> exists i :: 0 <= i < |frontier| && EvidenceOf(frontier[i]) == e
    {
      if Top(e, seen) {
        var f :| Maximal(f, seen) && EvidenceOf(f) == e;
        assert Represented(frontier, f);
      }
      if i :| 0 <= i < |frontier| && EvidenceOf(frontier[i]) == e {
        assert Maximal(frontier[i], seen);
      }
    }
  }

  lemma DisagreementConcludes(frontier: seq<Fact>, seen: set<Fact>, i: nat)
    requires IsFrontier(frontier, seen)
    requires i < |frontier| && frontier[i].active != frontier[0].active
    ensures Concludes(seen, View(None, 0, None))
  {
    assert Maximal(frontier[0], seen) && Maximal(frontier[i], seen);
    assert Top(EvidenceOf(frontier[0]), seen) && Top(EvidenceOf(frontier[i]), seen);
    forall e ensures !Single(seen, e) {}
  }

  lemma AgreementConcludes(frontier: seq<Fact>, seen: set<Fact>, v: View)
    requires IsFrontier(frontier, seen) && frontier != []
    requires v.active == Some(frontier[0].active) && v.at >= 0
    requires forall k | 0 <= k < |frontier| :: frontier[k].active == frontier[0].active && frontier[k].at <= v.at
    requires v.at == 0 || exists k :: 0 <= k < |frontier| && frontier[k].at == v.at
    requires v.origin == if |frontier| == 1 then frontier[0].origin else None
    ensures Concludes(seen, v)
  {
    TopsAreListed(frontier, seen);
    assert Maximal(frontier[0], seen);
    assert Top(EvidenceOf(frontier[0]), seen);
    assert Agreed(seen, frontier[0].active);
    if v.at != 0 {
      var k :| 0 <= k < |frontier| && frontier[k].at == v.at;
      assert Top(EvidenceOf(frontier[k]), seen);
    }
    if |frontier| == 1 {
      assert Single(seen, EvidenceOf(frontier[0]));
    } else {
      assert Top(EvidenceOf(frontier[1]), seen);
      assert EvidenceOf(frontier[0]) != EvidenceOf(frontier[1]);
      forall e ensures !Single(seen, e) {}
    }
  }
}
