/** Runs of vertices and edges matched as paths mean the same as matched one by one. */
module PlanningPaths {
  import opened Base
  import opened RefsAlgebra
  import opened Plans
  import opened Semantics
  import opened RefTracking
  import opened Dependencies
  import opened Mentions
  import opened Unfolding
  import opened Specialization

  // --------------------------------------------------------------------------
  // Meaning of concatenations
  // --------------------------------------------------------------------------

  ghost function StepsThen(g: Graph, s: set<Body>, b: seq<Step>): set<Body> {
    set h, q, t | h in s && q in h.content.ends && t in SemSteps(g, b, q, h.refs) :: Join(h, t)
  }

  lemma {:induction false} StepsAppend(g: Graph, a: seq<Step>, b: seq<Step>, pos: Position, refs: Refs)
    ensures SemSteps(g, a + b, pos, refs) == StepsThen(g, SemSteps(g, a, pos, refs), b)
    decreases |a|
  {
    if a == [] {
      assert a + b == b;
      var top := EmptyAt(pos, refs);
      forall t | t in SemSteps(g, b, pos, refs) ensures Join(top, t) == t { JoinEmpty(pos, refs, t); }
      assert StepsThen(g, {top}, b) == SemSteps(g, b, pos, refs) by {
        forall t | t in SemSteps(g, b, pos, refs) ensures t in StepsThen(g, {top}, b) {
          assert top in {top} && pos in top.content.ends;
        }
      }
    } else {
      assert (a + b)[0] == a[0] && (a + b)[1..] == a[1..] + b;
      match a[0]
      case VertexStep(m) =>
        var matched := VertexMatch(g, m, pos, refs);
        if matched.Some? {
          StepsAppend(g, a[1..], b, pos.WithKind(ORBIT), matched.value);
          var h := Body(Content({}, {pos.v}, {}), refs);
          ThenAfter(g, h, SemSteps(g, a[1..], pos.WithKind(ORBIT), matched.value), b);
        }
      case EdgeStep(m) =>
        forall hop | hop in Hops(g, m, pos)
          ensures SemSteps(g, a[1..] + b, Position(hop.to, CORE), refs) ==
              StepsThen(g, SemSteps(g, a[1..], Position(hop.to, CORE), refs), b)
        {
          StepsAppend(g, a[1..], b, Position(hop.to, CORE), refs);
        }
        EdgeAppend(g, m, a[1..], b, pos, refs);
    }
  }

  lemma ThenAfter(g: Graph, h: Body, s: set<Body>, b: seq<Step>)
    ensures After(h, StepsThen(g, s, b)) == StepsThen(g, After(h, s), b)
  {
    hide SemSteps;
    forall x | x in After(h, StepsThen(g, s, b)) ensures x in StepsThen(g, After(h, s), b) {
      var u :| u in StepsThen(g, s, b) && x == Join(h, u);
      var k, q, t :| k in s && q in k.content.ends && t in SemSteps(g, b, q, k.refs) && u == Join(k, t);
      JoinIsAssociative(h, k, t);
      assert Join(h, k) in After(h, s);
    }
    forall x | x in StepsThen(g, After(h, s), b) ensures x in After(h, StepsThen(g, s, b)) {
      var j, q, t :| j in After(h, s) && q in j.content.ends && t in SemSteps(g, b, q, j.refs) && x == Join(j, t);
      var k :| k in s && j == Join(h, k);
      JoinIsAssociative(h, k, t);
      assert Join(k, t) in StepsThen(g, s, b);
    }
  }

  lemma EdgeAppend(g: Graph, m: MatchEdge, rest: seq<Step>, b: seq<Step>, pos: Position, refs: Refs)
    requires forall hop :: hop in Hops(g, m, pos) ==>
      SemSteps(g, rest + b, Position(hop.to, CORE), refs) ==
          StepsThen(g, SemSteps(g, rest, Position(hop.to, CORE), refs), b)
    ensures SemSteps(g, [EdgeStep(m)] + (rest + b), pos, refs) ==
        StepsThen(g, SemSteps(g, [EdgeStep(m)] + rest, pos, refs), b)
  {
    var all, some := SemSteps(g, [EdgeStep(m)] + (rest + b), pos, refs), SemSteps(g, [EdgeStep(m)] + rest, pos, refs);
    assert ([EdgeStep(m)] + (rest + b))[1..] == rest + b && ([EdgeStep(m)] + rest)[1..] == rest;
    assert all == set hop, t | hop in Hops(g, m, pos) &&
        t in SemSteps(g, rest + b, Position(hop.to, CORE), refs) :: Join(HopBody(hop, refs), t);
    assert some == set hop, t | hop in Hops(g, m, pos) &&
        t in SemSteps(g, rest, Position(hop.to, CORE), refs) :: Join(HopBody(hop, refs), t);
    hide SemSteps, Hops;
    forall x | x in all ensures x in StepsThen(g, some, b) {
      var hop, u :| hop in Hops(g, m, pos) && u in SemSteps(g, rest + b, Position(hop.to, CORE), refs) &&
          x == Join(HopBody(hop, refs), u);
      var s := SemSteps(g, rest, Position(hop.to, CORE), refs);
      ThenAfter(g, HopBody(hop, refs), s, b);
      assert x in After(HopBody(hop, refs), StepsThen(g, s, b));
      assert After(HopBody(hop, refs), s) <= some;
    }
    forall x | x in StepsThen(g, some, b) ensures x in all {
      var j, q, t :| j in some && q in j.content.ends && t in SemSteps(g, b, q, j.refs) && x == Join(j, t);
      var hop, k :| hop in Hops(g, m, pos) && k in SemSteps(g, rest, Position(hop.to, CORE), refs) &&
          j == Join(HopBody(hop, refs), k);
      JoinIsAssociative(HopBody(hop, refs), k, t);
      assert Join(k, t) in StepsThen(g, SemSteps(g, rest, Position(hop.to, CORE), refs), b);
    }
  }

  lemma {:induction false} ConcatAppend(w: World, a: seq<Plan>, b: seq<Plan>, pos: Position, refs: Refs)
    requires a != [] && b != []
    ensures SemConcat(w, a + b, pos, refs) == ConcatThen(w, SemConcat(w, a, pos, refs), b)
    decreases |a|
  {
    hide Sem, SemConcat;
    ConcatUnfold(w, a + b, pos, refs);
    ConcatUnfold(w, a, pos, refs);
    assert (a + b)[0] == a[0] && (a + b)[1..] == a[1..] + b;
    var s := Sem(w, a[0], pos, refs);
    if |a| == 1 {
      assert a[1..] + b == b;
    } else {
      forall h, q | h in s && q in h.content.ends
        ensures SemConcat(w, a[1..] + b, q, h.refs) == ConcatThen(w, SemConcat(w, a[1..], q, h.refs), b)
      {
        ConcatAppend(w, a[1..], b, q, h.refs);
      }
      ThenTwice(w, s, a[1..], b);
    }
  }

  lemma ThenTwice(w: World, s: set<Body>, a: seq<Plan>, b: seq<Plan>)
    requires forall h, q :: h in s && q in h.content.ends ==>
      SemConcat(w, a + b, q, h.refs) == ConcatThen(w, SemConcat(w, a, q, h.refs), b)
    ensures ConcatThen(w, s, a + b) == ConcatThen(w, ConcatThen(w, s, a), b)
  {
    hide SemConcat;
    forall x | x in ConcatThen(w, s, a + b) ensures x in ConcatThen(w, ConcatThen(w, s, a), b) {
      var h, q, u :| h in s && q in h.content.ends && u in SemConcat(w, a + b, q, h.refs) && x == Join(h, u);
      var k, r, t :| k in SemConcat(w, a, q, h.refs) && r in k.content.ends && t in SemConcat(w, b, r, k.refs) &&
          u == Join(k, t);
      JoinIsAssociative(h, k, t);
      assert Join(h, k) in ConcatThen(w, s, a);
    }
    forall x | x in ConcatThen(w, ConcatThen(w, s, a), b) ensures x in ConcatThen(w, s, a + b) {
      var j, r, t :| j in ConcatThen(w, s, a) && r in j.content.ends && t in SemConcat(w, b, r, j.refs) &&
          x == Join(j, t);
      var h, q, k :| h in s && q in h.content.ends && k in SemConcat(w, a, q, h.refs) && j == Join(h, k);
      JoinIsAssociative(h, k, t);
      assert Join(k, t) in ConcatThen(w, SemConcat(w, a, q, h.refs), b);
    }
  }

  // --------------------------------------------------------------------------
  // Plans that are steps
  // --------------------------------------------------------------------------

  // The steps of a vertex, an edge or a path.
  ghost function StepsOf(p: Plan): Option<seq<Step>> {
    match p
    case PVertex(m) => Some([VertexStep(m)])
    case PEdge(m) => Some([EdgeStep(m)])
    case PPath(path) => if path.Alternates() && path.Length() > 0 then Some(path.Items()) else None
    case PPathToVertex(prefix, e, v) => if prefix.Alternates() then
        Some(prefix.Items() + [EdgeStep(e), VertexStep(v)]) else None
    case _ => None
  }

  function SinglePlan(s: Step): Plan { match s case VertexStep(m) => PVertex(m) case EdgeStep(m) => PEdge(m) }

  ghost function Singles(items: seq<Step>): (ps: seq<Plan>)
    ensures |ps| == |items| && forall i :: 0 <= i < |items| ==> ps[i] == SinglePlan(items[i])
  {
    seq(|items|, i requires 0 <= i < |items| => SinglePlan(items[i]))
  }

  // The plans together are the steps.
  ghost predicate AreSteps(ps: seq<Plan>, items: seq<Step>)
    decreases |ps|
  {
    if ps == [] then items == []
    else
      StepsOf(ps[0]).Some? && |StepsOf(ps[0]).value| <= |items| &&
          items[..|StepsOf(ps[0]).value|] == StepsOf(ps[0]).value &&
      AreSteps(ps[1..], items[|StepsOf(ps[0]).value|..])
  }

  lemma {:induction false} SinglesAreSteps(items: seq<Step>)
    ensures AreSteps(Singles(items), items)
    decreases |items|
  {
    if items != [] {
      assert Singles(items)[1..] == Singles(items[1..]);
      assert items[..1] == [items[0]];
      SinglesAreSteps(items[1..]);
    }
  }

  lemma StepsOfMeaning(w: World, p: Plan, pos: Position, refs: Refs)
    requires StepsOf(p).Some?
    ensures Sem(w, p, pos, refs) == SemSteps(w.graph, StepsOf(p).value, pos, refs) && StepsOf(p).value != []
  {
    hide SemSteps;
  }

  // Matched as paths or one by one, steps mean the same.
  lemma {:induction false} GroupsMean(w: World, ps: seq<Plan>, items: seq<Step>, pos: Position, refs: Refs)
    requires AreSteps(ps, items) && ps != []
    ensures SemConcat(w, ps, pos, refs) == SemSteps(w.graph, items, pos, refs)
    decreases |ps|
  {
    var steps := StepsOf(ps[0]).value;
    var rest := items[|steps|..];
    assert items == steps + rest;
    StepsOfMeaning(w, ps[0], pos, refs);
    ConcatUnfold(w, ps, pos, refs);
    if |ps| == 1 {
      assert rest == [] && items == steps;
    } else {
      StepsAppend(w.graph, steps, rest, pos, refs);
      var s := Sem(w, ps[0], pos, refs);
      forall h, q | h in s && q in h.content.ends
        ensures SemConcat(w, ps[1..], q, h.refs) == SemSteps(w.graph, rest, q, h.refs)
      {
        GroupsMean(w, ps[1..], rest, q, h.refs);
      }
      ThenSame(w, s, ps[1..], rest);
    }
  }

  lemma ThenSame(w: World, s: set<Body>, ps: seq<Plan>, rest: seq<Step>)
    requires forall h, q :: h in s && q in h.content.ends ==>
        SemConcat(w, ps, q, h.refs) == SemSteps(w.graph, rest, q, h.refs)
    ensures ConcatThen(w, s, ps) == StepsThen(w.graph, s, rest)
  {
    hide SemConcat, SemSteps, Join;
    forall x | x in ConcatThen(w, s, ps) ensures x in StepsThen(w.graph, s, rest) {
      var h, q, t :| h in s && q in h.content.ends && t in SemConcat(w, ps, q, h.refs) && x == Join(h, t);
    }
    forall x | x in StepsThen(w.graph, s, rest) ensures x in ConcatThen(w, s, ps) {
      var h, q, t :| h in s && q in h.content.ends && t in SemSteps(w.graph, rest, q, h.refs) && x == Join(h, t);
    }
  }

  // --------------------------------------------------------------------------
  // What else regrouping keeps
  // --------------------------------------------------------------------------

  ghost predicate AllStay(ps: seq<Plan>) { forall p :: p in ps ==> Stays(p) }

  ghost predicate AllEdgeFirst(ps: seq<Plan>) { forall p :: p in ps ==> NestsEdgeFirst(p) }

  // One list of plans to concatenate can replace the other one.
  ghost predicate Regroups(xs: seq<Plan>, ys: seq<Plan>) {
    (xs == [] <==> ys == []) && SameConcat(xs, ys) && SameTracking(xs, ys) && SameSupport(xs, ys) &&
    (PeeksConcat(xs) ==> PeeksConcat(ys)) && (AllStay(xs) ==> AllStay(ys)) &&
    (AllEdgeFirst(ys) ==> AllEdgeFirst(xs)) && MentionedInAny(xs) <= MentionedInAny(ys) && SameSpecific(xs, ys)
  }

  ghost predicate SameConcat(xs: seq<Plan>, ys: seq<Plan>) {
    forall w: World, pos: Position, refs: Refs :: SemConcat(w, xs, pos, refs) == SemConcat(w, ys, pos, refs)
  }

  ghost predicate SameTracking(xs: seq<Plan>, ys: seq<Plan>) {
    forall b: RefNames :: BoundConcat(xs, b) == BoundConcat(ys, b) && ChangedConcat(xs, b) == ChangedConcat(ys, b)
  }

  ghost predicate SameSupport(xs: seq<Plan>, ys: seq<Plan>) {
    forall b: RefNames :: SupportedConcat(ys, b) ==> SupportedConcat(xs, b)
  }

  ghost predicate SameSpecific(xs: seq<Plan>, ys: seq<Plan>) {
    forall b: RefNames :: SpecificConcat(ys, b) ==> SpecificConcat(xs, b)
  }

  lemma {:induction false} TrackingAppend(a: seq<Plan>, b: seq<Plan>, x: RefNames)
    ensures BoundConcat(a + b, x) == BoundConcat(b, BoundConcat(a, x))
    ensures ChangedConcat(a + b, x) == ChangedConcat(a, x) + ChangedConcat(b, BoundConcat(a, x))
    ensures SupportedConcat(a + b, x) <==> SupportedConcat(a, x) && SupportedConcat(b, BoundConcat(a, x))
    ensures SpecificConcat(a + b, x) <==> SpecificConcat(a, x) && SpecificConcat(b, BoundConcat(a, x))
    decreases |a|
  {
    if a == [] {
      assert a + b == b;
    } else {
      assert (a + b)[0] == a[0] && (a + b)[1..] == a[1..] + b;
      TrackingAppend(a[1..], b, Bound(a[0], x));
    }
  }

  lemma {:induction false} ShapeAppend(a: seq<Plan>, b: seq<Plan>)
    ensures PeeksConcat(a + b) <==> PeeksConcat(a) || (AllStay(a) && PeeksConcat(b))
    ensures AllStay(a + b) <==> AllStay(a) && AllStay(b)
    ensures AllEdgeFirst(a + b) <==> AllEdgeFirst(a) && AllEdgeFirst(b)
    ensures MentionedInAny(a + b) == MentionedInAny(a) + MentionedInAny(b)
    decreases |a|
  {
    if a == [] {
      assert a + b == b;
    } else {
      assert (a + b)[0] == a[0] && (a + b)[1..] == a[1..] + b;
      assert a == [a[0]] + a[1..];
      ShapeAppend(a[1..], b);
    }
  }

  lemma ConcatCongruence(a: seq<Plan>, b: seq<Plan>, c: seq<Plan>, d: seq<Plan>)
    requires Regroups(a, b) && Regroups(c, d)
    ensures SameConcat(a + c, b + d)
  {
    if a == [] {
      assert a + c == c && b + d == d;
    } else if c == [] {
      assert a + c == a && b + d == b;
    } else {
      forall w: World, pos: Position, refs: Refs
        ensures SemConcat(w, a + c, pos, refs) == SemConcat(w, b + d, pos, refs)
      {
        hide SemConcat;
        ConcatAppend(w, a, c, pos, refs);
        ConcatAppend(w, b, d, pos, refs);
        SameThen(w, SemConcat(w, a, pos, refs), c, d);
      }
    }
  }

  lemma SameThen(w: World, s: set<Body>, c: seq<Plan>, d: seq<Plan>)
    requires SameConcat(c, d)
    ensures ConcatThen(w, s, c) == ConcatThen(w, s, d)
  {
    hide SemConcat, Join;
  }

  lemma RegroupsAppend(a: seq<Plan>, b: seq<Plan>, c: seq<Plan>, d: seq<Plan>)
    requires Regroups(a, b) && Regroups(c, d)
    ensures Regroups(a + c, b + d)
  {
    ConcatCongruence(a, b, c, d);
    ShapeAppend(a, c);
    ShapeAppend(b, d);
    forall x: RefNames
      ensures BoundConcat(a + c, x) == BoundConcat(b + d, x) && ChangedConcat(a + c, x) == ChangedConcat(b + d, x)
      ensures SupportedConcat(b + d, x) ==> SupportedConcat(a + c, x)
      ensures SpecificConcat(b + d, x) ==> SpecificConcat(a + c, x)
    {
      TrackingAppend(a, c, x);
      TrackingAppend(b, d, x);
    }
  }

  lemma RegroupsItself(a: seq<Plan>)
    ensures Regroups(a, a)
  {}

  lemma RegroupsTransitive(a: seq<Plan>, b: seq<Plan>, c: seq<Plan>)
    requires Regroups(a, b) && Regroups(b, c)
    ensures Regroups(a, c)
  {}

  lemma {:induction false} BoundByStepsAppend(a: seq<Step>, b: seq<Step>)
    ensures BoundBySteps(a + b) == BoundBySteps(a) + BoundBySteps(b)
    decreases |a|
  {
    if a == [] {
      assert a + b == b;
    } else {
      assert (a + b)[0] == a[0] && (a + b)[1..] == a[1..] + b;
      BoundByStepsAppend(a[1..], b);
    }
  }

  lemma {:induction false} StepsResolvedAppend(a: seq<Step>, b: seq<Step>, x: RefNames)
    ensures StepsResolved(a + b, x) <==> StepsResolved(a, x) && StepsResolved(b, x + BoundBySteps(a))
    decreases |a|
  {
    if a == [] {
      assert a + b == b && x + BoundBySteps(a) == x;
    } else {
      assert (a + b)[0] == a[0] && (a + b)[1..] == a[1..] + b;
      var y := if a[0].VertexStep? then x + VertexRefs(a[0].vertex) else x;
      StepsResolvedAppend(a[1..], b, y);
      assert y + BoundBySteps(a[1..]) == x + BoundBySteps(a);
    }
  }

  lemma StepsTracking(p: Plan, x: RefNames)
    requires StepsOf(p).Some?
    ensures Bound(p, x) == x + BoundBySteps(StepsOf(p).value) && Changed(p, x) == BoundBySteps(StepsOf(p).value) - x
    ensures Supported(p, x) && NestsEdgeFirst(p)
    ensures Peeks(p) <==> StepsOf(p).value[0].VertexStep?
    ensures Stays(p) ==> forall s :: s in StepsOf(p).value ==> s.VertexStep?
    ensures StepsOf(p).value[0].EdgeStep? ==> !Stays(p)
    ensures Mentioned(p) == BoundBySteps(StepsOf(p).value) && (Specific(p, x) <==> StepsResolved(StepsOf(p).value, x))
  {
    if p.PVertex? || p.PEdge? {
      var steps := StepsOf(p).value;
      assert BoundBySteps(steps[1..]) == {};
    }
    if p.PPath? { PathStays(p.path); }
    if p.PPathToVertex? && p.prefix.Length() > 0 {
      assert p.prefix.Items()[0] == p.prefix.Item(0);
    }
  }

  lemma PathStays(path: MatchPath)
    requires path.Alternates() && path.Length() > 0
    ensures path.Items()[0].VertexStep? <==> path.start.CORE?
    ensures path.edges == [] ==> forall s :: s in path.Items() ==> s.VertexStep?
    ensures path.Items()[0].EdgeStep? ==> path.edges != []
  {
    assert path.Items()[0] == path.Item(0);
    if path.edges == [] {
      forall s | s in path.Items() ensures s.VertexStep? {
        var i :| 0 <= i < path.Length() && s == path.Item(i);
      }
    }
  }

  lemma {:induction false} GroupsTracking(ps: seq<Plan>, items: seq<Step>, x: RefNames)
    requires AreSteps(ps, items)
    ensures BoundConcat(ps, x) == x + BoundBySteps(items) && ChangedConcat(ps, x) == BoundBySteps(items) - x &&
        SupportedConcat(ps, x)
    ensures MentionedInAny(ps) == BoundBySteps(items) && (SpecificConcat(ps, x) <==> StepsResolved(items, x))
    decreases |ps|
  {
    if ps != [] {
      var steps := StepsOf(ps[0]).value;
      var rest := items[|steps|..];
      assert items == steps + rest;
      StepsTracking(ps[0], x);
      BoundByStepsAppend(steps, rest);
      StepsResolvedAppend(steps, rest, x);
      GroupsTracking(ps[1..], rest, x + BoundBySteps(steps));
    }
  }

  lemma {:induction false} GroupsShape(ps: seq<Plan>, items: seq<Step>)
    requires AreSteps(ps, items) && ps != []
    ensures AllEdgeFirst(ps) && items != []
    ensures PeeksConcat(ps) <==> items[0].VertexStep?
    ensures AllStay(ps) ==> forall s :: s in items ==> s.VertexStep?
    decreases |ps|
  {
    var steps := StepsOf(ps[0]).value;
    var rest := items[|steps|..];
    assert items == steps + rest;
    StepsTracking(ps[0], {});
    assert ps[0] in ps;
    assert steps != [] by { StepsOfMeaning(World(Graph({}, {}), false), ps[0], Position(VertexID(0, 0), CORE), {}); }
    if |ps| > 1 {
      GroupsShape(ps[1..], rest);
      assert ps == [ps[0]] + ps[1..];
    } else {
      assert ps[1..] == [] && rest == [];
    }
  }

  // Paths can replace their steps.
  lemma GroupsRegroup(ps: seq<Plan>, items: seq<Step>)
    requires AreSteps(ps, items) && (ps == [] <==> items == [])
    ensures Regroups(ps, Singles(items))
  {
    var qs := Singles(items);
    SinglesAreSteps(items);
    if items == [] {
      assert ps == qs;
    } else {
      forall w: World, pos: Position, refs: Refs ensures SemConcat(w, ps, pos, refs) == SemConcat(w, qs, pos, refs) {
        GroupsMean(w, ps, items, pos, refs);
        GroupsMean(w, qs, items, pos, refs);
      }
      forall x: RefNames
        ensures BoundConcat(ps, x) == BoundConcat(qs, x) && ChangedConcat(ps, x) == ChangedConcat(qs, x) &&
            SupportedConcat(ps, x)
        ensures SpecificConcat(ps, x) <==> SpecificConcat(qs, x)
      {
        GroupsTracking(ps, items, x);
        GroupsTracking(qs, items, x);
      }
      GroupsTracking(ps, items, {});
      GroupsTracking(qs, items, {});
      GroupsShape(ps, items);
      GroupsShape(qs, items);
      if AllStay(ps) {
        forall q | q in qs ensures Stays(q) {
          var i :| 0 <= i < |items| && q == SinglePlan(items[i]);
          assert items[i] in items;
        }
      }
    }
  }
}
