/** Which refs plans bind and change, and why matches respect that. */
module RefTracking {
  import opened Base
  import opened RefsAlgebra
  import opened RefsUnions
  import opened Arrangement
  import opened Plans
  import opened Semantics

  type RefNames = set<RefName>

  ghost function SetNames(refs: set<Literal>): RefNames { set l | l in refs && !l.negative :: l.name }

  // The literals of other names are the same.
  ghost predicate SameOutside(a: set<Literal>, b: set<Literal>, changed: RefNames) {
    forall l: Literal :: l.name !in changed ==> (l in a <==> l in b)
  }

  // --------------------------------------------------------------------------
  // Analysis
  // --------------------------------------------------------------------------

  function VertexRefs(m: MatchVertex): RefNames { if m.Ref().Some? then {m.Ref().value} else {} }

  ghost function BoundBySteps(steps: seq<Step>): RefNames {
    if steps == [] then {}
    else (if steps[0].VertexStep? then VertexRefs(steps[0].vertex) else {}) + BoundBySteps(steps[1..])
  }

  ghost function PathSteps(path: MatchPath): seq<Step> { if path.Alternates() then path.Items() else [] }

  ghost function PathToVertexSteps(prefix: MatchPath, e: MatchEdge, v: MatchVertex): seq<Step> {
    PathSteps(prefix) + [EdgeStep(e), VertexStep(v)]
  }

  // Names that surely have a vertex after the plan, if the given ones have before it.
  ghost function Bound(p: Plan, bound: RefNames): RefNames
    decreases p, 0
  {
    match p
    case PVertex(m) => bound + VertexRefs(m)
    case PPath(path) => bound + BoundBySteps(PathSteps(path))
    case PPathToVertex(prefix, e, v) => bound + BoundBySteps(PathToVertexSteps(prefix, e, v))
    case PConcatenation(ops) => BoundConcat(ops, bound)
    case POr(ops) => if ops == [] then bound else BoundEvery(ops, bound)
    case PAnd(ops) => BoundSome(ops, bound)
    case PAllAnd(ops) => BoundSome(ops, bound)
    case PAll(op) => Bound(op, bound)
    case PIf(op) => Bound(op, bound)
    case PSkip(op) => Bound(op, bound)
    case PNested(names, plan) => bound + Bound(plan, bound * names)
    case PRepetition(op, min, max) => if min > 0 then Bound(op, bound) else bound
    case _ => bound
  }

  ghost function BoundConcat(ops: seq<Plan>, bound: RefNames): RefNames
    decreases ops, 0
  {
    if ops == [] then bound else BoundConcat(ops[1..], Bound(ops[0], bound))
  }

  ghost function BoundEvery(ops: seq<Plan>, bound: RefNames): RefNames
    requires ops != []
    decreases ops, 0
  {
    if |ops| == 1 then Bound(ops[0], bound) else Bound(ops[0], bound) * BoundEvery(ops[1..], bound)
  }

  ghost function BoundSome(ops: seq<Plan>, bound: RefNames): RefNames
    decreases ops, 0
  {
    if ops == [] then bound else Bound(ops[0], bound) + BoundSome(ops[1..], bound)
  }

  // Refs whose literals may differ between the start of the plan and the subgraphs it matches.
  ghost function Changed(p: Plan, bound: RefNames): RefNames
    decreases p, 0
  {
    match p
    case PVertex(m) => VertexRefs(m) - bound
    case PPath(path) => BoundBySteps(PathSteps(path)) - bound
    case PPathToVertex(prefix, e, v) => BoundBySteps(PathToVertexSteps(prefix, e, v)) - bound
    case PConcatenation(ops) => ChangedConcat(ops, bound)
    case POr(ops) => ChangedSome(ops, bound)
    case PAndWithoutSetRef(ops) => ChangedSome(ops, bound)
    case PAnd(ops) => ChangedSome(ops, bound)
    case PAllAnd(ops) => ChangedSome(ops, bound)
    case PAll(op) => Changed(op, bound)
    case PIf(op) => Changed(op, bound)
    case PUnless(op, shared) => Changed(op, bound) * shared
    case PSkip(op) => Changed(op, bound)
    case PMaybe(op) => Changed(op, bound)
    case PNested(names, plan) => Changed(plan, bound * names)
    case PRepetition(op, min, max) => Changed(op, bound)
    case _ => {}
  }

  ghost function ChangedConcat(ops: seq<Plan>, bound: RefNames): RefNames
    decreases ops, 0
  {
    if ops == [] then {} else Changed(ops[0], bound) + ChangedConcat(ops[1..], Bound(ops[0], bound))
  }

  ghost function ChangedSome(ops: seq<Plan>, bound: RefNames): RefNames
    decreases ops, 0
  {
    if ops == [] then {} else Changed(ops[0], bound) + ChangedSome(ops[1..], bound)
  }

  // A larger start binds more and changes less.
  lemma {:induction false} TrackingIsMonotone(p: Plan, a: RefNames, b: RefNames)
    requires a <= b
    ensures Bound(p, a) <= Bound(p, b) && Changed(p, b) <= Changed(p, a)
    decreases p, 0
  {
    match p
    case PConcatenation(ops) => ConcatIsMonotone(ops, a, b);
    case POr(ops) => SomeIsMonotone(ops, a, b);
    case PAndWithoutSetRef(ops) => SomeIsMonotone(ops, a, b);
    case PAnd(ops) => SomeIsMonotone(ops, a, b);
    case PAllAnd(ops) => SomeIsMonotone(ops, a, b);
    case PAll(op) => TrackingIsMonotone(op, a, b);
    case PIf(op) => TrackingIsMonotone(op, a, b);
    case PUnless(op, shared) => TrackingIsMonotone(op, a, b);
    case PSkip(op) => TrackingIsMonotone(op, a, b);
    case PMaybe(op) => TrackingIsMonotone(op, a, b);
    case PNested(names, plan) => TrackingIsMonotone(plan, a * names, b * names);
    case PRepetition(op, min, max) => TrackingIsMonotone(op, a, b);
    case _ =>
  }

  lemma {:induction false} ConcatIsMonotone(ops: seq<Plan>, a: RefNames, b: RefNames)
    requires a <= b
    ensures BoundConcat(ops, a) <= BoundConcat(ops, b) && ChangedConcat(ops, b) <= ChangedConcat(ops, a)
    decreases ops, 0
  {
    if ops != [] {
      TrackingIsMonotone(ops[0], a, b);
      ConcatIsMonotone(ops[1..], Bound(ops[0], a), Bound(ops[0], b));
    }
  }

  lemma {:induction false} SomeIsMonotone(ops: seq<Plan>, a: RefNames, b: RefNames)
    requires a <= b
    ensures BoundSome(ops, a) <= BoundSome(ops, b) && ChangedSome(ops, b) <= ChangedSome(ops, a)
    ensures ops != [] ==> BoundEvery(ops, a) <= BoundEvery(ops, b)
    decreases ops, 0
  {
    if ops != [] {
      TrackingIsMonotone(ops[0], a, b);
      SomeIsMonotone(ops[1..], a, b);
    }
  }

  lemma SomeContains(ops: seq<Plan>, bound: RefNames, i: nat)
    requires i < |ops|
    ensures Changed(ops[i], bound) <= ChangedSome(ops, bound)
    ensures Bound(ops[i], bound) <= BoundSome(ops, bound)
    ensures BoundEvery(ops, bound) <= Bound(ops[i], bound)
  {
    if i > 0 { SomeContains(ops[1..], bound, i - 1); }
  }

  lemma BoundSomeIsUnion(ops: seq<Plan>, bound: RefNames, x: RefName)
    requires x in BoundSome(ops, bound)
    ensures x in bound || exists i :: 0 <= i < |ops| && x in Bound(ops[i], bound)
  {
    if ops != [] {
      if x in BoundSome(ops[1..], bound) {
        BoundSomeIsUnion(ops[1..], bound, x);
        if x !in bound {
          var i :| 0 <= i < |ops[1..]| && x in Bound(ops[1..][i], bound);
          assert ops[1..][i] == ops[i + 1];
        }
      } else {
        assert x in Bound(ops[0], bound);
      }
    }
  }

  // Nothing is forgotten, and nothing but bound and changed refs is bound.
  lemma {:induction false} BoundGrows(p: Plan, bound: RefNames)
    ensures bound <= Bound(p, bound) <= bound + Changed(p, bound)
    decreases p, 0
  {
    match p
    case PConcatenation(ops) => BoundGrowsConcat(ops, bound);
    case POr(ops) => BoundGrowsSome(ops, bound);
    case PAnd(ops) => BoundGrowsSome(ops, bound);
    case PAllAnd(ops) => BoundGrowsSome(ops, bound);
    case PAll(op) => BoundGrows(op, bound);
    case PIf(op) => BoundGrows(op, bound);
    case PSkip(op) => BoundGrows(op, bound);
    case PNested(names, plan) => BoundGrows(plan, bound * names);
    case PRepetition(op, min, max) => BoundGrows(op, bound);
    case _ =>
  }

  lemma {:induction false} BoundGrowsConcat(ops: seq<Plan>, bound: RefNames)
    ensures bound <= BoundConcat(ops, bound) <= bound + ChangedConcat(ops, bound)
    decreases ops, 0
  {
    if ops != [] {
      BoundGrows(ops[0], bound);
      BoundGrowsConcat(ops[1..], Bound(ops[0], bound));
    }
  }

  lemma {:induction false} BoundGrowsSome(ops: seq<Plan>, bound: RefNames)
    ensures bound <= BoundSome(ops, bound) <= bound + ChangedSome(ops, bound)
    ensures ops != [] ==> bound <= BoundEvery(ops, bound) <= bound + ChangedSome(ops, bound)
    decreases ops, 0
  {
    if ops != [] {
      BoundGrows(ops[0], bound);
      BoundGrowsSome(ops[1..], bound);
    }
  }

  // --------------------------------------------------------------------------
  // Refs of terms
  // --------------------------------------------------------------------------

  ghost function Mixed(t: Refs, base: Refs, changed: RefNames): Refs {
    (set l | l in t && l.name in changed) + (set l | l in base && l.name !in changed)
  }

  ghost predicate AllSameOutside(rs: set<Refs>, base: Refs, changed: RefNames) {
    forall r :: r in rs ==> SameOutside(base, r, changed)
  }

  ghost function MixedPoint(s: Assignment, s': Assignment, changed: RefNames): Assignment {
    x => if x in changed then s(x) else s'(x)
  }

  lemma MixedPointInside(t: Refs, base: Refs, changed: RefNames, g: Region, s: Assignment)
    requires AllSameOutside(g.must, base, changed) && AllSameOutside(g.mustNot, base, changed)
    requires g.must != {} && Within(t, g) && Sat(Mixed(t, base, changed), s)
    ensures Inside(s, g)
  {
    var s' := Point(t, {});
    PointIsInside(t, {});
    var u := MixedPoint(s, s', changed);
    forall l | l in t ensures Holds(l, u) {
      if l.name in changed { assert l in Mixed(t, base, changed); }
    }
    assert Inside(u, g);
    var q :| q in g.must;
    forall l | l in base && l.name !in changed ensures Holds(l, u) && Holds(l, s) {
      assert l in q;
      assert l in Mixed(t, base, changed);
    }
    forall r | r in g.must ensures Sat(r, s) {
      forall l | l in r ensures Holds(l, s) { assert Holds(l, u); }
    }
    forall r | r in g.mustNot ensures !Sat(r, s) {
      var l :| l in r && !Holds(l, u);
      assert l.name in changed;
      assert !Holds(l, s);
    }
  }

  // Terms of a region only constrain what tells its refs apart.
  lemma TermsAreSameOutside(g: Region, base: Refs, changed: RefNames, t: Refs)
    requires AllSameOutside(g.must, base, changed) && AllSameOutside(g.mustNot, base, changed)
    requires g.must != {} && t in Terms(g)
    ensures SameOutside(base, t, changed)
  {
    var mixed := Mixed(t, base, changed);
    assert Within(t, g);
    forall s: Assignment | Sat(mixed, s) ensures Inside(s, g) { MixedPointInside(t, base, changed, g, s); }
    assert Within(mixed, g);
    var u :| u in Terms(g) && Implies(mixed, u);
    var q :| q in g.must;
    WithinMust(t, g, q);
    forall s: Assignment | Sat(t, s) ensures Sat(mixed, s) {
      forall l | l in mixed ensures Holds(l, s) {
        if l.name !in changed { assert l in q; }
      }
    }
    ImpliesIsInclusion(t, mixed);
    ImpliesTransitive(t, mixed, u);
    assert t == u;
    ImpliesAntisymmetric(t, mixed);
  }

  lemma TermsKeepSetRefs(g: Region, r: Refs, t: Refs)
    requires r in g.must && t in Terms(g)
    ensures SetNames(r) <= SetNames(t)
  {
    WithinMust(t, g, r);
    ImpliesIsInclusion(t, r);
    forall l | l in r && !l.negative ensures l.name in SetNames(t) {
      assert ImpliesLiteral(t, l);
    }
  }

  lemma TermsImply(g: Region, r: Refs, t: Refs)
    requires r in g.must && t in Terms(g)
    ensures Incl(t, r)
  {
    WithinMust(t, g, r);
  }

  // --------------------------------------------------------------------------
  // Matches respect the analysis
  // --------------------------------------------------------------------------

  ghost predicate Respects(refs: Refs, r: Refs, bound: RefNames, changed: RefNames) {
    bound <= SetNames(r) && SameOutside(refs, r, changed) && Incl(r, refs)
  }

  ghost predicate AllRespect(refs: Refs, s: set<Body>, bound: RefNames, changed: RefNames) {
    forall b :: b in s ==> Respects(refs, b.refs, bound, changed)
  }

  lemma BindRefRespects(refs: Refs, x: RefName, v: VertexID, bound: RefNames)
    requires bound <= SetNames(refs) && BindRef(refs, x, v).Some?
    ensures Respects(refs, BindRef(refs, x, v).value, bound + {x}, {x} - bound)
  {
    var r := BindRef(refs, x, v).value;
    assert Literal(x, false, v) in r;
    forall n | n in bound + {x} ensures n in SetNames(r) {
      if n != x {
        var l :| l in refs && !l.negative && l.name == n;
        assert l in r;
      }
    }
    if x in bound {
      var l :| l in refs && !l.negative && l.name == x;
      assert IsSet(refs, x) by { assert Literal(x, false, l.value) in refs; }
      assert r == refs;
    }
    forall s: Assignment | Sat(r, s) ensures Sat(refs, s) {
      forall l | l in refs ensures Holds(l, s) {
        if l !in r {
          assert l.name == x && Holds(Literal(x, false, v), s);
          assert Literal(x, false, l.value) !in refs && Literal(x, true, v) !in refs;
        }
      }
    }
  }

  lemma RespectsTransitive(refs: Refs, q: Refs, r: Refs, b1: RefNames, c1: RefNames, b2: RefNames, c2: RefNames)
    requires Respects(refs, q, b1, c1) && Respects(q, r, b2, c2)
    ensures Respects(refs, r, b2, c1 + c2)
  {}

  lemma VertexRespects(g: Graph, m: MatchVertex, pos: Position, refs: Refs, bound: RefNames)
    requires bound <= SetNames(refs) && VertexMatch(g, m, pos, refs).Some?
    ensures Respects(refs, VertexMatch(g, m, pos, refs).value, bound + VertexRefs(m), VertexRefs(m) - bound)
  {
    if m.Ref().Some? {
      BindRefRespects(refs, m.Ref().value, pos.v, bound);
    }
  }

  lemma {:induction false} StepsRespect(g: Graph, steps: seq<Step>, pos: Position, refs: Refs, bound: RefNames)
    requires bound <= SetNames(refs)
    ensures AllRespect(refs, SemSteps(g, steps, pos, refs), bound + BoundBySteps(steps), BoundBySteps(steps) - bound)
    decreases |steps|
  {
    if steps != [] {
      match steps[0]
      case VertexStep(m) =>
        var matched := VertexMatch(g, m, pos, refs);
        if matched.Some? {
          VertexRespects(g, m, pos, refs, bound);
          StepsRespect(g, steps[1..], pos.WithKind(ORBIT), matched.value, bound + VertexRefs(m));
          forall t | t in SemSteps(g, steps[1..], pos.WithKind(ORBIT), matched.value)
            ensures Respects(refs, t.refs, bound + BoundBySteps(steps), BoundBySteps(steps) - bound)
          {
            RespectsTransitive(refs, matched.value, t.refs,
                               bound + VertexRefs(m), VertexRefs(m) - bound,
                               bound + BoundBySteps(steps), BoundBySteps(steps[1..]) - (bound + VertexRefs(m)));
          }
        }
      case EdgeStep(m) =>
        forall hop | hop in Hops(g, m, pos)
          ensures AllRespect(refs, SemSteps(g, steps[1..], Position(hop.to, CORE), refs),
                             bound + BoundBySteps(steps), BoundBySteps(steps) - bound)
        {
          StepsRespect(g, steps[1..], Position(hop.to, CORE), refs, bound);
        }
    }
  }

  // Every subgraph a plan matches binds the refs the analysis says are bound, keeps the literals of
  // the refs it says are not changed, and only narrows the region of the start.
  lemma {:induction false} MatchesRespect(w: World, p: Plan, pos: Position, refs: Refs, bound: RefNames)
    requires bound <= SetNames(refs)
    ensures AllRespect(refs, Sem(w, p, pos, refs), Bound(p, bound), Changed(p, bound))
    decreases p, 0, 0
  {
    match p
    case PVertex(m) =>
      StepsRespect(w.graph, [VertexStep(m)], pos, refs, bound);
      assert BoundBySteps([VertexStep(m)]) == VertexRefs(m) + BoundBySteps([]);
    case PEdge(m) =>
      StepsRespect(w.graph, [EdgeStep(m)], pos, refs, bound);
      assert BoundBySteps([EdgeStep(m)]) == {} + BoundBySteps([]);
    case PNoop =>
    case PPath(path) => StepsRespect(w.graph, PathSteps(path), pos, refs, bound);
    case PPathToVertex(prefix, e, v) => StepsRespect(w.graph, PathToVertexSteps(prefix, e, v), pos, refs, bound);
    case PConcatenation(ops) => ConcatRespects(w, ops, pos, refs, bound);
    case POr(ops) =>
      EachRespects(w, ops, pos, refs, bound);
      OrRespects(w, ops, pos, refs, bound);
    case PAndWithoutSetRef(ops) =>
      EachRespects(w, ops, pos, refs, bound);
      OrRespects(w, ops, pos, refs, bound);
    case PAnd(ops) =>
      EachRespects(w, ops, pos, refs, bound);
      CellsRespect(w, ops, pos, refs, bound);
    case PAllAnd(ops) =>
      EachRespects(w, ops, pos, refs, bound);
      CellsRespect(w, ops, pos, refs, bound);
    case PAll(op) =>
      MatchesRespect(w, op, pos, refs, bound);
      AllOfOneRespects(Sem(w, op, pos, refs), refs, bound, Bound(op, bound), Changed(op, bound));
    case PIf(op) => MatchesRespect(w, op, pos, refs, bound);
    case PUnless(op, shared) =>
      MatchesRespect(w, op, pos, refs, bound);
      UnlessRespects(refs, Sem(w, op, pos, refs), shared, bound, Bound(op, bound), Changed(op, bound));
    case PSkip(op) => MatchesRespect(w, op, pos, refs, bound);
    case PMaybe(op) =>
      MatchesRespect(w, op, pos, refs, bound);
      BoundGrows(op, bound);
    case PNested(names, plan) =>
      if w.cached {
        NestedNamesAreSet(refs, names, bound);
        MatchesRespect(w, plan, pos, Restrict(refs, names), bound * names);
        FromCacheRespects(refs, names, Sem(w, plan, pos, Restrict(refs, names)), bound,
                          Bound(plan, bound * names), Changed(plan, bound * names));
      } else {
        MatchesRespect(w, plan, pos, refs, bound * names);
        InPlaceRespects(refs, Sem(w, plan, pos, refs), bound, Bound(plan, bound * names), Changed(plan, bound * names));
      }
    case PRepetition(op, min, max) =>
      RepeatRespects(w, op, min, max, 0, EmptyAt(pos, refs), refs, bound);
    case _ =>
  }

  lemma {:induction false} ConcatRespects(w: World, ops: seq<Plan>, pos: Position, refs: Refs, bound: RefNames)
    requires bound <= SetNames(refs)
    ensures AllRespect(refs, SemConcat(w, ops, pos, refs), BoundConcat(ops, bound), ChangedConcat(ops, bound))
    decreases ops, 0, 0
  {
    if ops != [] {
      MatchesRespect(w, ops[0], pos, refs, bound);
      var b, c := Bound(ops[0], bound), Changed(ops[0], bound);
      if |ops| == 1 {
        assert BoundConcat(ops, bound) == BoundConcat([], b) == b;
        assert ChangedConcat(ops, bound) == c + ChangedConcat([], b) == c;
      } else {
        forall h, q, t | h in Sem(w, ops[0], pos, refs) && q in h.content.ends && t in SemConcat(w, ops[1..], q, h.refs)
          ensures Respects(refs, t.refs, BoundConcat(ops, bound), ChangedConcat(ops, bound))
        {
          ConcatRespects(w, ops[1..], q, h.refs, b);
          RespectsTransitive(refs, h.refs, t.refs, b, c, BoundConcat(ops[1..], b), ChangedConcat(ops[1..], b));
        }
      }
    }
  }

  lemma {:induction false} EachRespects(w: World, ops: seq<Plan>, pos: Position, refs: Refs, bound: RefNames)
    requires bound <= SetNames(refs)
    ensures forall i :: 0 <= i < |ops| ==>
      AllRespect(refs, Sem(w, ops[i], pos, refs), Bound(ops[i], bound), Changed(ops[i], bound))
    decreases ops, 0, 0
  {
    forall i | 0 <= i < |ops|
      ensures AllRespect(refs, Sem(w, ops[i], pos, refs), Bound(ops[i], bound), Changed(ops[i], bound))
    {
      MatchesRespect(w, ops[i], pos, refs, bound);
    }
  }

  lemma OrRespects(w: World, ops: seq<Plan>, pos: Position, refs: Refs, bound: RefNames)
    requires bound <= SetNames(refs)
    requires forall i :: 0 <= i < |ops| ==>
      AllRespect(refs, Sem(w, ops[i], pos, refs), Bound(ops[i], bound), Changed(ops[i], bound))
    ensures AllRespect(refs, Union(SemEach(w, ops, pos, refs)), Bound(POr(ops), bound), ChangedSome(ops, bound))
    ensures AllRespect(refs, Union(SemEach(w, ops, pos, refs)), bound, ChangedSome(ops, bound))
  {
    forall i, b | 0 <= i < |ops| && b in SemEach(w, ops, pos, refs)[i]
      ensures Respects(refs, b.refs, Bound(POr(ops), bound), ChangedSome(ops, bound))
      ensures Respects(refs, b.refs, bound, ChangedSome(ops, bound))
    {
      SemEachAt(w, ops, pos, refs, i);
      SomeContains(ops, bound, i);
      BoundGrows(ops[i], bound);
    }
  }

  ghost predicate OperandsRespect(ss: seq<set<Body>>, refs: Refs, bounds: seq<RefNames>, changed: RefNames) {
    |bounds| == |ss| && forall i :: 0 <= i < |ss| ==> AllRespect(refs, ss[i], bounds[i], changed)
  }

  // A term of the arrangement of operand refs binds what all the operands bind.
  lemma CellTermRespects(ss: seq<set<Body>>, refs: Refs, bounds: seq<RefNames>, changed: RefNames, m: set<Refs>,
      t: Refs)
    requires OperandsRespect(ss, refs, bounds, changed)
    requires JoinCell(ss, m) && t in CellTerms(m, RefsOf(Union(ss)))
    ensures SameOutside(refs, t, changed) && Incl(t, refs)
    ensures forall i :: 0 <= i < |ss| ==> bounds[i] <= SetNames(t)
  {
    var g := CellRegion(m, RefsOf(Union(ss)));
    forall r | r in RefsOf(Union(ss)) ensures SameOutside(refs, r, changed) && Incl(r, refs) {
      var b :| b in Union(ss) && b.refs == r;
    }
    TermsAreSameOutside(g, refs, changed, t);
    var r :| r in m;
    TermsImply(g, r, t);
    forall i | 0 <= i < |ss| ensures bounds[i] <= SetNames(t) {
      var b :| b in ss[i] && b.refs in m;
      TermsKeepSetRefs(g, b.refs, t);
    }
  }

  lemma CellsRespect(w: World, ops: seq<Plan>, pos: Position, refs: Refs, bound: RefNames)
    requires bound <= SetNames(refs)
    requires forall i :: 0 <= i < |ops| ==>
      AllRespect(refs, Sem(w, ops[i], pos, refs), Bound(ops[i], bound), Changed(ops[i], bound))
    ensures AllRespect(refs, AndOf(SemEach(w, ops, pos, refs)), BoundSome(ops, bound), ChangedSome(ops, bound))
    ensures AllRespect(refs, AllOf(SemEach(w, ops, pos, refs)), BoundSome(ops, bound), ChangedSome(ops, bound))
  {
    var ss := SemEach(w, ops, pos, refs);
    var bounds := seq(|ops|, i requires 0 <= i < |ops| => Bound(ops[i], bound));
    forall i | 0 <= i < |ops| ensures AllRespect(refs, ss[i], bounds[i], ChangedSome(ops, bound)) {
      SemEachAt(w, ops, pos, refs, i);
      SomeContains(ops, bound, i);
    }
    forall m: set<Refs>, t: Refs | JoinCell(ss, m) && t in CellTerms(m, RefsOf(Union(ss)))
      ensures Respects(refs, t, BoundSome(ops, bound), ChangedSome(ops, bound))
    {
      CellTermRespects(ss, refs, bounds, ChangedSome(ops, bound), m, t);
      forall x | x in BoundSome(ops, bound) ensures x in SetNames(t) {
        BoundSomeIsUnion(ops, bound, x);
        if i :| 0 <= i < |ops| && x in Bound(ops[i], bound) {
          assert bounds[i] <= SetNames(t);
        } else {
          KeptWhenNarrowed(refs, t, x);
        }
      }
    }
  }

  lemma KeptWhenNarrowed(refs: Refs, t: Refs, x: RefName)
    requires Incl(t, refs) && x in SetNames(refs)
    ensures x in SetNames(t)
  {
    ImpliesIsInclusion(t, refs);
    var l :| l in refs && !l.negative && l.name == x;
    assert ImpliesLiteral(t, l);
  }

  lemma AllOfOneRespects(s: set<Body>, refs: Refs, bound: RefNames, b: RefNames, changed: RefNames)
    requires AllRespect(refs, s, b, changed)
    ensures AllRespect(refs, AllOf([s]), b, changed)
  {
    forall m: set<Refs>, t: Refs | JoinCell([s], m) && t in CellTerms(m, RefsOf(Union([s])))
      ensures Respects(refs, t, b, changed)
    {
      CellTermRespects([s], refs, [b], changed, m, t);
      assert [b][0] <= SetNames(t);
    }
  }

  lemma UnlessRespects(refs: Refs, s: set<Body>, shared: RefNames, bound: RefNames, b: RefNames, changed: RefNames)
    requires bound <= SetNames(refs) && AllRespect(refs, s, b, changed)
    ensures forall t :: t in Terms(UnlessRegion(refs, s, shared)) ==> Respects(refs, t, bound, changed * shared)
  {
    var g := UnlessRegion(refs, s, shared);
    forall t | t in Terms(g) ensures Respects(refs, t, bound, changed * shared) {
      TermsImply(g, refs, t);
      TermsKeepSetRefs(g, refs, t);
      UnlessTermSameOutside(refs, s, shared, changed, t);
    }
  }

  // Restricting the operand's refs to shared ones may drop literals of the start, which hold anyway.
  lemma UnlessTermSameOutside(refs: Refs, s: set<Body>, shared: RefNames, changed: RefNames, t: Refs)
    requires forall b :: b in s ==> SameOutside(refs, b.refs, changed)
    requires t in Terms(UnlessRegion(refs, s, shared))
    ensures SameOutside(refs, t, changed * shared)
  {
    var g := UnlessRegion(refs, s, shared);
    var h := Region({refs}, set b | b in s :: Mixed(b.refs, refs, changed * shared));
    forall v: Assignment ensures Inside(v, g) <==> Inside(v, h) {
      if Sat(refs, v) {
        forall b | b in s ensures Sat(Restrict(b.refs, shared), v) <==> Sat(Mixed(b.refs, refs, changed * shared), v) {
          RestrictedOrMixed(refs, b.refs, shared, changed, v);
        }
      }
    }
    TermsOfSameRegion(g, h);
    TermsAreSameOutside(h, refs, changed * shared, t);
  }

  lemma RestrictedOrMixed(refs: Refs, r: Refs, shared: RefNames, changed: RefNames, v: Assignment)
    requires SameOutside(refs, r, changed) && Sat(refs, v)
    ensures Sat(Restrict(r, shared), v) <==> Sat(Mixed(r, refs, changed * shared), v)
  {
    forall l | l in Restrict(r, shared) && Sat(Mixed(r, refs, changed * shared), v) ensures Holds(l, v) {
      if l.name in changed { assert l in Mixed(r, refs, changed * shared); }
    }
    forall l | l in Mixed(r, refs, changed * shared) && Sat(Restrict(r, shared), v) ensures Holds(l, v) {
      if l.name in changed * shared { assert l in Restrict(r, shared); }
    }
  }

  lemma NestedNamesAreSet(refs: Refs, names: RefNames, bound: RefNames)
    requires bound <= SetNames(refs)
    ensures bound * names <= SetNames(Restrict(refs, names))
  {
    forall x | x in bound * names ensures x in SetNames(Restrict(refs, names)) {
      var l :| l in refs && !l.negative && l.name == x;
      assert l in Restrict(refs, names);
    }
  }

  lemma InPlaceRespects(refs: Refs, s: set<Body>, bound: RefNames, b: RefNames, changed: RefNames)
    requires bound <= SetNames(refs) && AllRespect(refs, s, b, changed)
    ensures AllRespect(refs, s, bound + b, changed)
  {
    forall x, body | body in s && x in bound ensures x in SetNames(body.refs) {
      KeptWhenNarrowed(refs, body.refs, x);
    }
  }

  lemma FromCacheRespects(refs: Refs, names: RefNames, s: set<Body>, bound: RefNames, b: RefNames, changed: RefNames)
    requires bound <= SetNames(refs) && AllRespect(Restrict(refs, names), s, b, changed)
    ensures AllRespect(refs, FromCache(refs, s), bound + b, changed)
  {
    forall body | body in s && Meet(refs, body.refs).Some?
      ensures Respects(refs, Meet(refs, body.refs).value, bound + b, changed)
    {
      var r := Meet(refs, body.refs).value;
      MeetIsIntersection(refs, body.refs);
      forall x | x in bound + b ensures x in SetNames(r) {
        if x in bound { KeptWhenNarrowed(refs, r, x); } else { KeptWhenNarrowed(body.refs, r, x); }
      }
      MeetSameOutside(refs, names, body.refs, changed);
    }
  }

  lemma MeetSameOutside(refs: Refs, names: RefNames, q: Refs, changed: RefNames)
    requires SameOutside(Restrict(refs, names), q, changed) && Meet(refs, q).Some?
    ensures SameOutside(refs, Meet(refs, q).value, changed)
  {
    var r := Meet(refs, q).value;
    forall l: Literal | l.name !in changed ensures l in refs <==> l in r {
      forall m | m in refs + q && m.name == l.name ensures m in refs {}
    }
  }

  ghost predicate ChainRespects(op: Plan, k: nat, refs: Refs, bound: RefNames, r: Refs) {
    Respects(refs, r, if k > 0 then Bound(op, bound) else bound, Changed(op, bound))
  }

  lemma ContinuationRespects(op: Plan, k: nat, refs: Refs, bound: RefNames, q: Refs, r: Refs)
    requires ChainRespects(op, k, refs, bound, q)
    requires Respects(q, r, Bound(op, if k > 0 then Bound(op, bound) else bound),
                            Changed(op, if k > 0 then Bound(op, bound) else bound))
    ensures ChainRespects(op, k + 1, refs, bound, r)
  {
    BoundGrows(op, bound);
    TrackingIsMonotone(op, bound, if k > 0 then Bound(op, bound) else bound);
  }

  lemma {:induction false} RepeatRespects(
    w: World, op: Plan, min: nat, max: nat, k: nat, chain: Body, refs: Refs, bound: RefNames)
    requires bound <= SetNames(refs) && ChainRespects(op, k, refs, bound, chain.refs)
    ensures AllRespect(refs, SemRepeat(w, op, min, max, k, chain),
                       if min > 0 then Bound(op, bound) else bound, Changed(op, bound))
    decreases op, 1, max - k
  {
    hide Bound, Changed, Sem, Incl, SameOutside;
    BoundGrows(op, bound);
    if Continued(w, op, max, k, chain) != {} {
      forall c | c in Continued(w, op, max, k, chain)
        ensures AllRespect(refs, SemRepeat(w, op, min, max, k + 1, c),
                           if min > 0 then Bound(op, bound) else bound, Changed(op, bound))
      {
        var q, t :| q in chain.content.ends && t in Sem(w, op, q, chain.refs) && c == Join(chain, t);
        MatchesRespect(w, op, q, chain.refs, if k > 0 then Bound(op, bound) else bound);
        ContinuationRespects(op, k, refs, bound, chain.refs, t.refs);
        RepeatRespects(w, op, min, max, k + 1, c, refs, bound);
      }
    }
  }
}
