/** Planned patterns are as meant. */
module PlannedPatterns {
  import opened Base
  import opened RefsAlgebra
  import opened Plans
  import opened Semantics
  import opened RefTracking
  import opened Dependencies
  import opened Unfolding
  import opened Visiting
  import opened Expansion
  import opened Queries
  import opened Pointwise
  import opened MatchingJoins
  import opened Planning
  import opened Planner
  import opened Specialization
  import opened TransparentCaching
  import opened Expressions
  import opened StartPositions
  import opened IncrementalState

  // --------------------------------------------------------------------------
  // Where matches start
  // --------------------------------------------------------------------------

  // The position is one of the source.
  ghost predicate StartsAtSource(s: Source, g: Graph, sp: Position) {
    match s
    case OfShape(shape) => StartsAt(shape, g, sp)
    case AtPlaceholder(v) => sp == Position(v, CORE) && v in g.vertices
    case Anywhere => true
  }

  ghost predicate StartsSomewhere(ss: set<Source>, g: Graph, sp: Position) {
    exists s :: s in ss && StartsAtSource(s, g, sp)
  }

  // What the pattern begins with isn't optional, and if it's edges in any direction, they have the same labels both
  // ways.
  ghost predicate Firm(e: Expr)
    decreases e
  {
    match e
    case EdgeExpr(direction, forward, backward) => direction.AnyDirection? ==> forward == backward
    case ConcatenationExpr(ops) => ops != [] && Firm(ops[Leading(ops)])
    case AndExpr(ops) => ops != [] && Firm(ops[Leading(ops)])
    case OrExpr(ops) => forall o :: o in ops ==> Firm(o)
    case OperationExpr(operation, op) => !operation.Maybe? && Firm(op)
    case RepetitionExpr(min, _, op) => min == 0 || Firm(op)
    case _ => true
  }

  lemma VertexStartsHere(w: World, m: MatchVertex, pos: Position, refs: Refs)
    requires Sem(w, PVertex(m), pos, refs) != {}
    ensures StartsAtSource(if m.placeholder.Some? then AtPlaceholder(m.placeholder.value)
      else OfShape(AtVertex(m.typeName)), w.graph, pos)
  {}

  lemma EdgeStartsHere(w: World, e: MatchEdge, pos: Position, refs: Refs)
    requires Sem(w, PEdge(e), pos, refs) != {} && (e.direction.AnyDirection? ==> e.forward == e.backward)
    ensures StartsAt(EdgeShape(e.direction, e.forward, e.backward), w.graph, pos)
  {
    assert Hops(w.graph, e, pos) != {};
    var hop :| hop in HopsFrom(w.graph, e, pos.v);
    HopStarts(w.graph, e, pos.v, hop);
  }

  lemma HopStarts(g: Graph, m: MatchEdge, v: VertexID, hop: Hop)
    requires hop in HopsFrom(g, m, v) && (m.direction.AnyDirection? ==> m.forward == m.backward)
    ensures exists e :: e in g.edges && EdgeStarts(EdgeShape(m.direction, m.forward, m.backward), e, v)
  {
    var shape := EdgeShape(m.direction, m.forward, m.backward);
    match m.direction
    case Forward =>
      var e :| e in Outgoing(g, v, m.forward) && hop == Hop({e}, e.to);
      assert EdgeStarts(shape, e, v);
    case Backward =>
      var e :| e in Incoming(g, v, m.backward) && hop == Hop({e}, e.from);
      assert EdgeStarts(shape, e, v);
    case AnyDirection =>
      var e :| (e in Outgoing(g, v, m.forward) && hop == Hop({e}, e.to)) ||
          (e in Incoming(g, v, m.backward) && hop == Hop({e}, e.from));
      assert EdgeStarts(shape, e, v);
    case Both =>
      var e, f :| e in Outgoing(g, v, m.forward) && f in Incoming(g, v, m.backward) && f.from == e.to &&
          hop == Hop({e, f}, e.to);
      assert EdgeStarts(shape, if m.forward.Some? || m.backward.None? then e else f, v);
    case BothSymmetric =>
      var e :| e in Outgoing(g, v, m.forward) && e.Reverse() in Incoming(g, v, m.backward) &&
          hop == Hop({e, e.Reverse()}, e.to);
      assert EdgeStarts(shape, if m.forward.Some? || m.backward.None? then e else e.Reverse(), v);
  }

  lemma JoinNeedsEach(ss: seq<set<Body>>, i: nat)
    requires i < |ss| && (AndOf(ss) != {} || AllOf(ss) != {})
    ensures ss[i] != {}
  {
    if ss[i] == {} { EmptyOperandJoins(ss, i); }
  }

  // Negations stay where they are.
  lemma NegationStays(w: World, e: Expr, pos: Position, refs: Refs, b: Body)
    requires IsUnless(e) && b in Sem(w, Naive(e), pos, refs)
    ensures b.content.ends == {pos}
  {}

  lemma {:induction false} LeadingMatches(w: World, es: seq<Expr>, pos: Position, refs: Refs)
    requires es != [] && SemConcat(w, NaiveEach(es), pos, refs) != {} && !IsUnless(es[Leading(es)])
    ensures exists r: Refs :: Sem(w, Naive(es[Leading(es)]), pos, r) != {}
    decreases |es|
  {
    var ns := NaiveEach(es);
    assert ns[1..] == NaiveEach(es[1..]);
    ConcatUnfold(w, ns, pos, refs);
    if |es| == 1 {
      assert Sem(w, ns[0], pos, refs) != {};
    } else {
      var x :| x in ConcatThen(w, Sem(w, ns[0], pos, refs), ns[1..]);
      var h, q, t :| h in Sem(w, ns[0], pos, refs) && q in h.content.ends && t in SemConcat(w, ns[1..], q, h.refs) &&
          x == Join(h, t);
      if IsUnless(es[0]) {
        NegationStays(w, es[0], pos, refs, h);
        LeadingMatches(w, es[1..], pos, h.refs);
      }
    }
  }

  lemma OperatorsOfNaive(w: World, ops: seq<Expr>, pos: Position, refs: Refs)
    ensures Sem(w, Naive(ConcatenationExpr(ops)), pos, refs) == SemConcat(w, NaiveEach(ops), pos, refs)
    ensures Sem(w, Naive(OrExpr(ops)), pos, refs) == Union(SemEach(w, NaiveEach(ops), pos, refs))
    ensures Sem(w, Naive(AndExpr(ops)), pos, refs) == AndOf(SemEach(w, NaiveEach(ops), pos, refs))
    ensures Sem(w, Naive(OperationExpr(All, AndExpr(ops))), pos, refs) == AllOf(SemEach(w, NaiveEach(ops), pos, refs))
  {
    var ns := NaiveEach(ops);
    assert Naive(ConcatenationExpr(ops)) == PConcatenation(ns) && Naive(OrExpr(ops)) == POr(ns);
    assert Naive(AndExpr(ops)) == PAnd(ns) && Naive(OperationExpr(All, AndExpr(ops))) == PAllAnd(ns);
    hide Naive, NaiveEach, AndOf, AllOf, Union, SemConcat;
  }

  // A pattern only matches from positions of what it begins with.
  lemma {:induction false} MatchesSource(w: World, e: Expr, pos: Position, refs: Refs)
    requires ValidExpr(e) && Sources(e).Some? && Firm(e) && Sem(w, Naive(e), pos, refs) != {}
    ensures StartsSomewhere(Sources(e).value, w.graph, pos)
    decreases e
  {
    hide Sem, StartsAtSource, AndOf, AllOf, Union;
    match e
    case VertexExpr(t, ref, placeholder) => VertexStartsHere(w, MatchVertex(t, ref, None, placeholder), pos, refs);
    case EdgeExpr(direction, forward, backward) => EdgeSourceStarts(w, direction, forward, backward, pos, refs);
    case NoopExpr => AnywhereStarts(w.graph, pos);
    case ConcatenationExpr(ops) =>
      OperatorsOfNaive(w, ops, pos, refs);
      ConcatStarts(w, ops, pos, refs);
    case AndExpr(ops) =>
      OperatorsOfNaive(w, ops, pos, refs);
      JoinStarts(w, ops, pos, refs);
    case OrExpr(ops) =>
      OperatorsOfNaive(w, ops, pos, refs);
      OrStarts(w, ops, pos, refs);
    case OperationExpr(operation, op) =>
      if operation.All? && op.AndExpr? {
        OperatorsOfNaive(w, op.operands, pos, refs);
        JoinStarts(w, op.operands, pos, refs);
      } else {
        OperandMatches(w, operation, op, pos, refs);
        MatchesSource(w, op, pos, refs);
      }
    case RepetitionExpr(min, max, op) =>
      if min == 0 {
        AnywhereStarts(w.graph, pos);
      } else {
        RepeatNeedsMatch(w, Naive(op), min, max, pos, refs);
        MatchesSource(w, op, pos, refs);
      }
  }

  lemma AnywhereStarts(g: Graph, pos: Position)
    ensures StartsSomewhere({Anywhere}, g, pos)
  {
    assert StartsAtSource(Anywhere, g, pos);
  }

  lemma EdgeSourceStarts(w: World, direction: Direction, forward: Labels, backward: Labels, pos: Position, refs: Refs)
    requires Sem(w, Naive(EdgeExpr(direction, forward, backward)), pos, refs) != {}
    requires direction.AnyDirection? ==> forward == backward
    ensures StartsSomewhere({OfShape(EdgeShape(direction, forward, backward))}, w.graph, pos)
  {
    EdgeStartsHere(w, MatchEdge(direction, forward, backward), pos, refs);
    hide StartsAt;
    assert StartsAtSource(OfShape(EdgeShape(direction, forward, backward)), w.graph, pos);
  }

  lemma {:induction false} ConcatStarts(w: World, ops: seq<Expr>, pos: Position, refs: Refs)
    requires ops != [] && (forall o :: o in ops ==> ValidExpr(o)) && Sources(ops[Leading(ops)]).Some?
    requires Firm(ops[Leading(ops)]) && SemConcat(w, NaiveEach(ops), pos, refs) != {}
    ensures StartsSomewhere(Sources(ops[Leading(ops)]).value, w.graph, pos)
    decreases ops
  {
    hide Sem, SemConcat, StartsSomewhere;
    LeadingIsPositive(ops);
    LeadingMatches(w, ops, pos, refs);
    var r: Refs :| Sem(w, Naive(ops[Leading(ops)]), pos, r) != {};
    assert ops[Leading(ops)] in ops;
    MatchesSource(w, ops[Leading(ops)], pos, r);
  }

  lemma {:induction false} OrStarts(w: World, ops: seq<Expr>, pos: Position, refs: Refs)
    requires (forall o :: o in ops ==> ValidExpr(o) && Firm(o)) && SourcesOfAll(ops).Some?
    requires Union(SemEach(w, NaiveEach(ops), pos, refs)) != {}
    ensures StartsSomewhere(SourcesOfAll(ops).value, w.graph, pos)
    decreases ops
  {
    hide Sem, SemEach, StartsAtSource;
    var ss := SemEach(w, NaiveEach(ops), pos, refs);
    var b :| b in Union(ss);
    var i :| 0 <= i < |ss| && b in ss[i];
    SemEachAt(w, NaiveEach(ops), pos, refs, i);
    SourcesAmongAll(ops, i);
    assert ops[i] in ops;
    MatchesSource(w, ops[i], pos, refs);
  }

  lemma LeadingIsPositive(ops: seq<Expr>)
    requires ops != [] && Sources(ops[Leading(ops)]).Some?
    ensures !IsUnless(ops[Leading(ops)])
  {}

  lemma {:induction false} JoinStarts(w: World, ops: seq<Expr>, pos: Position, refs: Refs)
    requires ops != [] && (forall o :: o in ops ==> ValidExpr(o)) && Sources(ops[Leading(ops)]).Some?
    requires Firm(ops[Leading(ops)])
    requires AndOf(SemEach(w, NaiveEach(ops), pos, refs)) != {} || AllOf(SemEach(w, NaiveEach(ops), pos, refs)) != {}
    ensures StartsSomewhere(Sources(ops[Leading(ops)]).value, w.graph, pos)
    decreases ops
  {
    JoinNeedsEach(SemEach(w, NaiveEach(ops), pos, refs), Leading(ops));
    SemEachAt(w, NaiveEach(ops), pos, refs, Leading(ops));
    assert ops[Leading(ops)] in ops;
    MatchesSource(w, ops[Leading(ops)], pos, refs);
  }

  lemma {:induction false} SourcesAmongAll(ops: seq<Expr>, i: nat)
    requires i < |ops| && SourcesOfAll(ops).Some?
    ensures Sources(ops[i]).Some? && Sources(ops[i]).value <= SourcesOfAll(ops).value
    decreases |ops|
  {
    if i > 0 { SourcesAmongAll(ops[1..], i - 1); }
  }

  // So from present vertices it matches from no position that isn't tried.
  lemma MatchesAreTried(w: World, q: Query, e: Expr, sp: Position, refs: Refs)
    requires ValidExpr(e) && Sources(e).Some? && Firm(e) && QueryOk(q) && w.graph == q.graph
    requires sp.v in q.graph.vertices && Sem(w, Naive(e), sp, refs) != {}
    ensures TriesAtSome(Sources(e).value, q, sp)
  {
    hide Sem, Sources;
    MatchesSource(w, e, sp, refs);
    var s :| s in Sources(e).value && StartsAtSource(s, w.graph, sp);
    assert TriesAt(s, q, sp);
  }

  // An optional beginning matches nothing in particular where it doesn't match, but only its own positions are tried.
  lemma OptionalMatchesUntried(q: Query, t: Option<TypeName>, v: VertexID)
    ensures var e, sp := OperationExpr(Maybe, VertexExpr(t, None, None)), Position(v, ORBIT);
      Sem(World(q.graph, false), Naive(e), sp, {}) != {} &&
      Sources(e).Some? && !TriesAtSome(Sources(e).value, q, sp)
  {
    var w, sp, n := World(q.graph, false), Position(v, ORBIT), PVertex(MatchVertex(t, None, None, None));
    assert Sem(w, n, sp, {}) == {};
    assert EmptyAt(sp, {}) in Sem(w, PMaybe(n), sp, {});
  }

  // And if it begins with a placeholder, from no other position at all.
  lemma OnlyFromPlaceholder(w: World, e: Expr, v: VertexID, sp: Position, refs: Refs)
    requires ValidExpr(e) && Sources(e) == Some({AtPlaceholder(v)}) && Firm(e)
    requires Sem(w, Naive(e), sp, refs) != {}
    ensures sp == Position(v, CORE) && v in w.graph.vertices
  {
    hide Sem, Sources;
    MatchesSource(w, e, sp, refs);
  }

  // Patterns that begin with shapes match from no position but those of the shapes.
  lemma MatchesStart(w: World, e: Expr, pos: Position, refs: Refs)
    requires ValidExpr(e) && Shapes(e).Some? && Sem(w, Naive(e), pos, refs) != {}
    ensures StartsAtSome(Shapes(e).value, w.graph, pos)
  {
    ShapesAreSources(e);
    ShapesAreFirm(e);
    hide Sem, Shapes, Sources, StartsAt;
    MatchesSource(w, e, pos, refs);
    var s :| s in OfShapes(Shapes(e).value) && StartsAtSource(s, w.graph, pos);
  }

  lemma {:induction false} ShapesAreFirm(e: Expr)
    requires Shapes(e).Some?
    ensures Firm(e)
    decreases e
  {
    match e
    case ConcatenationExpr(ops) => ShapesAreFirm(ops[Leading(ops)]);
    case AndExpr(ops) => ShapesAreFirm(ops[Leading(ops)]);
    case OrExpr(ops) =>
      forall i | 0 <= i < |ops| ensures Firm(ops[i]) {
        ShapesAmongAll(ops, i);
        ShapesAreFirm(ops[i]);
      }
    case OperationExpr(_, op) => ShapesAreFirm(op);
    case RepetitionExpr(_, _, op) => ShapesAreFirm(op);
    case _ =>
  }

  lemma {:induction false} ShapesAmongAll(ops: seq<Expr>, i: nat)
    requires i < |ops| && ShapesOfAll(ops).Some?
    ensures Shapes(ops[i]).Some?
    decreases |ops|
  {
    if i > 0 { ShapesAmongAll(ops[1..], i - 1); }
  }

  lemma OperandMatches(w: World, operation: Operation, op: Expr, pos: Position, refs: Refs)
    requires !operation.Unless? && !operation.Maybe? && !(operation.All? && op.AndExpr?)
    requires Sem(w, Naive(OperationExpr(operation, op)), pos, refs) != {}
    ensures Sem(w, Naive(op), pos, refs) != {}
  {
    if operation.All? {
      JoinNeedsEach([Sem(w, Naive(op), pos, refs)], 0);
    }
  }

  lemma RepeatNeedsMatch(w: World, n: Plan, min: nat, max: nat, pos: Position, refs: Refs)
    requires min > 0 && Sem(w, PRepetition(n, min, max), pos, refs) != {}
    ensures Sem(w, n, pos, refs) != {}
  {
    var chain := EmptyAt(pos, refs);
    assert SemRepeat(w, n, min, max, 0, chain) != {};
    assert Continued(w, n, max, 0, chain) != {};
  }

  // --------------------------------------------------------------------------
  // Planned patterns
  // --------------------------------------------------------------------------

  lemma ExpandedEmpty(g: Graph, s: set<Body>)
    requires Expanded(g, s) != {}
    ensures s != {}
  {}

  // Incremental matchers support a pattern with its plan.
  lemma PlannedIsOk(e: Expr, p: Plan, edgeFirst: bool)
    requires ValidExpr(e) && Shapes(e).Some? && Sound(p, e, {}, edgeFirst)
    ensures PatternOk(Pattern(e, p))
  {
    assert QueryPlanOk(p);
    hide ValidExpr, QueryPlanOk;
    forall g: Graph, sp: Position | WellFormed(g) && ResultAt(g, p, sp) != {}
      ensures StartsAtSome(Shapes(e).value, g, sp)
    {
      hide Expanded, Sem, Usable, SameShape, StartsAtSome, ValidExpr;
      ExpandedEmpty(g, Sem(World(g, true), p, sp, {}));
      assert Sem(World(g, true), p, sp, {}) == Sem(World(g, true), Naive(e), sp, {});
      MatchesStart(World(g, true), e, sp, {});
    }
  }

  lemma {:induction false} NaiveHasNoCache(e: Expr)
    ensures NamesCover(Naive(e))
    decreases e
  {
    match e
    case VertexExpr(_, _, _) =>
    case EdgeExpr(_, _, _) =>
    case NoopExpr =>
    case ConcatenationExpr(ops) => NaivesHaveNoCache(ops);
    case OrExpr(ops) => NaivesHaveNoCache(ops);
    case AndExpr(ops) => NaivesHaveNoCache(ops);
    case OperationExpr(operation, op) =>
      if operation.All? && op.AndExpr? { NaivesHaveNoCache(op.operands); } else { NaiveHasNoCache(op); }
    case RepetitionExpr(_, _, op) => NaiveHasNoCache(op);
  }

  lemma {:induction false} NaivesHaveNoCache(es: seq<Expr>)
    ensures forall n :: n in NaiveEach(es) ==> NamesCover(n)
    decreases es
  {
    forall i | 0 <= i < |es| ensures NamesCover(NaiveEach(es)[i]) { NaiveHasNoCache(es[i]); }
  }

  // What the operators of a pattern mean, matched in place from the position.
  ghost function MeaningAt(g: Graph, e: Expr, sp: Position): set<Body> {
    Expanded(g, Sem(World(g, false), Naive(e), sp, {}))
  }

  // One of the matches of the pattern's operators, with its refs set to an answer that they allow.
  lemma MeaningSets(g: Graph, e: Expr, sp: Position, b: Body)
    ensures b in MeaningAt(g, e, sp) <==> SetsSome(g, Sem(World(g, false), Naive(e), sp, {}), b)
  {
    ExpandedAreAnswers(g, Sem(World(g, false), Naive(e), sp, {}), b);
  }

  lemma ResultIsMeaning(g: Graph, e: Expr, p: Plan, sp: Position, edgeFirst: bool)
    requires Sound(p, e, {}, edgeFirst)
    ensures ResultAt(g, p, sp) == MeaningAt(g, e, sp)
  {
    hide Expanded, Sem, Usable, SameShape;
    assert Sem(World(g, true), p, sp, {}) == Sem(World(g, true), Naive(e), sp, {});
    NaiveHasNoCache(e);
    CachingIsTransparent(g, Naive(e), sp, {});
  }

  // For patterns that have a reading at single assignments, the subgraphs found agree with it.
  lemma ResultsAreReadings(g: Graph, e: Expr, p: Plan, sp: Position, v: Assignment, edgeFirst: bool)
    requires Sound(p, e, {}, edgeFirst) && IsPointwise(Naive(e), {}, {})
    ensures ContentsAt(Sem(World(g, true), p, sp, {}), v) == Den(g, Naive(e), sp, v)
  {
    hide Sem, Usable, SameShape;
    assert Sem(World(g, true), p, sp, {}) == Sem(World(g, true), Naive(e), sp, {});
    MatchesAt(World(g, true), Naive(e), sp, {}, {}, {}, v);
  }

  // Plans a pattern: with any cache, the plan finds what the pattern means.
  method PlanPattern(e: Expr, nestOperands: bool) returns (p: Plan)
    requires ValidExpr(e)
    ensures forall g: Graph, sp: Position :: ResultAt(g, p, sp) == MeaningAt(g, e, sp)
    ensures IsPointwise(Naive(e), {}, {}) ==>
      forall g: Graph, sp: Position, v: Assignment ::
          ContentsAt(Sem(World(g, true), p, sp, {}), v) == Den(g, Naive(e), sp, v)
    ensures Shapes(e).Some? ==> PatternOk(Pattern(e, p))
    ensures QueryPlanOk(p) && Specific(p, {}) && ((nestOperands ==> NestsOk(e)) ==> NestsEdgeFirst(p))
  {
    hide Bound, Changed;
    var context := new PlanContext(nestOperands);
    var bound: RefNames, changed: RefNames;
    p, bound, changed := PlanExpression(e, {}, {}, context);
    ghost var edgeFirst := Supportable(nestOperands, e);
    PlannedIsSound(p, e, {}, edgeFirst, edgeFirst);
    assert QueryPlanOk(p) && Specific(p, {}) && (edgeFirst ==> NestsEdgeFirst(p));
    hide Sound, Planned, ResultAt, MeaningAt, ContentsAt, Den;
    forall g: Graph, sp: Position ensures ResultAt(g, p, sp) == MeaningAt(g, e, sp) {
      ResultIsMeaning(g, e, p, sp, edgeFirst);
    }
    if IsPointwise(Naive(e), {}, {}) {
      forall g: Graph, sp: Position, v: Assignment
        ensures ContentsAt(Sem(World(g, true), p, sp, {}), v) == Den(g, Naive(e), sp, v)
      {
        ResultsAreReadings(g, e, p, sp, v, edgeFirst);
      }
    }
    if Shapes(e).Some? { PlannedIsOk(e, p, edgeFirst); }
  }
}
