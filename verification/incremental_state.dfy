/** What an incremental matcher knows. */
module IncrementalState {
  import opened Base
  import opened Plans
  import opened Semantics
  import opened Dependencies
  import opened Matching
  import opened NestedCache
  import opened Visiting
  import opened Expansion
  import opened Queries
  import opened Expressions
  import opened StartPositions
  import opened Observing

  // A pattern and its plan.
  datatype Pattern = Pattern(expr: Expr, plan: Plan)

  ghost function ShapesOf(p: Pattern): set<StartShape>
    requires Shapes(p.expr).Some?
  {
    Shapes(p.expr).value
  }

  // Matches only start where the shapes of the pattern do.
  ghost predicate Complete(p: Pattern)
    requires Shapes(p.expr).Some?
  {
    forall g: Graph, sp: Position {:trigger StartsAtSome(ShapesOf(p), g, sp)} ::
      WellFormed(g) && ResultAt(g, p.plan, sp) != {} ==> StartsAtSome(ShapesOf(p), g, sp)
  }

  // The pattern begins with a vertex that isn't a placeholder, or with an edge.
  ghost predicate PatternOk(p: Pattern) {
    ValidExpr(p.expr) && Shapes(p.expr).Some? && QueryPlanOk(p.plan) && Complete(p)
  }

  datatype State = State(
    depToPositions: map<Observable, set<ObservableStart>>,
    startToDeps: map<ObservableStart, set<Observable>>,
    last: map<Position, set<Body>>)

  ghost function LastAt(st: State, sp: Position): set<Body> { if sp in st.last then st.last[sp] else {} }

  function OwnDeps(st: State, sp: Position): set<Observable> {
    if AtPosition(sp) in st.startToDeps then st.startToDeps[AtPosition(sp)] else {}
  }

  ghost predicate Knows(m: map<Observable, set<ObservableStart>>, s: ObservableStart, d: Observable) {
    d in m && s in m[d]
  }

  ghost predicate ShouldKnow(p: Pattern, own: map<ObservableStart, set<Observable>>, s: ObservableStart, d: Observable)
    requires Shapes(p.expr).Some?
  {
    if s.AtPosition? then s in own && d in own[s] else Dep(d, s) in DepsOfShapes(ShapesOf(p))
  }

  // The maps are views of one relation.
  ghost predicate Coherent(p: Pattern, st: State)
    requires Shapes(p.expr).Some?
  {
    (forall s, d :: Knows(st.depToPositions, s, d) <==> ShouldKnow(p, st.startToDeps, s, d)) &&
    (forall d :: d in st.depToPositions ==> st.depToPositions[d] != {}) &&
    (forall s :: s in st.startToDeps ==> s.AtPosition?) &&
    forall sp :: sp in st.last ==> st.last[sp] != {}
  }

  ghost predicate RightAt(p: Pattern, st: State, g: Graph, sp: Position)
    requires Shapes(p.expr).Some?
  {
    LastAt(st, sp) == ResultAt(g, p.plan, sp) &&
    (StartsAtSome(ShapesOf(p), g, sp) ==> Covered(g, p.plan, OwnDeps(st, sp), sp))
  }

  // The last subgraphs are what matching from scratch finds.
  ghost predicate Right(p: Pattern, st: State, g: Graph)
    requires Shapes(p.expr).Some?
  {
    forall sp :: RightAt(p, st, g, sp)
  }

  // --------------------------------------------------------------------------
  // Observations
  // --------------------------------------------------------------------------

  // The observation makes the start rematch from the position.
  ghost predicate Triggers(s: ObservableStart, o: Observation, sp: Position) {
    match s
    case AtPosition(q) => sp == q
    case AbsentPosition(_) => false
    case EveryAddedVertex => sp.kind.CORE? && sp.v in o.addedVertices
    case EveryAddedEdge => sp.kind.ORBIT? && exists e :: e in o.addedEdges && (e.from == sp.v || e.to == sp.v)
  }

  ghost predicate Scheduled(st: State, os: set<Observation>, sp: Position) {
    exists o, s :: o in os && Knows(st.depToPositions, s, o.observable) && Triggers(s, o, sp)
  }

  // What was observed to be added is in the graph.
  ghost predicate Genuine(o: Observation, h: Graph) {
    o.addedVertices <= h.vertices && forall e :: e in o.addedEdges ==> e.from in h.vertices && e.to in h.vertices
  }

  // Everything that is depended on and has changed was observed.
  ghost predicate Told(st: State, g: Graph, h: Graph, os: set<Observation>) {
    (forall d :: d in st.depToPositions && !Same(g, h, d) ==> ObservationOf(Difference(g, h), d) in os) &&
    forall o :: o in os ==> Genuine(o, h)
  }

  // The plan, and the positions it was matched from, are in the scope of the registry.
  ghost predicate Fitting(p: Pattern, st: State, s: Scope) {
    (s.edgeFirst ==> NestsEdgeFirst(p.plan)) && forall k :: k in st.startToDeps && k.AtPosition? ==> k.pos.v in s.known
  }

  lemma ScheduledIsInScope(p: Pattern, st: State, h: Graph, os: set<Observation>, s: Scope, sp: Position)
    requires Shapes(p.expr).Some? && Coherent(p, st) && Fitting(p, st, s) && Scheduled(st, os, sp)
    requires h.vertices <= s.known && forall o :: o in os ==> Genuine(o, h)
    ensures InScope(s, p.plan, sp)
  {
    var o, k :| o in os && Knows(st.depToPositions, k, o.observable) && Triggers(k, o, sp);
    assert ShouldKnow(p, st.startToDeps, k, o.observable);
    assert Genuine(o, h);
  }

  // Without observations, the own dependencies of a position are the same.
  lemma OwnDepsAgree(p: Pattern, st: State, g: Graph, h: Graph, os: set<Observation>, sp: Position)
    requires Shapes(p.expr).Some? && Coherent(p, st) && Told(st, g, h, os) && !Scheduled(st, os, sp)
    ensures Agrees(g, h, OwnDeps(st, sp))
  {
    forall d | d in OwnDeps(st, sp) ensures Same(g, h, d) {
      assert ShouldKnow(p, st.startToDeps, AtPosition(sp), d);
      assert Knows(st.depToPositions, AtPosition(sp), d);
      var o := ObservationOf(Difference(g, h), d);
      if o in os { assert Triggers(AtPosition(sp), o, sp); }
    }
  }

  // Without observations, nothing new starts at a position.
  lemma NothingStarts(p: Pattern, st: State, g: Graph, h: Graph, os: set<Observation>, sp: Position)
    requires Shapes(p.expr).Some? && Coherent(p, st) && Told(st, g, h, os) && !Scheduled(st, os, sp)
    requires StartsAtSome(ShapesOf(p), h, sp)
    ensures StartsAtSome(ShapesOf(p), g, sp)
  {
    var s :| s in ShapesOf(p) && StartsAt(s, h, sp);
    if !StartsAt(s, g, sp) {
      if s.AtVertex? {
        VertexStarts(p, st, g, h, os, sp, s);
      } else {
        EdgeStartsAnew(p, st, g, h, os, sp, s);
      }
    }
  }

  lemma VertexStarts(p: Pattern, st: State, g: Graph, h: Graph, os: set<Observation>, sp: Position, s: StartShape)
    requires Shapes(p.expr).Some? && Coherent(p, st) && Told(st, g, h, os)
    requires s in ShapesOf(p) && s.AtVertex? && StartsAt(s, h, sp) && !StartsAt(s, g, sp)
    ensures Scheduled(st, os, sp)
  {
    var d := if s.typeName.Some? then NewVertexOfType(s.typeName.value) else NewVertex;
    assert Dep(d, EveryAddedVertex) in DepsOfShape(s);
    assert ShouldKnow(p, st.startToDeps, EveryAddedVertex, d);
    assert Knows(st.depToPositions, EveryAddedVertex, d);
    assert !Same(g, h, d) by { assert sp.v in h.vertices && sp.v !in g.vertices; }
    assert Triggers(EveryAddedVertex, ObservationOf(Difference(g, h), d), sp);
  }

  lemma EdgeStartsAnew(p: Pattern, st: State, g: Graph, h: Graph, os: set<Observation>, sp: Position, s: StartShape)
    requires Shapes(p.expr).Some? && Coherent(p, st) && Told(st, g, h, os)
    requires s in ShapesOf(p) && s.AtEdge? && StartsAt(s, h, sp) && !StartsAt(s, g, sp)
    ensures Scheduled(st, os, sp)
  {
    var e :| e in h.edges && EdgeStarts(s, e, sp.v);
    var d := if s.labels.None? then NewEdge else NewEdgeWithLabel(e.lab);
    assert Dep(d, EveryAddedEdge) in DepsOfShape(s);
    assert ShouldKnow(p, st.startToDeps, EveryAddedEdge, d);
    assert Knows(st.depToPositions, EveryAddedEdge, d);
    assert e !in g.edges;
    assert !Same(g, h, d);
    var o := ObservationOf(Difference(g, h), d);
    assert e in o.addedEdges;
    assert Triggers(EveryAddedEdge, o, sp);
  }

  // A position that nothing was observed at needn't be rematched.
  lemma UnscheduledStays(p: Pattern, st: State, g: Graph, h: Graph, os: set<Observation>, sp: Position)
    requires PatternOk(p) && Coherent(p, st) && RightAt(p, st, g, sp) && WellFormed(g) && WellFormed(h)
    requires Told(st, g, h, os) && !Scheduled(st, os, sp)
    ensures RightAt(p, st, h, sp)
  {
    OwnDepsAgree(p, st, g, h, os, sp);
    var deps, ss := OwnDeps(st, sp), ShapesOf(p);
    if StartsAtSome(ss, h, sp) { NothingStarts(p, st, g, h, os, sp); }
    if StartsAtSome(ss, g, sp) {
      HereAtStart(p, g, sp);
      assert Alike(g, h, deps);
      CoveredStays(p.plan, g, h, deps, sp);
    } else {
      assert ResultAt(g, p.plan, sp) == {} && ResultAt(h, p.plan, sp) == {};
    }
  }

  lemma HereAtStart(p: Pattern, g: Graph, sp: Position)
    requires Shapes(p.expr).Some? && StartsAtSome(ShapesOf(p), g, sp)
    ensures Here(p.plan, sp, g)
  {}

  lemma CoveredStays(plan: Plan, g: Graph, h: Graph, deps: set<Observable>, sp: Position)
    requires Covered(g, plan, deps, sp) && Alike(g, h, deps) && Here(plan, sp, g)
    ensures ResultAt(h, plan, sp) == ResultAt(g, plan, sp) && Covered(h, plan, deps, sp)
  {
    forall k: Graph | Alike(h, k, deps) ensures Alike(g, k, deps) { AgreesTransitive(g, h, k, deps); }
  }

  // --------------------------------------------------------------------------
  // Rematching
  // --------------------------------------------------------------------------

  // The positions were rematched, and nothing else has changed.
  ghost predicate Rematched(p: Pattern, st: State, next: State, h: Graph, sps: set<Position>) {
    (forall sp :: sp in sps ==>
        LastAt(next, sp) == ResultAt(h, p.plan, sp) &&
        Covered(h, p.plan, OwnDeps(next, sp), sp)) &&
    (forall sp :: sp !in sps ==> LastAt(next, sp) == LastAt(st, sp) && OwnDeps(next, sp) == OwnDeps(st, sp))
  }

  lemma RematchedIsRight(p: Pattern, st: State, next: State, g: Graph, h: Graph, os: set<Observation>,
      sps: set<Position>)
    requires PatternOk(p) && Coherent(p, st) && Right(p, st, g) && WellFormed(g) && WellFormed(h) && Told(st, g, h, os)
    requires (forall sp :: sp in sps <==> Scheduled(st, os, sp)) && Rematched(p, st, next, h, sps)
    ensures Right(p, next, h)
  {
    forall sp: Position ensures RightAt(p, next, h, sp) {
      if sp !in sps {
        assert RightAt(p, st, g, sp);
        UnscheduledStays(p, st, g, h, os, sp);
      }
    }
  }

  // A matcher that wasn't told anything is still right.
  lemma NotToldIsRight(p: Pattern, st: State, g: Graph, h: Graph)
    requires PatternOk(p) && Coherent(p, st) && Right(p, st, g) && WellFormed(g) && WellFormed(h) && Told(st, g, h, {})
    ensures Right(p, st, h)
  {
    forall sp: Position ensures RightAt(p, st, h, sp) {
      assert RightAt(p, st, g, sp);
      assert !Scheduled(st, {}, sp);
      UnscheduledStays(p, st, g, h, {}, sp);
    }
  }
}
