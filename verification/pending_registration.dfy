/** Registering while updates wait. */
module PendingRegistration {
  // They know the graph with these updates, but the changes they are told about next are those since the updates that
  // were applied.

  import opened Base
  import opened Semantics
  import opened Plans
  import opened Expressions
  import opened StartPositions
  import opened Expansion
  import opened Observing
  import opened IncrementalState
  import opened Planning
  import opened PlannedPatterns

  // When the waiting updates are taken back, nothing has changed since the applied graph, and nobody is told anything.
  // So all observers that know the other graph are right, whatever their patterns and positions, if and only if no
  // update was waiting.
  lemma RightWhenNothingWaits(applied: Graph, known: Graph)
    requires WellFormed(applied) && WellFormed(known)
    ensures Difference(applied, applied) == GraphChanges({}, {}, {}, {})
    ensures (forall p: Pattern, sp: Position :: PatternOk(p) ==> SameResult(p, sp, applied, known)) <==>
      applied == known
  {
    if applied != known {
      var p, sp := FindsDifference(applied, known);
      assert PatternOk(p) && !SameResult(p, sp, applied, known);
    }
  }

  ghost predicate SameResult(p: Pattern, sp: Position, g: Graph, h: Graph) {
    ResultAt(g, p.plan, sp) == ResultAt(h, p.plan, sp)
  }

  // If updates were waiting, there is a pattern whose observer, right about the one graph, is wrong about the other.
  lemma SomeObserverIsWrong(applied: Graph, known: Graph) returns (p: Pattern)
    requires WellFormed(applied) && WellFormed(known) && applied != known
    ensures PatternOk(p) && forall st: State :: Right(p, st, known) ==> !Right(p, st, applied)
  {
    var sp;
    p, sp := FindsDifference(applied, known);
    forall st: State | Right(p, st, known) ensures !Right(p, st, applied) {
      assert RightAt(p, st, known, sp);
      assert !RightAt(p, st, applied, sp);
    }
  }

  lemma FindsDifference(g: Graph, h: Graph) returns (p: Pattern, sp: Position)
    requires WellFormed(g) && WellFormed(h) && g != h
    ensures PatternOk(p) && !SameResult(p, sp, g, h)
  {
    AnyAreOk();
    if v :| v in g.vertices - h.vertices {
      p, sp := ANY_VERTEX, Position(v, CORE);
      VertexIsFound(g, v);
    } else if v :| v in h.vertices - g.vertices {
      p, sp := ANY_VERTEX, Position(v, CORE);
      VertexIsFound(h, v);
    } else if e :| e in g.edges - h.edges {
      p, sp := ANY_EDGE, Position(e.from, ORBIT);
      EdgeIsFound(g, e);
      EdgeIsFound(h, e);
    } else if e :| e in h.edges - g.edges {
      p, sp := ANY_EDGE, Position(e.from, ORBIT);
      EdgeIsFound(g, e);
      EdgeIsFound(h, e);
    } else {
      NoDifference(g, h);
      assert false;
    }
  }

  lemma AnyAreOk()
    ensures PatternOk(ANY_VERTEX) && PatternOk(ANY_EDGE)
  {
    VertexIsSound(None, None, None, {}, false);
    PlannedIsOk(ANY_VERTEX.expr, ANY_VERTEX.plan, false);
    EdgeIsSound(ANY_EDGE.expr, {}, false);
    PlannedIsOk(ANY_EDGE.expr, ANY_EDGE.plan, false);
  }

  // Any vertex.
  const ANY_VERTEX := Pattern(VertexExpr(None, None, None), PVertex(MatchVertex(None, None, None, None)))

  // Any edge, from a vertex.
  const ANY_EDGE := Pattern(EdgeExpr(Forward, None, None), PEdge(MatchEdge(Forward, None, None)))

  // An observer of all vertices is registered while a vertex waits to be applied. When the vertex is removed again,
  // there are no changes to tell about, but what the observer knows isn't right any more.
  lemma PendingVertexIsKept(v: VertexID, st: State)
    requires Shapes(ANY_VERTEX.expr).Some? && Right(ANY_VERTEX, st, Graph({v}, {}))
    ensures Difference(Graph({}, {}), Graph({}, {})) == GraphChanges({}, {}, {}, {})
    ensures !Right(ANY_VERTEX, st, Graph({}, {}))
  {
    var sp := Position(v, CORE);
    assert RightAt(ANY_VERTEX, st, Graph({v}, {}), sp);
    VertexIsFound(Graph({v}, {}), v);
    assert ResultAt(Graph({}, {}), ANY_VERTEX.plan, sp) == {};
    assert !RightAt(ANY_VERTEX, st, Graph({}, {}), sp);
  }

  lemma VertexIsFound(g: Graph, v: VertexID)
    requires v in g.vertices
    ensures ResultAt(g, ANY_VERTEX.plan, Position(v, CORE)) != {}
  {
    var pos := Position(v, CORE);
    var s, m := Sem(World(g, true), ANY_VERTEX.plan, pos, {}), ANY_VERTEX.plan.vertex;
    assert VertexMatch(g, m, pos, {}) == Some({});
    var b := Join(Body(Content({}, {v}, {}), {}), EmptyAt(Position(v, ORBIT), {}));
    assert b in SemSteps(g, [VertexStep(m)], pos, {}) by {
      assert EmptyAt(Position(v, ORBIT), {}) in SemSteps(g, [], Position(v, ORBIT), {});
    }
    assert b.refs in VariantsOf(g, b.refs);
    assert Body(b.content, b.refs) in Expanded(g, s);
  }

  lemma EdgeIsFound(g: Graph, e: Edge)
    ensures e in g.edges <==>
      exists b :: b in ResultAt(g, ANY_EDGE.plan, Position(e.from, ORBIT)) && b.content.edges == {e}
  {
    var pos, m := Position(e.from, ORBIT), ANY_EDGE.plan.edge;
    var s := Sem(World(g, true), ANY_EDGE.plan, pos, {});
    forall x | x in s ensures exists f :: f in g.edges && x.content.edges == {f} {
      var hop, t :| hop in Hops(g, m, pos) && t in SemSteps(g, [], Position(hop.to, CORE), {}) &&
        x == Join(Body(Content({}, {}, hop.edges), {}), t);
      assert t.content.edges == {};
    }
    if e in g.edges {
      var hop := Hop({e}, e.to);
      assert e in Outgoing(g, e.from, None) && hop in Hops(g, m, pos);
      var t := EmptyAt(Position(e.to, CORE), {});
      assert t in SemSteps(g, [], Position(hop.to, CORE), {});
      var b := Join(Body(Content({}, {}, {e}), {}), t);
      assert b in s && b.content.edges == {e};
      assert b.refs in VariantsOf(g, b.refs);
      assert Body(b.content, b.refs) in Expanded(g, s);
    }
    if b :| b in ResultAt(g, ANY_EDGE.plan, pos) && b.content.edges == {e} {
      var x, v :| x in s && v in VariantsOf(g, x.refs) && b == Body(x.content, v);
      var f :| f in g.edges && x.content.edges == {f};
      assert f in {e};
    }
  }
}
