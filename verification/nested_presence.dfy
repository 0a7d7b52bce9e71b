/** Cached vertex-first expressions. */
module NestedPresence {
  import opened Base
  import opened Plans
  import opened Semantics
  import opened Dependencies
  import opened AbsentStarts
  import opened Matching
  import opened NestedCache
  import opened NestedRefresh
  import opened Visiting
  import opened Matcher

  // Matching the plan comes to nothing where the start vertex is missing.
  ghost predicate BeginsWithVertex(p: Plan)
    decreases p
  {
    match p
    case PVertex(_) => true
    case PPath(path) => path.Alternates() && path.Length() > 0 && path.start.CORE?
    case PPathToVertex(prefix, _, _) => prefix.Alternates() && prefix.Length() > 0 && prefix.start.CORE?
    case PConcatenation(ops) => ops != [] && BeginsWithVertex(ops[0])
    case POr(ops) => forall o :: o in ops ==> BeginsWithVertex(o)
    case PAndWithoutSetRef(ops) => ops != [] && BeginsWithVertex(ops[0])
    case PAnd(ops) => ops != [] && BeginsWithVertex(ops[0])
    case PAllAnd(ops) => ops != [] && BeginsWithVertex(ops[0])
    case PAllWithoutSetRef(op) => BeginsWithVertex(op)
    case PAll(op) => BeginsWithVertex(op)
    case PIfWithoutSetRef(op) => BeginsWithVertex(op)
    case PIf(op) => BeginsWithVertex(op)
    case PSkip(op) => BeginsWithVertex(op)
    case _ => false
  }

  // The plan, or the operand that it negates or may do without, begins with a vertex.
  ghost predicate TestsStart(p: Plan) {
    BeginsWithVertex(p) ||
    ((p.PUnless? || p.PUnlessWithoutSetNonLocalRef? || p.PMaybe?) && BeginsWithVertex(p.operand))
  }

  lemma {:induction false} AbsentMisses(p: Plan, g: Graph, start: Start)
    requires BeginsWithVertex(p) && start.position.v !in g.vertices
    ensures MissesStart(p, g, start)
    decreases p
  {
    match p
    case PVertex(_) =>
    case PPath(path) =>
    case PPathToVertex(prefix, _, _) =>
    case PConcatenation(ops) => AbsentMisses(ops[0], g, start);
    case POr(ops) => forall o | o in ops ensures MissesStart(o, g, start) { AbsentMisses(o, g, start); }
    case PAndWithoutSetRef(ops) => AbsentMisses(ops[0], g, start);
    case PAnd(ops) => AbsentMisses(ops[0], g, start);
    case PAllAnd(ops) => AbsentMisses(ops[0], g, start);
    case PAllWithoutSetRef(op) => AbsentMisses(op, g, start);
    case PAll(op) => AbsentMisses(op, g, start);
    case PIfWithoutSetRef(op) => AbsentMisses(op, g, start);
    case PIf(op) => AbsentMisses(op, g, start);
    case PSkip(op) => AbsentMisses(op, g, start);
  }

  // In some graph, the nested expression doesn't match as it does without any vertices.
  ghost predicate VertexMatters(n: NestedStart) {
    exists h: Graph :: WellFormed(h) && NestedSem(h, n) != NestedSem(Graph({}, {}), n)
  }

  // What was recorded for a cached expression that begins with a vertex settles it if and only if the vertex was
  // there then, unless it makes no difference.
  lemma SettledWhilePresent(g: Graph, n: NestedStart, obs: set<Observable>)
    requires WellFormed(g) && TestsStart(n.plan) && n.pos.kind.CORE? && VertexMatters(n) && RecordedFor(g, n, obs)
    ensures Settled(g, obs, n) <==> n.pos.v in g.vertices
  {
    var w, none, start := World(g, true), Graph({}, {}), Start(n.pos, n.pos, n.refs);
    if n.pos.v in g.vertices {
      NestedIsSettled(w, n, obs);
    } else {
      if BeginsWithVertex(n.plan) {
        AbsentMisses(n.plan, g, start);
      } else {
        AbsentMisses(n.plan.operand, g, start);
      }
      MatchesFromAbsent(w, none, n.plan, n.pos, n.refs);
      var h: Graph :| WellFormed(h) && NestedSem(h, n) != NestedSem(none, n);
      assert Alike(g, h, obs);
      assert NestedSem(h, n) != NestedSem(g, n);
    }
  }

  // Any vertex, and an edge from it.
  const VERTEX_AND_EDGE := MatchPath(CORE, [MatchEdge(Forward, None, None)], [MatchVertex(None, None, None, None)])

  function EntryAt(v: VertexID): NestedStart { NestedStart({}, PPath(VERTEX_AND_EDGE), Position(v, CORE), {}) }

  // So an entry that was matched while its vertex was removed stays empty when the vertex and its edges are added
  // again: the cache was right before, it depends on nothing that could tell, and it isn't right any more.
  method ReaddedVertexIsMissed(v: VertexID, lab: Label, less: (Observable, Observable) -> bool)
      returns (registry: NestedRegistry)
    ensures fresh(registry) && Wired(registry.State()) && AllUpToDate(registry.State(), Graph({}, {}))
    ensures EntryAt(v) in registry.subgraphs && registry.subgraphs[EntryAt(v)] == {}
    ensures EntryAt(v) in registry.deps && registry.deps[EntryAt(v)] == {}
    ensures var h := Graph({v}, {Edge(v, lab, v)});
      NestedSem(h, EntryAt(v)) != {} && !NoneReturns(registry.State(), Graph({}, {}), h)
  {
    var g, n := Graph({}, {}), EntryAt(v);
    registry := new NestedRegistry(less, Scope(false, {v}));
    ghost var limit := Limit(HeightOf(n) + 1, registry.scope);
    EntryIsSupported(v);
    NothingCachedIsReady(limit, g);
    AbsentMisses(n.plan, g, Start(n.pos, n.pos, n.refs));
    var s := registry.Get(Query(g, {v}), n, limit);
    MatchesNothing(v);
    LoopMatches(v, lab);
    OnlyEntry(registry.State(), g, limit, v);
  }

  lemma EntryIsSupported(v: VertexID)
    ensures EntryOk(EntryAt(v)) && InScope(Scope(false, {v}), Nested(EntryAt(v)), EntryAt(v).pos)
    ensures BeginsWithVertex(EntryAt(v).plan)
  {}

  lemma NothingCachedIsReady(limit: Limit, g: Graph)
    requires g.vertices <= limit.scope.known
    ensures Ready(EmptyCache(limit.scope), g, limit)
  {}

  lemma MatchesNothing(v: VertexID)
    ensures NestedSem(Graph({}, {}), EntryAt(v)) == {}
  {
    var g, pos := Graph({}, {}), Position(v, CORE);
    assert VERTEX_AND_EDGE.Items()[0] == VertexStep(VERTEX_AND_EDGE.vertices[0]);
    assert VertexMatch(g, VERTEX_AND_EDGE.vertices[0], pos, {}).None?;
  }

  lemma OnlyEntry(c: Cache, g: Graph, limit: Limit, v: VertexID)
    requires Ready(c, g, limit) && Grown(EmptyCache(limit.scope), c, limit.height)
    ensures Wired(c) && AllUpToDate(c, g)
  {
    forall n | n in c.subgraphs ensures UpToDate(c, g, n) {
      assert HeightOf(n) < limit.height;
    }
  }

  lemma LoopMatches(v: VertexID, lab: Label)
    ensures NestedSem(Graph({v}, {Edge(v, lab, v)}), EntryAt(v)) != {}
  {
    var e := Edge(v, lab, v);
    var h := Graph({v}, {e});
    var m, s := VERTEX_AND_EDGE.edges[0], VERTEX_AND_EDGE.vertices[0];
    var steps := VERTEX_AND_EDGE.Items();
    assert steps == [VertexStep(s), EdgeStep(m)] && steps[1..] == [EdgeStep(m)] && [EdgeStep(m)][1..] == [];
    var orbit := Position(v, ORBIT);
    assert e in Outgoing(h, v, None) && Hop({e}, v) in Hops(h, m, orbit);
    var end := EmptyAt(Position(v, CORE), {});
    assert end in SemSteps(h, [], Position(v, CORE), {});
    var tail := Join(Body(Content({}, {}, {e}), {}), end);
    assert tail in SemSteps(h, [EdgeStep(m)], orbit, {});
    assert VertexMatch(h, s, Position(v, CORE), {}) == Some({});
    assert Join(Body(Content({}, {v}, {}), {}), tail) in SemSteps(h, steps, Position(v, CORE), {});
  }
}
