/** Matching from a missing vertex. */
module AbsentStarts {
  import opened Base
  import opened RefsAlgebra
  import opened Plans
  import opened Semantics
  import opened RefTracking
  import opened Unfolding

  ghost predicate AllStayAt(s: set<Body>, pos: Position) { forall b :: b in s ==> b.content.ends <= {pos} }

  // Both graphs are without the vertex.
  ghost predicate Absent(g: Graph, h: Graph, pos: Position) {
    pos.kind.CORE? && pos.v !in g.vertices && pos.v !in h.vertices
  }

  lemma StepsFromAbsent(g: Graph, h: Graph, steps: seq<Step>, pos: Position, refs: Refs)
    requires Absent(g, h, pos)
    ensures SemSteps(g, steps, pos, refs) == SemSteps(h, steps, pos, refs) &&
        AllStayAt(SemSteps(g, steps, pos, refs), pos)
  {
    if steps != [] && steps[0].EdgeStep? {
      assert Hops(g, steps[0].edge, pos) == {} && Hops(h, steps[0].edge, pos) == {};
      assert SemSteps(g, steps, pos, refs) == {} == SemSteps(h, steps, pos, refs);
    }
  }

  // A plan may match there, like a negation does, but then it stays there, and the graph doesn't matter.
  lemma {:induction false} MatchesFromAbsent(w: World, h: Graph, p: Plan, pos: Position, refs: Refs)
    requires Absent(w.graph, h, pos)
    ensures Sem(w, p, pos, refs) == Sem(World(h, w.cached), p, pos, refs) && AllStayAt(Sem(w, p, pos, refs), pos)
    decreases p, 0, 0
  {
    hide SemSteps, AndOf, AllOf, Applied, Meet, FromCache, Absent;
    match p
    case PVertex(m) => StepsFromAbsent(w.graph, h, [VertexStep(m)], pos, refs);
    case PEdge(m) => StepsFromAbsent(w.graph, h, [EdgeStep(m)], pos, refs);
    case PNoop =>
    case PPath(path) => StepsFromAbsent(w.graph, h, PathSteps(path), pos, refs);
    case PPathToVertex(prefix, e, m) => StepsFromAbsent(w.graph, h, PathToVertexSteps(prefix, e, m), pos, refs);
    case PConcatenation(ops) => ConcatFromAbsent(w, h, ops, pos, refs);
    case POr(ops) => EachFromAbsent(w, h, ops, pos, refs);
    case PAndWithoutSetRef(ops) => EachFromAbsent(w, h, ops, pos, refs);
    case PAnd(ops) =>
      EachFromAbsent(w, h, ops, pos, refs);
      JoinsStayAt(SemEach(w, ops, pos, refs), pos);
    case PAllAnd(ops) =>
      EachFromAbsent(w, h, ops, pos, refs);
      JoinsStayAt(SemEach(w, ops, pos, refs), pos);
    case PNested(names, plan) =>
      MatchesFromAbsent(w, h, plan, pos, Restrict(refs, names));
      MatchesFromAbsent(w, h, plan, pos, refs);
      FromCacheStaysAt(refs, Sem(w, plan, pos, Restrict(refs, names)), pos);
    case PRepetition(op, min, max) => RepeatFromAbsent(w, h, op, min, max, 0, EmptyAt(pos, refs), pos);
    case _ =>
      MatchesFromAbsent(w, h, p.operand, pos, refs);
      UnaryUnfold(w, p, pos, refs);
      UnaryUnfold(World(h, w.cached), p, pos, refs);
      AppliedStaysAt(p, Sem(w, p.operand, pos, refs), pos, refs);
  }

  lemma FromCacheStaysAt(refs: Refs, s: set<Body>, pos: Position)
    requires AllStayAt(s, pos)
    ensures AllStayAt(FromCache(refs, s), pos)
  {}

  lemma MergedStaysAt(cs: set<Content>, pos: Position)
    requires forall c :: c in cs ==> c.ends <= {pos}
    ensures Merged(cs).ends <= {pos}
  {}

  lemma JoinsStayAt(ss: seq<set<Body>>, pos: Position)
    requires AllStayAt(Union(ss), pos)
    ensures AllStayAt(AndOf(ss), pos) && AllStayAt(AllOf(ss), pos)
  {
    forall m: set<Refs> ensures AllStayAt(MergedCell(Union(ss), m), pos) {
      MergedStaysAt(ContentsIn(Union(ss), m), pos);
    }
  }

  lemma AppliedStaysAt(p: Plan, s: set<Body>, pos: Position, refs: Refs)
    requires IsUnary(p) && AllStayAt(s, pos)
    ensures AllStayAt(Applied(p, s, pos, refs), pos)
  {
    match p
    case PAllWithoutSetRef(_) => MergedStaysAt(ContentsOf(s), pos);
    case PAll(_) =>
      forall b | b in Union([s]) ensures b in s { assert [s][0] == s; }
      JoinsStayAt([s], pos);
    case _ =>
  }

  lemma {:induction false} EachFromAbsent(w: World, h: Graph, ops: seq<Plan>, pos: Position, refs: Refs)
    requires Absent(w.graph, h, pos)
    ensures SemEach(w, ops, pos, refs) == SemEach(World(h, w.cached), ops, pos, refs)
    ensures AllStayAt(Union(SemEach(w, ops, pos, refs)), pos)
    ensures forall s :: s in SemEach(w, ops, pos, refs) ==> AllStayAt(s, pos)
    decreases ops, 0, 0
  {
    hide Sem, Absent;
    var ss, ts := SemEach(w, ops, pos, refs), SemEach(World(h, w.cached), ops, pos, refs);
    forall i | 0 <= i < |ops| ensures ss[i] == ts[i] && AllStayAt(ss[i], pos) {
      SemEachAt(w, ops, pos, refs, i);
      SemEachAt(World(h, w.cached), ops, pos, refs, i);
      assert ops[i] in ops;
      MatchesFromAbsent(w, h, ops[i], pos, refs);
    }
  }

  lemma {:induction false} ConcatFromAbsent(w: World, h: Graph, ops: seq<Plan>, pos: Position, refs: Refs)
    requires Absent(w.graph, h, pos)
    ensures SemConcat(w, ops, pos, refs) == SemConcat(World(h, w.cached), ops, pos, refs)
    ensures AllStayAt(SemConcat(w, ops, pos, refs), pos)
    decreases ops, 0, 0
  {
    hide Sem, Absent;
    if ops != [] {
      MatchesFromAbsent(w, h, ops[0], pos, refs);
      var s := Sem(w, ops[0], pos, refs);
      forall b, q | b in s && q in b.content.ends
        ensures SemConcat(w, ops[1..], q, b.refs) == SemConcat(World(h, w.cached), ops[1..], q, b.refs)
        ensures AllStayAt(SemConcat(w, ops[1..], q, b.refs), pos)
      {
        assert q == pos;
        ConcatFromAbsent(w, h, ops[1..], q, b.refs);
      }
      ConcatUnfold(w, ops, pos, refs);
      ConcatUnfold(World(h, w.cached), ops, pos, refs);
    }
  }

  lemma {:induction false} RepeatFromAbsent(w: World, h: Graph, op: Plan, min: nat, max: nat, k: nat, chain: Body,
      pos: Position)
    requires Absent(w.graph, h, pos) && chain.content.ends <= {pos}
    ensures SemRepeat(w, op, min, max, k, chain) == SemRepeat(World(h, w.cached), op, min, max, k, chain)
    ensures AllStayAt(SemRepeat(w, op, min, max, k, chain), pos)
    decreases op, 1, max - k
  {
    hide Sem, Absent, Continued;
    var x := World(h, w.cached);
    LinksFromAbsent(w, h, op, max, k, chain, pos);
    if Continued(w, op, max, k, chain) != {} {
      var cs := Continued(w, op, max, k, chain);
      MoreBelowMax(w, op, max, k, chain);
      forall c | c in cs
        ensures SemRepeat(w, op, min, max, k + 1, c) == SemRepeat(x, op, min, max, k + 1, c)
        ensures AllStayAt(SemRepeat(w, op, min, max, k + 1, c), pos)
      {
        RepeatFromAbsent(w, h, op, min, max, k + 1, c, pos);
      }
      RepeatUnfold(w, op, min, max, k, chain);
      RepeatUnfold(x, op, min, max, k, chain);
    }
  }

  lemma MoreBelowMax(w: World, op: Plan, max: nat, k: nat, chain: Body)
    requires Continued(w, op, max, k, chain) != {}
    ensures k < max
  {}

  lemma {:induction false} LinksFromAbsent(w: World, h: Graph, op: Plan, max: nat, k: nat, chain: Body, pos: Position)
    requires Absent(w.graph, h, pos) && chain.content.ends <= {pos}
    ensures Continued(w, op, max, k, chain) == Continued(World(h, w.cached), op, max, k, chain)
    ensures forall c :: c in Continued(w, op, max, k, chain) ==> c.content.ends <= {pos}
    decreases op, 0
  {
    hide Sem, Absent;
    MatchesFromAbsent(w, h, op, pos, chain.refs);
    forall c | c in Continued(w, op, max, k, chain) ensures c.content.ends <= {pos} {
      var q, t :| q in chain.content.ends && t in Sem(w, op, q, chain.refs) && c == Join(chain, t);
      assert q == pos;
    }
    forall q | q in chain.content.ends ensures Sem(w, op, q, chain.refs) == Sem(World(h, w.cached), op, q, chain.refs) {
      assert q == pos;
    }
  }
}
