/** What refs of matches are made of. */
module FiniteRefs {
  import opened Base
  import opened RefsAlgebra
  import opened RefsUnions
  import opened Arrangement
  import opened Plans
  import opened Semantics
  import opened RefTracking
  import opened Unfolding
  import opened Mentions

  // The names and values that refs may be made of.
  datatype Palette = Palette(names: RefNames, values: set<VertexID>)

  ghost predicate Over(r: set<Literal>, c: Palette) { forall l :: l in r ==> l.name in c.names && l.value in c.values }

  ghost predicate AllOver(rs: set<Refs>, c: Palette) { forall r :: r in rs ==> Over(r, c) }

  ghost predicate BodiesOver(s: set<Body>, c: Palette) { forall b :: b in s ==> Over(b.refs, c) }

  // --------------------------------------------------------------------------
  // Terms of regions
  // --------------------------------------------------------------------------

  lemma MetByOver(ts: set<Refs>, r: Refs, c: Palette)
    requires AllOver(ts, c) && Over(r, c)
    ensures AllOver(MetBy(ts, r), c)
  {}

  lemma SubtractedOver(ts: set<Refs>, r: Refs, c: Palette)
    requires AllOver(ts, c) && Over(r, c)
    ensures AllOver(SubtractFromUnion(ts, r), c)
  {
    forall t | t in ts ensures AllOver(Subtract(t, r), c) {
      forall l | l in r ensures Over(Exclusion(l), c) {}
    }
  }

  lemma {:induction false} TermsOver(g: Region, c: Palette)
    requires AllOver(g.must, c) && AllOver(g.mustNot, c)
    ensures AllOver(Terms(g), c)
    decreases |g.must| + |g.mustNot|
  {
    hide Exact, MetBy, SubtractFromUnion, Over;
    if g.must != {} {
      var r :| r in g.must;
      var h := Region(g.must - {r}, g.mustNot);
      TermsOver(h, c);
      MetByOver(Terms(h), r, c);
      TermsWithin(g, h, r);
    } else if g.mustNot != {} {
      var r :| r in g.mustNot;
      var h := Region(g.must, g.mustNot - {r});
      TermsOver(h, c);
      SubtractedOver(Terms(h), r, c);
      TermsWithout(g, h, r);
    } else {
      SingletonIsExact({}, g);
      TermsOf({{}}, g);
      assert Over({}, c) by { NothingOver(c); }
    }
  }

  lemma NothingOver(c: Palette)
    ensures Over({}, c)
  {}

  lemma TermsWithin(g: Region, h: Region, r: Refs)
    requires r in g.must && h == Region(g.must - {r}, g.mustNot)
    ensures Terms(g) == Simplified(MetBy(Terms(h), r))
  {
    hide AllWithin, Covering, Dominating, Antichain, Simplified, MetBy;
    assert Region(h.must + {r}, h.mustNot) == g;
    MetByIsAdequate(Terms(h), h, r);
    SimplifiedIsExact(MetBy(Terms(h), r), g);
    TermsOf(Simplified(MetBy(Terms(h), r)), g);
  }

  lemma TermsWithout(g: Region, h: Region, r: Refs)
    requires r in g.mustNot && h == Region(g.must, g.mustNot - {r})
    ensures Terms(g) == SubtractFromUnion(Terms(h), r)
  {
    hide AllWithin, Covering, Dominating, Antichain, SubtractFromUnion;
    assert Region(h.must, h.mustNot + {r}) == g;
    SubtractFromUnionIsDifference(Terms(h), h, r);
    TermsOf(SubtractFromUnion(Terms(h), r), g);
  }

  // --------------------------------------------------------------------------
  // Matches
  // --------------------------------------------------------------------------

  lemma {:induction false} StepsOver(g: Graph, steps: seq<Step>, pos: Position, refs: Refs, c: Palette)
    requires Over(refs, c) && BoundBySteps(steps) <= c.names && g.vertices <= c.values
    ensures BodiesOver(SemSteps(g, steps, pos, refs), c)
    decreases |steps|
  {
    if steps != [] {
      match steps[0]
      case VertexStep(m) =>
        var matched := VertexMatch(g, m, pos, refs);
        if matched.Some? { StepsOver(g, steps[1..], pos.WithKind(ORBIT), matched.value, c); }
      case EdgeStep(m) =>
        forall hop | hop in Hops(g, m, pos)
          ensures BodiesOver(SemSteps(g, steps[1..], Position(hop.to, CORE), refs), c)
        {
          StepsOver(g, steps[1..], Position(hop.to, CORE), refs, c);
        }
    }
  }

  // Whatever a plan matches has refs over the same names and values, given the plan's names and the vertices.
  lemma {:induction false} MatchesOver(w: World, p: Plan, pos: Position, refs: Refs, c: Palette)
    requires Over(refs, c) && Mentioned(p) <= c.names && w.graph.vertices <= c.values
    ensures BodiesOver(Sem(w, p, pos, refs), c)
    decreases p, 0, 0
  {
    hide Over, SemSteps, AndOf, AllOf, Applied, Meet, FromCache;
    match p
    case PVertex(m) =>
      assert BoundBySteps([VertexStep(m)]) == VertexRefs(m) + BoundBySteps([]);
      StepsOver(w.graph, [VertexStep(m)], pos, refs, c);
    case PEdge(m) =>
      assert BoundBySteps([EdgeStep(m)]) == {} + BoundBySteps([]);
      StepsOver(w.graph, [EdgeStep(m)], pos, refs, c);
    case PNoop =>
    case PPath(path) => StepsOver(w.graph, PathSteps(path), pos, refs, c);
    case PPathToVertex(prefix, e, v) => StepsOver(w.graph, PathToVertexSteps(prefix, e, v), pos, refs, c);
    case PConcatenation(ops) => ConcatOver(w, ops, pos, refs, c);
    case POr(ops) => EachOver(w, ops, pos, refs, c);
    case PAndWithoutSetRef(ops) => EachOver(w, ops, pos, refs, c);
    case PAnd(ops) =>
      EachOver(w, ops, pos, refs, c);
      JoinsOver(SemEach(w, ops, pos, refs), c);
    case PAllAnd(ops) =>
      EachOver(w, ops, pos, refs, c);
      JoinsOver(SemEach(w, ops, pos, refs), c);
    case PNested(names, plan) =>
      RestrictedOver(refs, names, c);
      MatchesOver(w, plan, pos, Restrict(refs, names), c);
      MatchesOver(w, plan, pos, refs, c);
      FromCacheOver(refs, Sem(w, plan, pos, Restrict(refs, names)), c);
    case PRepetition(op, min, max) => RepeatOver(w, op, min, max, 0, EmptyAt(pos, refs), c);
    case _ =>
      MatchesOver(w, p.operand, pos, refs, c);
      UnaryUnfold(w, p, pos, refs);
      AppliedOver(p, Sem(w, p.operand, pos, refs), pos, refs, c);
  }

  lemma RestrictedOver(r: Refs, names: RefNames, c: Palette)
    requires Over(r, c)
    ensures Over(Restrict(r, names), c)
  {}

  lemma FromCacheOver(refs: Refs, s: set<Body>, c: Palette)
    requires Over(refs, c) && BodiesOver(s, c)
    ensures BodiesOver(FromCache(refs, s), c)
  {}

  lemma JoinsOver(ss: seq<set<Body>>, c: Palette)
    requires BodiesOver(Union(ss), c)
    ensures BodiesOver(AndOf(ss), c) && BodiesOver(AllOf(ss), c)
  {
    hide Over;
    var all := RefsOf(Union(ss));
    forall m: set<Refs> | JoinCell(ss, m) ensures AllOver(CellTerms(m, all), c) {
      TermsOver(CellRegion(m, all), c);
    }
  }

  lemma AppliedOver(p: Plan, s: set<Body>, pos: Position, refs: Refs, c: Palette)
    requires IsUnary(p) && Over(refs, c) && BodiesOver(s, c)
    ensures BodiesOver(Applied(p, s, pos, refs), c)
  {
    hide Over;
    match p
    case PAll(_) =>
      forall b | b in Union([s]) ensures b in s { assert [s][0] == s; }
      JoinsOver([s], c);
    case PUnless(_, shared) =>
      forall b | b in s ensures Over(Restrict(b.refs, shared), c) { RestrictedOver(b.refs, shared, c); }
      TermsOver(UnlessRegion(refs, s, shared), c);
    case _ =>
  }

  lemma {:induction false} EachOver(w: World, ops: seq<Plan>, pos: Position, refs: Refs, c: Palette)
    requires Over(refs, c) && MentionedInAny(ops) <= c.names && w.graph.vertices <= c.values
    ensures BodiesOver(Union(SemEach(w, ops, pos, refs)), c)
    decreases ops, 0, 0
  {
    hide Over;
    var ss := SemEach(w, ops, pos, refs);
    forall i | 0 <= i < |ops| ensures BodiesOver(ss[i], c) {
      SemEachAt(w, ops, pos, refs, i);
      assert ops[i] in ops;
      MatchesOver(w, ops[i], pos, refs, c);
    }
  }

  lemma {:induction false} ConcatOver(w: World, ops: seq<Plan>, pos: Position, refs: Refs, c: Palette)
    requires Over(refs, c) && MentionedInAny(ops) <= c.names && w.graph.vertices <= c.values
    ensures BodiesOver(SemConcat(w, ops, pos, refs), c)
    decreases ops, 0, 0
  {
    hide Over, Sem;
    if ops != [] {
      MatchesOver(w, ops[0], pos, refs, c);
      var s := Sem(w, ops[0], pos, refs);
      forall h, q | h in s && q in h.content.ends ensures BodiesOver(SemConcat(w, ops[1..], q, h.refs), c) {
        ConcatOver(w, ops[1..], q, h.refs, c);
      }
      ConcatUnfold(w, ops, pos, refs);
    }
  }

  lemma {:induction false} RepeatOver(w: World, op: Plan, min: nat, max: nat, k: nat, chain: Body, c: Palette)
    requires Over(chain.refs, c) && Mentioned(op) <= c.names && w.graph.vertices <= c.values
    ensures BodiesOver(SemRepeat(w, op, min, max, k, chain), c)
    decreases op, 1, max - k
  {
    hide Over, Sem;
    if Continued(w, op, max, k, chain) != {} {
      forall d | d in Continued(w, op, max, k, chain) ensures BodiesOver(SemRepeat(w, op, min, max, k + 1, d), c) {
        LinkOver(w, op, max, k, chain, c, d);
        RepeatOver(w, op, min, max, k + 1, d, c);
      }
      RepeatUnfold(w, op, min, max, k, chain);
    }
  }

  lemma {:induction false} LinkOver(w: World, op: Plan, max: nat, k: nat, chain: Body, c: Palette, d: Body)
    requires Over(chain.refs, c) && Mentioned(op) <= c.names && w.graph.vertices <= c.values
    requires d in Continued(w, op, max, k, chain)
    ensures Over(d.refs, c)
    decreases op, 0
  {
    hide Over, Sem;
    var q, t :| q in chain.content.ends && t in Sem(w, op, q, chain.refs) && d == Join(chain, t);
    MatchesOver(w, op, q, chain.refs, c);
  }
}
