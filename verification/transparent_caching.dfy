/** Caching is transparent. */
module TransparentCaching {
  import opened Base
  import opened RefsAlgebra
  import opened Plans
  import opened Semantics
  import opened RefTracking
  import opened Mentions
  import opened Unfolding
  import opened Framing

  // The names of nested expressions are all the refs they mention.
  ghost predicate NamesCover(p: Plan)
    decreases p
  {
    match p
    case PVertex(_) => true
    case PEdge(_) => true
    case PNoop => true
    case PPath(_) => true
    case PPathToVertex(_, _, _) => true
    case PConcatenation(ops) => forall o :: o in ops ==> NamesCover(o)
    case POr(ops) => forall o :: o in ops ==> NamesCover(o)
    case PAndWithoutSetRef(ops) => forall o :: o in ops ==> NamesCover(o)
    case PAnd(ops) => forall o :: o in ops ==> NamesCover(o)
    case PAllAnd(ops) => forall o :: o in ops ==> NamesCover(o)
    case PNested(names, plan) => Mentioned(plan) <= names && NamesCover(plan)
    case _ => NamesCover(p.operand)
  }

  lemma MeetOfImplied(r: Refs, q: Refs)
    requires Incl(q, r)
    ensures Meet(r, q) == Some(q)
  {
    MeetIsIntersection(r, q);
    PointIsInside(q, {});
    assert Sat(r, Point(q, {})) && Sat(q, Point(q, {}));
    RefsAreCanonical(Meet(r, q).value, q);
  }

  // Matched with some of the refs only, subgraphs that imply these are given back the others.
  lemma FromCacheRestores(r: Refs, s: set<Body>, x: Refs, names: RefNames)
    requires ApartFromRefs(r, x, names) && AllNamed(s, names) && forall b :: b in s ==> Incl(b.refs, r)
    ensures FromCache(With(r, x), s) == Framed(s, x)
  {
    assert Framed(s, {}) == s by {
      forall b | b in s ensures FramedBody(b, {}) == b { assert b.refs + {} == b.refs; }
    }
    CacheFramed(r, s, x, {}, names);
    assert FromCache(r, s) == s by {
      forall b | b in s ensures Meet(r, b.refs) == Some(b.refs) { MeetOfImplied(r, b.refs); }
      hide Meet;
      forall b | b in s ensures b in FromCache(r, s) { assert Body(b.content, Meet(r, b.refs).value) == b; }
    }
  }

  lemma OtherRefs(refs: Refs, names: RefNames) returns (x: Refs)
    ensures ApartFromRefs(Restrict(refs, names), x, names) && With(Restrict(refs, names), x) == refs
  {
    x := set l | l in refs && l.name !in names;
    assert Names(Restrict(refs, names)) !! Names(x);
    assert Restrict(refs, names) + x == refs;
  }

  lemma NestedInPlace(w: World, names: RefNames, plan: Plan, pos: Position, refs: Refs)
    requires Mentioned(plan) <= names
    ensures FromCache(refs, Sem(w, plan, pos, Restrict(refs, names))) == Sem(w, plan, pos, refs)
  {
    var r := Restrict(refs, names);
    var x := OtherRefs(refs, names);
    var s := Sem(w, plan, pos, r);
    MatchesFramed(w, plan, pos, r, x, names);
    MatchesMention(w, plan, pos, r, names);
    MatchesRespect(w, plan, pos, r, {});
    forall b | b in s ensures Incl(b.refs, r) { assert Respects(r, b.refs, Bound(plan, {}), Changed(plan, {})); }
    FromCacheRestores(r, s, x, names);
  }

  // Nested expressions are cached for the refs they mention only, and nothing but time is saved by that.
  lemma {:induction false} CachingIsTransparent(g: Graph, p: Plan, pos: Position, refs: Refs)
    requires NamesCover(p)
    ensures Sem(World(g, true), p, pos, refs) == Sem(World(g, false), p, pos, refs)
    decreases p, 0, 0
  {
    hide SemSteps, AndOf, AllOf, Union, Applied, FromCache;
    var c, d := World(g, true), World(g, false);
    match p
    case PVertex(_) =>
    case PEdge(_) =>
    case PNoop =>
    case PPath(_) =>
    case PPathToVertex(_, _, _) =>
    case PConcatenation(ops) => ConcatIsTransparent(g, ops, pos, refs);
    case POr(ops) => EachIsTransparent(g, ops, pos, refs);
    case PAndWithoutSetRef(ops) => EachIsTransparent(g, ops, pos, refs);
    case PAnd(ops) => EachIsTransparent(g, ops, pos, refs);
    case PAllAnd(ops) => EachIsTransparent(g, ops, pos, refs);
    case PNested(names, plan) =>
      CachingIsTransparent(g, plan, pos, Restrict(refs, names));
      NestedInPlace(d, names, plan, pos, refs);
    case PRepetition(op, min, max) => RepeatIsTransparent(g, op, min, max, 0, EmptyAt(pos, refs));
    case _ =>
      CachingIsTransparent(g, p.operand, pos, refs);
      UnaryUnfold(c, p, pos, refs);
      UnaryUnfold(d, p, pos, refs);
  }

  lemma {:induction false} EachIsTransparent(g: Graph, ops: seq<Plan>, pos: Position, refs: Refs)
    requires forall o :: o in ops ==> NamesCover(o)
    ensures SemEach(World(g, true), ops, pos, refs) == SemEach(World(g, false), ops, pos, refs)
    decreases ops, 0, 0
  {
    hide Sem;
    if ops != [] {
      CachingIsTransparent(g, ops[0], pos, refs);
      EachIsTransparent(g, ops[1..], pos, refs);
    }
  }

  lemma {:induction false} ConcatIsTransparent(g: Graph, ops: seq<Plan>, pos: Position, refs: Refs)
    requires forall o :: o in ops ==> NamesCover(o)
    ensures SemConcat(World(g, true), ops, pos, refs) == SemConcat(World(g, false), ops, pos, refs)
    decreases ops, 0, 0
  {
    var c, d := World(g, true), World(g, false);
    if ops == [] {
    } else {
      assert forall o :: o in ops[1..] ==> o in ops;
      hide Sem, SemConcat, ConcatThen, NamesCover;
      CachingIsTransparent(g, ops[0], pos, refs);
      ConcatUnfold(c, ops, pos, refs);
      ConcatUnfold(d, ops, pos, refs);
      if |ops| > 1 {
        forall h, q | h in Sem(c, ops[0], pos, refs) && q in h.content.ends
          ensures SemConcat(c, ops[1..], q, h.refs) == SemConcat(d, ops[1..], q, h.refs)
        {
          ConcatIsTransparent(g, ops[1..], q, h.refs);
        }
        SameThens(c, d, Sem(c, ops[0], pos, refs), ops[1..]);
      }
    }
  }

  lemma {:induction false} RepeatIsTransparent(g: Graph, op: Plan, min: nat, max: nat, k: nat, chain: Body)
    requires NamesCover(op)
    ensures SemRepeat(World(g, true), op, min, max, k, chain) == SemRepeat(World(g, false), op, min, max, k, chain)
    decreases op, 1, max - k
  {
    var c, d := World(g, true), World(g, false);
    if k >= max {
      RepeatEnds(c, op, min, max, k, chain);
      RepeatEnds(d, op, min, max, k, chain);
    } else {
      hide Sem, SemRepeat, Continued;
      forall q | q in chain.content.ends ensures Sem(c, op, q, chain.refs) == Sem(d, op, q, chain.refs) {
        CachingIsTransparent(g, op, q, chain.refs);
      }
      SameLinks(c, d, op, chain);
      ContinuedUnfold(c, op, max, k, chain);
      ContinuedUnfold(d, op, max, k, chain);
      var links := LinksFrom(c, op, chain);
      if links == {} {
        RepeatEnds(c, op, min, max, k, chain);
        RepeatEnds(d, op, min, max, k, chain);
      } else {
        forall l | l in links ensures SemRepeat(c, op, min, max, k + 1, l) == SemRepeat(d, op, min, max, k + 1, l) {
          RepeatIsTransparent(g, op, min, max, k + 1, l);
        }
        RepeatUnfold(c, op, min, max, k, chain);
        RepeatUnfold(d, op, min, max, k, chain);
        SameChains(c, d, op, min, max, k + 1, links);
      }
    }
  }

  lemma SameThens(c: World, d: World, s: set<Body>, ops: seq<Plan>)
    requires forall h, q :: h in s && q in h.content.ends ==>
        SemConcat(c, ops, q, h.refs) == SemConcat(d, ops, q, h.refs)
    ensures ConcatThen(c, s, ops) == ConcatThen(d, s, ops)
  {
    hide SemConcat, Join;
  }

  lemma SameLinks(c: World, d: World, op: Plan, chain: Body)
    requires forall q :: q in chain.content.ends ==> Sem(c, op, q, chain.refs) == Sem(d, op, q, chain.refs)
    ensures LinksFrom(c, op, chain) == LinksFrom(d, op, chain)
  {
    hide Sem, Join;
  }

  lemma SameChains(c: World, d: World, op: Plan, min: nat, max: nat, k: nat, cs: set<Body>)
    requires forall l :: l in cs ==> SemRepeat(c, op, min, max, k, l) == SemRepeat(d, op, min, max, k, l)
    ensures ChainsFrom(c, op, min, max, k, cs) == ChainsFrom(d, op, min, max, k, cs)
  {
    hide SemRepeat;
  }
}
