/** Concatenations, repetitions and operators unfolded by one of their operands. */
module Unfolding {
  import opened Base
  import opened RefsAlgebra
  import opened RefsUnions
  import opened Plans
  import opened Semantics

  lemma JoinIsAssociative(a: Body, b: Body, c: Body)
    ensures Join(a, Join(b, c)) == Join(Join(a, b), c)
  {
    assert a.content.vertices + (b.content.vertices + c.content.vertices) ==
        (a.content.vertices + b.content.vertices) + c.content.vertices;
    assert a.content.edges + (b.content.edges + c.content.edges) ==
        (a.content.edges + b.content.edges) + c.content.edges;
  }

  lemma JoinEmpty(pos: Position, refs: Refs, t: Body)
    ensures Join(EmptyAt(pos, refs), t) == t
  {
    assert {} + t.content.vertices == t.content.vertices && {} + t.content.edges == t.content.edges;
  }

  ghost function After(h: Body, s: set<Body>): set<Body> { set t | t in s :: Join(h, t) }

  ghost function HopBody(hop: Hop, refs: Refs): Body { Body(Content({}, {}, hop.edges), refs) }

  ghost function ConcatThen(w: World, s: set<Body>, b: seq<Plan>): set<Body> {
    set h, q, t | h in s && q in h.content.ends && t in SemConcat(w, b, q, h.refs) :: Join(h, t)
  }

  lemma ConcatUnfold(w: World, a: seq<Plan>, pos: Position, refs: Refs)
    ensures |a| == 1 ==> SemConcat(w, a, pos, refs) == Sem(w, a[0], pos, refs)
    ensures |a| > 1 ==> SemConcat(w, a, pos, refs) == ConcatThen(w, Sem(w, a[0], pos, refs), a[1..])
  {}

  ghost function LinksFrom(w: World, op: Plan, chain: Body): set<Body> {
    set q, t | q in chain.content.ends && t in Sem(w, op, q, chain.refs) :: Join(chain, t)
  }

  lemma ContinuedUnfold(w: World, op: Plan, max: nat, k: nat, chain: Body)
    requires k < max
    ensures Continued(w, op, max, k, chain) == LinksFrom(w, op, chain)
  {}

  ghost function ChainsFrom(w: World, op: Plan, min: nat, max: nat, k: nat, cs: set<Body>): set<Body> {
    set c, d | c in cs && d in SemRepeat(w, op, min, max, k, c) :: d
  }

  lemma RepeatUnfold(w: World, op: Plan, min: nat, max: nat, k: nat, chain: Body)
    requires k < max && Continued(w, op, max, k, chain) != {}
    ensures SemRepeat(w, op, min, max, k, chain) == ChainsFrom(w, op, min, max, k + 1, Continued(w, op, max, k, chain))
  {
    forall c | c in Continued(w, op, max, k, chain)
      ensures SemRepeatAfter(w, op, min, max, k, c) == SemRepeat(w, op, min, max, k + 1, c)
    {}
  }

  // Operators with one operand, matched from the same start.
  predicate IsUnary(p: Plan) {
    p.PAllWithoutSetRef? || p.PAll? || p.PIfWithoutSetRef? || p.PIf? || p.PUnlessWithoutSetNonLocalRef? || p.PUnless? ||
    p.PSkip? || p.PMaybe?
  }

  ghost function EmptiesAt(pos: Position, rs: set<Refs>): set<Body> { set r | r in rs :: EmptyAt(pos, r) }

  ghost function SkippedOf(s: set<Body>): set<Body> { set b | b in s :: Body(Content(b.content.ends, {}, {}), b.refs) }

  ghost function ContentsOf(s: set<Body>): set<Content> { set b | b in s :: b.content }

  // What the operator makes of the subgraphs of its operand.
  ghost function Applied(p: Plan, s: set<Body>, pos: Position, refs: Refs): set<Body>
    requires IsUnary(p)
  {
    match p
    case PAllWithoutSetRef(_) => if s == {} then {} else {Body(Merged(ContentsOf(s)), refs)}
    case PAll(_) => AllOf([s])
    case PIfWithoutSetRef(_) => if s == {} then {} else {EmptyAt(pos, refs)}
    case PIf(_) => EmptiesAt(pos, RefsOf(s))
    case PUnlessWithoutSetNonLocalRef(_, _) => if s == {} then {EmptyAt(pos, refs)} else {}
    case PUnless(_, shared) => EmptiesAt(pos, Terms(UnlessRegion(refs, s, shared)))
    case PSkip(_) => SkippedOf(s)
    case PMaybe(_) => if s == {} then {EmptyAt(pos, refs)} else s
  }

  lemma UnaryUnfold(w: World, p: Plan, pos: Position, refs: Refs)
    requires IsUnary(p)
    ensures Sem(w, p, pos, refs) == Applied(p, Sem(w, p.operand, pos, refs), pos, refs)
  {
    if p.PIf? { IfIsEmpties(Sem(w, p.operand, pos, refs), pos); }
  }

  lemma IfIsEmpties(s: set<Body>, pos: Position)
    ensures (set b | b in s :: EmptyAt(pos, b.refs)) == EmptiesAt(pos, RefsOf(s))
  {
    forall b | b in s ensures EmptyAt(pos, b.refs) in EmptiesAt(pos, RefsOf(s)) { assert b.refs in RefsOf(s); }
  }
}
