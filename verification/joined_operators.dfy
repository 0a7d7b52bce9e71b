/** What joins and negations match. */
module JoinedOperators {
  // Refs are parts of the space of assignments; results are on the largest parts on which the operands agree.

  import opened Base
  import opened RefsAlgebra
  import opened RefsUnions
  import opened Arrangement
  import opened Semantics
  import opened Expressions
  import opened Planning
  import opened Operators

  // No assignment satisfies both.
  ghost predicate Apart(a: Refs, b: Refs) { forall s: Assignment :: !(Sat(a, s) && Sat(b, s)) }

  // The refs are either inside or outside of each of the others.
  ghost predicate Uniform(r: Refs, all: set<Refs>) { forall q :: q in all ==> Incl(r, q) || Apart(r, q) }

  // No larger refs are, too.
  ghost predicate IsPatch(r: Refs, all: set<Refs>) {
    Uniform(r, all) && forall q: Refs :: Uniform(q, all) && Incl(r, q) ==> q == r
  }

  // Terms are the largest refs inside of a region.
  lemma TermsAreLargest(g: Region, r: Refs)
    ensures r in Terms(g) <==> Within(r, g) && forall q: Refs :: Within(q, g) && Incl(r, q) ==> q == r
  {
    var ts := Terms(g);
    if r in ts {
      forall q: Refs | Within(q, g) && Incl(r, q) ensures q == r {
        var t :| t in ts && Implies(q, t);
        ImpliesIsInclusion(r, q);
        ImpliesTransitive(r, q, t);
        assert t == r;
        ImpliesAntisymmetric(q, r);
      }
    } else if Within(r, g) {
      var t :| t in ts && Implies(r, t);
      ImpliesIsInclusion(r, t);
      assert Within(t, g) && t != r;
    }
  }

  ghost function Around(r: Refs, all: set<Refs>): set<Refs> { set q | q in all && Incl(r, q) }

  lemma UniformIsWithin(r: Refs, all: set<Refs>, m: set<Refs>)
    requires m <= all
    ensures Within(r, CellRegion(m, all)) <==> Uniform(r, all) && m == Around(r, all)
  {
    PointIsInside(r, {});
    var p := Point(r, {});
    if Within(r, CellRegion(m, all)) {
      forall q | q in all ensures if q in m then Incl(r, q) else Apart(r, q) && !Incl(r, q) {}
    }
    if Uniform(r, all) && m == Around(r, all) {
      forall s: Assignment | Sat(r, s) ensures Inside(s, CellRegion(m, all)) {}
    }
  }

  // The terms of a cell are the patches inside of exactly its members.
  lemma CellsArePatches(r: Refs, all: set<Refs>, m: set<Refs>)
    requires m <= all
    ensures r in CellTerms(m, all) <==> IsPatch(r, all) && m == Around(r, all)
  {
    TermsAreLargest(CellRegion(m, all), r);
    UniformIsWithin(r, all, m);
    if Uniform(r, all) && m == Around(r, all) {
      forall q: Refs | Incl(r, q) ensures Uniform(q, all) <==> Within(q, CellRegion(m, all)) {
        UniformIsWithin(q, all, m);
        if Uniform(q, all) { SameAround(r, q, all); }
      }
    }
  }

  // Larger refs that are uniform are inside of the same ones.
  lemma SameAround(r: Refs, q: Refs, all: set<Refs>)
    requires Uniform(r, all) && Uniform(q, all) && Incl(r, q)
    ensures Around(r, all) == Around(q, all)
  {
    PointIsInside(r, {});
    var p := Point(r, {});
    forall x | x in all ensures Incl(r, x) <==> Incl(q, x) {
      assert Sat(q, p);
      if Incl(r, x) { assert Sat(x, p); }
    }
  }

  // --------------------------------------------------------------------------
  // And
  // --------------------------------------------------------------------------

  // The refs of all the matches of the operands.
  ghost function RefsOfAll(g: Graph, ops: seq<Expr>, pos: Position, refs: Refs): set<Refs> {
    set i, m | 0 <= i < |ops| && m in Matches(g, ops[i], pos, refs) :: m.refs
  }

  // The match of the operand holds wherever the refs do.
  ghost predicate HoldsOn(g: Graph, e: Expr, pos: Position, refs: Refs, r: Refs, m: Body) {
    m in Matches(g, e, pos, refs) && Incl(r, m.refs)
  }

  ghost predicate AllHoldOn(g: Graph, ops: seq<Expr>, pos: Position, refs: Refs, r: Refs) {
    forall i :: 0 <= i < |ops| ==> SomeHoldsOn(g, ops[i], pos, refs, r)
  }

  ghost predicate SomeHoldsOn(g: Graph, e: Expr, pos: Position, refs: Refs, r: Refs) {
    exists m :: HoldsOn(g, e, pos, refs, r, m)
  }

  lemma RefsOfAllAre(g: Graph, ops: seq<Expr>, pos: Position, refs: Refs)
    ensures RefsOf(Union(SemEach(World(g, false), NaiveEach(ops), pos, refs))) == RefsOfAll(g, ops, pos, refs)
  {
    var ss := SemEach(World(g, false), NaiveEach(ops), pos, refs);
    EachMatches(g, ops, pos, refs);
    hide Matches;
    forall r | r in RefsOf(Union(ss)) ensures r in RefsOfAll(g, ops, pos, refs) {
      var b :| b in Union(ss) && b.refs == r;
      var i :| 0 <= i < |ss| && b in ss[i];
      assert b in Matches(g, ops[i], pos, refs);
    }
    forall r | r in RefsOfAll(g, ops, pos, refs) ensures r in RefsOf(Union(ss)) {
      var i, m :| 0 <= i < |ops| && m in Matches(g, ops[i], pos, refs) && m.refs == r;
      assert m in Union(ss);
    }
  }

  lemma OperandJoins(g: Graph, ops: seq<Expr>, pos: Position, refs: Refs, r: Refs, i: nat)
    requires i < |ops|
    ensures var ss, all := SemEach(World(g, false), NaiveEach(ops), pos, refs), RefsOfAll(g, ops, pos, refs);
      HasMember(ss[i], Around(r, all)) <==> SomeHoldsOn(g, ops[i], pos, refs, r)
  {
    var ss, all := SemEach(World(g, false), NaiveEach(ops), pos, refs), RefsOfAll(g, ops, pos, refs);
    EachMatches(g, ops, pos, refs);
    hide Matches, Incl, SemEach;
    if m: Body :| HoldsOn(g, ops[i], pos, refs, r, m) { assert m.refs in Around(r, all); }
    if HasMember(ss[i], Around(r, all)) {
      var m: Body :| m in ss[i] && m.refs in Around(r, all);
      assert HoldsOn(g, ops[i], pos, refs, r, m);
    }
  }

  lemma AroundJoins(ss: seq<set<Body>>, r: Refs, all: set<Refs>)
    requires ss != [] && all == RefsOf(Union(ss))
    ensures JoinCell(ss, Around(r, all)) <==> CoversAll(ss, Around(r, all))
  {
    var m := Around(r, all);
    assert m <= all;
    hide Around, Union, RefsOf;
    if CoversAll(ss, m) { assert HasMember(ss[0], m); }
  }

  // The operands join on a patch exactly if each of them has a match there.
  lemma PatchJoins(g: Graph, ops: seq<Expr>, pos: Position, refs: Refs, r: Refs)
    requires ops != []
    ensures var ss, all := SemEach(World(g, false), NaiveEach(ops), pos, refs), RefsOfAll(g, ops, pos, refs);
      JoinCell(ss, Around(r, all)) <==> AllHoldOn(g, ops, pos, refs, r)
  {
    var ss, all := SemEach(World(g, false), NaiveEach(ops), pos, refs), RefsOfAll(g, ops, pos, refs);
    hide JoinCell, Matches, HasMember, Around, RefsOfAll, RefsOf, Union, Sem, SemEach, Naive, NaiveEach, SomeHoldsOn;
    RefsOfAllAre(g, ops, pos, refs);
    AroundJoins(ss, r, all);
    forall i | 0 <= i < |ops| ensures HasMember(ss[i], Around(r, all)) <==> SomeHoldsOn(g, ops[i], pos, refs, r)
    {
      OperandJoins(g, ops, pos, refs, r, i);
    }
  }

  // On each patch where all operands have matches, all of these matches.
  lemma AndMatches(g: Graph, ops: seq<Expr>, pos: Position, refs: Refs, b: Body)
    requires ops != []
    ensures b in Matches(g, AndExpr(ops), pos, refs) <==>
      IsPatch(b.refs, RefsOfAll(g, ops, pos, refs)) && AllHoldOn(g, ops, pos, refs, b.refs) &&
      exists i, m :: 0 <= i < |ops| && HoldsOn(g, ops[i], pos, refs, b.refs, m) && b.content == m.content
  {
    var ss, all := SemEach(World(g, false), NaiveEach(ops), pos, refs), RefsOfAll(g, ops, pos, refs);
    assert Matches(g, AndExpr(ops), pos, refs) == AndOf(ss);
    RefsOfAllAre(g, ops, pos, refs);
    PatchJoins(g, ops, pos, refs, b.refs);
    var around := Around(b.refs, all);
    CellsArePatches(b.refs, all, around);
    ContentsHold(g, ops, pos, refs, b.refs, b.content);
    hide Matches, Incl, JoinCell, IsPatch, AllHoldOn, HoldsOn, Union, RefsOfAll, Around;
    if b in AndOf(ss) {
      var m: set<Refs> :| m <= all && JoinCell(ss, m) && b in InCell(Union(ss), m);
      CellsArePatches(b.refs, all, m);
      var x :| x in Union(ss) && x.refs in m && b.content == x.content;
      assert x.content in ContentsIn(Union(ss), around);
    }
    if IsPatch(b.refs, all) && AllHoldOn(g, ops, pos, refs, b.refs) && b.content in ContentsIn(Union(ss), around) {
      assert b in InCell(Union(ss), around);
    }
  }

  lemma ContentsHold(g: Graph, ops: seq<Expr>, pos: Position, refs: Refs, r: Refs, c: Content)
    ensures var ss, all := SemEach(World(g, false), NaiveEach(ops), pos, refs), RefsOfAll(g, ops, pos, refs);
      c in ContentsIn(Union(ss), Around(r, all)) <==>
          exists i, m :: 0 <= i < |ops| && HoldsOn(g, ops[i], pos, refs, r, m) && c == m.content
  {
    var ss, all := SemEach(World(g, false), NaiveEach(ops), pos, refs), RefsOfAll(g, ops, pos, refs);
    var cs := ContentsIn(Union(ss), Around(r, all));
    EachMatches(g, ops, pos, refs);
    hide Matches, Incl;
    if c in cs {
      var m :| m in Union(ss) && m.refs in Around(r, all) && m.content == c;
      var i :| 0 <= i < |ss| && m in ss[i];
      assert HoldsOn(g, ops[i], pos, refs, r, m);
    }
    forall i, m | 0 <= i < |ops| && HoldsOn(g, ops[i], pos, refs, r, m) && c == m.content ensures c in cs {
      assert m in Union(ss) && m.refs in Around(r, all);
    }
  }

  // --------------------------------------------------------------------------
  // All
  // --------------------------------------------------------------------------

  // All the matches that hold on the refs, merged.
  ghost predicate Merges(g: Graph, ops: seq<Expr>, pos: Position, refs: Refs, b: Body) {
    (forall p :: p in b.content.ends <==>
        exists i, m :: 0 <= i < |ops| && HoldsOn(g, ops[i], pos, refs, b.refs, m) && p in m.content.ends) &&
    (forall v :: v in b.content.vertices <==>
        exists i, m :: 0 <= i < |ops| && HoldsOn(g, ops[i], pos, refs, b.refs, m) && v in m.content.vertices) &&
    (forall e :: e in b.content.edges <==>
        exists i, m :: 0 <= i < |ops| && HoldsOn(g, ops[i], pos, refs, b.refs, m) && e in m.content.edges)
  }

  // On each patch where all operands have matches, the one that merges these matches.
  lemma AllOfAndMatches(g: Graph, ops: seq<Expr>, pos: Position, refs: Refs, b: Body)
    requires ops != []
    ensures b in Matches(g, OperationExpr(All, AndExpr(ops)), pos, refs) <==>
      IsPatch(b.refs, RefsOfAll(g, ops, pos, refs)) && AllHoldOn(g, ops, pos, refs, b.refs) &&
      Merges(g, ops, pos, refs, b)
  {
    assert Matches(g, OperationExpr(All, AndExpr(ops)), pos, refs) ==
        AllOf(SemEach(World(g, false), NaiveEach(ops), pos, refs));
    AllOfMatches(g, ops, pos, refs, b);
  }

  // On each patch of one operand's matches, the one that merges them.
  lemma AllMatches(g: Graph, e: Expr, pos: Position, refs: Refs, b: Body)
    requires !e.AndExpr?
    ensures b in Matches(g, OperationExpr(All, e), pos, refs) <==>
      IsPatch(b.refs, RefsOfAll(g, [e], pos, refs)) && AllHoldOn(g, [e], pos, refs, b.refs) &&
      Merges(g, [e], pos, refs, b)
  {
    var ss := SemEach(World(g, false), NaiveEach([e]), pos, refs);
    EachMatches(g, [e], pos, refs);
    assert ss == [Matches(g, e, pos, refs)];
    AllOfMatches(g, [e], pos, refs, b);
  }

  lemma AllOfMatches(g: Graph, ops: seq<Expr>, pos: Position, refs: Refs, b: Body)
    requires ops != []
    ensures b in AllOf(SemEach(World(g, false), NaiveEach(ops), pos, refs)) <==>
      IsPatch(b.refs, RefsOfAll(g, ops, pos, refs)) && AllHoldOn(g, ops, pos, refs, b.refs) &&
      Merges(g, ops, pos, refs, b)
  {
    var ss, all := SemEach(World(g, false), NaiveEach(ops), pos, refs), RefsOfAll(g, ops, pos, refs);
    RefsOfAllAre(g, ops, pos, refs);
    PatchJoins(g, ops, pos, refs, b.refs);
    var around := Around(b.refs, all);
    CellsArePatches(b.refs, all, around);
    MergedMerges(g, ops, pos, refs, b);
    hide Matches, Incl, JoinCell, IsPatch, AllHoldOn, Merges, Merged;
    if b in AllOf(ss) {
      var m: set<Refs> :| m <= all && JoinCell(ss, m) && b in MergedCell(Union(ss), m);
      CellsArePatches(b.refs, all, m);
    }
    if IsPatch(b.refs, all) && AllHoldOn(g, ops, pos, refs, b.refs) && Merges(g, ops, pos, refs, b) {
      assert b in MergedCell(Union(ss), around);
    }
  }

  lemma MergedMerges(g: Graph, ops: seq<Expr>, pos: Position, refs: Refs, b: Body)
    ensures var ss, all := SemEach(World(g, false), NaiveEach(ops), pos, refs), RefsOfAll(g, ops, pos, refs);
      b.content == Merged(ContentsIn(Union(ss), Around(b.refs, all))) <==> Merges(g, ops, pos, refs, b)
  {
    var ss, all := SemEach(World(g, false), NaiveEach(ops), pos, refs), RefsOfAll(g, ops, pos, refs);
    var cs := ContentsIn(Union(ss), Around(b.refs, all));
    forall c
      ensures c in cs <==> exists i, m :: 0 <= i < |ops| && HoldsOn(g, ops[i], pos, refs, b.refs, m) && c == m.content
    {
      ContentsHold(g, ops, pos, refs, b.refs, c);
    }
    hide HoldsOn;
    assert Merges(g, ops, pos, refs, Body(Merged(cs), b.refs));
    if Merges(g, ops, pos, refs, b) {
      assert b.content.ends == Merged(cs).ends && b.content.vertices == Merged(cs).vertices &&
          b.content.edges == Merged(cs).edges;
    }
  }

  // --------------------------------------------------------------------------
  // Unless
  // --------------------------------------------------------------------------

  // Some shared ref of the match isn't as the assignment has it.
  ghost predicate Misses(m: Body, shared: set<RefName>, s: Assignment) {
    exists l :: l in m.refs && l.name in shared && !Holds(l, s)
  }

  // The refs are inside of the ones at the start, and outside of what the operand matches, as far as shared refs tell.
  ghost predicate Spared(g: Graph, e: Expr, shared: set<RefName>, pos: Position, refs: Refs, r: Refs) {
    forall s: Assignment :: Sat(r, s) ==>
      Sat(refs, s) && forall m :: m in Matches(g, e, pos, refs) ==> Misses(m, shared, s)
  }

  // Stays where it is, with the largest refs that are spared.
  lemma UnlessMatches(g: Graph, e: Expr, shared: set<RefName>, pos: Position, refs: Refs, b: Body)
    ensures b in Matches(g, OperationExpr(Unless(shared), e), pos, refs) <==>
      HasAll(b, pos, {}, {}, b.refs) && Spared(g, e, shared, pos, refs, b.refs) &&
      forall q: Refs :: Spared(g, e, shared, pos, refs, q) && Incl(b.refs, q) ==> q == b.refs
  {
    var s := Matches(g, e, pos, refs);
    var region := UnlessRegion(refs, s, shared);
    assert Matches(g, OperationExpr(Unless(shared), e), pos, refs) == set t | t in Terms(region) :: EmptyAt(pos, t);
    TermsAreLargest(region, b.refs);
    forall q: Refs ensures Within(q, region) <==> Spared(g, e, shared, pos, refs, q) {
      SparedIsWithin(g, e, shared, pos, refs, q);
    }
    assert HasAll(b, pos, {}, {}, b.refs) <==> b == EmptyAt(pos, b.refs);
    hide Matches, Spared, Within, Incl, UnlessRegion;
  }

  lemma SparedIsWithin(g: Graph, e: Expr, shared: set<RefName>, pos: Position, refs: Refs, r: Refs)
    ensures Within(r, UnlessRegion(refs, Matches(g, e, pos, refs), shared)) <==> Spared(g, e, shared, pos, refs, r)
  {
    var ms := Matches(g, e, pos, refs);
    var region := UnlessRegion(refs, ms, shared);
    hide Matches;
    forall m, s: Assignment ensures Misses(m, shared, s) <==> !Sat(Restrict(m.refs, shared), s) {
      if Misses(m, shared, s) {
        var l :| l in m.refs && l.name in shared && !Holds(l, s);
        assert l in Restrict(m.refs, shared);
      }
    }
    forall s: Assignment
      ensures Inside(s, region) <==> Sat(refs, s) && forall m :: m in ms ==> Misses(m, shared, s)
    {
      assert refs in region.must;
      forall m | m in ms ensures Restrict(m.refs, shared) in region.mustNot {}
    }
    hide Misses;
  }
}
