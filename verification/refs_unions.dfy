/** Unions of refs and their exact terms. */
module RefsUnions {
  import opened RefsAlgebra

  // The assignments inside all of `must` and outside all of `mustNot`.
  datatype Region = Region(must: set<Refs>, mustNot: set<Refs>)

  ghost predicate Inside(s: Assignment, g: Region) {
    (forall r :: r in g.must ==> Sat(r, s)) && (forall r :: r in g.mustNot ==> !Sat(r, s))
  }

  ghost predicate SameRegion(g: Region, h: Region) {
    forall s: Assignment :: Inside(s, g) <==> Inside(s, h)
  }

  ghost predicate Within(c: set<Literal>, g: Region) { forall s: Assignment :: Sat(c, s) ==> Inside(s, g) }

  ghost predicate AllWithin(ts: set<Refs>, g: Region) { forall t :: t in ts ==> Within(t, g) }

  ghost predicate CoveredBy(s: Assignment, ts: set<Refs>) { exists t :: t in ts && Sat(t, s) }

  ghost predicate Covering(ts: set<Refs>, g: Region) { forall s: Assignment :: Inside(s, g) ==> CoveredBy(s, ts) }

  ghost predicate ImpliesSome(c: set<Literal>, ts: set<Refs>) { exists t :: t in ts && Implies(c, t) }

  // Every refs inside the region is inside one of the terms.
  ghost predicate Dominating(ts: set<Refs>, g: Region) { forall c: Refs :: Within(c, g) ==> ImpliesSome(c, ts) }

  ghost predicate Antichain(ts: set<Refs>) {
    forall t, u :: t in ts && u in ts && Implies(t, u) ==> t == u
  }

  ghost predicate Adequate(ts: set<Refs>, g: Region) {
    AllWithin(ts, g) && Covering(ts, g) && Dominating(ts, g)
  }

  // The terms are exactly the maximal refs inside the region, and cover all of it.
  ghost predicate Exact(ts: set<Refs>, g: Region) { Adequate(ts, g) && Antichain(ts) }

  lemma ImpliesTransitive(a: Refs, b: Refs, c: Refs)
    requires Implies(a, b) && Implies(b, c)
    ensures Implies(a, c)
  {
    ImpliesIsInclusion(a, b);
    ImpliesIsInclusion(b, c);
    ImpliesIsInclusion(a, c);
  }

  lemma ImpliesAntisymmetric(a: Refs, b: Refs)
    requires Implies(a, b) && Implies(b, a)
    ensures a == b
  {
    ImpliedBothWays(a, b);
    ImpliedBothWays(b, a);
  }

  lemma ImpliesReflexive(a: Refs)
    ensures Implies(a, a)
  {
    ImpliesIsInclusion(a, a);
  }

  lemma ExactIncluded(a: set<Refs>, b: set<Refs>, g: Region, h: Region)
    requires Exact(a, g) && Exact(b, h) && SameRegion(g, h)
    ensures a <= b
  {
    forall t | t in a ensures t in b {
      assert Within(t, h);
      var u :| u in b && Implies(t, u);
      assert Within(u, g);
      var v :| v in a && Implies(u, v);
      ImpliesTransitive(t, u, v);
      assert t == v;
      ImpliesAntisymmetric(t, u);
    }
  }

  // However they were computed, exact terms of a region are the same.
  lemma ExactIsUnique(a: set<Refs>, b: set<Refs>, g: Region, h: Region)
    requires Exact(a, g) && Exact(b, h) && SameRegion(g, h)
    ensures a == b
  {
    ExactIncluded(a, b, g, h);
    ExactIncluded(b, a, h, g);
  }

  // --------------------------------------------------------------------------
  // Absorption
  // --------------------------------------------------------------------------

  // Refs contained in no other refs of the union.
  ghost function Simplified(ts: set<Refs>): set<Refs> {
    set t | t in ts && forall u :: u in ts && Implies(t, u) ==> u == t
  }

  ghost function Containing(ts: set<Refs>, t: Refs): set<Refs> { set u | u in ts && Implies(t, u) }

  lemma {:induction false} SimplifiedDominates(ts: set<Refs>, t: Refs)
    requires t in ts
    ensures ImpliesSome(t, Simplified(ts))
    decreases |Containing(ts, t)|
  {
    if t in Simplified(ts) {
      ImpliesReflexive(t);
    } else {
      var u :| u in ts && Implies(t, u) && u != t;
      ContainingShrinks(ts, t, u);
      SimplifiedDominates(ts, u);
      var v :| v in Simplified(ts) && Implies(u, v);
      ImpliesTransitive(t, u, v);
    }
  }

  lemma ContainingShrinks(ts: set<Refs>, t: Refs, u: Refs)
    requires t in ts && u in ts && Implies(t, u) && u != t
    ensures |Containing(ts, u)| < |Containing(ts, t)|
  {
    forall v | v in Containing(ts, u) ensures v in Containing(ts, t) { ImpliesTransitive(t, u, v); }
    if t in Containing(ts, u) { ImpliesAntisymmetric(t, u); }
    ImpliesReflexive(t);
    StrictSubsetIsSmaller(Containing(ts, u), Containing(ts, t));
  }

  lemma StrictSubsetIsSmaller<T>(a: set<T>, b: set<T>)
    requires a < b
    ensures |a| < |b|
  {
    assert b == a + (b - a);
  }

  // Absorption keeps the union, and leaves only its maximal refs.
  lemma SimplifiedIsExact(ts: set<Refs>, g: Region)
    requires Adequate(ts, g)
    ensures Exact(Simplified(ts), g)
  {
    forall s: Assignment | Inside(s, g) ensures CoveredBy(s, Simplified(ts)) {
      var t :| t in ts && Sat(t, s);
      SimplifiedDominates(ts, t);
      var u :| u in Simplified(ts) && Implies(t, u);
      ImpliesIsInclusion(t, u);
    }
    forall c: Refs | Within(c, g) ensures ImpliesSome(c, Simplified(ts)) {
      var t :| t in ts && Implies(c, t);
      SimplifiedDominates(ts, t);
      var u :| u in Simplified(ts) && Implies(t, u);
      ImpliesTransitive(c, t, u);
    }
  }

  // Of any refs, absorption keeps the fewest that the others are inside of; and so their union stays the same.
  lemma SimplifiedIsLeast(ts: set<Refs>)
    ensures Simplified(ts) <= ts && forall t :: t in ts ==> ImpliesSome(t, Simplified(ts))
    ensures forall us: set<Refs> :: us <= ts && (forall t :: t in ts ==> ImpliesSome(t, us)) ==> Simplified(ts) <= us
    ensures forall s: Assignment :: CoveredBy(s, Simplified(ts)) <==> CoveredBy(s, ts)
  {
    forall t | t in ts ensures ImpliesSome(t, Simplified(ts)) { SimplifiedDominates(ts, t); }
    forall us: set<Refs> | us <= ts && forall t :: t in ts ==> ImpliesSome(t, us) ensures Simplified(ts) <= us {
      forall t | t in Simplified(ts) ensures t in us { assert ImpliesSome(t, us); }
    }
    forall s: Assignment | CoveredBy(s, ts) ensures CoveredBy(s, Simplified(ts)) {
      var t :| t in ts && Sat(t, s);
      var u :| u in Simplified(ts) && Implies(t, u);
      ImpliesIsInclusion(t, u);
    }
  }

  // --------------------------------------------------------------------------
  // Intersection and subtraction
  // --------------------------------------------------------------------------

  ghost function MetBy(ts: set<Refs>, r: Refs): set<Refs> {
    set t | t in ts && Meet(t, r).Some? :: Meet(t, r).value
  }

  lemma MeetIsGreatest(c: Refs, t: Refs, r: Refs)
    requires Implies(c, t) && Incl(c, r)
    ensures Meet(t, r).Some? && Implies(c, Meet(t, r).value)
  {
    MeetIsIntersection(t, r);
    ImpliesIsInclusion(c, t);
    PointIsInside(c, {});
    assert Sat(t, Point(c, {})) && Sat(r, Point(c, {}));
    ImpliesIsInclusion(c, Meet(t, r).value);
  }

  lemma MetByIsWithin(ts: set<Refs>, g: Region, r: Refs)
    requires AllWithin(ts, g)
    ensures AllWithin(MetBy(ts, r), Region(g.must + {r}, g.mustNot))
  {
    forall u | u in MetBy(ts, r) ensures Within(u, Region(g.must + {r}, g.mustNot)) {
      var t :| t in ts && Meet(t, r).Some? && u == Meet(t, r).value;
      MeetIsIntersection(t, r);
      assert Within(t, g);
    }
  }

  lemma MetByIsCovering(ts: set<Refs>, g: Region, r: Refs)
    requires Covering(ts, g)
    ensures Covering(MetBy(ts, r), Region(g.must + {r}, g.mustNot))
  {
    forall s: Assignment | Inside(s, Region(g.must + {r}, g.mustNot)) ensures CoveredBy(s, MetBy(ts, r)) {
      assert Inside(s, g);
      var t :| t in ts && Sat(t, s);
      MeetIsIntersection(t, r);
      assert Meet(t, r).value in MetBy(ts, r);
    }
  }

  lemma MetByIsDominating(ts: set<Refs>, g: Region, r: Refs)
    requires Dominating(ts, g)
    ensures Dominating(MetBy(ts, r), Region(g.must + {r}, g.mustNot))
  {
    var h := Region(g.must + {r}, g.mustNot);
    forall c: Refs | Within(c, h) ensures ImpliesSome(c, MetBy(ts, r)) {
      assert Within(c, g);
      var t :| t in ts && Implies(c, t);
      WithinMust(c, h, r);
      MeetIsGreatest(c, t, r);
    }
  }

  lemma WithinMust(c: set<Literal>, g: Region, r: Refs)
    requires Within(c, g) && r in g.must
    ensures Incl(c, r)
  {
    forall s: Assignment | Sat(c, s) ensures Sat(r, s) { assert Inside(s, g); }
  }

  lemma MetByIsAdequate(ts: set<Refs>, g: Region, r: Refs)
    requires Adequate(ts, g)
    ensures Adequate(MetBy(ts, r), Region(g.must + {r}, g.mustNot))
  {
    MetByIsWithin(ts, g, r);
    MetByIsCovering(ts, g, r);
    MetByIsDominating(ts, g, r);
  }

  // De Morgan: t and not (l1 and l2 and ...) is (t and not l1) or (t and not l2) or ...
  ghost function Differences(t: Refs, r: Refs): set<Refs> {
    set l | l in r && Meet(t, Exclusion(l)).Some? :: Meet(t, Exclusion(l)).value
  }

  ghost function Subtract(t: Refs, r: Refs): set<Refs> {
    if Meet(t, r).None? then {t} else Simplified(Differences(t, r))
  }

  lemma ExclusionIsNegation(l: Literal, s: Assignment)
    ensures Sat(Exclusion(l), s) <==> !Holds(l, s)
  {
    assert Negated(l) in Exclusion(l);
  }

  lemma DifferencesAreAdequate(t: Refs, r: Refs)
    ensures Adequate(Differences(t, r), Region({t}, {r}))
  {
    var g := Region({t}, {r});
    forall u | u in Differences(t, r) ensures Within(u, g) {
      var l :| l in r && Meet(t, Exclusion(l)).Some? && u == Meet(t, Exclusion(l)).value;
      MeetIsIntersection(t, Exclusion(l));
      forall s: Assignment | Sat(u, s) ensures Inside(s, g) { ExclusionIsNegation(l, s); }
    }
    forall s: Assignment | Inside(s, g) ensures CoveredBy(s, Differences(t, r)) {
      var l :| l in r && !Holds(l, s);
      ExclusionIsNegation(l, s);
      MeetIsIntersection(t, Exclusion(l));
      assert Meet(t, Exclusion(l)).value in Differences(t, r);
    }
    forall c: Refs | Within(c, g) ensures ImpliesSome(c, Differences(t, r)) {
      DisjointFromOneLiteral(c, r);
      var l :| l in r && ImpliesLiteral(c, Negated(l));
      ImpliesIsInclusion(c, t);
      ImpliesIsInclusion(c, Exclusion(l));
      MeetIsGreatest(c, t, Exclusion(l));
      assert Meet(t, Exclusion(l)).value in Differences(t, r);
    }
  }

  lemma SingletonIsExact(t: Refs, g: Region)
    requires forall s: Assignment :: Inside(s, g) <==> Sat(t, s)
    ensures Exact({t}, g)
  {
    forall s: Assignment | Inside(s, g) ensures CoveredBy(s, {t}) { assert t in {t}; }
    forall c: Refs | Within(c, g) ensures ImpliesSome(c, {t}) {
      ImpliesIsInclusion(c, t);
      assert t in {t};
    }
  }

  // `subtract` is exact set difference, in maximal terms.
  lemma SubtractIsDifference(t: Refs, r: Refs)
    ensures Exact(Subtract(t, r), Region({t}, {r}))
  {
    if Meet(t, r).None? {
      MeetIsIntersection(t, r);
      SingletonIsExact(t, Region({t}, {r}));
    } else {
      DifferencesAreAdequate(t, r);
      SimplifiedIsExact(Differences(t, r), Region({t}, {r}));
    }
  }

  ghost function SubtractedFromEach(ts: set<Refs>, r: Refs): set<Refs> {
    set t, u | t in ts && u in Subtract(t, r) :: u
  }

  ghost function SubtractFromUnion(ts: set<Refs>, r: Refs): set<Refs> {
    Simplified(SubtractedFromEach(ts, r))
  }

  lemma SubtractedIsWithin(ts: set<Refs>, g: Region, r: Refs)
    requires AllWithin(ts, g)
    ensures AllWithin(SubtractedFromEach(ts, r), Region(g.must, g.mustNot + {r}))
  {
    var h := Region(g.must, g.mustNot + {r});
    forall u | u in SubtractedFromEach(ts, r) ensures Within(u, h) {
      var t :| t in ts && u in Subtract(t, r);
      assert Within(t, g);
      SubtractIsDifference(t, r);
      forall s: Assignment | Sat(u, s) ensures Inside(s, h) {
        assert Inside(s, Region({t}, {r}));
      }
    }
  }

  lemma SubtractedIsCovering(ts: set<Refs>, g: Region, r: Refs)
    requires Covering(ts, g)
    ensures Covering(SubtractedFromEach(ts, r), Region(g.must, g.mustNot + {r}))
  {
    forall s: Assignment | Inside(s, Region(g.must, g.mustNot + {r})) ensures CoveredBy(s, SubtractedFromEach(ts, r)) {
      assert Inside(s, g);
      var t :| t in ts && Sat(t, s);
      SubtractIsDifference(t, r);
      assert Inside(s, Region({t}, {r}));
      var u :| u in Subtract(t, r) && Sat(u, s);
      assert u in SubtractedFromEach(ts, r);
    }
  }

  lemma SubtractedIsDominating(ts: set<Refs>, g: Region, r: Refs)
    requires Dominating(ts, g)
    ensures Dominating(SubtractedFromEach(ts, r), Region(g.must, g.mustNot + {r}))
  {
    var h := Region(g.must, g.mustNot + {r});
    forall c: Refs | Within(c, h) ensures ImpliesSome(c, SubtractedFromEach(ts, r)) {
      assert Within(c, g);
      var t :| t in ts && Implies(c, t);
      WithinDifference(c, t, h, r);
      SubtractIsDifference(t, r);
      var u :| u in Subtract(t, r) && Implies(c, u);
      assert u in SubtractedFromEach(ts, r);
    }
  }

  lemma WithinDifference(c: Refs, t: Refs, h: Region, r: Refs)
    requires Within(c, h) && Implies(c, t) && r in h.mustNot
    ensures Within(c, Region({t}, {r}))
  {
    ImpliesIsInclusion(c, t);
    forall s: Assignment | Sat(c, s) ensures Inside(s, Region({t}, {r})) { assert Inside(s, h); }
  }

  lemma SubtractedFromEachIsAdequate(ts: set<Refs>, g: Region, r: Refs)
    requires Adequate(ts, g)
    ensures Adequate(SubtractedFromEach(ts, r), Region(g.must, g.mustNot + {r}))
  {
    SubtractedIsWithin(ts, g, r);
    SubtractedIsCovering(ts, g, r);
    SubtractedIsDominating(ts, g, r);
  }

  // `subtract_from_union` takes exact terms of a region to exact terms of what is left of it.
  lemma SubtractFromUnionIsDifference(ts: set<Refs>, g: Region, r: Refs)
    requires Adequate(ts, g)
    ensures Exact(SubtractFromUnion(ts, r), Region(g.must, g.mustNot + {r}))
  {
    SubtractedFromEachIsAdequate(ts, g, r);
    SimplifiedIsExact(SubtractedFromEach(ts, r), Region(g.must, g.mustNot + {r}));
  }

  // --------------------------------------------------------------------------
  // The exact terms of a region
  // --------------------------------------------------------------------------

  lemma HasTermsWithin(g: Region, r: Refs)
    requires r in g.must && exists us: set<Refs> :: Exact(us, Region(g.must - {r}, g.mustNot))
    ensures exists ts: set<Refs> :: Exact(ts, g)
  {
    hide AllWithin, Covering, Dominating, Antichain, Simplified, MetBy;
    var h := Region(g.must - {r}, g.mustNot);
    var us: set<Refs> :| Exact(us, h);
    MetByIsAdequate(us, h, r);
    assert Region(h.must + {r}, h.mustNot) == g;
    SimplifiedIsExact(MetBy(us, r), g);
  }

  lemma HasTermsWithout(g: Region, r: Refs)
    requires r in g.mustNot && exists us: set<Refs> :: Exact(us, Region(g.must, g.mustNot - {r}))
    ensures exists ts: set<Refs> :: Exact(ts, g)
  {
    hide AllWithin, Covering, Dominating, Antichain, SubtractFromUnion;
    var h := Region(g.must, g.mustNot - {r});
    var us: set<Refs> :| Exact(us, h);
    assert Region(h.must, h.mustNot + {r}) == g;
    SubtractFromUnionIsDifference(us, h, r);
  }

  lemma {:induction false} EveryRegionHasTerms(g: Region)
    ensures exists ts: set<Refs> :: Exact(ts, g)
    decreases |g.must| + |g.mustNot|
  {
    hide Exact;
    if g.must != {} {
      var r :| r in g.must;
      EveryRegionHasTerms(Region(g.must - {r}, g.mustNot));
      HasTermsWithin(g, r);
    } else if g.mustNot != {} {
      var r :| r in g.mustNot;
      EveryRegionHasTerms(Region(g.must, g.mustNot - {r}));
      HasTermsWithout(g, r);
    } else {
      SingletonIsExact({}, g);
    }
  }

  ghost function Terms(g: Region): (ts: set<Refs>)
    ensures Exact(ts, g)
  {
    EveryRegionHasTerms(g);
    var ts: set<Refs> :| Exact(ts, g);
    ts
  }

  lemma TermsOf(ts: set<Refs>, g: Region)
    requires Exact(ts, g)
    ensures Terms(g) == ts
  {
    ExactIsUnique(Terms(g), ts, g, g);
  }

  lemma TermsOfSameRegion(g: Region, h: Region)
    requires SameRegion(g, h)
    ensures Terms(g) == Terms(h)
  {
    ExactIsUnique(Terms(g), Terms(h), g, h);
  }
}
