/** Specific operators. */
module Specialization {
  import opened Base
  import opened RefsAlgebra
  import opened RefsUnions
  import opened Plans
  import opened Semantics
  import opened RefTracking
  import opened Dependencies
  import opened Mentions
  import opened Unfolding
  import opened Combining
  import opened Pointwise

  // --------------------------------------------------------------------------
  // Specific plans
  // --------------------------------------------------------------------------

  // Refs are set where they aren't bound yet, and matched where they are.
  predicate VertexResolved(m: MatchVertex, bound: RefNames) {
    (m.setRef.Some? ==> m.setRef.value !in bound && m.matchRef.None?) &&
        (m.matchRef.Some? ==> m.matchRef.value in bound)
  }

  ghost predicate StepsResolved(steps: seq<Step>, bound: RefNames)
    decreases |steps|
  {
    steps == [] ||
    (if steps[0].VertexStep? then VertexResolved(steps[0].vertex, bound) &&
        StepsResolved(steps[1..], bound + VertexRefs(steps[0].vertex))
     else StepsResolved(steps[1..], bound))
  }

  // Generic operators are used only where refs may change.
  ghost predicate Specific(p: Plan, bound: RefNames)
    decreases p, 0
  {
    match p
    case PVertex(m) => VertexResolved(m, bound)
    case PEdge(_) => true
    case PNoop => true
    case PPath(path) => StepsResolved(PathSteps(path), bound)
    case PPathToVertex(prefix, e, m) => StepsResolved(PathToVertexSteps(prefix, e, m), bound)
    case PConcatenation(ops) => SpecificConcat(ops, bound)
    case POr(ops) => forall o :: o in ops ==> Specific(o, bound)
    case PAndWithoutSetRef(ops) => ChangedSome(ops, bound) == {} && forall o :: o in ops ==> Specific(o, bound)
    case PAnd(ops) => ChangedSome(ops, bound) != {} && forall o :: o in ops ==> Specific(o, bound)
    case PAllAnd(ops) => ChangedSome(ops, bound) != {} && forall o :: o in ops ==> Specific(o, bound)
    case PAllWithoutSetRef(op) => Changed(op, bound) == {} && Specific(op, bound)
    case PAll(op) => Changed(op, bound) != {} && Specific(op, bound) && !op.PAnd?
    case PIfWithoutSetRef(op) => Changed(op, bound) == {} && Specific(op, bound)
    case PIf(op) => Changed(op, bound) != {} && Specific(op, bound)
    case PUnlessWithoutSetNonLocalRef(op, shared) => Changed(op, bound) * shared == {} && Specific(op, bound)
    case PUnless(op, shared) => Changed(op, bound) * shared != {} && Specific(op, bound)
    case PSkip(op) => Specific(op, bound)
    case PMaybe(op) => Specific(op, bound)
    case PNested(_, plan) => Specific(plan, bound)
    case PRepetition(op, _, _) => Specific(op, bound)
  }

  ghost predicate SpecificConcat(ops: seq<Plan>, bound: RefNames)
    decreases ops, 0
  {
    ops != [] ==> Specific(ops[0], bound) && SpecificConcat(ops[1..], Bound(ops[0], bound))
  }

  // --------------------------------------------------------------------------
  // Only mentioned refs matter
  // --------------------------------------------------------------------------

  lemma AgreeWithin(a: RefNames, b: RefNames, r: RefNames, some: RefNames, names: RefNames)
    requires a * names == b * names && r <= names
    ensures r - a == r - b && (a + r) * names == (b + r) * names && a * some * names == b * some * names
  {
    forall x | x in names ensures x in a <==> x in b { assert x in a * names <==> x in b * names; }
  }

  lemma AgreeTogether(a: RefNames, b: RefNames, c: RefNames, d: RefNames, names: RefNames)
    requires a * names == b * names && c * names == d * names
    ensures (a + c) * names == (b + d) * names && a * c * names == b * d * names
  {
    forall x | x in names ensures (x in a <==> x in b) && (x in c <==> x in d) {
      assert x in a * names <==> x in b * names;
      assert x in c * names <==> x in d * names;
    }
  }

  // The analysis of a plan only looks at which of the refs it mentions are bound.
  lemma {:induction false} OnlyMentionedMatter(p: Plan, a: RefNames, b: RefNames, names: RefNames)
    requires Mentioned(p) <= names && a * names == b * names
    ensures Changed(p, a) == Changed(p, b) && Bound(p, a) * names == Bound(p, b) * names
    ensures Supported(p, a) <==> Supported(p, b)
    decreases p, 0
  {
    match p
    case PVertex(m) => AgreeWithin(a, b, VertexRefs(m), {}, names);
    case PEdge(_) =>
    case PNoop =>
    case PPath(path) => AgreeWithin(a, b, BoundBySteps(PathSteps(path)), {}, names);
    case PPathToVertex(prefix, e, m) => AgreeWithin(a, b, BoundBySteps(PathToVertexSteps(prefix, e, m)), {}, names);
    case PConcatenation(ops) => OnlyMentionedMatterInTurn(ops, a, b, names);
    case POr(ops) => OnlyMentionedMatterInAll(ops, a, b, names);
    case PAndWithoutSetRef(ops) => OnlyMentionedMatterInAll(ops, a, b, names);
    case PAnd(ops) => OnlyMentionedMatterInAll(ops, a, b, names);
    case PAllAnd(ops) => OnlyMentionedMatterInAll(ops, a, b, names);
    case PNested(some, plan) =>
      AgreeWithin(a, b, {}, some, names);
      OnlyMentionedMatter(plan, a * some, b * some, names);
      AgreeTogether(a, b, Bound(plan, a * some), Bound(plan, b * some), names);
    case PRepetition(op, _, _) => OnlyMentionedMatter(op, a, b, names);
    case _ =>
      OnlyMentionedMatter(p.operand, a, b, names);
      OnlyMentionedMatterAbove(p, a, b, names);
  }

  lemma OnlyMentionedMatterAbove(p: Plan, a: RefNames, b: RefNames, names: RefNames)
    requires IsUnary(p) && a * names == b * names
    requires Changed(p.operand, a) == Changed(p.operand, b) &&
        Bound(p.operand, a) * names == Bound(p.operand, b) * names
    requires Supported(p.operand, a) <==> Supported(p.operand, b)
    ensures Changed(p, a) == Changed(p, b) && Bound(p, a) * names == Bound(p, b) * names
    ensures Supported(p, a) <==> Supported(p, b)
  {}

  lemma {:induction false} OnlyMentionedMatterInTurn(ops: seq<Plan>, a: RefNames, b: RefNames, names: RefNames)
    requires MentionedInAny(ops) <= names && a * names == b * names
    ensures ChangedConcat(ops, a) == ChangedConcat(ops, b) && BoundConcat(ops, a) * names == BoundConcat(ops, b) * names
    ensures SupportedConcat(ops, a) <==> SupportedConcat(ops, b)
    decreases ops, 0
  {
    if ops != [] {
      OnlyMentionedMatter(ops[0], a, b, names);
      OnlyMentionedMatterInTurn(ops[1..], Bound(ops[0], a), Bound(ops[0], b), names);
    }
  }

  lemma {:induction false} OnlyMentionedMatterInAll(ops: seq<Plan>, a: RefNames, b: RefNames, names: RefNames)
    requires MentionedInAny(ops) <= names && a * names == b * names
    ensures ChangedSome(ops, a) == ChangedSome(ops, b) && BoundSome(ops, a) * names == BoundSome(ops, b) * names
    ensures ops != [] ==> BoundEvery(ops, a) * names == BoundEvery(ops, b) * names
    ensures (forall o :: o in ops ==> Supported(o, a)) <==> (forall o :: o in ops ==> Supported(o, b))
    decreases ops, 0
  {
    if ops != [] {
      OnlyMentionedMatter(ops[0], a, b, names);
      OnlyMentionedMatterInAll(ops[1..], a, b, names);
      AgreeTogether(Bound(ops[0], a), Bound(ops[0], b), BoundSome(ops[1..], a), BoundSome(ops[1..], b), names);
      if |ops| > 1 {
        AgreeTogether(Bound(ops[0], a), Bound(ops[0], b), BoundEvery(ops[1..], a), BoundEvery(ops[1..], b), names);
      }
      assert ops == [ops[0]] + ops[1..];
    }
  }

  // A nested expression that is cached for the names it mentions is analysed as if it was in place.
  lemma NestedTracking(names: RefNames, plan: Plan, bound: RefNames)
    requires Mentioned(plan) <= names
    ensures Bound(PNested(names, plan), bound) == Bound(plan, bound) &&
        Changed(PNested(names, plan), bound) == Changed(plan, bound)
    ensures Supported(PNested(names, plan), bound) <==> Supported(plan, bound)
  {
    var some := bound * names;
    assert some * names == bound * names;
    OnlyMentionedMatter(plan, some, bound, names);
    BoundGrows(plan, bound);
    BoundGrows(plan, some);
    TrackingIsMonotone(plan, some, bound);
    ChangedAreMentioned(plan, bound);
    forall x | x in Bound(plan, bound) ensures x in bound + Bound(plan, some) {
      if x in names { assert x in Bound(plan, bound) * names; }
    }
  }

  // --------------------------------------------------------------------------
  // Operators whose operands change nothing
  // --------------------------------------------------------------------------

  ghost predicate EachKeeps(refs: Refs, ss: seq<set<Body>>) { forall i :: 0 <= i < |ss| ==> AllRefsKept(refs, ss[i]) }

  lemma KeptUnion(ss: seq<set<Body>>, refs: Refs)
    requires EachKeeps(refs, ss)
    ensures AllRefsKept(refs, Union(ss)) && (Union(ss) != {} ==> RefsOf(Union(ss)) == {refs})
  {
    forall b | b in Union(ss) ensures b.refs == refs {
      var i :| 0 <= i < |ss| && b in ss[i];
    }
    if b :| b in Union(ss) { assert b.refs in RefsOf(Union(ss)); }
  }

  lemma KeptCovers(ss: seq<set<Body>>, refs: Refs)
    requires EachKeeps(refs, ss)
    ensures CoversAll(ss, {refs}) <==> {} !in ss
  {
    forall i | 0 <= i < |ss| ensures HasMember(ss[i], {refs}) <==> ss[i] != {} {
      if b :| b in ss[i] { assert b.refs in {refs}; }
    }
    hide HasMember, AllRefsKept;
    if CoversAll(ss, {refs}) {
      forall i | 0 <= i < |ss| ensures ss[i] != {} { assert HasMember(ss[i], {refs}); }
    }
  }

  // The parts of the refspace are all the same: everything is joined.
  lemma JoinWithoutChanges(ss: seq<set<Body>>, refs: Refs)
    requires EachKeeps(refs, ss)
    ensures AndOf(ss) == if {} in ss then {} else Union(ss)
    ensures AllOf(ss) == if {} in ss || Union(ss) == {} then {} else {Body(Merged(ContentsOf(Union(ss))), refs)}
  {
    KeptUnion(ss, refs);
    KeptCovers(ss, refs);
    if {} !in ss && Union(ss) != {} {
      OneRefsJoin(ss, refs, false);
      OneRefsJoin(ss, refs, true);
      OneRefsInCell(Union(ss), refs);
    } else {
      forall m: set<Refs> ensures !JoinCell(ss, m) { NoCell(ss, refs, m); }
    }
  }

  lemma NoCell(ss: seq<set<Body>>, refs: Refs, m: set<Refs>)
    requires (Union(ss) != {} ==> RefsOf(Union(ss)) == {refs}) && (CoversAll(ss, {refs}) <==> {} !in ss)
    requires {} in ss || Union(ss) == {}
    ensures !JoinCell(ss, m)
  {
    if Union(ss) != {} { SubsetOfOne(m, refs); }
  }

  lemma AllWithoutChanges(s: set<Body>, refs: Refs)
    requires AllRefsKept(refs, s)
    ensures AllOf([s]) == if s == {} then {} else {Body(Merged(ContentsOf(s)), refs)}
  {
    forall b | b in s ensures b in Union([s]) { assert b in [s][0]; }
    assert Union([s]) == s;
    assert [s][0] == s;
    JoinWithoutChanges([s], refs);
  }

  lemma IfWithoutChanges(s: set<Body>, refs: Refs, pos: Position)
    requires AllRefsKept(refs, s)
    ensures EmptiesAt(pos, RefsOf(s)) == if s == {} then {} else {EmptyAt(pos, refs)}
  {
    if b :| b in s { assert RefsOf(s) == {refs} by { assert b.refs in RefsOf(s); } }
  }

  lemma NoTerms(g: Region)
    requires forall v: Assignment :: !Inside(v, g)
    ensures Terms(g) == {}
  {
    forall t: Refs ensures t !in Terms(g) {
      PointIsInside(t, {});
      assert !Inside(Point(t, {}), g);
    }
  }

  // If shared refs don't change, the negation keeps the whole region of the start or nothing of it.
  lemma UnlessWithoutChanges(s: set<Body>, refs: Refs, shared: RefNames, b: RefNames, changed: RefNames)
    requires AllRespect(refs, s, b, changed) && changed * shared == {}
    ensures Terms(UnlessRegion(refs, s, shared)) == if s == {} then {refs} else {}
  {
    var g := UnlessRegion(refs, s, shared);
    if x :| x in s {
      assert Respects(refs, x.refs, b, changed);
      forall l | l in Restrict(x.refs, shared) ensures l in refs { assert l.name !in changed * shared; }
      assert Restrict(x.refs, shared) in g.mustNot;
      forall v: Assignment ensures !Inside(v, g) {
        if Sat(refs, v) { assert Sat(Restrict(x.refs, shared), v); }
      }
      NoTerms(g);
    } else {
      SingletonIsExact(refs, g);
      TermsOf({refs}, g);
    }
  }

  // Where the operand changes nothing, operators with one operand may use its emptiness only.
  lemma SpecificMeansGeneric(w: World, op: Plan, shared: RefNames, pos: Position, refs: Refs, bound: RefNames)
    requires bound <= SetNames(refs)
    ensures Changed(op, bound) == {} ==>
      Sem(w, PAllWithoutSetRef(op), pos, refs) == Sem(w, PAll(op), pos, refs) &&
      Sem(w, PIfWithoutSetRef(op), pos, refs) == Sem(w, PIf(op), pos, refs)
    ensures Changed(op, bound) * shared == {} ==>
      Sem(w, PUnlessWithoutSetNonLocalRef(op, shared), pos, refs) == Sem(w, PUnless(op, shared), pos, refs)
  {
    hide Sem, AllOf, Terms, UnlessRegion, AllRespect, AllRefsKept;
    var s := Sem(w, op, pos, refs);
    MatchesRespect(w, op, pos, refs, bound);
    UnaryUnfold(w, PAllWithoutSetRef(op), pos, refs);
    UnaryUnfold(w, PAll(op), pos, refs);
    UnaryUnfold(w, PIfWithoutSetRef(op), pos, refs);
    UnaryUnfold(w, PIf(op), pos, refs);
    UnaryUnfold(w, PUnlessWithoutSetNonLocalRef(op, shared), pos, refs);
    UnaryUnfold(w, PUnless(op, shared), pos, refs);
    if Changed(op, bound) == {} {
      NothingChanged(refs, s, Bound(op, bound), Changed(op, bound));
      AllWithoutChanges(s, refs);
      IfWithoutChanges(s, refs, pos);
    }
    if Changed(op, bound) * shared == {} {
      UnlessWithoutChanges(s, refs, shared, Bound(op, bound), Changed(op, bound));
    }
  }

  lemma OperandsKeep(w: World, ops: seq<Plan>, pos: Position, refs: Refs, bound: RefNames)
    requires bound <= SetNames(refs) && ChangedSome(ops, bound) == {}
    ensures EachKeeps(refs, SemEach(w, ops, pos, refs))
  {
    forall i | 0 <= i < |ops| ensures AllRefsKept(refs, SemEach(w, ops, pos, refs)[i]) {
      SomeContains(ops, bound, i);
      SemEachAt(w, ops, pos, refs, i);
      MatchesRespect(w, ops[i], pos, refs, bound);
      NothingChanged(refs, Sem(w, ops[i], pos, refs), Bound(ops[i], bound), Changed(ops[i], bound));
    }
  }

  // Where operands change nothing, intersections needn't arrange their refs.
  lemma SpecificAndMeansGeneric(w: World, ops: seq<Plan>, pos: Position, refs: Refs, bound: RefNames)
    requires bound <= SetNames(refs) && ChangedSome(ops, bound) == {}
    ensures Sem(w, PAndWithoutSetRef(ops), pos, refs) == Sem(w, PAnd(ops), pos, refs)
    ensures Sem(w, PAllWithoutSetRef(PAndWithoutSetRef(ops)), pos, refs) == Sem(w, PAllAnd(ops), pos, refs)
  {
    hide AndOf, AllOf, EachKeeps;
    OperandsKeep(w, ops, pos, refs, bound);
    JoinWithoutChanges(SemEach(w, ops, pos, refs), refs);
    UnaryUnfold(w, PAllWithoutSetRef(PAndWithoutSetRef(ops)), pos, refs);
  }
}
