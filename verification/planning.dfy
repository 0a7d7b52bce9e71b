/** Plans match what the pattern means, whatever operator the operands are under. */
module Planning {
  import opened Base
  import opened RefsAlgebra
  import opened RefsUnions
  import opened Plans
  import opened Semantics
  import opened RefTracking
  import opened Dependencies
  import opened Mentions
  import opened Unfolding
  import opened Framing
  import opened TransparentCaching
  import opened Specialization
  import opened PlanningPaths
  import opened Expressions

  // --------------------------------------------------------------------------
  // Plans without planning
  // --------------------------------------------------------------------------

  // The expression matched step by step, by generic operators. `(all: X & Y)` is one operator.
  ghost function Naive(e: Expr): Plan
    decreases e
  {
    match e
    case VertexExpr(t, ref, placeholder) => PVertex(MatchVertex(t, ref, None, placeholder))
    case EdgeExpr(direction, forward, backward) => PEdge(MatchEdge(direction, forward, backward))
    case NoopExpr => PNoop
    case ConcatenationExpr(ops) => PConcatenation(NaiveEach(ops))
    case OrExpr(ops) => POr(NaiveEach(ops))
    case AndExpr(ops) => PAnd(NaiveEach(ops))
    case OperationExpr(operation, op) =>
      (match operation
       case All => if op.AndExpr? then PAllAnd(NaiveEach(op.operands)) else PAll(Naive(op))
       case If => PIf(Naive(op))
       case Unless(shared) => PUnless(Naive(op), shared)
       case Skip => PSkip(Naive(op))
       case Maybe => PMaybe(Naive(op)))
    case RepetitionExpr(min, max, op) => PRepetition(Naive(op), min, max)
  }

  ghost function NaiveEach(es: seq<Expr>): (ps: seq<Plan>)
    ensures |ps| == |es| && forall i :: 0 <= i < |es| ==> ps[i] == Naive(es[i])
    decreases es
  {
    if es == [] then [] else [Naive(es[0])] + NaiveEach(es[1..])
  }

  lemma NaiveAppend(a: seq<Expr>, b: seq<Expr>)
    ensures NaiveEach(a + b) == NaiveEach(a) + NaiveEach(b)
  {
    hide Naive, NaiveEach;
    forall i | 0 <= i < |a + b| ensures NaiveEach(a + b)[i] == (NaiveEach(a) + NaiveEach(b))[i] {}
  }

  // The refs that an expression mentions.
  function RefsIn(e: Expr): RefNames
    decreases e
  {
    match e
    case VertexExpr(_, ref, _) => if ref.Some? then {ref.value} else {}
    case EdgeExpr(_, _, _) => {}
    case NoopExpr => {}
    case ConcatenationExpr(ops) => RefsInAny(ops)
    case OrExpr(ops) => RefsInAny(ops)
    case AndExpr(ops) => RefsInAny(ops)
    case OperationExpr(_, op) => RefsIn(op)
    case RepetitionExpr(_, _, op) => RefsIn(op)
  }

  function RefsInAny(es: seq<Expr>): RefNames
    decreases es
  {
    if es == [] then {} else RefsIn(es[0]) + RefsInAny(es[1..])
  }

  // Operands of concatenations in concatenations are operands of the outer one.
  function Flatten(es: seq<Expr>): seq<Expr>
    decreases es
  {
    if es == [] then []
    else (if es[0].ConcatenationExpr? then Flatten(es[0].operands) else [es[0]]) + Flatten(es[1..])
  }

  // Nested expressions that are cached must not test the vertex they start from, which may be absent;
  // single vertices aren't cached.
  ghost predicate MayNest(e: Expr) { e.VertexExpr? || !Peeks(Naive(e)) }

  ghost predicate NestsOk(e: Expr)
    decreases e
  {
    match e
    case ConcatenationExpr(ops) => forall o :: o in ops ==> NestsOk(o)
    case OrExpr(ops) => forall o :: o in ops ==> NestsOk(o)
    case AndExpr(ops) => forall o :: o in ops ==> NestsOk(o) && MayNest(o)
    case OperationExpr(operation, op) =>
      NestsOk(op) && ((operation.All? && !op.AndExpr?) || operation.Maybe? ==> MayNest(op))
    case RepetitionExpr(_, _, op) => NestsOk(op)
    case _ => true
  }

  // --------------------------------------------------------------------------
  // Soundness of a plan
  // --------------------------------------------------------------------------

  // Wherever the refs are bound, one plan matches the same as the other one.
  ghost predicate Means(p: Plan, n: Plan, bound: RefNames) {
    forall w: World, pos: Position, refs: Refs {:trigger Sem(w, p, pos, refs)} {:trigger Sem(w, n, pos, refs)} ::
      bound <= SetNames(refs) ==> Sem(w, p, pos, refs) == Sem(w, n, pos, refs)
  }

  ghost predicate SameShape(p: Plan, n: Plan) {
    (Peeks(p) ==> Peeks(n)) && (Stays(p) ==> Stays(n))
  }

  // The matcher can match the plan, which is as specific as it can be.
  ghost predicate Usable(p: Plan, names: RefNames, bound: RefNames, edgeFirst: bool) {
    Plans.Valid(p) && NamesCover(p) && Mentioned(p) <= names && Specific(p, bound) && Supported(p, bound) &&
    (edgeFirst ==> NestsEdgeFirst(p))
  }

  // Given refs are bound, the plan matches what the expression means.
  ghost predicate Sound(p: Plan, e: Expr, bound: RefNames, edgeFirst: bool) {
    Usable(p, RefsIn(e), bound, edgeFirst) && Means(p, Naive(e), bound) && SameShape(p, Naive(e))
  }

  ghost predicate AllUsable(ps: seq<Plan>, bound: RefNames, edgeFirst: bool) {
    (forall p :: p in ps ==> Plans.Valid(p) && NamesCover(p) && Specific(p, bound) && Supported(p, bound)) &&
    (edgeFirst ==> AllEdgeFirst(ps))
  }

  ghost predicate EachIsSound(ps: seq<Plan>, es: seq<Expr>, bound: RefNames, edgeFirst: bool) {
    |ps| == |es| && forall i :: 0 <= i < |es| ==> Sound(ps[i], es[i], bound, edgeFirst)
  }

  // Planned one after another, so that every plan may rely on the refs bound by the ones before it.
  ghost predicate SoundInTurn(ps: seq<Plan>, es: seq<Expr>, bound: RefNames, edgeFirst: bool)
    decreases |ps|
  {
    |ps| == |es| &&
    (ps != [] ==>
       Sound(ps[0], es[0], bound, edgeFirst) &&
       SoundInTurn(ps[1..], es[1..], Bound(ps[0], bound), edgeFirst))
  }

  lemma {:induction false} SoundInTurnSnoc(ps: seq<Plan>, es: seq<Expr>, bound: RefNames, edgeFirst: bool, p: Plan,
      e: Expr)
    requires SoundInTurn(ps, es, bound, edgeFirst) && Sound(p, e, BoundConcat(ps, bound), edgeFirst)
    ensures SoundInTurn(ps + [p], es + [e], bound, edgeFirst)
    decreases |ps|
  {
    hide Sound, Bound;
    if ps == [] {
      assert ps + [p] == [p] && es + [e] == [e] && [p][1..] == [] && [e][1..] == [];
    } else {
      assert (ps + [p])[0] == ps[0] && (ps + [p])[1..] == ps[1..] + [p];
      assert (es + [e])[0] == es[0] && (es + [e])[1..] == es[1..] + [e];
      SoundInTurnSnoc(ps[1..], es[1..], Bound(ps[0], bound), edgeFirst, p, e);
    }
  }

  lemma SameInTurn(w: World, ps: seq<Plan>, es: seq<Expr>, bound: RefNames, edgeFirst: bool, pos: Position, refs: Refs)
    requires EachIsSound(ps, es, bound, edgeFirst) && bound <= SetNames(refs)
    ensures SemEach(w, ps, pos, refs) == SemEach(w, NaiveEach(es), pos, refs)
  {
    var ns := NaiveEach(es);
    forall i | 0 <= i < |ps| ensures SemEach(w, ps, pos, refs)[i] == SemEach(w, ns, pos, refs)[i] {
      assert Sound(ps[i], es[i], bound, edgeFirst);
      SemEachAt(w, ps, pos, refs, i);
      SemEachAt(w, ns, pos, refs, i);
    }
  }

  ghost predicate SomePeeks(ps: seq<Plan>) { exists p :: p in ps && Peeks(p) }

  ghost predicate SomeStays(ps: seq<Plan>) { exists p :: p in ps && Stays(p) }

  lemma EachShape(ps: seq<Plan>, es: seq<Expr>, bound: RefNames, edgeFirst: bool)
    requires EachIsSound(ps, es, bound, edgeFirst)
    ensures SomePeeks(ps) ==> SomePeeks(NaiveEach(es))
    ensures SomeStays(ps) ==> SomeStays(NaiveEach(es))
  {
    var ns := NaiveEach(es);
    forall i | 0 <= i < |ps| ensures SameShape(ps[i], ns[i]) { assert Sound(ps[i], es[i], bound, edgeFirst); }
    hide Peeks, Stays, Sound, Naive, NaiveEach;
    if SomePeeks(ps) {
      var i :| 0 <= i < |ps| && Peeks(ps[i]);
      assert SameShape(ps[i], ns[i]) && ns[i] in ns;
    }
    if SomeStays(ps) {
      var i :| 0 <= i < |ps| && Stays(ps[i]);
      assert SameShape(ps[i], ns[i]) && ns[i] in ns;
    }
  }

  lemma {:induction false} EachMentions(ps: seq<Plan>, es: seq<Expr>)
    requires |ps| == |es| && forall i :: 0 <= i < |es| ==> Mentioned(ps[i]) <= RefsIn(es[i])
    ensures MentionedInAny(ps) <= RefsInAny(es)
    decreases |ps|
  {
    if ps != [] {
      forall i | 0 <= i < |es| - 1 ensures Mentioned(ps[1..][i]) <= RefsIn(es[1..][i]) {
        assert Mentioned(ps[i + 1]) <= RefsIn(es[i + 1]);
      }
      EachMentions(ps[1..], es[1..]);
      assert Mentioned(ps[0]) <= RefsIn(es[0]);
    }
  }

  // What operands share, whatever operator combines them.
  lemma EachIsUsable(ps: seq<Plan>, es: seq<Expr>, bound: RefNames, edgeFirst: bool)
    requires EachIsSound(ps, es, bound, edgeFirst)
    ensures AllUsable(ps, bound, edgeFirst) && MentionedInAny(ps) <= RefsInAny(es)
  {
    hide Plans.Valid, NamesCover, Specific, Supported, NestsEdgeFirst, Means, SameShape, Mentioned;
    forall p | p in ps
      ensures Plans.Valid(p) && NamesCover(p) && Specific(p, bound) && Supported(p, bound)
      ensures edgeFirst ==> NestsEdgeFirst(p)
    {
      var i :| 0 <= i < |ps| && p == ps[i];
      assert Sound(ps[i], es[i], bound, edgeFirst);
    }
    forall i | 0 <= i < |es| ensures Mentioned(ps[i]) <= RefsIn(es[i]) { assert Sound(ps[i], es[i], bound, edgeFirst); }
    EachMentions(ps, es);
  }

  // --------------------------------------------------------------------------
  // Operators with several operands
  // --------------------------------------------------------------------------

  lemma OrIsSound(ps: seq<Plan>, es: seq<Expr>, bound: RefNames, edgeFirst: bool)
    requires EachIsSound(ps, es, bound, edgeFirst)
    ensures Sound(POr(ps), OrExpr(es), bound, edgeFirst)
  {
    var p, n := POr(ps), POr(NaiveEach(es));
    assert Naive(OrExpr(es)) == n && RefsIn(OrExpr(es)) == RefsInAny(es);
    hide EachIsSound, Usable, Peeks, Stays, Naive, NaiveEach, AllUsable, SomePeeks, SomeStays,
        RefsIn, RefsInAny;
    EachIsUsable(ps, es, bound, edgeFirst);
    EachShape(ps, es, bound, edgeFirst);
    OrIsUsable(ps, RefsInAny(es), bound, edgeFirst);
    OrShape(ps);
    OrShape(NaiveEach(es));
    forall w: World, pos: Position, refs: Refs | bound <= SetNames(refs)
      ensures Sem(w, p, pos, refs) == Sem(w, n, pos, refs)
    {
      SameInTurn(w, ps, es, bound, edgeFirst, pos, refs);
      OrMeans(w, ps, NaiveEach(es), pos, refs);
    }
    assert Means(p, n, bound);
  }

  lemma OrMeans(w: World, ps: seq<Plan>, ns: seq<Plan>, pos: Position, refs: Refs)
    requires SemEach(w, ps, pos, refs) == SemEach(w, ns, pos, refs)
    ensures Sem(w, POr(ps), pos, refs) == Sem(w, POr(ns), pos, refs)
  {}

  lemma OrIsUsable(ps: seq<Plan>, names: RefNames, bound: RefNames, edgeFirst: bool)
    requires AllUsable(ps, bound, edgeFirst) && MentionedInAny(ps) <= names
    ensures Usable(POr(ps), names, bound, edgeFirst)
  {}

  lemma OrShape(ps: seq<Plan>)
    ensures (Peeks(POr(ps)) <==> SomePeeks(ps)) && (Stays(POr(ps)) <==> SomeStays(ps))
  {}

  ghost function AndPlan(ps: seq<Plan>, bound: RefNames): Plan {
    if ChangedSome(ps, bound) == {} then PAndWithoutSetRef(ps) else PAnd(ps)
  }

  ghost function AllAndPlan(ps: seq<Plan>, bound: RefNames): Plan {
    if ChangedSome(ps, bound) == {} then PAllWithoutSetRef(PAndWithoutSetRef(ps)) else PAllAnd(ps)
  }

  lemma JoinIsUsable(ps: seq<Plan>, names: RefNames, bound: RefNames, edgeFirst: bool)
    requires AllUsable(ps, bound, edgeFirst) && MentionedInAny(ps) <= names
    ensures Usable(AndPlan(ps, bound), names, bound, edgeFirst)
  {}

  lemma AllJoinIsUsable(ps: seq<Plan>, names: RefNames, bound: RefNames, edgeFirst: bool)
    requires AllUsable(ps, bound, edgeFirst) && MentionedInAny(ps) <= names
    ensures Usable(AllAndPlan(ps, bound), names, bound, edgeFirst)
  {
    if ChangedSome(ps, bound) == {} {
      JoinIsUsable(ps, names, bound, edgeFirst);
      assert Changed(PAndWithoutSetRef(ps), bound) == {};
      hide Valid, NamesCover, Mentioned, Specific, Supported;
      UnaryIsUsable(PAllWithoutSetRef(PAndWithoutSetRef(ps)), names, bound, edgeFirst);
    }
  }

  // Intersections of any kind.
  predicate IsConjunction(p: Plan) { p.PAnd? || p.PAndWithoutSetRef? || p.PAllAnd? }

  lemma JoinShape(p: Plan)
    requires IsConjunction(p)
    ensures (Peeks(p) <==> SomePeeks(p.operands)) && (Stays(p) <==> SomeStays(p.operands))
  {}

  lemma AndShape(p: Plan, n: Plan, ps: seq<Plan>, es: seq<Expr>, bound: RefNames, edgeFirst: bool)
    requires EachIsSound(ps, es, bound, edgeFirst) && IsConjunction(n) && n.operands == NaiveEach(es)
    requires (IsConjunction(p) && p.operands == ps) || p == PAllWithoutSetRef(PAndWithoutSetRef(ps))
    ensures SameShape(p, n)
  {
    hide EachIsSound, Peeks, Stays, Naive, NaiveEach, SomePeeks, SomeStays;
    EachShape(ps, es, bound, edgeFirst);
    JoinShape(n);
    if p.PAllWithoutSetRef? {
      UnaryShape(p);
      JoinShape(p.operand);
    } else {
      JoinShape(p);
    }
  }

  lemma AndMeans(w: World, ps: seq<Plan>, ns: seq<Plan>, bound: RefNames, pos: Position, refs: Refs)
    requires bound <= SetNames(refs) && SemEach(w, ps, pos, refs) == SemEach(w, ns, pos, refs)
    ensures Sem(w, AndPlan(ps, bound), pos, refs) == Sem(w, PAnd(ns), pos, refs)
    ensures Sem(w, AllAndPlan(ps, bound), pos, refs) == Sem(w, PAllAnd(ns), pos, refs)
  {
    assert Sem(w, PAnd(ps), pos, refs) == Sem(w, PAnd(ns), pos, refs) &&
        Sem(w, PAllAnd(ps), pos, refs) == Sem(w, PAllAnd(ns), pos, refs);
    hide Sem;
    if ChangedSome(ps, bound) == {} { SpecificAndMeansGeneric(w, ps, pos, refs, bound); }
  }

  lemma AndIsSound(ps: seq<Plan>, es: seq<Expr>, bound: RefNames, edgeFirst: bool)
    requires EachIsSound(ps, es, bound, edgeFirst)
    ensures Sound(AndPlan(ps, bound), AndExpr(es), bound, edgeFirst)
    ensures Sound(AllAndPlan(ps, bound), OperationExpr(All, AndExpr(es)), bound, edgeFirst)
  {
    assert Naive(AndExpr(es)) == PAnd(NaiveEach(es)) &&
        Naive(OperationExpr(All, AndExpr(es))) == PAllAnd(NaiveEach(es));
    hide Naive, NaiveEach, Sem, Usable, SameShape, EachIsSound, AllUsable;
    EachIsUsable(ps, es, bound, edgeFirst);
    JoinIsUsable(ps, RefsInAny(es), bound, edgeFirst);
    AllJoinIsUsable(ps, RefsInAny(es), bound, edgeFirst);
    AndShape(AndPlan(ps, bound), PAnd(NaiveEach(es)), ps, es, bound, edgeFirst);
    AndShape(AllAndPlan(ps, bound), PAllAnd(NaiveEach(es)), ps, es, bound, edgeFirst);
    forall w: World, pos: Position, refs: Refs | bound <= SetNames(refs)
      ensures Sem(w, AndPlan(ps, bound), pos, refs) == Sem(w, PAnd(NaiveEach(es)), pos, refs)
      ensures Sem(w, AllAndPlan(ps, bound), pos, refs) == Sem(w, PAllAnd(NaiveEach(es)), pos, refs)
    {
      SameInTurn(w, ps, es, bound, edgeFirst, pos, refs);
      AndMeans(w, ps, NaiveEach(es), bound, pos, refs);
    }
    assert Means(AndPlan(ps, bound), PAnd(NaiveEach(es)), bound);
    assert Means(AllAndPlan(ps, bound), PAllAnd(NaiveEach(es)), bound);
  }

  // --------------------------------------------------------------------------
  // Operators with one operand
  // --------------------------------------------------------------------------

  ghost function OperationPlan(operation: Operation, p: Plan, bound: RefNames): Plan {
    match operation
    case All => if Changed(p, bound) == {} then PAllWithoutSetRef(p) else PAll(p)
    case If => if Changed(p, bound) == {} then PIfWithoutSetRef(p) else PIf(p)
    case Unless(shared) => if Changed(p, bound) * shared == {} then
        PUnlessWithoutSetNonLocalRef(p, shared) else PUnless(p, shared)
    case Skip => PSkip(p)
    case Maybe => PMaybe(p)
  }

  ghost function GenericPlan(operation: Operation, p: Plan): Plan {
    match operation
    case All => PAll(p)
    case If => PIf(p)
    case Unless(shared) => PUnless(p, shared)
    case Skip => PSkip(p)
    case Maybe => PMaybe(p)
  }

  ghost predicate ChoiceIsSpecific(p: Plan, bound: RefNames)
    requires IsUnary(p)
  {
    match p
    case PAllWithoutSetRef(op) => Changed(op, bound) == {}
    case PAll(op) => Changed(op, bound) != {} && !op.PAnd?
    case PIfWithoutSetRef(op) => Changed(op, bound) == {}
    case PIf(op) => Changed(op, bound) != {}
    case PUnlessWithoutSetNonLocalRef(op, shared) => Changed(op, bound) * shared == {}
    case PUnless(op, shared) => Changed(op, bound) * shared != {}
    case _ => true
  }

  lemma UnaryIsUsable(p: Plan, names: RefNames, bound: RefNames, edgeFirst: bool)
    requires IsUnary(p) && Usable(p.operand, names, bound, edgeFirst) && ChoiceIsSpecific(p, bound)
    ensures Usable(p, names, bound, edgeFirst)
  {}

  lemma UnaryShape(p: Plan)
    requires IsUnary(p)
    ensures Peeks(p) <==> Peeks(p.operand)
    ensures Stays(p) <==> !(p.PAll? || p.PAllWithoutSetRef? || p.PSkip?) || Stays(p.operand)
  {}

  lemma OperationMeans(w: World, operation: Operation, p: Plan, n: Plan, bound: RefNames, pos: Position, refs: Refs)
    requires bound <= SetNames(refs) && Sem(w, p, pos, refs) == Sem(w, n, pos, refs)
    ensures Sem(w, OperationPlan(operation, p, bound), pos, refs) == Sem(w, GenericPlan(operation, n), pos, refs)
  {
    hide Sem, AllOf, Terms;
    var shared := if operation.Unless? then operation.shared else {};
    SpecificMeansGeneric(w, p, shared, pos, refs, bound);
    UnaryUnfold(w, GenericPlan(operation, p), pos, refs);
    UnaryUnfold(w, GenericPlan(operation, n), pos, refs);
    SameApplied(operation, p, n, Sem(w, p, pos, refs), pos, refs);
  }

  lemma SameApplied(operation: Operation, p: Plan, n: Plan, s: set<Body>, pos: Position, refs: Refs)
    ensures Applied(GenericPlan(operation, p), s, pos, refs) == Applied(GenericPlan(operation, n), s, pos, refs)
  {
    hide AllOf, Terms, EmptiesAt, SkippedOf, UnlessRegion, EmptyAt, RefsOf;
    match operation
    case All => assert Applied(PAll(p), s, pos, refs) == AllOf([s]) == Applied(PAll(n), s, pos, refs);
    case If => assert Applied(PIf(p), s, pos, refs) == EmptiesAt(pos, RefsOf(s)) == Applied(PIf(n), s, pos, refs);
    case Unless(shared) =>
    case Skip => assert Applied(PSkip(p), s, pos, refs) == SkippedOf(s) == Applied(PSkip(n), s, pos, refs);
    case Maybe =>
  }

  lemma OperationIsSound(operation: Operation, p: Plan, e: Expr, bound: RefNames, edgeFirst: bool)
    requires Sound(p, e, bound, edgeFirst) && (operation.All? ==> !e.AndExpr? && !p.PAnd?)
    ensures Sound(OperationPlan(operation, p, bound), OperationExpr(operation, e), bound, edgeFirst)
  {
    var q, n := OperationPlan(operation, p, bound), GenericPlan(operation, Naive(e));
    assert Naive(OperationExpr(operation, e)) == n && RefsIn(OperationExpr(operation, e)) == RefsIn(e);
    OperationIsUsable(operation, p, RefsIn(e), bound, edgeFirst);
    hide Usable, Naive, RefsIn, Sem, Changed, OperationPlan, GenericPlan, SameShape;
    OperationShape(operation, p, Naive(e), bound);
    forall w: World, pos: Position, refs: Refs | bound <= SetNames(refs)
      ensures Sem(w, q, pos, refs) == Sem(w, n, pos, refs)
    {
      assert Sem(w, p, pos, refs) == Sem(w, Naive(e), pos, refs);
      OperationMeans(w, operation, p, Naive(e), bound, pos, refs);
    }
    assert Means(q, n, bound);
    hide Means;
  }

  lemma OperationIsUsable(operation: Operation, p: Plan, names: RefNames, bound: RefNames, edgeFirst: bool)
    requires Usable(p, names, bound, edgeFirst) && (operation.All? ==> !p.PAnd?)
    ensures Usable(OperationPlan(operation, p, bound), names, bound, edgeFirst)
  {
    hide Usable, Changed;
    UnaryIsUsable(OperationPlan(operation, p, bound), names, bound, edgeFirst);
  }

  lemma OperationShape(operation: Operation, p: Plan, n: Plan, bound: RefNames)
    requires SameShape(p, n)
    ensures SameShape(OperationPlan(operation, p, bound), GenericPlan(operation, n))
  {
    hide Peeks, Stays, Changed;
    UnaryShape(OperationPlan(operation, p, bound));
    UnaryShape(GenericPlan(operation, n));
  }

  lemma NestedIsUsable(names: RefNames, p: Plan, bound: RefNames, edgeFirst: bool)
    requires Usable(p, names, bound, edgeFirst) && (edgeFirst ==> !Peeks(p))
    ensures Usable(PNested(names, p), names, bound, edgeFirst)
  {
    NestedTracking(names, p, bound);
    hide Supported;
  }

  lemma NestedShape(names: RefNames, p: Plan)
    ensures SameShape(PNested(names, p), p)
  {}

  lemma NestedMeans(w: World, names: RefNames, p: Plan, pos: Position, refs: Refs)
    requires Mentioned(p) <= names
    ensures Sem(w, PNested(names, p), pos, refs) == Sem(w, p, pos, refs)
  {
    hide FromCache;
    NestedInPlace(w, names, p, pos, refs);
  }

  lemma NestedIsSound(p: Plan, e: Expr, bound: RefNames, edgeFirst: bool)
    requires Sound(p, e, bound, edgeFirst) && (edgeFirst ==> !Peeks(Naive(e)))
    ensures Sound(PNested(RefsIn(e), p), e, bound, edgeFirst)
    ensures Bound(PNested(RefsIn(e), p), bound) == Bound(p, bound) &&
        Changed(PNested(RefsIn(e), p), bound) == Changed(p, bound)
  {
    hide Plans.Valid, Peeks, Stays, Sem, Naive, RefsIn, Mentioned, NamesCover, Specific, Supported, Bound,
        Changed;
    var q := PNested(RefsIn(e), p);
    NestedTracking(RefsIn(e), p, bound);
    NestedIsUsable(RefsIn(e), p, bound, edgeFirst);
    NestedShape(RefsIn(e), p);
    forall w: World, pos: Position, refs: Refs | bound <= SetNames(refs)
      ensures Sem(w, q, pos, refs) == Sem(w, Naive(e), pos, refs)
    {
      NestedMeans(w, RefsIn(e), p, pos, refs);
      assert Sem(w, p, pos, refs) == Sem(w, Naive(e), pos, refs);
    }
    assert Means(q, Naive(e), bound);
    hide Means;
  }

  lemma {:induction false} RepeatMeans(w: World, p: Plan, n: Plan, min: nat, max: nat, k: nat, chain: Body,
      bound: RefNames)
    requires Means(p, n, bound) && bound <= SetNames(chain.refs)
    ensures SemRepeat(w, p, min, max, k, chain) == SemRepeat(w, n, min, max, k, chain)
    decreases max - k
  {
    if k >= max {
      RepeatEnds(w, p, min, max, k, chain);
      RepeatEnds(w, n, min, max, k, chain);
    } else {
      forall q | q in chain.content.ends ensures Sem(w, p, q, chain.refs) == Sem(w, n, q, chain.refs) {}
      hide Sem, SemRepeat, Continued;
      LinksMean(w, p, n, chain);
      ContinuedUnfold(w, p, max, k, chain);
      ContinuedUnfold(w, n, max, k, chain);
      var links := LinksFrom(w, p, chain);
      if links == {} {
        RepeatEnds(w, p, min, max, k, chain);
        RepeatEnds(w, n, min, max, k, chain);
      } else {
        forall c | c in links ensures SemRepeat(w, p, min, max, k + 1, c) == SemRepeat(w, n, min, max, k + 1, c) {
          LinkBinds(w, p, chain, bound, c);
          RepeatMeans(w, p, n, min, max, k + 1, c, bound);
        }
        RepeatUnfold(w, p, min, max, k, chain);
        RepeatUnfold(w, n, min, max, k, chain);
        ChainsMean(w, p, n, min, max, k + 1, links);
      }
    }
  }

  lemma LinksMean(w: World, p: Plan, n: Plan, chain: Body)
    requires forall q :: q in chain.content.ends ==> Sem(w, p, q, chain.refs) == Sem(w, n, q, chain.refs)
    ensures LinksFrom(w, p, chain) == LinksFrom(w, n, chain)
  {
    hide Sem, Join;
  }

  lemma LinkBinds(w: World, p: Plan, chain: Body, bound: RefNames, c: Body)
    requires bound <= SetNames(chain.refs) && c in LinksFrom(w, p, chain)
    ensures bound <= SetNames(c.refs)
  {
    var q, t :| q in chain.content.ends && t in Sem(w, p, q, chain.refs) && c == Join(chain, t);
    MatchesRespect(w, p, q, chain.refs, bound);
    BoundGrows(p, bound);
    assert Respects(chain.refs, t.refs, Bound(p, bound), Changed(p, bound));
  }

  lemma ChainsMean(w: World, p: Plan, n: Plan, min: nat, max: nat, k: nat, cs: set<Body>)
    requires forall c :: c in cs ==> SemRepeat(w, p, min, max, k, c) == SemRepeat(w, n, min, max, k, c)
    ensures ChainsFrom(w, p, min, max, k, cs) == ChainsFrom(w, n, min, max, k, cs)
  {
    hide SemRepeat;
  }

  lemma RepetitionIsSound(p: Plan, e: Expr, min: nat, max: nat, bound: RefNames, edgeFirst: bool)
    requires Sound(p, e, bound, edgeFirst)
    ensures Sound(PRepetition(p, min, max), RepetitionExpr(min, max, e), bound, edgeFirst)
  {
    var q, n := PRepetition(p, min, max), PRepetition(Naive(e), min, max);
    forall w: World, pos: Position, refs: Refs | bound <= SetNames(refs)
      ensures Sem(w, q, pos, refs) == Sem(w, n, pos, refs)
    {
      RepeatMeans(w, p, Naive(e), min, max, 0, EmptyAt(pos, refs), bound);
    }
  }

  // --------------------------------------------------------------------------
  // Vertices, edges and concatenations
  // --------------------------------------------------------------------------

  function VertexPlan(t: Option<TypeName>, ref: Option<RefName>, placeholder: Option<VertexID>,
      bound: RefNames): MatchVertex {
    if ref.None? then MatchVertex(t, None, None, placeholder)
    else if ref.value in bound then MatchVertex(t, None, ref, placeholder)
    else MatchVertex(t, ref, None, placeholder)
  }

  lemma VertexIsSound(t: Option<TypeName>, ref: Option<RefName>, placeholder: Option<VertexID>, bound: RefNames,
      edgeFirst: bool)
    ensures Sound(PVertex(VertexPlan(t, ref, placeholder, bound)), VertexExpr(t, ref, placeholder), bound, edgeFirst)
  {
    var m, n := VertexPlan(t, ref, placeholder, bound), MatchVertex(t, ref, None, placeholder);
    forall w: World, pos: Position, refs: Refs | bound <= SetNames(refs)
      ensures Sem(w, PVertex(m), pos, refs) == Sem(w, PVertex(n), pos, refs)
    {
      assert VertexMatch(w.graph, m, pos, refs) == VertexMatch(w.graph, n, pos, refs);
      assert [VertexStep(m)][1..] == [VertexStep(n)][1..];
    }
  }

  lemma EdgeIsSound(e: Expr, bound: RefNames, edgeFirst: bool)
    requires e.EdgeExpr? && ValidExpr(e)
    ensures Sound(PEdge(MatchEdge(e.direction, e.forward, e.backward)), e, bound, edgeFirst)
  {}

  lemma NoopIsSound(bound: RefNames, edgeFirst: bool)
    ensures Sound(PNoop, NoopExpr, bound, edgeFirst)
  {}

  lemma {:induction false} InTurnMeans(w: World, ps: seq<Plan>, es: seq<Expr>, bound: RefNames, edgeFirst: bool,
      pos: Position, refs: Refs)
    requires SoundInTurn(ps, es, bound, edgeFirst) && bound <= SetNames(refs)
    ensures SemConcat(w, ps, pos, refs) == SemConcat(w, NaiveEach(es), pos, refs)
    decreases |ps|
  {
    var ns := NaiveEach(es);
    if ps == [] {
    } else {
      assert Sem(w, ps[0], pos, refs) == Sem(w, ns[0], pos, refs);
      assert ns[1..] == NaiveEach(es[1..]);
      hide Sem, SemConcat, Sound, Naive, NaiveEach, Bound, Changed;
      ConcatUnfold(w, ps, pos, refs);
      ConcatUnfold(w, ns, pos, refs);
      if |ps| > 1 {
        var s := Sem(w, ps[0], pos, refs);
        MatchesRespect(w, ps[0], pos, refs, bound);
        forall h, q | h in s && q in h.content.ends
          ensures SemConcat(w, ps[1..], q, h.refs) == SemConcat(w, ns[1..], q, h.refs)
        {
          assert Respects(refs, h.refs, Bound(ps[0], bound), Changed(ps[0], bound));
          InTurnMeans(w, ps[1..], es[1..], Bound(ps[0], bound), edgeFirst, q, h.refs);
        }
        ThensMean(w, s, ps[1..], ns[1..]);
      }
    }
  }

  lemma ThensMean(w: World, s: set<Body>, a: seq<Plan>, b: seq<Plan>)
    requires forall h, q :: h in s && q in h.content.ends ==> SemConcat(w, a, q, h.refs) == SemConcat(w, b, q, h.refs)
    ensures ConcatThen(w, s, a) == ConcatThen(w, s, b)
  {
    hide SemConcat, Join;
  }

  lemma {:induction false} InTurnShape(ps: seq<Plan>, es: seq<Expr>, bound: RefNames, edgeFirst: bool)
    requires SoundInTurn(ps, es, bound, edgeFirst)
    ensures PeeksConcat(ps) ==> PeeksConcat(NaiveEach(es))
    ensures AllStay(ps) ==> AllStay(NaiveEach(es))
    ensures MentionedInAny(ps) <= RefsInAny(es) && SpecificConcat(ps, bound) && SupportedConcat(ps, bound)
    ensures edgeFirst ==> AllEdgeFirst(ps)
    decreases |ps|
  {
    if ps != [] {
      var ns := NaiveEach(es);
      assert SameShape(ps[0], ns[0]) && Mentioned(ps[0]) <= RefsIn(es[0]) && Specific(ps[0], bound) &&
          Supported(ps[0], bound) && (edgeFirst ==> NestsEdgeFirst(ps[0]));
      assert ns[1..] == NaiveEach(es[1..]);
      hide Sound, Naive, NaiveEach, Bound, Changed, Peeks, Stays, Specific, Supported, Mentioned;
      InTurnShape(ps[1..], es[1..], Bound(ps[0], bound), edgeFirst);
      StayUnfold(ps);
      StayUnfold(ns);
      assert ps == [ps[0]] + ps[1..];
    }
  }

  lemma StayUnfold(ps: seq<Plan>)
    requires ps != []
    ensures AllStay(ps) <==> Stays(ps[0]) && AllStay(ps[1..])
  {
    hide Stays;
    assert ps == [ps[0]] + ps[1..];
  }

  lemma ListOfOne(p: Plan, b: RefNames)
    ensures BoundConcat([p], b) == Bound(p, b) && ChangedConcat([p], b) == Changed(p, b)
    ensures (SupportedConcat([p], b) <==> Supported(p, b)) && (SpecificConcat([p], b) <==> Specific(p, b))
    ensures MentionedInAny([p]) == Mentioned(p) && (PeeksConcat([p]) <==> Peeks(p)) && (AllStay([p]) <==> Stays(p))
    ensures AllEdgeFirst([p]) <==> NestsEdgeFirst(p)
  {
    assert [p][0] == p && [p][1..] == [] && p in [p];
    assert BoundConcat([p], b) == BoundConcat([], Bound(p, b));
    assert ChangedConcat([p], b) == Changed(p, b) + ChangedConcat([], Bound(p, b));
    assert MentionedInAny([p]) == Mentioned(p) + MentionedInAny([]);
  }

  lemma ConcatIsList(ps: seq<Plan>, b: RefNames)
    ensures var p := PConcatenation(ps);
      Bound(p, b) == BoundConcat(ps, b) && Changed(p, b) == ChangedConcat(ps, b) &&
      (Supported(p, b) <==> SupportedConcat(ps, b)) && (Specific(p, b) <==> SpecificConcat(ps, b)) &&
      Mentioned(p) == MentionedInAny(ps) && (Peeks(p) <==> PeeksConcat(ps)) && (Stays(p) <==> AllStay(ps)) &&
      (NestsEdgeFirst(p) <==> AllEdgeFirst(ps))
  {}

  // A concatenation in a concatenation is the same as its operands.
  lemma OneConcat(qs: seq<Plan>)
    requires qs != []
    ensures Regroups(qs, [PConcatenation(qs)])
  {
    var p, xs := PConcatenation(qs), [PConcatenation(qs)];
    forall w: World, pos: Position, refs: Refs ensures SemConcat(w, qs, pos, refs) == SemConcat(w, xs, pos, refs) {
      ConcatUnfold(w, xs, pos, refs);
      assert Sem(w, p, pos, refs) == SemConcat(w, qs, pos, refs);
    }
    hide SemConcat, BoundConcat, ChangedConcat, SupportedConcat, SpecificConcat, PeeksConcat, AllEdgeFirst, AllStay,
        MentionedInAny;
    forall b: RefNames
      ensures BoundConcat(qs, b) == BoundConcat(xs, b) && ChangedConcat(qs, b) == ChangedConcat(xs, b)
      ensures (SupportedConcat(xs, b) ==> SupportedConcat(qs, b)) && (SpecificConcat(xs, b) ==> SpecificConcat(qs, b))
    {
      ListOfOne(p, b);
      ConcatIsList(qs, b);
    }
    ListOfOne(p, {});
    ConcatIsList(qs, {});
  }

  lemma {:induction false} FlattenRegroups(es: seq<Expr>)
    requires forall e :: e in es ==> ValidExpr(e)
    ensures Regroups(NaiveEach(Flatten(es)), NaiveEach(es))
    decreases es
  {
    if es == [] {
    } else {
      var rest := es[1..];
      var first := if es[0].ConcatenationExpr? then Flatten(es[0].operands) else [es[0]];
      assert Flatten(es) == first + Flatten(rest);
      FlattenRegroups(rest);
      assert ValidExpr(es[0]);
      assert es == [es[0]] + rest;
      NaiveAppend([es[0]], rest);
      NaiveAppend(first, Flatten(rest));
      assert NaiveEach([es[0]]) == [Naive(es[0])];
      if es[0].ConcatenationExpr? {
        FlattenRegroups(es[0].operands);
        OneConcat(NaiveEach(es[0].operands));
        RegroupsTransitive(NaiveEach(first), NaiveEach(es[0].operands), [Naive(es[0])]);
      } else {
        RegroupsItself(NaiveEach(first));
      }
      RegroupsAppend(NaiveEach(first), [Naive(es[0])], NaiveEach(Flatten(rest)), NaiveEach(rest));
    }
  }

  lemma {:induction false} FlattenKeeps(es: seq<Expr>)
    requires forall e :: e in es ==> ValidExpr(e)
    ensures |Flatten(es)| >= |es| && RefsInAny(Flatten(es)) == RefsInAny(es)
    ensures forall e :: e in Flatten(es) ==> ValidExpr(e) && !e.ConcatenationExpr?
    ensures (forall e :: e in es ==> NestsOk(e)) ==> forall e :: e in Flatten(es) ==> NestsOk(e)
    decreases es
  {
    if es != [] {
      var rest := es[1..];
      var first := if es[0].ConcatenationExpr? then Flatten(es[0].operands) else [es[0]];
      assert ValidExpr(es[0]);
      FlattenKeeps(rest);
      if es[0].ConcatenationExpr? { FlattenKeeps(es[0].operands); } else {
        assert RefsInAny([es[0]]) == RefsIn(es[0]) + RefsInAny([es[0]][1..]);
      }
      RefsInAppend(first, Flatten(rest));
    }
  }

  lemma {:induction false} RefsInAppend(a: seq<Expr>, b: seq<Expr>)
    ensures RefsInAny(a + b) == RefsInAny(a) + RefsInAny(b)
    decreases |a|
  {
    if a == [] {
      assert a + b == b;
    } else {
      assert (a + b)[0] == a[0] && (a + b)[1..] == a[1..] + b;
      RefsInAppend(a[1..], b);
    }
  }

  ghost function ConcatPlan(plans: seq<Plan>): Plan
    requires plans != []
  {
    if |plans| == 1 then plans[0] else PConcatenation(plans)
  }

  lemma ConcatPlanIs(plans: seq<Plan>, bound: RefNames)
    requires plans != []
    ensures var p := ConcatPlan(plans);
      Bound(p, bound) == BoundConcat(plans, bound) && Changed(p, bound) == ChangedConcat(plans, bound) &&
      (Supported(p, bound) <==> SupportedConcat(plans, bound)) &&
          (Specific(p, bound) <==> SpecificConcat(plans, bound)) &&
      Mentioned(p) == MentionedInAny(plans) && (Peeks(p) <==> PeeksConcat(plans)) && (Stays(p) <==> AllStay(plans)) &&
      (NestsEdgeFirst(p) <==> AllEdgeFirst(plans))
  {
    ConcatIsList(plans, bound);
    if |plans| == 1 {
      assert plans == [plans[0]];
      ListOfOne(plans[0], bound);
    }
    hide *;
  }

  lemma ConcatPlanMeans(w: World, plans: seq<Plan>, pos: Position, refs: Refs)
    requires plans != []
    ensures Sem(w, ConcatPlan(plans), pos, refs) == SemConcat(w, plans, pos, refs)
  {}

  lemma ConcatMeans(w: World, plans: seq<Plan>, ps: seq<Plan>, es: seq<Expr>, bound: RefNames, edgeFirst: bool,
      pos: Position, refs: Refs)
    requires plans != [] && SameConcat(plans, ps) && SameConcat(NaiveEach(Flatten(es)), NaiveEach(es))
    requires SoundInTurn(ps, Flatten(es), bound, edgeFirst) && bound <= SetNames(refs)
    ensures Sem(w, ConcatPlan(plans), pos, refs) == Sem(w, PConcatenation(NaiveEach(es)), pos, refs)
  {
    hide Sem, SemConcat, Naive, NaiveEach, Flatten, SoundInTurn, ConcatPlan;
    ConcatPlanMeans(w, plans, pos, refs);
    InTurnMeans(w, ps, Flatten(es), bound, edgeFirst, pos, refs);
    MeaningOfNaive(w, es, pos, refs);
    assert SemConcat(w, plans, pos, refs) == SemConcat(w, ps, pos, refs);
    assert SemConcat(w, NaiveEach(Flatten(es)), pos, refs) == SemConcat(w, NaiveEach(es), pos, refs);
  }

  lemma ConcatShape(plans: seq<Plan>, ps: seq<Plan>, ns: seq<Plan>, bound: RefNames, edgeFirst: bool)
    requires plans != [] && Regroups(plans, ps) && (PeeksConcat(ps) ==> PeeksConcat(ns)) &&
        (AllStay(ps) ==> AllStay(ns))
    ensures SameShape(ConcatPlan(plans), PConcatenation(ns))
  {
    ConcatPlanIs(plans, bound);
    ConcatIsList(ns, bound);
    hide Peeks, Stays, PeeksConcat, AllStay, AllEdgeFirst, ConcatPlan, SameConcat,
        SameTracking, SameSupport, SameSpecific;
  }

  lemma ConcatIsUsable(plans: seq<Plan>, ps: seq<Plan>, names: RefNames, bound: RefNames, edgeFirst: bool)
    requires plans != [] && Regroups(plans, ps) && forall p :: p in plans ==> Plans.Valid(p) && NamesCover(p)
    requires MentionedInAny(ps) <= names && SpecificConcat(ps, bound) && SupportedConcat(ps, bound)
    requires edgeFirst ==> AllEdgeFirst(ps)
    ensures Usable(ConcatPlan(plans), names, bound, edgeFirst)
    ensures Bound(ConcatPlan(plans), bound) == BoundConcat(ps, bound) &&
        Changed(ConcatPlan(plans), bound) == ChangedConcat(ps, bound)
  {
    ConcatIsValid(plans);
    ConcatPlanIs(plans, bound);
    hide Plans.Valid, NamesCover, Supported, Specific, Mentioned, Bound, Changed, BoundConcat, ChangedConcat,
        SupportedConcat, SpecificConcat,
      MentionedInAny, ConcatPlan, PeeksConcat, AllEdgeFirst, AllStay, SameConcat;
  }

  // The operands of a concatenation were planned one after another, and some of them joined to paths.
  lemma ConcatIsSound(plans: seq<Plan>, ps: seq<Plan>, es: seq<Expr>, bound: RefNames, edgeFirst: bool)
    requires ValidExpr(ConcatenationExpr(es)) && Regroups(plans, ps) && SoundInTurn(ps, Flatten(es), bound, edgeFirst)
    requires plans != [] && forall p :: p in plans ==> Plans.Valid(p) && NamesCover(p)
    ensures Sound(ConcatPlan(plans), ConcatenationExpr(es), bound, edgeFirst)
    ensures Bound(ConcatPlan(plans), bound) == BoundConcat(ps, bound) &&
        Changed(ConcatPlan(plans), bound) == ChangedConcat(ps, bound)
  {
    var p, n, ns := ConcatPlan(plans), PConcatenation(NaiveEach(es)), NaiveEach(es);
    assert Naive(ConcatenationExpr(es)) == n && RefsIn(ConcatenationExpr(es)) == RefsInAny(es);
    FlattenRegroups(es);
    FlattenKeeps(es);
    InTurnShape(ps, Flatten(es), bound, edgeFirst);
    assert SameConcat(plans, ps) && SameConcat(NaiveEach(Flatten(es)), ns);
    ConcatIsUsable(plans, ps, RefsInAny(es), bound, edgeFirst);
    ConcatShape(plans, ps, ns, bound, edgeFirst);
    hide Sem, SemConcat, Naive, NaiveEach, Flatten, RefsInAny, RefsIn, SoundInTurn, ConcatPlan, Usable, SameShape,
        Regroups, SameConcat, Bound, Changed;
    forall w: World, pos: Position, refs: Refs | bound <= SetNames(refs)
      ensures Sem(w, p, pos, refs) == Sem(w, n, pos, refs)
    {
      ConcatMeans(w, plans, ps, es, bound, edgeFirst, pos, refs);
    }
    assert Means(p, n, bound);
  }

  lemma MeaningOfNaive(w: World, es: seq<Expr>, pos: Position, refs: Refs)
    ensures Sem(w, PConcatenation(NaiveEach(es)), pos, refs) == SemConcat(w, NaiveEach(es), pos, refs)
  {}

  lemma ConcatIsValid(plans: seq<Plan>)
    requires plans != [] && forall p :: p in plans ==> Plans.Valid(p) && NamesCover(p)
    ensures Plans.Valid(ConcatPlan(plans)) && NamesCover(ConcatPlan(plans))
  {}
}
