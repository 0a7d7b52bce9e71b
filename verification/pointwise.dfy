/** Plans at single assignments. */
module Pointwise {
  // This reading knows nothing about refs regions, cells and nested caches: it is the reference that the subgraphs
  // matched are shown to agree with.

  import opened Base
  import opened RefsAlgebra
  import opened RefsUnions
  import opened Arrangement
  import opened Plans
  import opened Semantics
  import opened RefTracking
  import opened Mentions
  import opened Unfolding

  // The subgraphs that cover the assignment.
  ghost function ContentsAt(s: set<Body>, v: Assignment): set<Content> { set b | b in s && Sat(b.refs, v) :: b.content }

  ghost function EachAt(ss: seq<set<Body>>, v: Assignment): (cs: seq<set<Content>>)
    ensures |cs| == |ss|
  {
    seq(|ss|, i requires 0 <= i < |ss| => ContentsAt(ss[i], v))
  }

  // --------------------------------------------------------------------------
  // Meaning
  // --------------------------------------------------------------------------

  predicate VertexHolds(g: Graph, m: MatchVertex, pos: Position, v: Assignment) {
    pos.kind.CORE? && pos.v in g.vertices && PlaceholderMatches(m, pos.v) && TypeMatches(m, pos.v) &&
    (m.Ref().Some? ==> v(m.Ref().value) == pos.v)
  }

  ghost function JoinedBefore(c: Content, ds: set<Content>): set<Content> { set d | d in ds :: JoinContents(c, d) }

  ghost function DenSteps(g: Graph, steps: seq<Step>, pos: Position, v: Assignment): set<Content>
    decreases |steps|
  {
    if steps == [] then {EmptyContent(pos)}
    else match steps[0]
      case VertexStep(m) =>
        if VertexHolds(g, m, pos, v) then
            JoinedBefore(Content({}, {pos.v}, {}), DenSteps(g, steps[1..], pos.WithKind(ORBIT), v))
        else {}
      case EdgeStep(m) =>
        set hop, d | hop in Hops(g, m, pos) && d in DenSteps(g, steps[1..], Position(hop.to, CORE), v) ::
          JoinContents(Content({}, {}, hop.edges), d)
  }

  function EmptyContent(pos: Position): Content { Content({pos}, {}, {}) }

  ghost function UnionOf(cs: seq<set<Content>>): set<Content> { set i, c | 0 <= i < |cs| && c in cs[i] :: c }

  // All the subgraphs of the operands, if each of them has some.
  ghost function JoinedContents(cs: seq<set<Content>>): set<Content> { if {} in cs then {} else UnionOf(cs) }

  // All the subgraphs merged.
  ghost function MergedAll(cs: set<Content>): set<Content> { if cs == {} then {} else {Merged(cs)} }

  // The assignments differ in some of the names only.
  ghost predicate SameBut(v: Assignment, u: Assignment, names: RefNames) { forall x :: x !in names ==> v(x) == u(x) }

  // The refs of a negation that nothing outside of it may see.
  ghost function LocalNames(op: Plan, shared: RefNames): RefNames { Mentioned(op) - shared }

  // The negated plan matches for some choice of local refs.
  ghost predicate SomehowMatches(g: Graph, op: Plan, shared: RefNames, pos: Position, v: Assignment)
    decreases op, 1
  {
    exists u: Assignment :: SameBut(v, u, LocalNames(op, shared)) && Den(g, op, pos, u) != {}
  }

  // The contents of the subgraphs matched at the assignment.
  ghost function Den(g: Graph, p: Plan, pos: Position, v: Assignment): set<Content>
    decreases p, 0, 0
  {
    match p
    case PVertex(m) => DenSteps(g, [VertexStep(m)], pos, v)
    case PEdge(m) => DenSteps(g, [EdgeStep(m)], pos, v)
    case PNoop => {EmptyContent(pos)}
    case PPath(path) => if path.Alternates() then DenSteps(g, path.Items(), pos, v) else {}
    case PPathToVertex(prefix, e, m) =>
      if prefix.Alternates() then DenSteps(g, prefix.Items() + [EdgeStep(e), VertexStep(m)], pos, v) else {}
    case PConcatenation(ops) => DenConcat(g, ops, pos, v)
    case POr(ops) => UnionOf(DenEach(g, ops, pos, v))
    case PAndWithoutSetRef(ops) => JoinedContents(DenEach(g, ops, pos, v))
    case PAnd(ops) => JoinedContents(DenEach(g, ops, pos, v))
    case PAllAnd(ops) => MergedAll(JoinedContents(DenEach(g, ops, pos, v)))
    case PAllWithoutSetRef(op) => MergedAll(Den(g, op, pos, v))
    case PAll(op) => MergedAll(Den(g, op, pos, v))
    case PIfWithoutSetRef(op) => if Den(g, op, pos, v) == {} then {} else {EmptyContent(pos)}
    case PIf(op) => if Den(g, op, pos, v) == {} then {} else {EmptyContent(pos)}
    case PUnlessWithoutSetNonLocalRef(op, shared) => if SomehowMatches(g, op, shared, pos, v) then
        {} else {EmptyContent(pos)}
    case PUnless(op, shared) => if SomehowMatches(g, op, shared, pos, v) then {} else {EmptyContent(pos)}
    case PSkip(op) => set c | c in Den(g, op, pos, v) :: Content(c.ends, {}, {})
    case PMaybe(op) => if Den(g, op, pos, v) == {} then {EmptyContent(pos)} else Den(g, op, pos, v)
    case PNested(_, plan) => Den(g, plan, pos, v)
    case PRepetition(op, min, max) => DenRepeat(g, op, min, max, 0, EmptyContent(pos), v)
  }

  ghost function DenEach(g: Graph, ops: seq<Plan>, pos: Position, v: Assignment): (cs: seq<set<Content>>)
    ensures |cs| == |ops|
    decreases ops, 0, 0
  {
    if ops == [] then [] else [Den(g, ops[0], pos, v)] + DenEach(g, ops[1..], pos, v)
  }

  ghost function DenConcat(g: Graph, ops: seq<Plan>, pos: Position, v: Assignment): set<Content>
    decreases ops, 0, 0
  {
    if ops == [] then {EmptyContent(pos)}
    else if |ops| == 1 then Den(g, ops[0], pos, v)
    else
      set c, q, d | c in Den(g, ops[0], pos, v) && q in c.ends &&
          d in DenConcat(g, ops[1..], q, v) :: JoinContents(c, d)
  }

  ghost function DenRepeat(g: Graph, op: Plan, min: nat, max: nat, k: nat, chain: Content, v: Assignment): set<Content>
    decreases op, 1, max - k, 1
  {
    if DenContinued(g, op, max, k, chain, v) == {} then (if k >= min then {chain} else {})
    else set c, d | c in DenContinued(g, op, max, k, chain, v) && d in DenRepeatAfter(g, op, min, max, k, c, v) :: d
  }

  ghost function DenRepeatAfter(g: Graph, op: Plan, min: nat, max: nat, k: nat, chain: Content,
      v: Assignment): set<Content>
    requires k < max
    decreases op, 1, max - k, 0
  {
    DenRepeat(g, op, min, max, k + 1, chain, v)
  }

  ghost function DenContinued(g: Graph, op: Plan, max: nat, k: nat, chain: Content, v: Assignment): set<Content>
    decreases op, 0, 1
  {
    if k >= max then {}
    else set q, d | q in chain.ends && d in Den(g, op, q, v) :: JoinContents(chain, d)
  }

  lemma DenEachAt(g: Graph, ops: seq<Plan>, pos: Position, v: Assignment, i: nat)
    requires i < |ops|
    ensures DenEach(g, ops, pos, v)[i] == Den(g, ops[i], pos, v)
  {
    if i > 0 { DenEachAt(g, ops[1..], pos, v, i - 1); }
  }

  // --------------------------------------------------------------------------
  // Plans that have such a reading
  // --------------------------------------------------------------------------

  // Operators that look at the whole region of the start at once have operands that don't split it,
  // and nothing outside of negations uses their local refs.
  ghost predicate IsPointwise(p: Plan, bound: RefNames, used: RefNames)
    decreases p, 0
  {
    match p
    case PVertex(_) => true
    case PEdge(_) => true
    case PNoop => true
    case PPath(_) => true
    case PPathToVertex(_, _, _) => true
    case PConcatenation(ops) => ConcatIsPointwise(ops, bound, used)
    case POr(ops) => forall o :: o in ops ==> IsPointwise(o, bound, used)
    case PAndWithoutSetRef(ops) => forall o :: o in ops ==> IsPointwise(o, bound, used) && Changed(o, bound) == {}
    case PAnd(ops) => forall o :: o in ops ==> IsPointwise(o, bound, used)
    case PAllAnd(ops) => forall o :: o in ops ==> IsPointwise(o, bound, used)
    case PAllWithoutSetRef(op) => IsPointwise(op, bound, used) && Changed(op, bound) == {}
    case PAll(op) => IsPointwise(op, bound, used)
    case PIfWithoutSetRef(op) => IsPointwise(op, bound, used) && Changed(op, bound) == {}
    case PIf(op) => IsPointwise(op, bound, used)
    case PUnlessWithoutSetNonLocalRef(op, shared) =>
      IsPointwise(op, bound, used) && LocalNames(op, shared) !! used && Changed(op, bound) * shared == {}
    case PUnless(op, shared) => IsPointwise(op, bound, used) && LocalNames(op, shared) !! used
    case PSkip(op) => IsPointwise(op, bound, used)
    case PMaybe(op) => IsPointwise(op, bound, used) && Changed(op, bound) == {}
    case PNested(names, plan) => IsPointwise(plan, bound * names, used)
    case PRepetition(op, _, _) => IsPointwise(op, bound, used) && Changed(op, bound) == {}
  }

  ghost predicate ConcatIsPointwise(ops: seq<Plan>, bound: RefNames, used: RefNames)
    decreases ops, 0
  {
    ops != [] ==>
      IsPointwise(ops[0], bound, used) &&
      ConcatIsPointwise(ops[1..], Bound(ops[0], bound), used + Changed(ops[0], bound))
  }

  // The refs are at least the bound ones, and at most the used ones.
  ghost predicate Between(bound: RefNames, refs: Refs, used: RefNames) {
    bound <= SetNames(refs) && Names(refs) <= used
  }

  lemma BetweenAfter(refs: Refs, r: Refs, bound: RefNames, used: RefNames, b: RefNames, changed: RefNames)
    requires Between(bound, refs, used) && Respects(refs, r, b, changed)
    ensures Between(b, r, used + changed)
  {}

  // --------------------------------------------------------------------------
  // Operators, assignment by assignment
  // --------------------------------------------------------------------------

  ghost function CoveringAt(rs: set<Refs>, v: Assignment): set<Refs> { set r | r in rs && Sat(r, v) }

  lemma TermAt(m: set<Refs>, all: set<Refs>, v: Assignment)
    requires m <= all
    ensures (exists t :: t in CellTerms(m, all) && Sat(t, v)) <==> m == CoveringAt(all, v)
  {
    InCellIffMembersCover(m, all, v);
  }

  lemma MembersAt(ss: seq<set<Body>>, v: Assignment, i: nat)
    requires i < |ss|
    ensures HasMember(ss[i], CoveringAt(RefsOf(Union(ss)), v)) <==> ContentsAt(ss[i], v) != {}
  {
    hide Sat;
    var m := CoveringAt(RefsOf(Union(ss)), v);
    if HasMember(ss[i], m) {
      var b :| b in ss[i] && b.refs in m;
      assert b.content in ContentsAt(ss[i], v);
    }
    if ContentsAt(ss[i], v) != {} {
      var c :| c in ContentsAt(ss[i], v);
      var b :| b in ss[i] && Sat(b.refs, v) && b.content == c;
      assert b in Union(ss);
    }
  }

  lemma MemberOfCell(s: set<Body>, m: set<Refs>)
    requires HasMember(s, m)
    ensures m != {}
  {}

  lemma CoversAt(ss: seq<set<Body>>, m: set<Refs>, cs: seq<set<Content>>)
    requires |cs| == |ss| && forall i :: 0 <= i < |ss| ==> (HasMember(ss[i], m) <==> cs[i] != {})
    ensures CoversAll(ss, m) <==> {} !in cs
  {
    hide HasMember;
    if CoversAll(ss, m) {
      forall i | 0 <= i < |cs| ensures cs[i] != {} { assert HasMember(ss[i], m); }
    } else {
      var i :| 0 <= i < |ss| && !HasMember(ss[i], m);
      assert cs[i] == {};
    }
  }

  lemma JoinedIsNonempty(cs: seq<set<Content>>)
    ensures JoinedContents(cs) != {} <==> cs != [] && {} !in cs
  {
    if cs != [] && {} !in cs {
      var first := cs[0];
      assert first in cs && first != {};
      var c :| c in first;
      assert c in UnionOf(cs);
    }
  }

  lemma CellAt(ss: seq<set<Body>>, v: Assignment)
    ensures JoinCell(ss, CoveringAt(RefsOf(Union(ss)), v)) <==> JoinedContents(EachAt(ss, v)) != {}
  {
    var m := CoveringAt(RefsOf(Union(ss)), v);
    assert m <= RefsOf(Union(ss));
    var cs := EachAt(ss, v);
    forall i | 0 <= i < |ss| ensures HasMember(ss[i], m) <==> cs[i] != {} { MembersAt(ss, v, i); }
    CoversAt(ss, m, cs);
    JoinedIsNonempty(cs);
    if ss == [] {
      assert Union(ss) == {};
      assert RefsOf(Union(ss)) == {};
    } else if CoversAll(ss, m) {
      MemberOfCell(ss[0], m);
    }
    hide RefsOf, Union, JoinedContents, CoversAll, ContentsAt, Sat;
  }

  lemma ContentsOfMembers(ss: seq<set<Body>>, v: Assignment)
    ensures ContentsIn(Union(ss), CoveringAt(RefsOf(Union(ss)), v)) == UnionOf(EachAt(ss, v))
  {
    var m := CoveringAt(RefsOf(Union(ss)), v);
    forall c | c in ContentsIn(Union(ss), m) ensures c in UnionOf(EachAt(ss, v)) {
      var b :| b in Union(ss) && b.refs in m && b.content == c;
      var i :| 0 <= i < |ss| && b in ss[i];
      assert c in EachAt(ss, v)[i];
    }
    forall c | c in UnionOf(EachAt(ss, v)) ensures c in ContentsIn(Union(ss), m) {
      var i :| 0 <= i < |ss| && c in EachAt(ss, v)[i];
      var b :| b in ss[i] && Sat(b.refs, v) && b.content == c;
      assert b in Union(ss);
    }
  }

  // MatchAnd returns all subgraphs of its operands that cover an assignment, if every operand has one that does.
  lemma AndAt(ss: seq<set<Body>>, v: Assignment)
    ensures ContentsAt(AndOf(ss), v) == JoinedContents(EachAt(ss, v))
  {
    hide Sat, CellTerms, JoinCell, Union;
    var all := RefsOf(Union(ss));
    var m := CoveringAt(all, v);
    CellAt(ss, v);
    ContentsOfMembers(ss, v);
    TermAt(m, all, v);
    forall c | c in ContentsAt(AndOf(ss), v) ensures c in JoinedContents(EachAt(ss, v)) {
      var x :| x in AndOf(ss) && Sat(x.refs, v) && x.content == c;
      var n: set<Refs> :| n <= all && JoinCell(ss, n) && x in InCell(Union(ss), n);
      TermAt(n, all, v);
      assert n == m;
    }
    forall c | c in JoinedContents(EachAt(ss, v)) ensures c in ContentsAt(AndOf(ss), v) {
      var t :| t in CellTerms(m, all) && Sat(t, v);
      assert JoinCell(ss, m) && m <= all;
      var b :| b in Union(ss) && b.refs in m && b.content == c;
      assert Body(c, t) in InCell(Union(ss), m);
      assert Body(c, t) in AndOf(ss);
    }
  }

  // MatchAll and MatchAllAnd return the merge of all of them.
  lemma AllAt(ss: seq<set<Body>>, v: Assignment)
    ensures ContentsAt(AllOf(ss), v) == MergedAll(JoinedContents(EachAt(ss, v)))
  {
    hide Sat, CellTerms, JoinCell, Union;
    var all := RefsOf(Union(ss));
    var m := CoveringAt(all, v);
    CellAt(ss, v);
    ContentsOfMembers(ss, v);
    TermAt(m, all, v);
    forall c | c in ContentsAt(AllOf(ss), v) ensures c in MergedAll(JoinedContents(EachAt(ss, v))) {
      var x :| x in AllOf(ss) && Sat(x.refs, v) && x.content == c;
      var n: set<Refs> :| n <= all && JoinCell(ss, n) && x in MergedCell(Union(ss), n);
      TermAt(n, all, v);
      assert n == m;
    }
    forall c | c in MergedAll(JoinedContents(EachAt(ss, v))) ensures c in ContentsAt(AllOf(ss), v) {
      var t :| t in CellTerms(m, all) && Sat(t, v);
      assert JoinCell(ss, m) && m <= all;
      assert Body(c, t) in MergedCell(Union(ss), m);
      assert Body(c, t) in AllOf(ss);
    }
  }

  lemma BindAt(refs: Refs, x: RefName, w: VertexID, v: Assignment)
    requires Sat(refs, v)
    ensures v(x) == w ==> BindRef(refs, x, w).Some? && Sat(BindRef(refs, x, w).value, v)
    ensures BindRef(refs, x, w).Some? && Sat(BindRef(refs, x, w).value, v) ==> v(x) == w
  {
    if v(x) == w {
      forall l | l in refs && l.name == x ensures l.negative != (l.value == w) { assert Holds(l, v); }
    } else if BindRef(refs, x, w).Some? {
      assert Literal(x, false, w) in BindRef(refs, x, w).value;
      assert !Holds(Literal(x, false, w), v);
    }
  }

  lemma JoinedAfter(h: Body, s: set<Body>, v: Assignment)
    ensures ContentsAt(set t | t in s :: Join(h, t), v) == JoinedBefore(h.content, ContentsAt(s, v))
  {
    hide Sat;
    var js := set t | t in s :: Join(h, t);
    forall c | c in ContentsAt(js, v) ensures c in JoinedBefore(h.content, ContentsAt(s, v)) {
      var b :| b in js && Sat(b.refs, v) && b.content == c;
      var t :| t in s && b == Join(h, t);
      assert t.content in ContentsAt(s, v);
    }
    forall c | c in JoinedBefore(h.content, ContentsAt(s, v)) ensures c in ContentsAt(js, v) {
      var d :| d in ContentsAt(s, v) && c == JoinContents(h.content, d);
      var t :| t in s && Sat(t.refs, v) && t.content == d;
      assert Join(h, t) in js;
    }
  }

  // Matches of refs that don't cover the assignment don't cover it.
  lemma NothingAt(refs: Refs, s: set<Body>, b: RefNames, changed: RefNames, v: Assignment)
    requires AllRespect(refs, s, b, changed) && !Sat(refs, v)
    ensures ContentsAt(s, v) == {}
  {
    forall x | x in s ensures !Sat(x.refs, v) { assert Respects(refs, x.refs, b, changed); }
  }

  lemma {:induction false} StepsAt(g: Graph, steps: seq<Step>, pos: Position, refs: Refs, v: Assignment)
    requires Sat(refs, v)
    ensures ContentsAt(SemSteps(g, steps, pos, refs), v) == DenSteps(g, steps, pos, v)
    decreases |steps|
  {
    if steps != [] {
      match steps[0]
      case VertexStep(m) => VertexStepAt(g, steps, pos, refs, v);
      case EdgeStep(m) =>
        forall hop | hop in Hops(g, m, pos)
          ensures ContentsAt(SemSteps(g, steps[1..], Position(hop.to, CORE), refs), v) ==
              DenSteps(g, steps[1..], Position(hop.to, CORE), v)
        {
          StepsAt(g, steps[1..], Position(hop.to, CORE), refs, v);
        }
        HopsAt(g, steps, pos, refs, v);
    } else {
      assert SemSteps(g, steps, pos, refs) == {EmptyAt(pos, refs)};
    }
  }

  lemma {:induction false} VertexStepAt(g: Graph, steps: seq<Step>, pos: Position, refs: Refs, v: Assignment)
    requires Sat(refs, v) && steps != [] && steps[0].VertexStep?
    ensures ContentsAt(SemSteps(g, steps, pos, refs), v) == DenSteps(g, steps, pos, v)
    decreases |steps|, 0
  {
    hide Sat, BindRef, CopyAndSet;
    var m := steps[0].vertex;
    var matched := VertexMatch(g, m, pos, refs);
    if m.Ref().Some? { BindAt(refs, m.Ref().value, pos.v, v); }
    if matched.Some? {
      var s := SemSteps(g, steps[1..], pos.WithKind(ORBIT), matched.value);
      JoinedAfter(Body(Content({}, {pos.v}, {}), refs), s, v);
      if Sat(matched.value, v) {
        StepsAt(g, steps[1..], pos.WithKind(ORBIT), matched.value, v);
      } else {
        StepsRespect(g, steps[1..], pos.WithKind(ORBIT), matched.value, {});
        NothingAt(matched.value, s, {} + BoundBySteps(steps[1..]), BoundBySteps(steps[1..]) - {}, v);
      }
    }
  }

  lemma HopsAt(g: Graph, steps: seq<Step>, pos: Position, refs: Refs, v: Assignment)
    requires steps != [] && steps[0].EdgeStep?
    requires forall hop :: hop in Hops(g, steps[0].edge, pos) ==>
      ContentsAt(SemSteps(g, steps[1..], Position(hop.to, CORE), refs), v) ==
          DenSteps(g, steps[1..], Position(hop.to, CORE), v)
    ensures ContentsAt(SemSteps(g, steps, pos, refs), v) == DenSteps(g, steps, pos, v)
  {
    var m := steps[0].edge;
    var s := SemSteps(g, steps, pos, refs);
    assert s == set hop, t | hop in Hops(g, m, pos) && t in SemSteps(g, steps[1..], Position(hop.to, CORE), refs) ::
      Join(Body(Content({}, {}, hop.edges), refs), t);
    var ds := DenSteps(g, steps, pos, v);
    assert ds == set hop, d | hop in Hops(g, m, pos) && d in DenSteps(g, steps[1..], Position(hop.to, CORE), v) ::
      JoinContents(Content({}, {}, hop.edges), d);
    hide SemSteps, DenSteps, Hops, Sat;
    forall c | c in ContentsAt(s, v) ensures c in ds {
      var b :| b in s && Sat(b.refs, v) && b.content == c;
      var hop, t :| hop in Hops(g, m, pos) && t in SemSteps(g, steps[1..], Position(hop.to, CORE), refs) &&
        b == Join(Body(Content({}, {}, hop.edges), refs), t);
      assert t.content in ContentsAt(SemSteps(g, steps[1..], Position(hop.to, CORE), refs), v);
    }
    forall c | c in ds ensures c in ContentsAt(s, v) {
      var hop, d :| hop in Hops(g, m, pos) && d in DenSteps(g, steps[1..], Position(hop.to, CORE), v) &&
        c == JoinContents(Content({}, {}, hop.edges), d);
      var t :| t in SemSteps(g, steps[1..], Position(hop.to, CORE), refs) && Sat(t.refs, v) && t.content == d;
      assert Join(Body(Content({}, {}, hop.edges), refs), t) in s;
    }
  }

  lemma EachOf(ss: seq<set<Body>>, v: Assignment)
    ensures ContentsAt(Union(ss), v) == UnionOf(EachAt(ss, v))
  {
    hide Sat;
    forall c | c in ContentsAt(Union(ss), v) ensures c in UnionOf(EachAt(ss, v)) {
      var b :| b in Union(ss) && Sat(b.refs, v) && b.content == c;
      var i :| 0 <= i < |ss| && b in ss[i];
      assert c in EachAt(ss, v)[i];
    }
    forall c | c in UnionOf(EachAt(ss, v)) ensures c in ContentsAt(Union(ss), v) {
      var i :| 0 <= i < |ss| && c in EachAt(ss, v)[i];
      var b :| b in ss[i] && Sat(b.refs, v) && b.content == c;
      assert b in Union(ss);
    }
  }

  // --------------------------------------------------------------------------
  // Operands that change no refs
  // --------------------------------------------------------------------------

  ghost predicate AllRefsKept(refs: Refs, s: set<Body>) { forall b :: b in s ==> b.refs == refs }

  lemma NothingChanged(refs: Refs, s: set<Body>, b: RefNames, changed: RefNames)
    requires AllRespect(refs, s, b, changed) && changed == {}
    ensures AllRefsKept(refs, s)
  {
    forall x | x in s ensures x.refs == refs {
      assert SameOutside(refs, x.refs, {});
      assert forall l :: l in refs <==> l in x.refs;
    }
  }

  lemma KeptAt(refs: Refs, s: set<Body>, v: Assignment)
    requires AllRefsKept(refs, s) && Sat(refs, v)
    ensures ContentsAt(s, v) == set b | b in s :: b.content
    ensures s == {} <==> ContentsAt(s, v) == {}
    ensures s == set c | c in ContentsAt(s, v) :: Body(c, refs)
  {
    hide Sat;
    forall b | b in s ensures b.content in ContentsAt(s, v) && b == Body(b.content, refs) {}
  }

  // --------------------------------------------------------------------------
  // Agreement
  // --------------------------------------------------------------------------

  lemma MergedAt(s: set<Body>, refs: Refs, v: Assignment)
    requires AllRefsKept(refs, s) && Sat(refs, v)
    ensures ContentsAt(if s == {} then {} else {Body(Merged(set b | b in s :: b.content), refs)}, v) ==
        MergedAll(ContentsAt(s, v))
  {
    hide Sat;
    KeptAt(refs, s, v);
  }

  lemma IfAt(s: set<Body>, pos: Position, v: Assignment)
    ensures ContentsAt(set b | b in s :: EmptyAt(pos, b.refs), v) ==
        if ContentsAt(s, v) == {} then {} else {EmptyContent(pos)}
  {
    hide Sat;
    var es := set b | b in s :: EmptyAt(pos, b.refs);
    if ContentsAt(s, v) != {} {
      var c :| c in ContentsAt(s, v);
      var b :| b in s && Sat(b.refs, v) && b.content == c;
      assert EmptyAt(pos, b.refs) in es;
    }
    forall c | c in ContentsAt(es, v) ensures c == EmptyContent(pos) && ContentsAt(s, v) != {} {
      var e :| e in es && Sat(e.refs, v) && e.content == c;
      var b :| b in s && e == EmptyAt(pos, b.refs);
      assert b.content in ContentsAt(s, v);
    }
  }

  lemma SkipAt(s: set<Body>, v: Assignment)
    ensures ContentsAt(set b | b in s :: Body(Content(b.content.ends, {}, {}), b.refs), v) ==
      set c | c in ContentsAt(s, v) :: Content(c.ends, {}, {})
  {
    hide Sat;
    var es := set b | b in s :: Body(Content(b.content.ends, {}, {}), b.refs);
    forall c | c in ContentsAt(s, v) ensures Content(c.ends, {}, {}) in ContentsAt(es, v) {
      var b :| b in s && Sat(b.refs, v) && b.content == c;
      assert Body(Content(b.content.ends, {}, {}), b.refs) in es;
    }
    forall c | c in ContentsAt(es, v) ensures exists d :: d in ContentsAt(s, v) && c == Content(d.ends, {}, {}) {
      var e :| e in es && Sat(e.refs, v) && e.content == c;
      var b :| b in s && e == Body(Content(b.content.ends, {}, {}), b.refs);
      assert b.content in ContentsAt(s, v);
    }
  }

  // Subgraphs looked up in the registry, and intersected with the refs.
  lemma FromCacheAt(refs: Refs, s: set<Body>, v: Assignment)
    requires Sat(refs, v)
    ensures ContentsAt(FromCache(refs, s), v) == ContentsAt(s, v)
  {
    forall b | b in s ensures Sat(b.refs, v) <==> Meet(refs, b.refs).Some? && Sat(Meet(refs, b.refs).value, v) {
      MeetIsIntersection(refs, b.refs);
    }
    hide Sat, Meet;
    forall c | c in ContentsAt(s, v) ensures c in ContentsAt(FromCache(refs, s), v) {
      var b :| b in s && Sat(b.refs, v) && b.content == c;
      assert Body(c, Meet(refs, b.refs).value) in FromCache(refs, s);
    }
  }

  // Where the operand matches for some choice of local refs, a subgraph of it covers the assignment in shared refs.
  lemma SomehowCovered(refs: Refs, op: Plan, shared: RefNames, b: Body, changed: RefNames, v: Assignment)
      returns (u: Assignment)
    requires Sat(refs, v) && Names(refs) !! LocalNames(op, shared)
    requires SameOutside(refs, b.refs, changed) && changed <= Mentioned(op) && Sat(Restrict(b.refs, shared), v)
    ensures SameBut(v, u, LocalNames(op, shared)) && Sat(b.refs, u)
  {
    var inside := Point(b.refs, {});
    PointIsInside(b.refs, {});
    u := MixedPoint(inside, v, LocalNames(op, shared));
    forall l | l in b.refs ensures Holds(l, u) {
      if l.name !in LocalNames(op, shared) {
        if l.name in shared { assert l in Restrict(b.refs, shared); } else { assert l in refs; }
      } else {
        assert Holds(l, inside);
      }
    }
  }

  lemma ElsewhereCovered(refs: Refs, op: Plan, shared: RefNames, v: Assignment, u: Assignment)
    requires Sat(refs, v) && Names(refs) !! LocalNames(op, shared) && SameBut(v, u, LocalNames(op, shared))
    ensures Sat(refs, u)
  {
    forall l | l in refs ensures Holds(l, u) {
      assert l.name in Names(refs) && Holds(l, v);
    }
  }

  lemma RestrictedAt(r: Refs, op: Plan, shared: RefNames, v: Assignment, u: Assignment)
    requires Sat(r, u) && SameBut(v, u, LocalNames(op, shared))
    ensures Sat(Restrict(r, shared), v)
  {
    forall l | l in Restrict(r, shared) ensures Holds(l, v) { assert Holds(l, u); }
  }

  // A region has a term that covers the assignment exactly if the assignment is inside.
  lemma EmptyTermsAt(g: Region, pos: Position, v: Assignment)
    ensures ContentsAt(set t | t in Terms(g) :: EmptyAt(pos, t), v) == if Inside(v, g) then {EmptyContent(pos)} else {}
  {
    var es := set t | t in Terms(g) :: EmptyAt(pos, t);
    if Inside(v, g) {
      assert CoveredBy(v, Terms(g));
      var t :| t in Terms(g) && Sat(t, v);
      assert EmptyAt(pos, t) in es;
    }
    forall e | e in es && Sat(e.refs, v) ensures Inside(v, g) {
      assert Within(e.refs, g);
    }
  }

  ghost predicate AgreesFor(w: World, op: Plan, pos: Position, refs: Refs) {
    forall u: Assignment :: Sat(refs, u) ==> ContentsAt(Sem(w, op, pos, refs), u) == Den(w.graph, op, pos, u)
  }

  // The negation is exactly the complement of what the operand matches for any choice of its local refs.
  lemma NegationAt(w: World, op: Plan, shared: RefNames, pos: Position, refs: Refs, b: RefNames, changed: RefNames,
      v: Assignment)
    requires AgreesFor(w, op, pos, refs) && Sat(refs, v) && Names(refs) !! LocalNames(op, shared)
    requires AllRespect(refs, Sem(w, op, pos, refs), b, changed) && changed <= Mentioned(op)
    ensures Inside(v, UnlessRegion(refs, Sem(w, op, pos, refs), shared)) <==>
        !SomehowMatches(w.graph, op, shared, pos, v)
  {
    hide Sem, Den;
    var s := Sem(w, op, pos, refs);
    if SomehowMatches(w.graph, op, shared, pos, v) {
      SomehowMatching(w, op, shared, pos, refs, v);
      var x :| x in s && Sat(Restrict(x.refs, shared), v);
      assert Restrict(x.refs, shared) in UnlessRegion(refs, s, shared).mustNot;
    }
    if !Inside(v, UnlessRegion(refs, s, shared)) {
      var x :| x in s && Sat(Restrict(x.refs, shared), v);
      assert Respects(refs, x.refs, b, changed);
      var u := SomehowCovered(refs, op, shared, x, changed, v);
      assert Incl(x.refs, refs);
      assert Sat(refs, u);
      assert x.content in ContentsAt(s, u);
      assert Den(w.graph, op, pos, u) != {};
    }
  }

  lemma SomehowMatching(w: World, op: Plan, shared: RefNames, pos: Position, refs: Refs, v: Assignment)
    requires AgreesFor(w, op, pos, refs) && Sat(refs, v) && Names(refs) !! LocalNames(op, shared)
    requires SomehowMatches(w.graph, op, shared, pos, v)
    ensures exists x :: x in Sem(w, op, pos, refs) && Sat(Restrict(x.refs, shared), v)
  {
    var u: Assignment :| SameBut(v, u, LocalNames(op, shared)) && Den(w.graph, op, pos, u) != {};
    hide Sem, Den;
    ElsewhereCovered(refs, op, shared, v, u);
    var c :| c in ContentsAt(Sem(w, op, pos, refs), u);
    var x :| x in Sem(w, op, pos, refs) && Sat(x.refs, u) && x.content == c;
    RestrictedAt(x.refs, op, shared, v, u);
  }

  // At every assignment of the refs it starts with, a plan matches exactly what it means there:
  // whatever regions the matched subgraphs are split into, and whether nested expressions are cached.
  lemma {:induction false} MatchesAt(w: World, p: Plan, pos: Position, refs: Refs, bound: RefNames, used: RefNames,
      v: Assignment)
    requires IsPointwise(p, bound, used) && Between(bound, refs, used) && Sat(refs, v)
    ensures ContentsAt(Sem(w, p, pos, refs), v) == Den(w.graph, p, pos, v)
    decreases p, 0, 0
  {
    hide Sat, SemSteps, DenSteps, Union, AndOf, AllOf;
    match p
    case PVertex(m) => StepsAt(w.graph, [VertexStep(m)], pos, refs, v);
    case PEdge(m) => StepsAt(w.graph, [EdgeStep(m)], pos, refs, v);
    case PNoop => StepsAt(w.graph, [], pos, refs, v);
    case PPath(path) => if path.Alternates() { StepsAt(w.graph, path.Items(), pos, refs, v); }
    case PPathToVertex(prefix, e, m) =>
      if prefix.Alternates() { StepsAt(w.graph, prefix.Items() + [EdgeStep(e), VertexStep(m)], pos, refs, v); }
    case PConcatenation(ops) => ConcatAt(w, ops, pos, refs, bound, used, v);
    case POr(ops) =>
      EachMatchesAt(w, ops, pos, refs, bound, used, v);
      EachOf(SemEach(w, ops, pos, refs), v);
    case PAndWithoutSetRef(ops) =>
      EachMatchesAt(w, ops, pos, refs, bound, used, v);
      EachOf(SemEach(w, ops, pos, refs), v);
      EmptyAtAll(w, ops, pos, refs, bound, v);
    case PAnd(ops) =>
      EachMatchesAt(w, ops, pos, refs, bound, used, v);
      AndAt(SemEach(w, ops, pos, refs), v);
    case PAllAnd(ops) =>
      EachMatchesAt(w, ops, pos, refs, bound, used, v);
      AllAt(SemEach(w, ops, pos, refs), v);
    case PNested(names, plan) => NestedAt(w, names, plan, pos, refs, bound, used, v);
    case PRepetition(op, min, max) =>
      RepeatAt(w, op, min, max, 0, EmptyAt(pos, refs), bound, used, v);
    case _ =>
      forall u: Assignment | Sat(refs, u)
        ensures ContentsAt(Sem(w, p.operand, pos, refs), u) == Den(w.graph, p.operand, pos, u)
      {
        MatchesAt(w, p.operand, pos, refs, bound, used, u);
      }
      assert AgreesFor(w, p.operand, pos, refs);
      OperatorAt(w, p, pos, refs, bound, used, v);
  }

  lemma OperatorAt(w: World, p: Plan, pos: Position, refs: Refs, bound: RefNames, used: RefNames, v: Assignment)
    requires p.PAllWithoutSetRef? || p.PAll? || p.PIfWithoutSetRef? || p.PIf? || p.PUnlessWithoutSetNonLocalRef? ||
        p.PUnless? || p.PSkip? || p.PMaybe?
    requires IsPointwise(p, bound, used) && Between(bound, refs, used) && Sat(refs, v)
    requires AgreesFor(w, p.operand, pos, refs)
    ensures ContentsAt(Sem(w, p, pos, refs), v) == Den(w.graph, p, pos, v)
  {
    hide Sat, Union, AndOf, AllOf, ContentsAt, AllRespect, AllRefsKept, Bound;
    var op := p.operand;
    var s := Sem(w, op, pos, refs);
    EmptyBodyAt(pos, refs, v);
    MatchesRespect(w, op, pos, refs, bound);
    if Changed(op, bound) == {} { NothingChanged(refs, s, Bound(op, bound), Changed(op, bound)); }
    match p
    case PAllWithoutSetRef(_) => MergedAt(s, refs, v);
    case PAll(_) =>
      AllAt([s], v);
      OneJoined(s, v);
      assert Sem(w, p, pos, refs) == AllOf([s]);
    case PIfWithoutSetRef(_) => KeptAt(refs, s, v);
    case PIf(_) => IfAt(s, pos, v);
    case PUnlessWithoutSetNonLocalRef(_, shared) =>
      assert Den(w.graph, p, pos, v) == Den(w.graph, PUnless(op, shared), pos, v);
      UnlessAt(w, op, shared, pos, refs, bound, used, v);
    case PUnless(_, shared) => UnlessAt(w, op, shared, pos, refs, bound, used, v);
    case PSkip(_) => SkipAt(s, v);
    case PMaybe(_) => KeptAt(refs, s, v);
  }

  lemma EmptyBodyAt(pos: Position, refs: Refs, v: Assignment)
    requires Sat(refs, v)
    ensures ContentsAt({EmptyAt(pos, refs)}, v) == {EmptyContent(pos)} && ContentsAt({}, v) == {}
  {
    assert EmptyAt(pos, refs) in {EmptyAt(pos, refs)};
  }

  lemma OneJoined(s: set<Body>, v: Assignment)
    ensures JoinedContents(EachAt([s], v)) == ContentsAt(s, v)
  {
    hide ContentsAt;
    var cs := EachAt([s], v);
    assert cs == [ContentsAt(s, v)];
    assert cs[0] == ContentsAt(s, v);
  }

  lemma UnlessAt(w: World, op: Plan, shared: RefNames, pos: Position, refs: Refs, bound: RefNames, used: RefNames,
      v: Assignment)
    requires AgreesFor(w, op, pos, refs) && Between(bound, refs, used) && Sat(refs, v) && LocalNames(op, shared) !! used
    ensures ContentsAt(Sem(w, PUnless(op, shared), pos, refs), v) == Den(w.graph, PUnless(op, shared), pos, v)
    ensures Changed(op, bound) * shared == {} ==>
      ContentsAt(Sem(w, PUnlessWithoutSetNonLocalRef(op, shared), pos, refs), v) ==
          Den(w.graph, PUnless(op, shared), pos, v)
  {
    var s := Sem(w, op, pos, refs);
    MatchesRespect(w, op, pos, refs, bound);
    ChangedAreMentioned(op, bound);
    NegationAt(w, op, shared, pos, refs, Bound(op, bound), Changed(op, bound), v);
    hide Sem, Den, Sat, Inside, ContentsAt, SomehowMatches;
    EmptyTermsAt(UnlessRegion(refs, s, shared), pos, v);
    UnlessUnfold(w, op, shared, pos, refs, v);
    if Changed(op, bound) * shared == {} {
      UnlessLeaves(refs, s, shared, Bound(op, bound), Changed(op, bound), pos, v);
    }
  }

  lemma UnlessUnfold(w: World, op: Plan, shared: RefNames, pos: Position, refs: Refs, v: Assignment)
    ensures Sem(w, PUnless(op, shared), pos, refs) == set t |
        t in Terms(UnlessRegion(refs, Sem(w, op, pos, refs), shared)) :: EmptyAt(pos, t)
    ensures Sem(w, PUnlessWithoutSetNonLocalRef(op, shared), pos, refs) ==
        if Sem(w, op, pos, refs) == {} then {EmptyAt(pos, refs)} else {}
    ensures Den(w.graph, PUnless(op, shared), pos, v) ==
        if SomehowMatches(w.graph, op, shared, pos, v) then {} else {EmptyContent(pos)}
  {}

  // If only local refs may change, the negation is all or nothing.
  lemma UnlessLeaves(refs: Refs, s: set<Body>, shared: RefNames, b: RefNames, changed: RefNames, pos: Position,
      v: Assignment)
    requires AllRespect(refs, s, b, changed) && changed * shared == {} && Sat(refs, v)
    ensures Inside(v, UnlessRegion(refs, s, shared)) <==> s == {}
    ensures ContentsAt(if s == {} then {EmptyAt(pos, refs)} else {}, v) == if s == {} then {EmptyContent(pos)} else {}
  {
    if x :| x in s {
      assert Respects(refs, x.refs, b, changed);
      forall l | l in Restrict(x.refs, shared) ensures Holds(l, v) {
        assert l.name !in changed * shared;
        assert l in refs;
      }
      assert Restrict(x.refs, shared) in UnlessRegion(refs, s, shared).mustNot;
    } else {
      assert UnlessRegion(refs, s, shared).mustNot == {};
    }
  }

  lemma {:induction false} EachMatchesAt(w: World, ops: seq<Plan>, pos: Position, refs: Refs, bound: RefNames,
      used: RefNames, v: Assignment)
    requires (forall o :: o in ops ==> IsPointwise(o, bound, used)) && Between(bound, refs, used) && Sat(refs, v)
    ensures EachAt(SemEach(w, ops, pos, refs), v) == DenEach(w.graph, ops, pos, v)
    decreases ops, 0
  {
    var ss := SemEach(w, ops, pos, refs);
    forall i | 0 <= i < |ops| ensures EachAt(ss, v)[i] == DenEach(w.graph, ops, pos, v)[i] {
      MatchesAt(w, ops[i], pos, refs, bound, used, v);
      SemEachAt(w, ops, pos, refs, i);
      DenEachAt(w.graph, ops, pos, v, i);
    }
  }

  // Without changed refs, an operand that matches at no assignment of the start doesn't match.
  lemma EmptyAtAll(w: World, ops: seq<Plan>, pos: Position, refs: Refs, bound: RefNames, v: Assignment)
    requires (forall o :: o in ops ==> Changed(o, bound) == {}) && bound <= SetNames(refs) && Sat(refs, v)
    ensures {} in SemEach(w, ops, pos, refs) <==> {} in EachAt(SemEach(w, ops, pos, refs), v)
  {
    var ss := SemEach(w, ops, pos, refs);
    forall i | 0 <= i < |ops| ensures ss[i] == {} <==> EachAt(ss, v)[i] == {} {
      SemEachAt(w, ops, pos, refs, i);
      assert ops[i] in ops;
      MatchesRespect(w, ops[i], pos, refs, bound);
      NothingChanged(refs, ss[i], Bound(ops[i], bound), Changed(ops[i], bound));
      KeptAt(refs, ss[i], v);
    }
    hide ContentsAt, Sem, SemEach;
    if {} in ss {
      var i :| 0 <= i < |ss| && ss[i] == {};
      assert EachAt(ss, v)[i] == {};
    }
    if {} in EachAt(ss, v) {
      var i :| 0 <= i < |ss| && EachAt(ss, v)[i] == {};
      assert ss[i] == {};
    }
  }

  lemma {:induction false} ConcatAt(w: World, ops: seq<Plan>, pos: Position, refs: Refs, bound: RefNames,
      used: RefNames, v: Assignment)
    requires ConcatIsPointwise(ops, bound, used) && Between(bound, refs, used) && Sat(refs, v)
    ensures ContentsAt(SemConcat(w, ops, pos, refs), v) == DenConcat(w.graph, ops, pos, v)
    decreases ops, 0, 0
  {
    if ops == [] {
      assert SemConcat(w, ops, pos, refs) == {EmptyAt(pos, refs)};
    } else {
      MatchesAt(w, ops[0], pos, refs, bound, used, v);
      if |ops| > 1 {
        hide Sem, SemConcat, Den, DenConcat, Sat, Bound, Changed, ContentsAt;
        var s := Sem(w, ops[0], pos, refs);
        MatchesRespect(w, ops[0], pos, refs, bound);
        forall h, q | h in s && q in h.content.ends
          ensures RestAgrees(w, ops[1..], q, h.refs, v)
        {
          if Sat(h.refs, v) {
            BetweenAfter(refs, h.refs, bound, used, Bound(ops[0], bound), Changed(ops[0], bound));
            ConcatAt(w, ops[1..], q, h.refs, Bound(ops[0], bound), used + Changed(ops[0], bound), v);
          } else {
            ConcatRespects(w, ops[1..], q, h.refs, {});
            NothingAt(h.refs, SemConcat(w, ops[1..], q, h.refs), BoundConcat(ops[1..], {}), ChangedConcat(ops[1..], {}),
                v);
          }
        }
        ThenAt(w, s, Den(w.graph, ops[0], pos, v), ops[1..], v);
        ConcatUnfold(w, ops, pos, refs);
        DenUnfold(w.graph, ops, pos, v);
      }
    }
  }

  ghost predicate RestAgrees(w: World, ops: seq<Plan>, pos: Position, refs: Refs, v: Assignment) {
    if Sat(refs, v) then ContentsAt(SemConcat(w, ops, pos, refs), v) == DenConcat(w.graph, ops, pos, v)
    else ContentsAt(SemConcat(w, ops, pos, refs), v) == {}
  }

  ghost function DenThen(g: Graph, cs: set<Content>, ops: seq<Plan>, v: Assignment): set<Content> {
    set c, q, d | c in cs && q in c.ends && d in DenConcat(g, ops, q, v) :: JoinContents(c, d)
  }

  lemma DenUnfold(g: Graph, ops: seq<Plan>, pos: Position, v: Assignment)
    requires |ops| > 1
    ensures DenConcat(g, ops, pos, v) == DenThen(g, Den(g, ops[0], pos, v), ops[1..], v)
  {}

  lemma ThenAt(w: World, s: set<Body>, cs: set<Content>, ops: seq<Plan>, v: Assignment)
    requires ContentsAt(s, v) == cs
    requires forall h, q :: h in s && q in h.content.ends ==> RestAgrees(w, ops, q, h.refs, v)
    ensures ContentsAt(ConcatThen(w, s, ops), v) == DenThen(w.graph, cs, ops, v)
  {
    hide SemConcat, DenConcat, Sat;
    var all, ds := ConcatThen(w, s, ops), DenThen(w.graph, cs, ops, v);
    forall c | c in ContentsAt(all, v) ensures c in ds {
      var b :| b in all && Sat(b.refs, v) && b.content == c;
      var h, q, t :| h in s && q in h.content.ends && t in SemConcat(w, ops, q, h.refs) && b == Join(h, t);
      assert t.content in ContentsAt(SemConcat(w, ops, q, h.refs), v);
      assert RestAgrees(w, ops, q, h.refs, v);
      assert h.content in ContentsAt(s, v);
    }
    forall c | c in ds ensures c in ContentsAt(all, v) {
      var a, q, d :| a in cs && q in a.ends && d in DenConcat(w.graph, ops, q, v) && c == JoinContents(a, d);
      var h :| h in s && Sat(h.refs, v) && h.content == a;
      assert q in h.content.ends && RestAgrees(w, ops, q, h.refs, v);
      var t :| t in SemConcat(w, ops, q, h.refs) && Sat(t.refs, v) && t.content == d;
      assert Join(h, t) in all;
    }
  }

  lemma RestrictedBetween(refs: Refs, names: RefNames, bound: RefNames, used: RefNames, v: Assignment)
    requires Between(bound, refs, used) && Sat(refs, v)
    ensures Between(bound * names, Restrict(refs, names), used) && Sat(Restrict(refs, names), v)
  {
    NestedNamesAreSet(refs, names, bound);
  }

  lemma {:induction false} NestedAt(w: World, names: RefNames, plan: Plan, pos: Position, refs: Refs, bound: RefNames,
      used: RefNames, v: Assignment)
    requires IsPointwise(plan, bound * names, used) && Between(bound, refs, used) && Sat(refs, v)
    ensures ContentsAt(Sem(w, PNested(names, plan), pos, refs), v) == Den(w.graph, plan, pos, v)
    decreases plan, 1
  {
    hide IsPointwise, Sat, Den, ContentsAt, FromCache;
    if w.cached {
      RestrictedBetween(refs, names, bound, used, v);
      MatchesAt(w, plan, pos, Restrict(refs, names), bound * names, used, v);
      FromCacheAt(refs, Sem(w, plan, pos, Restrict(refs, names)), v);
    } else {
      MatchesAt(w, plan, pos, refs, bound * names, used, v);
    }
  }

  lemma {:induction false} RepeatAt(w: World, op: Plan, min: nat, max: nat, k: nat, chain: Body, bound: RefNames,
      used: RefNames, v: Assignment)
    requires IsPointwise(op, bound, used) && Between(bound, chain.refs, used) && Sat(chain.refs, v) &&
        Changed(op, bound) == {}
    ensures ContentsAt(SemRepeat(w, op, min, max, k, chain), v) == DenRepeat(w.graph, op, min, max, k, chain.content, v)
    decreases op, 1, max - k
  {
    if k >= max {
      assert SemRepeat(w, op, min, max, k, chain) == if k >= min then {chain} else {};
    } else {
      var cs := Continued(w, op, max, k, chain);
      ContinuationsAt(w, op, max, k, chain, bound, used, v);
      KeptAt(chain.refs, cs, v);
      forall c | c in cs
        ensures ContentsAt(SemRepeat(w, op, min, max, k + 1, c), v) ==
            DenRepeat(w.graph, op, min, max, k + 1, c.content, v)
      {
        RepeatAt(w, op, min, max, k + 1, c, bound, used, v);
      }
      ChainsAt(w, op, min, max, k + 1, chain.refs, cs, v);
      if cs != {} {
        RepeatUnfold(w, op, min, max, k, chain);
        DenRepeatUnfold(w.graph, op, min, max, k, chain.content, v);
      }
    }
  }

  lemma {:induction false} ContinuationsAt(w: World, op: Plan, max: nat, k: nat, chain: Body, bound: RefNames,
      used: RefNames, v: Assignment)
    requires IsPointwise(op, bound, used) && Between(bound, chain.refs, used) && Sat(chain.refs, v) &&
        Changed(op, bound) == {} && k < max
    ensures AllRefsKept(chain.refs, Continued(w, op, max, k, chain))
    ensures ContentsAt(Continued(w, op, max, k, chain), v) == DenContinued(w.graph, op, max, k, chain.content, v)
    decreases op, 1, max - k, 0
  {
    var refs := chain.refs;
    forall q | q in chain.content.ends
      ensures AllRefsKept(refs, Sem(w, op, q, refs)) && ContentsAt(Sem(w, op, q, refs), v) == Den(w.graph, op, q, v)
    {
      MatchesRespect(w, op, q, refs, bound);
      NothingChanged(refs, Sem(w, op, q, refs), Bound(op, bound), Changed(op, bound));
      MatchesAt(w, op, q, refs, bound, used, v);
    }
    LinksAt(w, op, chain, v);
    ContinuedUnfold(w, op, max, k, chain);
    DenContinuedUnfold(w.graph, op, max, k, chain.content, v);
  }

  ghost function DenLinksFrom(g: Graph, op: Plan, chain: Content, v: Assignment): set<Content> {
    set q, d | q in chain.ends && d in Den(g, op, q, v) :: JoinContents(chain, d)
  }

  lemma DenContinuedUnfold(g: Graph, op: Plan, max: nat, k: nat, chain: Content, v: Assignment)
    requires k < max
    ensures DenContinued(g, op, max, k, chain, v) == DenLinksFrom(g, op, chain, v)
  {}

  lemma LinksAt(w: World, op: Plan, chain: Body, v: Assignment)
    requires forall q :: q in chain.content.ends ==>
      AllRefsKept(chain.refs, Sem(w, op, q, chain.refs)) &&
          ContentsAt(Sem(w, op, q, chain.refs), v) == Den(w.graph, op, q, v)
    ensures AllRefsKept(chain.refs, LinksFrom(w, op, chain))
    ensures ContentsAt(LinksFrom(w, op, chain), v) == DenLinksFrom(w.graph, op, chain.content, v)
  {
    hide Sem, Den, Sat;
    var cs, ds := LinksFrom(w, op, chain), DenLinksFrom(w.graph, op, chain.content, v);
    forall c | c in ContentsAt(cs, v) ensures c in ds {
      var b :| b in cs && Sat(b.refs, v) && b.content == c;
      var q, t :| q in chain.content.ends && t in Sem(w, op, q, chain.refs) && b == Join(chain, t);
      assert t.content in ContentsAt(Sem(w, op, q, chain.refs), v);
    }
    forall c | c in ds ensures c in ContentsAt(cs, v) {
      var q, d :| q in chain.content.ends && d in Den(w.graph, op, q, v) && c == JoinContents(chain.content, d);
      var t :| t in Sem(w, op, q, chain.refs) && Sat(t.refs, v) && t.content == d;
      assert Join(chain, t) in cs;
    }
  }

  ghost function DenChainsFrom(g: Graph, op: Plan, min: nat, max: nat, k: nat, cs: set<Content>,
      v: Assignment): set<Content> {
    set c, d | c in cs && d in DenRepeat(g, op, min, max, k, c, v) :: d
  }

  lemma DenRepeatUnfold(g: Graph, op: Plan, min: nat, max: nat, k: nat, chain: Content, v: Assignment)
    requires k < max && DenContinued(g, op, max, k, chain, v) != {}
    ensures DenRepeat(g, op, min, max, k, chain, v) ==
        DenChainsFrom(g, op, min, max, k + 1, DenContinued(g, op, max, k, chain, v), v)
  {
    forall c | c in DenContinued(g, op, max, k, chain, v)
      ensures DenRepeatAfter(g, op, min, max, k, c, v) == DenRepeat(g, op, min, max, k + 1, c, v)
    {}
  }

  lemma ChainsAt(w: World, op: Plan, min: nat, max: nat, k: nat, refs: Refs, cs: set<Body>, v: Assignment)
    requires AllRefsKept(refs, cs) && Sat(refs, v)
    requires forall c :: c in cs ==>
      ContentsAt(SemRepeat(w, op, min, max, k, c), v) == DenRepeat(w.graph, op, min, max, k, c.content, v)
    ensures ContentsAt(ChainsFrom(w, op, min, max, k, cs), v) ==
        DenChainsFrom(w.graph, op, min, max, k, ContentsAt(cs, v), v)
  {
    hide Sat, SemRepeat, DenRepeat;
    var all, ds := ChainsFrom(w, op, min, max, k, cs), DenChainsFrom(w.graph, op, min, max, k, ContentsAt(cs, v), v);
    forall c | c in ContentsAt(all, v) ensures c in ds {
      var b :| b in all && Sat(b.refs, v) && b.content == c;
      var e :| e in cs && b in SemRepeat(w, op, min, max, k, e);
      assert c in ContentsAt(SemRepeat(w, op, min, max, k, e), v);
      assert e.content in ContentsAt(cs, v);
    }
    forall c | c in ds ensures c in ContentsAt(all, v) {
      var a :| a in ContentsAt(cs, v) && c in DenRepeat(w.graph, op, min, max, k, a, v);
      var e :| e in cs && Sat(e.refs, v) && e.content == a;
      var b :| b in SemRepeat(w, op, min, max, k, e) && Sat(b.refs, v) && b.content == c;
      assert b in all;
    }
  }

  // `(all: X & Y)` fused or in two steps is the same, assignment by assignment.
  lemma AllOfAnd(w: World, ops: seq<Plan>, pos: Position, refs: Refs, bound: RefNames, used: RefNames, v: Assignment)
    requires IsPointwise(PAnd(ops), bound, used) && Between(bound, refs, used) && Sat(refs, v)
    ensures ContentsAt(Sem(w, PAllAnd(ops), pos, refs), v) == ContentsAt(Sem(w, PAll(PAnd(ops)), pos, refs), v)
  {
    MatchesAt(w, PAllAnd(ops), pos, refs, bound, used, v);
    MatchesAt(w, PAll(PAnd(ops)), pos, refs, bound, used, v);
  }
}
