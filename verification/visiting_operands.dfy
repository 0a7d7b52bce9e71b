/** What visits add by matching operands into drafts of their own, then joined. */
module VisitingOperands {
  import opened Base
  import opened RefsAlgebra
  import opened RefsUnions
  import opened Plans
  import opened Semantics
  import opened RefTracking
  import opened Dependencies
  import opened Matching
  import opened MatchingOps
  import opened MatchingJoins
  import opened Combining
  import opened NestedCache
  import opened Visiting

  // The snapshot with other drafts: the log and the registry are shared.
  function WithDrafts(a: Snapshot, ds: seq<Draft>): Snapshot { a.(drafts := ds) }

  // --------------------------------------------------------------------------
  // One operand
  // --------------------------------------------------------------------------

  // An operand was matched into empty drafts, and then some drafts were added.
  lemma UnaryVisited(mode: Mode, m: Mode, w: World, limit: Limit, p: Plan, op: Plan, start: Start, ds: seq<Draft>,
                     a: Snapshot, b: Snapshot)
    requires ReadyIn(w, limit, a) && Height(op) <= Height(p)
    requires Visited(m, w, limit, Height(op), op, start, WithDrafts(a, []), b)
    requires Good(mode, w, p, start, ds, NewObs(WithDrafts(a, []), b))
    ensures Visited(mode, w, limit, Height(p), p, start, a, WithDrafts(b, a.drafts + ds))
  {
    var c := WithDrafts(b, a.drafts + ds);
    assert NewDrafts(a, c) == ds && NewObs(a, c) == NewObs(WithDrafts(a, []), b);
    ServedTaller(w, limit, Height(p), Height(op), WithDrafts(a, []), b);
  }

  // The operand was matched into empty drafts, that were then appended.
  lemma AppendedVisit(m: Mode, w: World, limit: Limit, op: Plan, start: Start, a: Snapshot, b: Snapshot)
    requires Visited(m, w, limit, Height(op), op, start, WithDrafts(a, []), b)
    ensures Visited(m, w, limit, Height(op), op, start, a, WithDrafts(b, a.drafts + b.drafts))
    ensures NewDrafts(a, WithDrafts(b, a.drafts + b.drafts)) == b.drafts
  {
    var a0, c := WithDrafts(a, []), WithDrafts(b, a.drafts + b.drafts);
    assert NewDrafts(a, c) == b.drafts == NewDrafts(a0, b) && NewObs(a, c) == NewObs(a0, b);
  }

  lemma NoopVisited(mode: Mode, w: World, limit: Limit, start: Start, d: Draft, a: Snapshot, b: Snapshot)
    requires d == Draft(start.origin, [start.position], [], [], start.refs) && ReadyIn(w, limit, a)
    requires b == WithDrafts(a, a.drafts + [d])
    ensures Visited(mode, w, limit, 0, PNoop, start, a, b)
  {
    assert NewDrafts(a, b) == [d] && NewObs(a, b) == {};
    OneBody(d);
    assert BodyOf(d) == EmptyAt(start.position, start.refs) == Strip(BodyOf(d)) by {
      assert Elems([start.position]) == {start.position};
    }
    assert Stripped({BodyOf(d)}) == {BodyOf(d)};
  }

  lemma OneBody(d: Draft)
    ensures Bodies([d]) == {BodyOf(d)}
  {
    assert d in [d];
  }

  lemma OneOperand(es: seq<Draft>, idx: seq<nat>)
    requires |idx| == |es| && (forall k :: 0 <= k < |idx| ==> idx[k] == 0) && es != []
    ensures Indexed(es, idx, 1) && EachMatched(idx, 1) && Operands(es, idx, 1) == [Bodies(es)]
  {
    assert idx[0] == 0;
    forall b | b in Bodies(es) ensures b in OperandBodies(es, idx, 0) {
      var d :| d in es && BodyOf(d) == b;
      var k :| 0 <= k < |es| && es[k] == d;
    }
    assert OperandBodies(es, idx, 0) == Bodies(es);
  }

  // --------------------------------------------------------------------------
  // Concatenation
  // --------------------------------------------------------------------------

  // Tails of some matches of the head were added.
  ghost predicate Tailed(mode: Mode, w: World, limit: Limit, tall: nat, ops: seq<Plan>, start: Start,
                         visited: set<(Body, Position)>, a: Snapshot, b: Snapshot)
    requires ops != []
  {
    Extends(a, b, start.origin) && Served(w, limit, tall, a, b) &&
    GoodTails(mode, w, ops[1..], visited, start, NewDrafts(a, b), NewObs(a, b)) &&
    (Changed(PConcatenation(ops), SetNames(start.refs)) == {} ==> AllKeep(start.refs, NewDrafts(a, b))) &&
    visited <= Pairs(View(AllMatches(mode), Sem(w, ops[0], start.position, start.refs)))
  }

  lemma NotTailed(mode: Mode, w: World, limit: Limit, tall: nat, ops: seq<Plan>, start: Start, a: Snapshot)
    requires ops != [] && ReadyIn(w, limit, a)
    ensures Tailed(mode, w, limit, tall, ops, start, {}, a, a)
  {
    NothingNew(a, start.origin);
    NoTails(mode, w, ops[1..], start);
  }

  lemma TailedOnce(mode: Mode, w: World, limit: Limit, tall: nat, ops: seq<Plan>, start: Start, hs: seq<Draft>,
                   visited: set<(Body, Position)>, h: Draft, q: Position, es: seq<Draft>, a: Snapshot, b: Snapshot,
                       t: Snapshot)
    requires |ops| > 1 && ReadyIn(w, limit, a) && Height(PConcatenation(ops[1..])) <= tall
    requires Found(AllMatches(mode), Sem(w, ops[0], start.position, start.refs), hs) && StartsOk(start, hs)
    requires h in hs && q in h.ends && Tailed(mode, w, limit, tall, ops, start, visited, a, b)
    requires Visited(mode, w, limit, Height(PConcatenation(ops[1..])), PConcatenation(ops[1..]),
        Start(start.origin, q, h.refs), WithDrafts(b, []), t)
    requires ConcatenatedAll(h, t.drafts, es)
    ensures Tailed(mode, w, limit, tall, ops, start, visited + {(BodyOf(h), q)}, a, WithDrafts(t, b.drafts + es))
  {
    var rest := PConcatenation(ops[1..]);
    var b0, c := WithDrafts(b, []), WithDrafts(t, b.drafts + es);
    var head := BodyOfHead(mode, w, ops[0], start.position, start.refs, hs, h);
    assert NewDrafts(b0, t) == t.drafts && NewDrafts(b, c) == es && NewObs(b, c) == NewObs(b0, t);
    ExtendsTransitive(a, b, c, start.origin);
    ServedTransitive(w, limit, tall, Height(rest), a, b, c, start.origin);
    OneMoreTail(mode, w, ops[1..], visited, start, h, q, NewDrafts(a, b), NewObs(a, b), t.drafts, es, NewObs(b, c));
    TailKeeps(w, ops, start.position, start.refs, BodyOf(h), q, t.drafts);
    HeadIsFound(mode, w, ops[0], start.position, start.refs, hs, h, q);
    if Changed(PConcatenation(ops), SetNames(start.refs)) == {} {
      forall d | d in es ensures d.refs == start.refs {
        var i :| 0 <= i < |es| && es[i] == d;
        assert d == Concatenated(h, t.drafts[i]) && t.drafts[i] in t.drafts;
      }
    }
  }

  lemma HeadIsFound(mode: Mode, w: World, op: Plan, pos: Position, refs: Refs, hs: seq<Draft>, h: Draft, q: Position)
    requires Found(AllMatches(mode), Sem(w, op, pos, refs), hs) && h in hs && q in h.ends
    ensures (BodyOf(h), q) in Pairs(View(AllMatches(mode), Sem(w, op, pos, refs)))
  {
    assert BodyOf(h) in Bodies(hs);
  }

  // The pairs of heads and ends in lists of drafts.
  ghost function PairsIn(hs: seq<Draft>): set<(Body, Position)> { set h, q | h in hs && q in h.ends :: (BodyOf(h), q) }

  ghost function PairsOfEnds(h: Draft, ends: seq<Position>): set<(Body, Position)> {
    set q | q in ends :: (BodyOf(h), q)
  }

  lemma PairsInSnoc(hs: seq<Draft>, i: nat)
    requires i < |hs|
    ensures PairsIn(hs[..i + 1]) == PairsIn(hs[..i]) + PairsOfEnds(hs[i], hs[i].ends)
  {
    assert hs[..i + 1] == hs[..i] + [hs[i]];
  }

  lemma PairsOfEndsSnoc(h: Draft, i: nat)
    requires i < |h.ends|
    ensures PairsOfEnds(h, h.ends[..i + 1]) == PairsOfEnds(h, h.ends[..i]) + {(BodyOf(h), h.ends[i])}
  {
    assert h.ends[..i + 1] == h.ends[..i] + [h.ends[i]];
  }

  lemma AllPairs(hs: seq<Draft>)
    ensures PairsIn(hs) == Pairs(Bodies(hs))
  {
    forall v | v in Pairs(Bodies(hs)) ensures v in PairsIn(hs) {
      var d :| d in hs && BodyOf(d) == v.0;
    }
    forall v | v in PairsIn(hs) ensures v in Pairs(Bodies(hs)) {
      var h, q :| h in hs && q in h.ends && v == (BodyOf(h), q);
      assert BodyOf(h) in Bodies(hs) && q in BodyOf(h).content.ends;
    }
  }

  // All the heads were continued, or enough of them.
  lemma ConcatVisited(mode: Mode, w: World, limit: Limit, ops: seq<Plan>, start: Start, visited: set<(Body, Position)>,
                      a: Snapshot, h: Snapshot, b: Snapshot)
    requires |ops| > 1 && WellFormed(w.graph) && ReadyIn(w, limit, a)
    requires Visited(AllMatches(mode), w, limit, Height(ops[0]), ops[0], start, WithDrafts(a, []), h)
    requires Tailed(mode, w, limit, Height(PConcatenation(ops)), ops, start, visited, WithDrafts(h, a.drafts), b)
    requires visited == PairsIn(h.drafts) || (mode.First? && NewDrafts(WithDrafts(h, a.drafts), b) != [])
    ensures Visited(mode, w, limit, Height(PConcatenation(ops)), PConcatenation(ops), start, a, b)
  {
    var p, a0, h0 := PConcatenation(ops), WithDrafts(a, []), WithDrafts(h, a.drafts);
    HeightOfTail(ops);
    assert NewObs(a0, h) == NewObs(a, h0) && NewDrafts(a0, h) == h.drafts && NewDrafts(a, h0) == [];
    ExtendsTransitive(a, h0, b, start.origin);
    ServedTaller(w, limit, Height(p), Height(ops[0]), a0, h);
    assert Served(w, limit, Height(p), a, h0);
    ServedTransitive(w, limit, Height(p), Height(p), a, h0, b, start.origin);
    AllPairs(h.drafts);
    assert NewDrafts(a, b) == NewDrafts(h0, b);
    forall v | v in visited ensures GoodTail(mode, w, ops[1..], v, start.origin, NewObs(a, b)) {
      GoodTailMonotone(mode, w, ops[1..], v, start.origin, NewObs(h0, b), NewObs(a, b));
    }
    ConcatGood(mode, w, ops, start, h.drafts, visited, NewDrafts(a, b), NewObs(a, h0), NewObs(a, b));
  }

  // --------------------------------------------------------------------------
  // Operands of joins
  // --------------------------------------------------------------------------

  // Some operands were matched into one list of drafts, and all of them matched.
  ghost predicate OperandsMatched(mode: Mode, w: World, limit: Limit, tall: nat, ops: seq<Plan>, i: nat, start: Start,
                                  idx: seq<nat>, a: Snapshot, b: Snapshot)
    requires i <= |ops|
  {
    Logged(a, b, start.origin) && Served(w, limit, tall, a, b) &&
    Indexed(b.drafts, idx, i) && EachMatched(idx, i) && StartsOk(start, b.drafts) &&
    Operands(b.drafts, idx, i) == ViewEach(mode, SemEach(w, ops[..i], start.position, start.refs)) &&
    OperandsSuffice(mode, w, NewObs(a, b), ops[..i], start)
  }

  lemma NoOperandsMatched(mode: Mode, w: World, limit: Limit, tall: nat, ops: seq<Plan>, start: Start, a: Snapshot)
    requires ReadyIn(w, limit, a) && a.drafts == []
    ensures OperandsMatched(mode, w, limit, tall, ops, 0, start, [], a, a)
  {
    NothingNew(a, start.origin);
    assert Operands([], [], 0) == ViewEach(mode, SemEach(w, ops[..0], start.position, start.refs));
  }

  lemma OperandBodiesAppend(ds: seq<Draft>, idx: seq<nat>, es: seq<Draft>, more: seq<nat>, i: nat, j: nat)
    requires Indexed(ds, idx, i) && |more| == |es| && (forall k :: 0 <= k < |more| ==> more[k] == i) && j <= i
    ensures OperandBodies(ds + es, idx + more, j) == if j == i then Bodies(es) else OperandBodies(ds, idx, j)
  {
    var all, at := ds + es, idx + more;
    assert forall k :: 0 <= k < |ds| ==> all[k] == ds[k] && at[k] == idx[k];
    assert forall k :: 0 <= k < |es| ==> all[|ds| + k] == es[k] && at[|ds| + k] == i;
    assert forall k :: |ds| <= k < |all| ==> all[k] == es[k - |ds|] && at[k] == i;
    if j == i {
      forall b | b in Bodies(es) ensures b in OperandBodies(all, at, j) {
        var d :| d in es && BodyOf(d) == b;
        var k :| 0 <= k < |es| && es[k] == d;
        assert all[|ds| + k] == d;
      }
      forall b | b in OperandBodies(all, at, j) ensures b in Bodies(es) {
        var k :| 0 <= k < |all| && at[k] == j && BodyOf(all[k]) == b;
        assert k >= |ds| && all[k] in es;
      }
    }
  }

  lemma OperandMatched(mode: Mode, w: World, limit: Limit, tall: nat, ops: seq<Plan>, i: nat, start: Start,
                       idx: seq<nat>, more: seq<nat>, a: Snapshot, b: Snapshot, c: Snapshot)
    requires i < |ops| && ReadyIn(w, limit, a) && Height(ops[i]) <= tall && !mode.First?
    requires OperandsMatched(mode, w, limit, tall, ops, i, start, idx, a, b)
    requires Visited(mode, w, limit, Height(ops[i]), ops[i], start, b, c) && NewDrafts(b, c) != []
    requires |more| == |NewDrafts(b, c)| && forall k :: 0 <= k < |more| ==> more[k] == i
    ensures OperandsMatched(mode, w, limit, tall, ops, i + 1, start, idx + more, a, c)
  {
    var es := NewDrafts(b, c);
    LoggedTransitive(a, b, c, start.origin);
    ServedTransitive(w, limit, tall, Height(ops[i]), a, b, c, start.origin);
    OneMoreSuffices(mode, w, NewObs(a, b), NewObs(b, c), ops, i, start);
    assert c.drafts == b.drafts + es;
    assert more[0] == i;
    assert (idx + more)[|idx|] == i;
    assert forall k: nat :: k < i ==> k in idx;
    SemEachSnoc(w, ops, i, start.position, start.refs);
    var ss := ViewEach(mode, SemEach(w, ops[..i + 1], start.position, start.refs));
    forall j: nat | j < i + 1 ensures OperandBodies(c.drafts, idx + more, j) == ss[j] {
      OperandBodiesAppend(b.drafts, idx, es, more, i, j);
      if j < i {
        assert OperandBodies(b.drafts, idx, j) == Operands(b.drafts, idx, i)[j];
      }
    }
    assert Operands(c.drafts, idx + more, i + 1) == ss;
  }

  // An operand without matches empties the join.
  lemma JoinExits(mode: Mode, w: World, limit: Limit, p: Plan, m: Mode, i: nat, start: Start, a: Snapshot, b: Snapshot,
      c: Snapshot)
    requires IsJoin(p) || p.PAndWithoutSetRef?
    requires i < |p.operands| && ReadyIn(w, limit, a) && (m == mode || m == AllMatches(mode))
    requires Logged(WithDrafts(a, []), b, start.origin) && Served(w, limit, Height(p), WithDrafts(a, []), b)
    requires Visited(m, w, limit, Height(p.operands[i]), p.operands[i], start, b, c) && NewDrafts(b, c) == []
    ensures Visited(mode, w, limit, Height(p), p, start, a, WithDrafts(c, a.drafts))
  {
    var op, a0, d := p.operands[i], WithDrafts(a, []), WithDrafts(c, a.drafts);
    assert op in p.operands;
    HeightOfOperand(p, op);
    LoggedTransitive(a0, b, c, start.origin);
    ServedTransitive(w, limit, Height(p), Height(op), a0, b, c, start.origin);
    FoundEmpty(m, Sem(w, op, start.position, start.refs), []);
    SufficesMonotone(m, w, NewObs(b, c), NewObs(a0, c), op, start.position, start.refs, AtOrigin(start));
    SufficesForFewer(mode, w, NewObs(a0, c), op, start.position, start.refs, AtOrigin(start));
    JoinQuickExit(mode, w, p, i, start, NewObs(a0, c));
    assert NewObs(a, d) == NewObs(a0, c) && NewDrafts(a, d) == [];
  }

  lemma HeightOfOperand(p: Plan, op: Plan)
    requires (p.POr? || p.PAndWithoutSetRef? || p.PAnd? || p.PAllAnd?) && op in p.operands
    ensures Height(op) <= Height(p)
  {}

  lemma OperandIsSupported(p: Plan, op: Plan, bound: RefNames)
    requires (p.POr? || p.PAndWithoutSetRef? || p.PAnd? || p.PAllAnd?) && op in p.operands
    requires Plans.Valid(p) && Supported(p, bound)
    ensures Plans.Valid(op) && Supported(op, bound)
  {}

  lemma OperandFits(w: World, limit: Limit, p: Plan, op: Plan, pos: Position)
    requires (p.POr? || p.PAndWithoutSetRef? || p.PAnd? || p.PAllAnd?) && op in p.operands && FitsIn(w, limit, p, pos)
    ensures FitsIn(w, limit, op, pos)
  {}

  // All of the operands match.
  lemma JoinVisited(mode: Mode, w: World, limit: Limit, p: Plan, start: Start, idx: seq<nat>, ds: seq<Draft>,
      a: Snapshot,
      b: Snapshot)
    requires IsJoin(p) && ReadyIn(w, limit, a)
    requires OperandsMatched(AllMatches(mode), w, limit, Height(p), p.operands, |p.operands|, start, idx,
        WithDrafts(a, []), b)
    requires Bodies(ds) == Joined(p, Operands(b.drafts, idx, |p.operands|)) && SameStarts(b.drafts, ds)
    ensures Visited(mode, w, limit, Height(p), p, start, a, WithDrafts(b, a.drafts + ds))
  {
    var a0, c := WithDrafts(a, []), WithDrafts(b, a.drafts + ds);
    assert p.operands[..|p.operands|] == p.operands;
    assert NewDrafts(a, c) == ds && NewObs(a, c) == NewObs(a0, b);
    JoinGood(mode, w, p, start, ds, NewObs(a0, b));
  }

  // --------------------------------------------------------------------------
  // AndWithoutSetRef
  // --------------------------------------------------------------------------

  ghost predicate AndTried(mode: Mode, w: World, limit: Limit, tall: nat, ops: seq<Plan>, i: nat, start: Start,
      a: Snapshot, b: Snapshot)
    requires i <= |ops|
  {
    Visited(mode, w, limit, tall, POr(ops[..i]), start, a, b) &&
    AllMatch(w, ops[..i], start.position, start.refs) &&
    OperandsSuffice(mode, w, NewObs(a, b), ops[..i], start)
  }

  lemma AndNotTried(mode: Mode, w: World, limit: Limit, tall: nat, ops: seq<Plan>, start: Start, a: Snapshot)
    requires ReadyIn(w, limit, a)
    ensures AndTried(mode, w, limit, tall, ops, 0, start, a, a)
  {
    NothingNew(a, start.origin);
    OrEmpty(mode, w, start);
    assert ops[..0] == [];
  }

  lemma AndTriedOnce(mode: Mode, w: World, limit: Limit, tall: nat, ops: seq<Plan>, i: nat, start: Start,
                     a: Snapshot, b: Snapshot, c: Snapshot)
    requires i < |ops| && ReadyIn(w, limit, a) && Height(ops[i]) <= tall
    requires AndTried(mode, w, limit, tall, ops, i, start, a, b)
    requires Visited(mode, w, limit, Height(ops[i]), ops[i], start, b, c) && NewDrafts(b, c) != []
    ensures AndTried(mode, w, limit, tall, ops, i + 1, start, a, c)
  {
    ExtendsTransitive(a, b, c, start.origin);
    OrVisited(mode, w, limit, tall, ops, i, start, a, b, c);
    OneMoreSuffices(mode, w, NewObs(a, b), NewObs(b, c), ops, i, start);
    FoundEmpty(mode, Sem(w, ops[i], start.position, start.refs), NewDrafts(b, c));
    assert ops[..i + 1] == ops[..i] + [ops[i]];
  }

  lemma AndVisited(mode: Mode, w: World, limit: Limit, p: Plan, start: Start, a: Snapshot, b: Snapshot)
    requires p.PAndWithoutSetRef? && ReadyIn(w, limit, a)
    requires AndTried(mode, w, limit, Height(p), p.operands, |p.operands|, start, WithDrafts(a, []), b)
    ensures Visited(mode, w, limit, Height(p), p, start, a, WithDrafts(b, a.drafts + b.drafts))
  {
    var a0, c := WithDrafts(a, []), WithDrafts(b, a.drafts + b.drafts);
    assert p.operands[..|p.operands|] == p.operands;
    assert NewDrafts(a, c) == b.drafts == NewDrafts(a0, b) && NewObs(a, c) == NewObs(a0, b);
    AndWithoutGood(mode, w, p.operands, start, b.drafts, NewObs(a0, b));
  }

  // --------------------------------------------------------------------------
  // Negation
  // --------------------------------------------------------------------------

  // The parts of the start region where the operand, with local refs projected away, doesn't match.
  ghost function TermsWithout(refs: Refs, es: set<Refs>, shared: RefNames): set<Refs> {
    Terms(RegionWithout(refs, es, shared))
  }

  ghost function RegionWithout(refs: Refs, es: set<Refs>, shared: RefNames): Region {
    Region({refs}, set e | e in es :: Restrict(e, shared))
  }

  lemma TermsWithoutNone(refs: Refs, shared: RefNames)
    ensures TermsWithout(refs, {}, shared) == {refs}
  {
    SingletonIsExact(refs, RegionWithout(refs, {}, shared));
    TermsOf({refs}, RegionWithout(refs, {}, shared));
  }

  lemma TermsWithoutOneMore(refs: Refs, es: set<Refs>, e: Refs, shared: RefNames)
    ensures TermsWithout(refs, es + {e}, shared) ==
        SubtractFromUnion(TermsWithout(refs, es, shared), Restrict(e, shared))
  {
    var g := RegionWithout(refs, es, shared);
    SubtractFromUnionIsDifference(Terms(g), g, Restrict(e, shared));
    var h := RegionWithout(refs, es + {e}, shared);
    assert h == Region(g.must, g.mustNot + {Restrict(e, shared)});
    TermsOf(SubtractFromUnion(Terms(g), Restrict(e, shared)), h);
  }

  lemma EmptyStays(refs: Refs, es: set<Refs>, all: set<Refs>, shared: RefNames)
    requires es <= all && TermsWithout(refs, es, shared) == {}
    ensures TermsWithout(refs, all, shared) == {}
  {
    var a, b := RegionWithout(refs, es, shared), RegionWithout(refs, all, shared);
    assert Exact({}, a);
    assert forall s: Assignment :: Inside(s, b) ==> Inside(s, a);
    assert Exact({}, b) by {
      forall s: Assignment ensures !Inside(s, b) { assert Inside(s, a) ==> CoveredBy(s, {}); }
      forall c: Refs ensures !Within(c, b) {
        PointIsInside(c, {});
        assert Sat(c, Point(c, {}));
        assert !Inside(Point(c, {}), b);
      }
    }
    TermsOf({}, b);
  }

  // A match that doesn't narrow the refs makes the negation fail everywhere.
  lemma NotNarrowed(refs: Refs, es: set<Refs>, shared: RefNames)
    requires refs in es
    ensures TermsWithout(refs, es, shared) == {}
  {
    var b := RegionWithout(refs, es, shared);
    assert Restrict(refs, shared) in b.mustNot;
    assert Exact({}, b) by {
      forall s: Assignment ensures !Inside(s, b) { assert Sat(refs, s) ==> Sat(Restrict(refs, shared), s); }
      forall c: Refs ensures !Within(c, b) {
        PointIsInside(c, {});
        assert Sat(c, Point(c, {}));
        assert !Inside(Point(c, {}), b);
      }
    }
    TermsOf({}, b);
  }

  lemma UnlessTerms(refs: Refs, es: seq<Draft>, shared: RefNames)
    ensures TermsWithout(refs, DraftRefs(es), shared) ==
        Terms(Region({refs}, set e | e in es :: Restrict(e.refs, shared)))
  {
    assert RegionWithout(refs, DraftRefs(es), shared) == Region({refs}, set e | e in es :: Restrict(e.refs, shared));
  }

  // --------------------------------------------------------------------------
  // Nested expressions
  // --------------------------------------------------------------------------

  lemma NestedIsSupported(p: Plan, refs: Refs)
    requires p.PNested? && Plans.Valid(p) && Supported(p, SetNames(refs))
    ensures Supported(p.plan, SetNames(refs)) && EntryOk(StartOf(p, Position(VertexID(0, 0), CORE), refs))
    ensures Supported(p.plan, SetNames(Restrict(refs, p.names)))
  {
    NestedNamesAreSet(refs, p.names, SetNames(refs));
    SupportedIsMonotone(p.plan, SetNames(refs) * p.names, SetNames(Restrict(refs, p.names)));
    SupportedIsMonotone(p.plan, SetNames(refs) * p.names, SetNames(refs));
  }

  // Some of the cached subgraphs were added, with all the refs of the start.
  ghost predicate CachedSome(mode: Mode, start: Start, some: set<Body>, ds: seq<Draft>) {
    Bodies(ds) == View(mode, FromCache(start.refs, some)) && StartsOk(start, ds)
  }

  lemma CachedNone(mode: Mode, refs: Refs)
    ensures Bodies([]) == View(mode, FromCache(refs, {}))
  {
    ViewEmpty(mode, {});
    assert FromCache(refs, {}) == {};
  }

  lemma FromCacheUnion(refs: Refs, some: set<Body>, b: Body)
    ensures FromCache(refs, some + {b}) ==
      FromCache(refs, some) + if Meet(refs, b.refs).Some? then {Body(b.content, Meet(refs, b.refs).value)} else {}
  {}

  lemma CachedNoMore(mode: Mode, start: Start, some: set<Body>, b: Body, ds: seq<Draft>)
    requires CachedSome(mode, start, some, ds) && Meet(start.refs, b.refs).None?
    ensures CachedSome(mode, start, some + {b}, ds)
  {
    FromCacheUnion(start.refs, some, b);
    assert FromCache(start.refs, some + {b}) == FromCache(start.refs, some);
  }

  lemma CachedOneMore(mode: Mode, start: Start, some: set<Body>, b: Body, ds: seq<Draft>, d: Draft)
    requires CachedSome(mode, start, some, ds) && Meet(start.refs, b.refs).Some? && d.start == start.position
    requires var x := Body(b.content, Meet(start.refs, b.refs).value); BodyOf(d) == if mode.Normal? then x else Strip(x)
    ensures CachedSome(mode, start, some + {b}, ds + [d])
  {
    var x := Body(b.content, Meet(start.refs, b.refs).value);
    FromCacheUnion(start.refs, some, b);
    ViewUnion(mode, FromCache(start.refs, some), {x});
    BodiesAppend(ds, [d]);
    OneBody(d);
    assert Stripped({x}) == {Strip(x)};
  }

  lemma CachedVisited(mode: Mode, w: World, limit: Limit, p: Plan, start: Start, some: set<Body>, a: Snapshot,
      b: Snapshot)
    requires p.PNested? && w.cached && a.drafts <= b.drafts && Logged(a, b, start.origin)
    requires Ready(b.cache, w.graph, limit) && Grown(a.cache, b.cache, limit.height)
    requires var n := StartOf(p, start.position, start.refs);
      n in b.cache.subgraphs && NewObs(a, b) == {NestedSubgraph(n)} &&
      some <= NestedSem(w.graph, n) && (some == NestedSem(w.graph, n) || (mode.First? && NewDrafts(a, b) != []))
    requires CachedSome(mode, start, some, NewDrafts(a, b))
    ensures Visited(mode, w, limit, Height(p), p, start, a, b)
  {
    CachedServed(w, limit, p, start, a, b);
    hide Ready, Grown, Served, NestedSem;
    var n, ds := StartOf(p, start.position, start.refs), NewDrafts(a, b);
    var s := NestedSem(w.graph, n);
    assert FromCache(start.refs, some) <= FromCache(start.refs, s);
    BodiesEmpty(ds);
    ViewEmpty(mode, FromCache(start.refs, some));
    forall d | d in ds ensures exists x :: x in FromCache(start.refs, s) && x.refs == d.refs {
      assert BodyOf(d) in Bodies(ds);
      var x :| x in FromCache(start.refs, some) && x.refs == d.refs;
    }
    CachedGood(mode, w, p, start, ds);
  }

  lemma CachedServed(w: World, limit: Limit, p: Plan, start: Start, a: Snapshot, b: Snapshot)
    requires p.PNested? && w.cached && Logged(a, b, start.origin)
    requires Ready(b.cache, w.graph, limit) && Grown(a.cache, b.cache, limit.height)
    requires var n := StartOf(p, start.position, start.refs);
      n in b.cache.subgraphs && NewObs(a, b) == {NestedSubgraph(n)}
    ensures Served(w, limit, Height(p), a, b)
  {
    assert HeightOf(StartOf(p, start.position, start.refs)) == Height(p);
  }
}
