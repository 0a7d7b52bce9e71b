/** Right answers for joins, lookaheads and nested expressions, given the operands'. */
module MatchingJoins {
  import opened Base
  import opened RefsAlgebra
  import opened RefsUnions
  import opened Arrangement
  import opened Plans
  import opened Semantics
  import opened RefTracking
  import opened Dependencies
  import opened Matching

  lemma SameEach(w: World, x: World, ops: seq<Plan>, pos: Position, refs: Refs)
    requires forall i :: 0 <= i < |ops| ==> Sem(w, ops[i], pos, refs) == Sem(x, ops[i], pos, refs)
    ensures SemEach(w, ops, pos, refs) == SemEach(x, ops, pos, refs)
  {
    forall i | 0 <= i < |ops| ensures SemEach(w, ops, pos, refs)[i] == SemEach(x, ops, pos, refs)[i] {
      SemEachAt(w, ops, pos, refs, i);
      SemEachAt(x, ops, pos, refs, i);
    }
  }

  // --------------------------------------------------------------------------
  // Joins through views
  // --------------------------------------------------------------------------

  ghost function ViewEach(mode: Mode, ss: seq<set<Body>>): seq<set<Body>> {
    seq(|ss|, i requires 0 <= i < |ss| => View(mode, ss[i]))
  }

  lemma UnionOfStripped(ss: seq<set<Body>>)
    ensures Union(ViewEach(RefsOnly, ss)) == Stripped(Union(ss))
    ensures RefsOf(Union(ViewEach(RefsOnly, ss))) == RefsOf(Union(ss))
  {
    var rs := ViewEach(RefsOnly, ss);
    forall b | b in Union(rs) ensures b in Stripped(Union(ss)) {
      var i :| 0 <= i < |ss| && b in rs[i];
      var c :| c in ss[i] && b == Strip(c);
      assert c in Union(ss);
    }
    forall b | b in Stripped(Union(ss)) ensures b in Union(rs) {
      var c :| c in Union(ss) && b == Strip(c);
      var i :| 0 <= i < |ss| && c in ss[i];
      assert b in rs[i];
    }
    forall r | r in RefsOf(Union(ss)) ensures r in RefsOf(Union(rs)) {
      var b :| b in Union(ss) && b.refs == r;
      assert Strip(b) in Stripped(Union(ss));
    }
    forall r | r in RefsOf(Stripped(Union(ss))) ensures r in RefsOf(Union(ss)) {
      var b :| b in Stripped(Union(ss)) && b.refs == r;
    }
  }

  lemma CoversAllOfStripped(ss: seq<set<Body>>, m: set<Refs>)
    ensures CoversAll(ViewEach(RefsOnly, ss), m) <==> CoversAll(ss, m)
  {
    forall i | 0 <= i < |ss| ensures HasMember(Stripped(ss[i]), m) <==> HasMember(ss[i], m) {
      if HasMember(ss[i], m) {
        var b :| b in ss[i] && b.refs in m;
        assert Strip(b) in Stripped(ss[i]);
      }
    }
    if CoversAll(ViewEach(RefsOnly, ss), m) {
      forall i | 0 <= i < |ss| ensures HasMember(ss[i], m) {
        assert HasMember(ViewEach(RefsOnly, ss)[i], m);
      }
    }
  }

  lemma MergedOfStripped(s: set<Body>, m: set<Refs>)
    ensures Merged(ContentsIn(Stripped(s), m)) == StripContent(Merged(ContentsIn(s, m)))
  {
    var a, b := Merged(ContentsIn(Stripped(s), m)), Merged(ContentsIn(s, m));
    forall p | p in b.ends ensures p in a.ends {
      var c :| c in ContentsIn(s, m) && p in c.ends;
      var body :| body in s && body.refs in m && body.content == c;
      assert Strip(body) in Stripped(s);
      assert StripContent(c) in ContentsIn(Stripped(s), m);
    }
    forall p | p in a.ends ensures p in b.ends {
      var c :| c in ContentsIn(Stripped(s), m) && p in c.ends;
      var body :| body in Stripped(s) && body.refs in m && body.content == c;
      var orig :| orig in s && Strip(orig) == body;
      assert orig.content in ContentsIn(s, m);
    }
    assert a.vertices == {} && a.edges == {};
  }

  lemma CellsOfStripped(s: set<Body>, m: set<Refs>)
    requires RefsOf(Stripped(s)) == RefsOf(s)
    ensures InCell(Stripped(s), m) == Stripped(InCell(s, m))
    ensures MergedCell(Stripped(s), m) == Stripped(MergedCell(s, m))
  {
    forall x | x in InCell(Stripped(s), m) ensures x in Stripped(InCell(s, m)) {
      var t, b :| t in CellTerms(m, RefsOf(s)) && b in Stripped(s) && b.refs in m && x == Body(b.content, t);
      var c :| c in s && b == Strip(c);
      assert Body(c.content, t) in InCell(s, m);
    }
    forall y | y in InCell(s, m) ensures Strip(y) in InCell(Stripped(s), m) {
      var t, b :| t in CellTerms(m, RefsOf(s)) && b in s && b.refs in m && y == Body(b.content, t);
      assert Strip(b) in Stripped(s);
    }
    MergedOfStripped(s, m);
    forall t | t in CellTerms(m, RefsOf(s)) ensures Body(Merged(ContentsIn(s, m)), t) in MergedCell(s, m) {}
  }

  lemma JoinCellsOfStripped(ss: seq<set<Body>>, m: set<Refs>)
    ensures JoinCell(ViewEach(RefsOnly, ss), m) <==> JoinCell(ss, m)
    ensures InCell(Union(ViewEach(RefsOnly, ss)), m) == Stripped(InCell(Union(ss), m))
    ensures MergedCell(Union(ViewEach(RefsOnly, ss)), m) == Stripped(MergedCell(Union(ss), m))
  {
    UnionOfStripped(ss);
    CoversAllOfStripped(ss, m);
    CellsOfStripped(Union(ss), m);
  }

  lemma AndOfHas(ss: seq<set<Body>>, m: set<Refs>, x: Body)
    requires JoinCell(ss, m) && x in InCell(Union(ss), m)
    ensures x in AndOf(ss)
  {}

  lemma AllOfHas(ss: seq<set<Body>>, m: set<Refs>, x: Body)
    requires JoinCell(ss, m) && x in MergedCell(Union(ss), m)
    ensures x in AllOf(ss)
  {}

  // Joining stripped subgraphs is stripping the join.
  lemma AndOfStripped(ss: seq<set<Body>>)
    ensures AndOf(ViewEach(RefsOnly, ss)) == Stripped(AndOf(ss))
  {
    var rs := ViewEach(RefsOnly, ss);
    forall x | x in AndOf(rs) ensures x in Stripped(AndOf(ss)) {
      var m: set<Refs> :| JoinCell(rs, m) && x in InCell(Union(rs), m);
      JoinCellsOfStripped(ss, m);
      var y :| y in InCell(Union(ss), m) && x == Strip(y);
      AndOfHas(ss, m, y);
    }
    forall y | y in AndOf(ss) ensures Strip(y) in AndOf(rs) {
      var m: set<Refs> :| JoinCell(ss, m) && y in InCell(Union(ss), m);
      JoinCellsOfStripped(ss, m);
      assert Strip(y) in Stripped(InCell(Union(ss), m));
      AndOfHas(rs, m, Strip(y));
    }
  }

  lemma AllOfStripped(ss: seq<set<Body>>)
    ensures AllOf(ViewEach(RefsOnly, ss)) == Stripped(AllOf(ss))
  {
    var rs := ViewEach(RefsOnly, ss);
    forall x | x in AllOf(rs) ensures x in Stripped(AllOf(ss)) {
      var m: set<Refs> :| JoinCell(rs, m) && x in MergedCell(Union(rs), m);
      JoinCellsOfStripped(ss, m);
      var y :| y in MergedCell(Union(ss), m) && x == Strip(y);
      AllOfHas(ss, m, y);
    }
    forall y | y in AllOf(ss) ensures Strip(y) in AllOf(rs) {
      var m: set<Refs> :| JoinCell(ss, m) && y in MergedCell(Union(ss), m);
      JoinCellsOfStripped(ss, m);
      assert Strip(y) in Stripped(MergedCell(Union(ss), m));
      AllOfHas(rs, m, Strip(y));
    }
  }

  lemma ViewOfJoins(mode: Mode, ss: seq<set<Body>>)
    ensures AndOf(ViewEach(mode, ss)) == View(mode, AndOf(ss))
    ensures AllOf(ViewEach(mode, ss)) == View(mode, AllOf(ss))
  {
    if mode.Normal? {
      assert ViewEach(mode, ss) == ss;
    } else {
      assert ViewEach(mode, ss) == ViewEach(RefsOnly, ss);
      AndOfStripped(ss);
      AllOfStripped(ss);
    }
  }

  // A subgraph of an operand is merged into something.
  lemma AllOfOneEmptiness(s: set<Body>)
    ensures AllOf([s]) == {} <==> s == {}
  {
    assert [s][0] == s;
    if s != {} {
      var b :| b in s;
      var all := RefsOf(Union([s]));
      assert b in Union([s]);
      var v := Point(b.refs, {});
      PointIsInside(b.refs, {});
      var m := set r | r in all && Sat(r, v);
      assert b.refs in m;
      InCellIffMembersCover(m, all, v);
      var t :| t in CellTerms(m, all) && Sat(t, v);
      assert HasMember([s][0], m);
      assert JoinCell([s], m);
      var x := Body(Merged(ContentsIn(Union([s]), m)), t);
      assert x in MergedCell(Union([s]), m);
      AllOfHas([s], m, x);
    } else {
      assert RefsOf(Union([s])) == {};
      forall m: set<Refs> ensures !JoinCell([s], m) {}
    }
  }

  lemma EmptyOperandJoins(ss: seq<set<Body>>, i: nat)
    requires i < |ss| && ss[i] == {}
    ensures AndOf(ss) == {} && AllOf(ss) == {}
  {
    forall m: set<Refs> ensures !CoversAll(ss, m) { assert !HasMember(ss[i], m); }
  }

  // --------------------------------------------------------------------------
  // And, all of and
  // --------------------------------------------------------------------------

  ghost predicate IsJoin(p: Plan) { p.PAnd? || p.PAllAnd? }

  ghost function Joined(p: Plan, ss: seq<set<Body>>): set<Body>
    requires IsJoin(p)
  {
    if p.PAnd? then AndOf(ss) else AllOf(ss)
  }

  ghost predicate OperandsSuffice(mode: Mode, w: World, obs: set<Observable>, ops: seq<Plan>, start: Start) {
    forall i :: 0 <= i < |ops| ==> OperandSuffices(mode, w, obs, ops[i], start)
  }

  ghost predicate OperandSuffices(mode: Mode, w: World, obs: set<Observable>, op: Plan, start: Start) {
    Suffices(mode, w, obs, op, start.position, start.refs, AtOrigin(start))
  }

  lemma OperandSufficesMonotone(mode: Mode, w: World, a: set<Observable>, b: set<Observable>, op: Plan, start: Start)
    requires a <= b && OperandSuffices(mode, w, a, op, start)
    ensures OperandSuffices(mode, w, b, op, start)
  {
    SufficesMonotone(mode, w, a, b, op, start.position, start.refs, AtOrigin(start));
  }

  lemma OperandComparable(p: Plan, o: Plan, pos: Position, g: Graph, h: Graph, atOrigin: bool)
    requires (p.POr? || p.PAndWithoutSetRef? || p.PAnd? || p.PAllAnd?) && o in p.operands &&
        Comparable(p, pos, g, h, atOrigin)
    ensures Comparable(o, pos, g, h, atOrigin)
  {}

  lemma JoinSuffices(mode: Mode, w: World, obs: set<Observable>, p: Plan, start: Start)
    requires IsJoin(p) && OperandsSuffice(AllMatches(mode), w, obs, p.operands, start)
    ensures Suffices(mode, w, obs, p, start.position, start.refs, AtOrigin(start))
  {
    var pos, refs, ops := start.position, start.refs, p.operands;
    forall h: Graph | Alike(w.graph, h, obs) && Comparable(p, pos, w.graph, h, AtOrigin(start))
      ensures Sem(w, p, pos, refs) == Sem(World(h, w.cached), p, pos, refs)
    {
      forall i | 0 <= i < |ops| ensures Sem(w, ops[i], pos, refs) == Sem(World(h, w.cached), ops[i], pos, refs) {
        assert OperandSuffices(AllMatches(mode), w, obs, ops[i], start);
        OperandComparable(p, ops[i], pos, w.graph, h, AtOrigin(start));
      }
      SameEach(w, World(h, w.cached), ops, pos, refs);
    }
  }

  // The drafts join the views of all the operands.
  lemma JoinGood(mode: Mode, w: World, p: Plan, start: Start, ds: seq<Draft>, obs: set<Observable>)
    requires IsJoin(p) && OperandsSuffice(AllMatches(mode), w, obs, p.operands, start)
    requires Bodies(ds) == Joined(p, ViewEach(AllMatches(mode), SemEach(w, p.operands, start.position, start.refs)))
    requires StartsOk(start, ds)
    ensures Good(mode, w, p, start, ds, obs)
  {
    var pos, refs := start.position, start.refs;
    ViewOfJoins(AllMatches(mode), SemEach(w, p.operands, pos, refs));
    FoundAllIsFoundAny(mode, Sem(w, p, pos, refs), ds);
    FoundKeepsRefs(AllMatches(mode), w, p, pos, refs, ds);
    JoinSuffices(mode, w, obs, p, start);
  }

  // An operand without matches empties the join.
  lemma JoinQuickExit(mode: Mode, w: World, p: Plan, i: nat, start: Start, obs: set<Observable>)
    requires IsJoin(p) || p.PAndWithoutSetRef?
    requires i < |p.operands| && Suffices(mode, w, obs, p.operands[i], start.position, start.refs, AtOrigin(start))
    requires Sem(w, p.operands[i], start.position, start.refs) == {}
    ensures Good(mode, w, p, start, [], obs)
  {
    var pos, refs, ops := start.position, start.refs, p.operands;
    SemEachAt(w, ops, pos, refs, i);
    EmptyOperandExit(w, p, i, pos, refs);
    forall h: Graph | Alike(w.graph, h, obs) && Comparable(p, pos, w.graph, h, AtOrigin(start))
      ensures Sem(World(h, w.cached), p, pos, refs) == {}
    {
      OperandComparable(p, ops[i], pos, w.graph, h, AtOrigin(start));
      assert Unchanged(mode, Sem(w, ops[i], pos, refs), Sem(World(h, w.cached), ops[i], pos, refs));
      EmptyOperandExit(World(h, w.cached), p, i, pos, refs);
    }
    assert Bodies([]) == {} == View(mode, {});
  }

  lemma EmptyOperandExit(w: World, p: Plan, i: nat, pos: Position, refs: Refs)
    requires IsJoin(p) || p.PAndWithoutSetRef?
    requires i < |p.operands| && Sem(w, p.operands[i], pos, refs) == {}
    ensures Sem(w, p, pos, refs) == {}
  {
    SemEachAt(w, p.operands, pos, refs, i);
    if IsJoin(p) { EmptyOperandJoins(SemEach(w, p.operands, pos, refs), i); }
  }

  // --------------------------------------------------------------------------
  // And without setting refs
  // --------------------------------------------------------------------------

  ghost predicate AllMatch(w: World, ops: seq<Plan>, pos: Position, refs: Refs) {
    forall i :: 0 <= i < |ops| ==> Sem(w, ops[i], pos, refs) != {}
  }

  lemma AndIsOr(w: World, ops: seq<Plan>, pos: Position, refs: Refs)
    requires AllMatch(w, ops, pos, refs)
    ensures Sem(w, PAndWithoutSetRef(ops), pos, refs) == Sem(w, POr(ops), pos, refs)
  {
    forall i | 0 <= i < |ops| ensures SemEach(w, ops, pos, refs)[i] != {} { SemEachAt(w, ops, pos, refs, i); }
  }

  // All the operands match, so their subgraphs are returned the way Or returns them.
  lemma AndWithoutGood(mode: Mode, w: World, ops: seq<Plan>, start: Start, ds: seq<Draft>, obs: set<Observable>)
    requires AllMatch(w, ops, start.position, start.refs)
    requires Good(mode, w, POr(ops), start, ds, obs) && OperandsSuffice(mode, w, obs, ops, start)
    ensures Good(mode, w, PAndWithoutSetRef(ops), start, ds, obs)
  {
    var pos, refs, p := start.position, start.refs, PAndWithoutSetRef(ops);
    AndIsOr(w, ops, pos, refs);
    forall h: Graph | Alike(w.graph, h, obs) && Comparable(p, pos, w.graph, h, AtOrigin(start))
      ensures Unchanged(mode, Sem(w, p, pos, refs), Sem(World(h, w.cached), p, pos, refs))
    {
      forall i | 0 <= i < |ops| ensures Sem(World(h, w.cached), ops[i], pos, refs) != {} {
        assert OperandSuffices(mode, w, obs, ops[i], start);
        OperandComparable(p, ops[i], pos, w.graph, h, AtOrigin(start));
        assert Unchanged(mode, Sem(w, ops[i], pos, refs), Sem(World(h, w.cached), ops[i], pos, refs));
      }
      AndIsOr(World(h, w.cached), ops, pos, refs);
      assert Comparable(POr(ops), pos, w.graph, h, AtOrigin(start));
    }
    assert Changed(p, SetNames(refs)) == Changed(POr(ops), SetNames(refs));
  }

  // --------------------------------------------------------------------------
  // Operators with one operand
  // --------------------------------------------------------------------------

  // The meaning of the operator is a function of the meaning of its operand.
  ghost predicate Determined(mode: Mode, p: Plan, op: Plan, pos: Position, refs: Refs) {
    forall w: World, x: World {:trigger Sem(w, p, pos, refs), Sem(x, p, pos, refs)} ::
      Unchanged(mode, Sem(w, op, pos, refs), Sem(x, op, pos, refs)) ==>
      Unchanged(mode, Sem(w, p, pos, refs), Sem(x, p, pos, refs))
  }

  ghost predicate SamePeeks(p: Plan, op: Plan) { Peeks(op) ==> Peeks(p) }

  lemma UnarySuffices(mode: Mode, w: World, obs: set<Observable>, p: Plan, op: Plan, pos: Position, refs: Refs, o: bool)
    requires SamePeeks(p, op) && Determined(mode, p, op, pos, refs) && Suffices(mode, w, obs, op, pos, refs, o)
    ensures Suffices(mode, w, obs, p, pos, refs, o)
  {
    forall h: Graph | Alike(w.graph, h, obs) && Comparable(p, pos, w.graph, h, o)
      ensures Unchanged(mode, Sem(w, p, pos, refs), Sem(World(h, w.cached), p, pos, refs))
    {
      assert Comparable(op, pos, w.graph, h, o);
    }
  }

  lemma AllFound(mode: Mode, s: set<Body>, es: seq<Draft>, ds: seq<Draft>)
    requires Found(mode, s, es) && Bodies(ds) == AllOf([Bodies(es)])
    ensures Found(mode, AllOf([s]), ds)
  {
    if mode.First? {
      BodiesEmpty(es);
      BodiesEmpty(ds);
      AllOfOneEmptiness(Bodies(es));
      AllOfOneEmptiness(s);
    } else {
      ViewOfJoins(mode, [s]);
      assert ViewEach(mode, [s]) == [View(mode, s)];
    }
  }

  lemma AllIsDetermined(mode: Mode, op: Plan, pos: Position, refs: Refs)
    ensures Determined(mode, PAll(op), op, pos, refs)
  {
    hide AllOf;
    forall x: World ensures Sem(x, PAll(op), pos, refs) == {} <==> Sem(x, op, pos, refs) == {} {
      AllOfOneEmptiness(Sem(x, op, pos, refs));
    }
  }

  lemma AllGood(mode: Mode, w: World, op: Plan, start: Start, es: seq<Draft>, ds: seq<Draft>, obs: set<Observable>)
    requires Good(mode, w, op, start, es, obs) && StartsOk(start, ds)
    requires Bodies(ds) == AllOf([Bodies(es)])
    requires AllKept(start.refs, es) ==> AllKept(start.refs, ds)
    ensures Good(mode, w, PAll(op), start, ds, obs)
  {
    hide Suffices, Found, AllOf;
    var pos, refs, p := start.position, start.refs, PAll(op);
    AllFound(mode, Sem(w, op, pos, refs), es, ds);
    AllIsDetermined(mode, op, pos, refs);
    UnarySuffices(mode, w, obs, p, op, pos, refs, AtOrigin(start));
    AllOfOneEmptiness(Sem(w, op, pos, refs));
  }

  ghost predicate AllKept(refs: Refs, ds: seq<Draft>) { forall d :: d in ds ==> d.refs == refs }

  lemma AllWithoutGood(mode: Mode, w: World, op: Plan, start: Start, es: seq<Draft>, ds: seq<Draft>,
      obs: set<Observable>)
    requires Good(mode, w, op, start, es, obs) && StartsOk(start, ds)
    requires Bodies(ds) == if es == [] then {} else {Body(Merged(set b | b in Bodies(es) :: b.content), start.refs)}
    requires AllKept(start.refs, ds)
    ensures Good(mode, w, PAllWithoutSetRef(op), start, ds, obs)
  {
    var pos, refs, p := start.position, start.refs, PAllWithoutSetRef(op);
    assert Found(mode, Sem(w, p, pos, refs), ds) by { AllWithoutFound(mode, Sem(w, op, pos, refs), refs, es, ds); }
    hide Suffices, Found;
    UnarySuffices(mode, w, obs, p, op, pos, refs, AtOrigin(start));
  }

  lemma AllWithoutFound(mode: Mode, s: set<Body>, refs: Refs, es: seq<Draft>, ds: seq<Draft>)
    requires Found(mode, s, es)
    requires Bodies(ds) == if es == [] then {} else {Body(Merged(set b | b in Bodies(es) :: b.content), refs)}
    ensures Found(mode, if s == {} then {} else {Body(Merged(set b | b in s :: b.content), refs)}, ds)
  {
    FoundEmpty(mode, s, es);
    BodiesEmpty(ds);
    if mode.RefsOnly? && s != {} {
      var all := RefsOf(s);
      assert ContentsIn(s, all) == set b | b in s :: b.content;
      assert ContentsIn(Stripped(s), all) == set b | b in Stripped(s) :: b.content by {
        forall b | b in Stripped(s) ensures b.refs in all {}
      }
      MergedOfStripped(s, all);
      var body := Body(Merged(ContentsIn(s, all)), refs);
      assert Stripped({body}) == {Strip(body)};
    }
  }

  // Drafts at the start position, with nothing in them.
  ghost predicate Blank(start: Start, ds: seq<Draft>) {
    StartsOk(start, ds) && forall d :: d in ds ==> d.ends == [start.position] && d.vertices == [] && d.edges == []
  }

  lemma BlankBodies(start: Start, ds: seq<Draft>)
    requires Blank(start, ds)
    ensures Bodies(ds) == set d | d in ds :: EmptyAt(start.position, d.refs)
    ensures Stripped(Bodies(ds)) == Bodies(ds)
  {
    forall d | d in ds ensures BodyOf(d) == EmptyAt(start.position, d.refs) {
      assert Elems(d.ends) == {start.position};
      ElemsEmpty(d.vertices);
      ElemsEmpty(d.edges);
    }
    forall b | b in Bodies(ds) ensures Strip(b) == b && b in Stripped(Bodies(ds)) {
      assert Strip(b) in Stripped(Bodies(ds));
    }
  }

  lemma BlankFound(mode: Mode, start: Start, ds: seq<Draft>, s: set<Body>)
    requires Blank(start, ds)
    requires s == set d | d in ds :: EmptyAt(start.position, d.refs)
    ensures Found(mode, s, ds)
  {
    BlankBodies(start, ds);
    BodiesEmpty(ds);
  }

  lemma IfWithoutGood(mode: Mode, w: World, op: Plan, start: Start, es: seq<Draft>, ds: seq<Draft>,
      obs: set<Observable>)
    requires Good(First, w, op, start, es, obs) && Changed(op, SetNames(start.refs)) == {}
    requires Blank(start, ds)
    requires if es == [] then ds == [] else |ds| == 1 && ds[0].refs == es[0].refs
    ensures Good(mode, w, PIfWithoutSetRef(op), start, ds, obs)
  {
    var pos, refs, p := start.position, start.refs, PIfWithoutSetRef(op);
    if es != [] {
      assert es[0] in es;
      assert ds[0] in ds && forall d :: d in ds ==> d == ds[0];
    }
    BlankFound(mode, start, ds, Sem(w, p, pos, refs));
    forall h: Graph | Alike(w.graph, h, obs) && Comparable(p, pos, w.graph, h, AtOrigin(start))
      ensures Sem(w, p, pos, refs) == Sem(World(h, w.cached), p, pos, refs)
    {
      assert Comparable(op, pos, w.graph, h, AtOrigin(start));
      assert Unchanged(First, Sem(w, op, pos, refs), Sem(World(h, w.cached), op, pos, refs));
    }
  }

  lemma IfGood(mode: Mode, w: World, op: Plan, start: Start, es: seq<Draft>, ds: seq<Draft>, obs: set<Observable>)
    requires Good(NoContents(mode), w, op, start, es, obs)
    requires Blank(start, ds) && DraftRefs(ds) == DraftRefs(es)
    ensures Good(mode, w, PIf(op), start, ds, obs)
  {
    var pos, refs, p := start.position, start.refs, PIf(op);
    var s := Sem(w, op, pos, refs);
    if mode.First? {
      DraftRefsEmpty(ds);
      DraftRefsEmpty(es);
      forall x: World ensures Sem(x, p, pos, refs) == {} <==> Sem(x, op, pos, refs) == {} {
        if Sem(x, op, pos, refs) != {} {
          var b :| b in Sem(x, op, pos, refs);
          assert EmptyAt(pos, b.refs) in Sem(x, p, pos, refs);
        }
      }
    } else {
      RefsOfFound(s, es);
      forall r | r in RefsOf(s) ensures EmptyAt(pos, r) in set d | d in ds :: EmptyAt(pos, d.refs) {
        var d :| d in ds && d.refs == r;
      }
      forall d | d in ds ensures EmptyAt(pos, d.refs) in Sem(w, p, pos, refs) {
        assert d.refs in RefsOf(s);
      }
      BlankFound(mode, start, ds, Sem(w, p, pos, refs));
    }
    SufficesForFewer(mode, w, obs, op, pos, refs, AtOrigin(start));
    UnarySuffices(mode, w, obs, p, op, pos, refs, AtOrigin(start));
    forall d | d in ds ensures exists e :: e in es && e.refs == d.refs {
      assert d.refs in DraftRefs(es);
    }
  }

  ghost function DraftRefs(ds: seq<Draft>): set<Refs> { set d | d in ds :: d.refs }

  lemma DraftRefsEmpty(ds: seq<Draft>)
    ensures DraftRefs(ds) == {} <==> ds == []
  {
    if ds != [] { assert ds[0] in ds && ds[0].refs in DraftRefs(ds); }
  }

  lemma RefsOfFound(s: set<Body>, es: seq<Draft>)
    requires Found(RefsOnly, s, es)
    ensures RefsOf(s) == DraftRefs(es)
  {
    forall r | r in RefsOf(s) ensures r in DraftRefs(es) {
      var b :| b in s && b.refs == r;
      assert Strip(b) in Stripped(s);
      var e :| e in es && BodyOf(e) == Strip(b);
    }
    forall e | e in es ensures e.refs in RefsOf(s) {
      assert BodyOf(e) in Bodies(es);
      var b :| b in s && Strip(b) == BodyOf(e);
    }
  }

  lemma SufficesForFewer(mode: Mode, w: World, obs: set<Observable>, op: Plan, pos: Position, refs: Refs, o: bool)
    requires Suffices(NoContents(mode), w, obs, op, pos, refs, o) ||
        Suffices(AllMatches(mode), w, obs, op, pos, refs, o)
    ensures Suffices(mode, w, obs, op, pos, refs, o)
  {
    forall h: Graph | Alike(w.graph, h, obs) && Comparable(op, pos, w.graph, h, o)
      ensures Unchanged(mode, Sem(w, op, pos, refs), Sem(World(h, w.cached), op, pos, refs))
    {}
  }

  lemma UnlessWithoutGood(mode: Mode, w: World, p: Plan, start: Start, es: seq<Draft>, ds: seq<Draft>,
      obs: set<Observable>)
    requires p.PUnlessWithoutSetNonLocalRef? && Good(First, w, p.operand, start, es, obs)
    requires Blank(start, ds) && (if es != [] then ds == [] else |ds| == 1 && ds[0].refs == start.refs)
    ensures Good(mode, w, p, start, ds, obs)
  {
    var pos, refs, op := start.position, start.refs, p.operand;
    if es == [] { assert ds[0] in ds && forall d :: d in ds ==> d == ds[0]; }
    BlankFound(mode, start, ds, Sem(w, p, pos, refs));
    forall h: Graph | Alike(w.graph, h, obs) && Comparable(p, pos, w.graph, h, AtOrigin(start))
      ensures Sem(w, p, pos, refs) == Sem(World(h, w.cached), p, pos, refs)
    {
      assert Comparable(op, pos, w.graph, h, AtOrigin(start));
      assert Unchanged(First, Sem(w, op, pos, refs), Sem(World(h, w.cached), op, pos, refs));
    }
  }

  lemma UnlessGood(mode: Mode, w: World, p: Plan, start: Start, es: seq<Draft>, ds: seq<Draft>, obs: set<Observable>)
    requires p.PUnless? && Good(RefsOnly, w, p.operand, start, es, obs)
    requires Blank(start, ds)
    requires DraftRefs(ds) == Terms(Region({start.refs}, set e | e in es :: Restrict(e.refs, p.shared)))
    ensures Good(mode, w, p, start, ds, obs)
  {
    var pos, refs, op := start.position, start.refs, p.operand;
    var s := Sem(w, op, pos, refs);
    RefsOfFound(s, es);
    var projected := set e | e in es :: Restrict(e.refs, p.shared);
    forall b | b in s ensures Restrict(b.refs, p.shared) in projected {
      assert b.refs in RefsOf(s);
      var e :| e in es && e.refs == b.refs;
    }
    forall e | e in es ensures Restrict(e.refs, p.shared) in set b | b in s :: Restrict(b.refs, p.shared) {
      assert e.refs in RefsOf(s);
      var b :| b in s && b.refs == e.refs;
    }
    assert UnlessRegion(refs, s, p.shared) == Region({refs}, projected);
    forall t | t in Terms(UnlessRegion(refs, s, p.shared))
      ensures EmptyAt(pos, t) in set d | d in ds :: EmptyAt(pos, d.refs)
    {
      assert t in DraftRefs(ds);
      var d :| d in ds && d.refs == t;
    }
    forall d | d in ds ensures EmptyAt(pos, d.refs) in Sem(w, p, pos, refs) {
      assert d.refs in Terms(UnlessRegion(refs, s, p.shared));
    }
    BlankFound(mode, start, ds, Sem(w, p, pos, refs));
    UnlessKeeps(w, p, pos, refs, ds);
    forall h: Graph | Alike(w.graph, h, obs) && Comparable(p, pos, w.graph, h, AtOrigin(start))
      ensures Sem(w, p, pos, refs) == Sem(World(h, w.cached), p, pos, refs)
    {
      assert Comparable(op, pos, w.graph, h, AtOrigin(start));
      assert s == Sem(World(h, w.cached), op, pos, refs);
    }
  }

  lemma UnlessKeeps(w: World, p: Plan, pos: Position, refs: Refs, ds: seq<Draft>)
    requires p.PUnless? && forall d :: d in ds ==> EmptyAt(pos, d.refs) in Sem(w, p, pos, refs)
    ensures KeepsRefs(p, refs, ds)
  {
    MatchesRespect(w, p, pos, refs, SetNames(refs));
    if Changed(p, SetNames(refs)) == {} {
      forall d | d in ds ensures d.refs == refs {
        assert Respects(refs, EmptyAt(pos, d.refs).refs, Bound(p, SetNames(refs)), {});
      }
    }
  }

  lemma SkipGood(mode: Mode, w: World, op: Plan, start: Start, es: seq<Draft>, ds: seq<Draft>, obs: set<Observable>)
    requires Good(NoContents(mode), w, op, start, es, obs)
    requires |ds| == |es| && forall i :: 0 <= i < |es| ==> ds[i] == es[i].(vertices := [], edges := [])
    ensures Good(mode, w, PSkip(op), start, ds, obs)
  {
    var pos, refs, p := start.position, start.refs, PSkip(op);
    SkipFound(mode, Sem(w, op, pos, refs), es, ds);
    SkipStarts(start, op, es, ds);
    SkipMeans(w, op, pos, refs);
    hide Found, KeepsRefs, StartsOk;
    SufficesForFewer(mode, w, obs, op, pos, refs, AtOrigin(start));
    forall x: World
      ensures Sem(x, p, pos, refs) == Stripped(Sem(x, op, pos, refs)) &&
          (Sem(x, p, pos, refs) == {} <==> Sem(x, op, pos, refs) == {})
    {
      SkipMeans(x, op, pos, refs);
    }
    hide Suffices, Stripped, Sem;
    UnarySuffices(mode, w, obs, p, op, pos, refs, AtOrigin(start));
  }

  lemma SkipMeans(w: World, op: Plan, pos: Position, refs: Refs)
    ensures Sem(w, PSkip(op), pos, refs) == Stripped(Sem(w, op, pos, refs))
    ensures Sem(w, PSkip(op), pos, refs) == {} <==> Sem(w, op, pos, refs) == {}
  {
    var s, t := Sem(w, op, pos, refs), Sem(w, PSkip(op), pos, refs);
    assert t == set b | b in s :: Body(Content(b.content.ends, {}, {}), b.refs);
    hide Sem;
    ViewEmpty(RefsOnly, s);
  }

  lemma SkipFound(mode: Mode, s: set<Body>, es: seq<Draft>, ds: seq<Draft>)
    requires Found(NoContents(mode), s, es)
    requires |ds| == |es| && forall i :: 0 <= i < |es| ==> ds[i] == es[i].(vertices := [], edges := [])
    ensures Found(mode, Stripped(s), ds)
  {
    SkippedBodies(es, ds);
    ViewEmpty(RefsOnly, s);
    StrippedTwice(s);
  }

  lemma SkipStarts(start: Start, op: Plan, es: seq<Draft>, ds: seq<Draft>)
    requires StartsOk(start, es) && KeepsRefs(op, start.refs, es)
    requires |ds| == |es| && forall i :: 0 <= i < |es| ==> ds[i] == es[i].(vertices := [], edges := [])
    ensures StartsOk(start, ds) && KeepsRefs(PSkip(op), start.refs, ds)
  {
    assert Changed(PSkip(op), SetNames(start.refs)) == Changed(op, SetNames(start.refs));
    hide Changed, SetNames;
    forall i | 0 <= i < |ds| ensures ds[i].start == es[i].start && ds[i].refs == es[i].refs && es[i] in es {}
  }

  lemma StrippedTwice(s: set<Body>)
    ensures Stripped(Stripped(s)) == Stripped(s)
  {
    forall b | b in s ensures Strip(Strip(b)) == Strip(b) {}
    forall b | b in Stripped(s) ensures b in Stripped(Stripped(s)) {
      var c :| c in s && b == Strip(c);
      assert Strip(b) == b;
    }
  }

  lemma SkippedBodies(es: seq<Draft>, ds: seq<Draft>)
    requires |ds| == |es| && forall i :: 0 <= i < |es| ==> ds[i] == es[i].(vertices := [], edges := [])
    ensures Bodies(ds) == Stripped(Bodies(es))
  {
    forall i | 0 <= i < |es| ensures BodyOf(ds[i]) == Strip(BodyOf(es[i])) {
      ElemsEmpty(ds[i].vertices);
      ElemsEmpty(ds[i].edges);
    }
    forall b | b in Bodies(ds) ensures b in Stripped(Bodies(es)) {
      var d :| d in ds && BodyOf(d) == b;
      var i :| 0 <= i < |ds| && ds[i] == d;
      assert es[i] in es && BodyOf(es[i]) in Bodies(es);
    }
    forall b | b in Stripped(Bodies(es)) ensures b in Bodies(ds) {
      var c :| c in Bodies(es) && Strip(c) == b;
      var e :| e in es && BodyOf(e) == c;
      var i :| 0 <= i < |es| && es[i] == e;
      assert ds[i] in ds;
    }
  }

  lemma MaybeGood(mode: Mode, w: World, op: Plan, start: Start, es: seq<Draft>, ds: seq<Draft>, obs: set<Observable>)
    requires Good(mode, w, op, start, es, obs)
    requires es != [] ==> ds == es
    requires es == [] ==> Blank(start, ds) && |ds| == 1 && ds[0].refs == start.refs
    ensures Good(mode, w, PMaybe(op), start, ds, obs)
  {
    hide Suffices, Found;
    var pos, refs, p := start.position, start.refs, PMaybe(op);
    var s := Sem(w, op, pos, refs);
    FoundEmpty(mode, s, es);
    if es == [] {
      assert ds[0] in ds && forall d :: d in ds ==> d == ds[0];
      BlankFound(mode, start, ds, Sem(w, p, pos, refs));
    }
    UnarySuffices(mode, w, obs, p, op, pos, refs, AtOrigin(start));
  }

  // Matched in place.
  lemma InPlaceGood(mode: Mode, w: World, p: Plan, start: Start, ds: seq<Draft>, obs: set<Observable>)
    requires p.PNested? && !w.cached && Good(mode, w, p.plan, start, ds, obs)
    ensures Good(mode, w, p, start, ds, obs)
  {
    var pos, refs := start.position, start.refs;
    assert forall x: World :: !x.cached ==> Sem(x, p, pos, refs) == Sem(x, p.plan, pos, refs);
    forall h: Graph | Alike(w.graph, h, obs) && Comparable(p, pos, w.graph, h, AtOrigin(start))
      ensures Unchanged(mode, Sem(w, p, pos, refs), Sem(World(h, w.cached), p, pos, refs))
    {
      assert Comparable(p.plan, pos, w.graph, h, AtOrigin(start));
    }
    TrackingIsMonotone(p.plan, SetNames(refs) * p.names, SetNames(refs));
  }

  ghost function StartOf(p: Plan, pos: Position, refs: Refs): NestedStart
    requires p.PNested?
  {
    NestedStart(p.names, p.plan, pos, Restrict(refs, p.names))
  }

  // The drafts are the cached subgraphs, or some of them if that's enough.
  ghost predicate FromCacheFound(mode: Mode, refs: Refs, s: set<Body>, ds: seq<Draft>) {
    if mode.First? then
      (ds == [] <==> FromCache(refs, s) == {}) &&
          (forall d :: d in ds ==> exists b :: b in FromCache(refs, s) && b.refs == d.refs)
    else Bodies(ds) == View(mode, FromCache(refs, s))
  }

  lemma CachedGood(mode: Mode, w: World, p: Plan, start: Start, ds: seq<Draft>)
    requires p.PNested? && w.cached && StartsOk(start, ds)
    requires FromCacheFound(mode, start.refs, NestedSem(w.graph, StartOf(p, start.position, start.refs)), ds)
    ensures Good(mode, w, p, start, ds, {NestedSubgraph(StartOf(p, start.position, start.refs))})
  {
    var pos, refs := start.position, start.refs;
    var n := StartOf(p, pos, refs);
    var obs := {NestedSubgraph(n)};
    assert Sem(w, p, pos, refs) == FromCache(refs, NestedSem(w.graph, n));
    forall h: Graph | Alike(w.graph, h, obs) ensures Sem(World(h, true), p, pos, refs) == Sem(w, p, pos, refs) {
      assert Same(w.graph, h, NestedSubgraph(n));
      assert Sem(World(h, true), p, pos, refs) == FromCache(refs, NestedSem(h, n));
    }
    MatchesRespect(w, p, pos, refs, SetNames(refs));
    if Changed(p, SetNames(refs)) == {} {
      forall d | d in ds ensures d.refs == refs {
        if !mode.First? { assert BodyOf(d) in View(mode, FromCache(refs, NestedSem(w.graph, n))); }
        var b :| b in FromCache(refs, NestedSem(w.graph, n)) && b.refs == d.refs;
        assert Respects(refs, b.refs, Bound(p, SetNames(refs)), {});
      }
    }
  }
}
