/** What each operator of a pattern matches. */
module Operators {
  // In terms of vertices, edges and assignments only; the matcher's own notions are those of Semantics.

  import opened Base
  import opened RefsAlgebra
  import opened Plans
  import opened Semantics
  import opened Unfolding
  import opened Expressions
  import opened Planning

  // The subgraphs of the expression that begin at the position, given the refs.
  ghost function Matches(g: Graph, e: Expr, pos: Position, refs: Refs): set<Body> {
    Sem(World(g, false), Naive(e), pos, refs)
  }

  ghost predicate HasAll(b: Body, end: Position, vertices: set<VertexID>, edges: set<Edge>, refs: Refs) {
    b.content.ends == {end} && b.content.vertices == vertices && b.content.edges == edges && b.refs == refs
  }

  // --------------------------------------------------------------------------
  // Vertices
  // --------------------------------------------------------------------------

  // The refs are those assignments in which the ref is the vertex, of which there are some.
  ghost predicate SetsTo(refs: Refs, x: RefName, v: VertexID, r: Refs) {
    (exists s: Assignment :: Sat(refs, s) && s(x) == v) &&
    forall s: Assignment :: Sat(r, s) <==> Sat(refs, s) && s(x) == v
  }

  lemma BindSets(refs: Refs, x: RefName, v: VertexID, r: Refs)
    ensures BindRef(refs, x, v) == Some(r) <==> SetsTo(refs, x, v, r)
  {
    if BindRef(refs, x, v).Some? {
      var q := BindRef(refs, x, v).value;
      BoundTo(refs, x, v);
      if SetsTo(refs, x, v, r) {
        RefsAreCanonical(q, r);
      }
    } else {
      forall s: Assignment | Sat(refs, s) ensures s(x) != v {
        if IsSet(refs, x) {
          assert Holds(Literal(x, false, ValueOf(refs, x)), s);
        } else {
          assert Holds(Literal(x, true, v), s);
        }
      }
    }
  }

  lemma BoundTo(refs: Refs, x: RefName, v: VertexID)
    requires BindRef(refs, x, v).Some?
    ensures SetsTo(refs, x, v, BindRef(refs, x, v).value)
  {
    var q := BindRef(refs, x, v).value;
    var l := Literal(x, false, v);
    assert l in q;
    forall s: Assignment ensures Sat(q, s) <==> Sat(refs, s) && s(x) == v {
      if Sat(q, s) {
        assert Holds(l, s);
        forall m | m in refs ensures Holds(m, s) {
          if m !in q { assert m.name == x && m.negative && m.value != v; }
        }
      }
    }
    PointIsInside(q, {});
    assert Holds(l, Point(q, {}));
  }

  // Exactly one subgraph, if the vertex is present, is of the type, is the placeholder, and may be what the ref is.
  lemma VertexMatches(g: Graph, t: Option<TypeName>, ref: Option<RefName>, placeholder: Option<VertexID>, pos: Position,
      refs: Refs, b: Body)
    ensures b in Matches(g, VertexExpr(t, ref, placeholder), pos, refs) <==>
      (pos.kind == CORE && pos.v in g.vertices && (t.None? || pos.v.typeName == t.value) &&
      (placeholder.None? || pos.v == placeholder.value) &&
      HasAll(b, Position(pos.v, ORBIT), {pos.v}, {}, b.refs) &&
      if ref.None? then b.refs == refs else SetsTo(refs, ref.value, pos.v, b.refs))
  {
    var m := MatchVertex(t, ref, None, placeholder);
    var s, matched := Matches(g, VertexExpr(t, ref, placeholder), pos, refs), VertexMatch(g, m, pos, refs);
    if ref.Some? { BindSets(refs, ref.value, pos.v, b.refs); }
    assert s == SemSteps(g, [VertexStep(m)], pos, refs) && [VertexStep(m)][1..] == [];
    hide BindRef, SetsTo, Matches;
    if matched.Some? {
      var end := Position(pos.v, ORBIT);
      var one := Join(Body(Content({}, {pos.v}, {}), refs), EmptyAt(end, matched.value));
      assert SemSteps(g, [], end, matched.value) == {EmptyAt(end, matched.value)};
      assert s == {one};
      assert HasAll(one, end, {pos.v}, {}, matched.value);
      assert b == one <==> HasAll(b, end, {pos.v}, {}, matched.value);
    } else {
      assert s == {};
    }
  }

  // --------------------------------------------------------------------------
  // Edges
  // --------------------------------------------------------------------------

  // There is such an edge to the other vertex. No list of labels stands for any label.
  ghost predicate GoesTo(g: Graph, v: VertexID, labels: Labels, w: VertexID, l: Label) {
    Edge(v, l, w) in g.edges && (labels.None? || l in labels.value)
  }

  ghost predicate ComesFrom(g: Graph, v: VertexID, labels: Labels, w: VertexID, l: Label) {
    Edge(w, l, v) in g.edges && (labels.None? || l in labels.value)
  }

  ghost predicate LeadsTo(g: Graph, direction: Direction, forward: Labels, backward: Labels, v: VertexID, w: VertexID,
      es: set<Edge>) {
    match direction
    case Forward => exists l :: GoesTo(g, v, forward, w, l) && es == {Edge(v, l, w)}
    case Backward => exists l :: ComesFrom(g, v, backward, w, l) && es == {Edge(w, l, v)}
    case AnyDirection =>
      (exists l :: GoesTo(g, v, forward, w, l) && es == {Edge(v, l, w)}) ||
      exists l :: ComesFrom(g, v, backward, w, l) && es == {Edge(w, l, v)}
    case Both =>
      exists l, k ::
        GoesTo(g, v, forward, w, l) && ComesFrom(g, v, backward, w, k) && es == {Edge(v, l, w), Edge(w, k, v)}
    case BothSymmetric =>
      exists l ::
        GoesTo(g, v, forward, w, l) && ComesFrom(g, v, backward, w, l) && es == {Edge(v, l, w), Edge(w, l, v)}
  }

  lemma HopGoes(g: Graph, v: VertexID, labels: Labels, hop: Hop)
    ensures hop in (set e | e in Outgoing(g, v, labels) :: Hop({e}, e.to)) <==>
      exists l :: GoesTo(g, v, labels, hop.to, l) && hop.edges == {Edge(v, l, hop.to)}
  {
    if hop in (set e | e in Outgoing(g, v, labels) :: Hop({e}, e.to)) {
      var e :| e in Outgoing(g, v, labels) && hop == Hop({e}, e.to);
      assert e == Edge(v, e.lab, hop.to) && GoesTo(g, v, labels, hop.to, e.lab);
    }
    if l :| GoesTo(g, v, labels, hop.to, l) && hop.edges == {Edge(v, l, hop.to)} {
      var e := Edge(v, l, hop.to);
      assert e in Outgoing(g, v, labels) && hop == Hop({e}, e.to);
    }
  }

  lemma HopComes(g: Graph, v: VertexID, labels: Labels, hop: Hop)
    ensures hop in (set e | e in Incoming(g, v, labels) :: Hop({e}, e.from)) <==>
      exists l :: ComesFrom(g, v, labels, hop.to, l) && hop.edges == {Edge(hop.to, l, v)}
  {
    if hop in (set e | e in Incoming(g, v, labels) :: Hop({e}, e.from)) {
      var e :| e in Incoming(g, v, labels) && hop == Hop({e}, e.from);
      assert e == Edge(hop.to, e.lab, v) && ComesFrom(g, v, labels, hop.to, e.lab);
    }
    if l :| ComesFrom(g, v, labels, hop.to, l) && hop.edges == {Edge(hop.to, l, v)} {
      var e := Edge(hop.to, l, v);
      assert e in Incoming(g, v, labels) && hop == Hop({e}, e.from);
    }
  }

  lemma HopBoth(g: Graph, v: VertexID, forward: Labels, backward: Labels, hop: Hop)
    ensures hop in HopsFrom(g, MatchEdge(Both, forward, backward), v) <==>
      LeadsTo(g, Both, forward, backward, v, hop.to, hop.edges)
  {
    var w := hop.to;
    if hop in HopsFrom(g, MatchEdge(Both, forward, backward), v) {
      var e, f :| e in Outgoing(g, v, forward) && f in Incoming(g, v, backward) && f.from == e.to &&
        hop == Hop({e, f}, e.to);
      assert e == Edge(v, e.lab, w) && GoesTo(g, v, forward, w, e.lab);
      assert f == Edge(w, f.lab, v) && ComesFrom(g, v, backward, w, f.lab);
    }
    if LeadsTo(g, Both, forward, backward, v, w, hop.edges) {
      var l, k :|
        GoesTo(g, v, forward, w, l) && ComesFrom(g, v, backward, w, k) && hop.edges == {Edge(v, l, w), Edge(w, k, v)};
      var e, f := Edge(v, l, w), Edge(w, k, v);
      assert e in Outgoing(g, v, forward) && f in Incoming(g, v, backward) && hop == Hop({e, f}, e.to);
    }
  }

  lemma HopSymmetric(g: Graph, v: VertexID, forward: Labels, backward: Labels, hop: Hop)
    ensures hop in HopsFrom(g, MatchEdge(BothSymmetric, forward, backward), v) <==>
      LeadsTo(g, BothSymmetric, forward, backward, v, hop.to, hop.edges)
  {
    var w := hop.to;
    if hop in HopsFrom(g, MatchEdge(BothSymmetric, forward, backward), v) {
      var e :| e in Outgoing(g, v, forward) && e.Reverse() in Incoming(g, v, backward) &&
        hop == Hop({e, e.Reverse()}, e.to);
      assert e == Edge(v, e.lab, w) && GoesTo(g, v, forward, w, e.lab);
      assert e.Reverse() == Edge(w, e.lab, v) && ComesFrom(g, v, backward, w, e.lab);
    }
    if LeadsTo(g, BothSymmetric, forward, backward, v, w, hop.edges) {
      var l :|
        GoesTo(g, v, forward, w, l) && ComesFrom(g, v, backward, w, l) && hop.edges == {Edge(v, l, w), Edge(w, l, v)};
      var e := Edge(v, l, w);
      assert e in Outgoing(g, v, forward) && e.Reverse() in Incoming(g, v, backward);
      assert hop == Hop({e, e.Reverse()}, e.to);
    }
  }

  lemma HopLeads(g: Graph, m: MatchEdge, v: VertexID, hop: Hop)
    ensures hop in HopsFrom(g, m, v) <==> LeadsTo(g, m.direction, m.forward, m.backward, v, hop.to, hop.edges)
  {
    hide GoesTo, ComesFrom, Outgoing, Incoming;
    match m.direction
    case Forward => HopGoes(g, v, m.forward, hop);
    case Backward => HopComes(g, v, m.backward, hop);
    case AnyDirection =>
      HopGoes(g, v, m.forward, hop);
      HopComes(g, v, m.backward, hop);
    case Both => HopBoth(g, v, m.forward, m.backward, hop);
    case BothSymmetric => HopSymmetric(g, v, m.forward, m.backward, hop);
  }

  // Exactly one subgraph for each edge, or pair of edges, that leads on from the vertex.
  lemma EdgeMatches(g: Graph, direction: Direction, forward: Labels, backward: Labels, pos: Position, refs: Refs,
      b: Body)
    ensures b in Matches(g, EdgeExpr(direction, forward, backward), pos, refs) <==>
      (pos.kind == ORBIT && exists w, es ::
        LeadsTo(g, direction, forward, backward, pos.v, w, es) && HasAll(b, Position(w, CORE), {}, es, refs))
  {
    var m := MatchEdge(direction, forward, backward);
    forall hop ensures hop in HopsFrom(g, m, pos.v) <==>
        LeadsTo(g, direction, forward, backward, pos.v, hop.to, hop.edges)
    {
      HopLeads(g, m, pos.v, hop);
    }
    assert [EdgeStep(m)][1..] == [];
    hide LeadsTo, HopsFrom;
    if b in Matches(g, EdgeExpr(direction, forward, backward), pos, refs) {
      var hop, t :| hop in Hops(g, m, pos) && t in SemSteps(g, [], Position(hop.to, CORE), refs) &&
        b == Join(Body(Content({}, {}, hop.edges), refs), t);
      assert HasAll(b, Position(hop.to, CORE), {}, hop.edges, refs);
    }
    if pos.kind == ORBIT {
      if w, es :| LeadsTo(g, direction, forward, backward, pos.v, w, es) && HasAll(b, Position(w, CORE), {}, es, refs) {
        var hop, t := Hop(es, w), EmptyAt(Position(w, CORE), refs);
        assert hop in Hops(g, m, pos) && t in SemSteps(g, [], Position(w, CORE), refs);
        assert b == Join(Body(Content({}, {}, hop.edges), refs), t);
      }
    }
  }

  // --------------------------------------------------------------------------
  // Alternatives and single operands
  // --------------------------------------------------------------------------

  lemma NoopMatches(g: Graph, pos: Position, refs: Refs, b: Body)
    ensures b in Matches(g, NoopExpr, pos, refs) <==> HasAll(b, pos, {}, {}, refs)
  {
    assert Matches(g, NoopExpr, pos, refs) == {EmptyAt(pos, refs)};
  }

  lemma OrMatches(g: Graph, ops: seq<Expr>, pos: Position, refs: Refs, b: Body)
    ensures b in Matches(g, OrExpr(ops), pos, refs) <==>
      exists i :: 0 <= i < |ops| && b in Matches(g, ops[i], pos, refs)
  {
    var ss := SemEach(World(g, false), NaiveEach(ops), pos, refs);
    assert Matches(g, OrExpr(ops), pos, refs) == Union(ss);
    EachMatches(g, ops, pos, refs);
  }

  lemma EachMatches(g: Graph, ops: seq<Expr>, pos: Position, refs: Refs)
    ensures var ss := SemEach(World(g, false), NaiveEach(ops), pos, refs);
      |ss| == |ops| && forall i :: 0 <= i < |ops| ==> ss[i] == Matches(g, ops[i], pos, refs)
  {
    forall i | 0 <= i < |ops|
      ensures SemEach(World(g, false), NaiveEach(ops), pos, refs)[i] == Matches(g, ops[i], pos, refs)
    {
      SemEachAt(World(g, false), NaiveEach(ops), pos, refs, i);
    }
  }

  // Stays where it is, for each of the refs that the operand matches with.
  lemma IfMatches(g: Graph, e: Expr, pos: Position, refs: Refs, b: Body)
    ensures b in Matches(g, OperationExpr(If, e), pos, refs) <==>
      exists m :: m in Matches(g, e, pos, refs) && HasAll(b, pos, {}, {}, m.refs)
  {
    var s := Matches(g, e, pos, refs);
    assert Matches(g, OperationExpr(If, e), pos, refs) == set m | m in s :: EmptyAt(pos, m.refs);
    hide Matches;
    if m :| m in s && HasAll(b, pos, {}, {}, m.refs) { assert b == EmptyAt(pos, m.refs); }
  }

  // Goes where the operand goes, but shows nothing of it.
  lemma SkipMatches(g: Graph, e: Expr, pos: Position, refs: Refs, b: Body)
    ensures b in Matches(g, OperationExpr(Skip, e), pos, refs) <==>
      exists m :: m in Matches(g, e, pos, refs) && b.content.ends == m.content.ends && b.content.vertices == {} &&
          b.content.edges == {} && b.refs == m.refs
  {
    var s := Matches(g, e, pos, refs);
    assert Matches(g, OperationExpr(Skip, e), pos, refs) ==
        set m | m in s :: Body(Content(m.content.ends, {}, {}), m.refs);
    hide Matches;
    forall m | m in s
      ensures b == Body(Content(m.content.ends, {}, {}), m.refs) <==>
          b.content.ends == m.content.ends && b.content.vertices == {} && b.content.edges == {} && b.refs == m.refs
    {}
  }

  // Matches what the operand does, and nothing in particular only where it doesn't match.
  lemma MaybeMatches(g: Graph, e: Expr, pos: Position, refs: Refs, b: Body)
    ensures b in Matches(g, OperationExpr(Maybe, e), pos, refs) <==>
      b in Matches(g, e, pos, refs) || (Matches(g, e, pos, refs) == {} && HasAll(b, pos, {}, {}, refs))
  {
    var s := Matches(g, e, pos, refs);
    assert Matches(g, OperationExpr(Maybe, e), pos, refs) == if s == {} then {EmptyAt(pos, refs)} else s;
  }

  // --------------------------------------------------------------------------
  // One after another
  // --------------------------------------------------------------------------

  // The match begins where another one ends, with its refs.
  ghost predicate Continues(g: Graph, e: Expr, m: Body, n: Body) {
    exists q :: q in m.content.ends && n in Matches(g, e, q, m.refs)
  }

  // Matches of the expressions, each of which continues the one before it.
  ghost predicate Follow(g: Graph, es: seq<Expr>, pos: Position, refs: Refs, ms: seq<Body>) {
    ms != [] && |ms| == |es| && ms[0] in Matches(g, es[0], pos, refs) &&
    forall i :: 1 <= i < |ms| ==> Continues(g, es[i], ms[i - 1], ms[i])
  }

  // The vertices and edges of all of them; it ends as the last one does.
  ghost predicate Combines(ms: seq<Body>, b: Body) {
    ms != [] && b.content.ends == ms[|ms| - 1].content.ends && b.refs == ms[|ms| - 1].refs &&
    (forall v :: v in b.content.vertices <==> HasVertex(ms, v)) && forall e :: e in b.content.edges <==> HasEdge(ms, e)
  }

  ghost predicate HasVertex(ms: seq<Body>, v: VertexID) { exists i :: 0 <= i < |ms| && v in ms[i].content.vertices }

  ghost predicate HasEdge(ms: seq<Body>, e: Edge) { exists i :: 0 <= i < |ms| && e in ms[i].content.edges }

  lemma CombinesOne(m: Body, b: Body)
    ensures Combines([m], b) <==> b == m
  {
    assert [m][0] == m;
    assert forall v :: HasVertex([m], v) <==> v in m.content.vertices;
    assert forall e :: HasEdge([m], e) <==> e in m.content.edges;
    hide HasVertex, HasEdge;
    if Combines([m], b) {
      assert b.content.vertices == m.content.vertices && b.content.edges == m.content.edges;
    }
  }

  // The first two may be joined.
  lemma CombinesJoined(h: Body, t: Body, ms: seq<Body>, b: Body)
    ensures Combines([h, t] + ms, b) <==> Combines([Join(h, t)] + ms, b)
  {
    var all, joined := [h, t] + ms, [Join(h, t)] + ms;
    assert forall i :: 1 <= i < |joined| ==> joined[i] == all[i + 1];
    assert forall i :: 2 <= i < |all| ==> all[i] == joined[i - 1];
    assert all[0] == h && all[1] == t && joined[0] == Join(h, t);
    forall v ensures HasVertex(all, v) <==> HasVertex(joined, v) {}
    forall e ensures HasEdge(all, e) <==> HasEdge(joined, e) {}
  }

  // Of matches that continue one another, exactly the combined ones.
  lemma ConcatenationMatches(g: Graph, es: seq<Expr>, pos: Position, refs: Refs, b: Body)
    requires es != []
    ensures b in Matches(g, ConcatenationExpr(es), pos, refs) <==>
      exists ms :: Follow(g, es, pos, refs, ms) && Combines(ms, b)
  {
    ConcatFollows(g, es, pos, refs, b);
    assert Naive(ConcatenationExpr(es)) == PConcatenation(NaiveEach(es));
  }

  lemma {:induction false} ConcatFollows(g: Graph, es: seq<Expr>, pos: Position, refs: Refs, b: Body)
    requires es != []
    ensures b in SemConcat(World(g, false), NaiveEach(es), pos, refs) <==>
      exists ms :: Follow(g, es, pos, refs, ms) && Combines(ms, b)
    decreases |es|
  {
    var w, ns := World(g, false), NaiveEach(es);
    ConcatUnfold(w, ns, pos, refs);
    hide SemConcat, Combines;
    if |es| == 1 {
      OneFollows(g, es, pos, refs, b);
    } else {
      assert ns[1..] == NaiveEach(es[1..]);
      if b in SemConcat(w, ns, pos, refs) {
        var h, q, t :| h in Matches(g, es[0], pos, refs) && q in h.content.ends &&
          t in SemConcat(w, ns[1..], q, h.refs) && b == Join(h, t);
        ConcatFollows(g, es[1..], q, h.refs, t);
        var ms :| Follow(g, es[1..], q, h.refs, ms) && Combines(ms, t);
        FollowsFirst(g, es, pos, refs, h, q, ms);
        CombinesAfter(h, ms, t);
      }
      if ms: seq<Body> :| Follow(g, es, pos, refs, ms) && Combines(ms, b) {
        var q := FollowsFrom(g, es, pos, refs, ms);
        var t := CombinesRest(ms, b);
        ConcatFollows(g, es[1..], q, ms[0].refs, t);
      }
    }
  }

  lemma OneFollows(g: Graph, es: seq<Expr>, pos: Position, refs: Refs, b: Body)
    requires |es| == 1
    ensures b in Matches(g, es[0], pos, refs) <==> exists ms :: Follow(g, es, pos, refs, ms) && Combines(ms, b)
  {
    CombinesOne(b, b);
    hide Matches, Combines;
    if b in Matches(g, es[0], pos, refs) { assert Follow(g, es, pos, refs, [b]); }
    if ms :| Follow(g, es, pos, refs, ms) && Combines(ms, b) {
      assert ms == [ms[0]];
      CombinesOne(ms[0], b);
    }
  }

  lemma FollowsFirst(g: Graph, es: seq<Expr>, pos: Position, refs: Refs, h: Body, q: Position, ms: seq<Body>)
    requires |es| > 1 && h in Matches(g, es[0], pos, refs) && q in h.content.ends && Follow(g, es[1..], q, h.refs, ms)
    ensures Follow(g, es, pos, refs, [h] + ms)
  {
    hide Matches;
    var all := [h] + ms;
    forall i | 1 <= i < |all| ensures Continues(g, es[i], all[i - 1], all[i]) {
      if i > 1 { assert Continues(g, es[1..][i - 1], ms[i - 2], ms[i - 1]); }
    }
  }

  lemma FollowsFrom(g: Graph, es: seq<Expr>, pos: Position, refs: Refs, ms: seq<Body>) returns (q: Position)
    requires |es| > 1 && Follow(g, es, pos, refs, ms)
    ensures q in ms[0].content.ends && Follow(g, es[1..], q, ms[0].refs, ms[1..])
  {
    hide Matches;
    assert Continues(g, es[1], ms[0], ms[1]);
    q :| q in ms[0].content.ends && ms[1] in Matches(g, es[1], q, ms[0].refs);
    forall i | 1 <= i < |ms[1..]| ensures Continues(g, es[1..][i], ms[1..][i - 1], ms[1..][i]) {
      assert Continues(g, es[i + 1], ms[i + 1 - 1], ms[i + 1]);
    }
  }

  lemma CombinesAfter(h: Body, ms: seq<Body>, t: Body)
    requires Combines(ms, t)
    ensures Combines([h] + ms, Join(h, t))
  {
    var all, b := [h] + ms, Join(h, t);
    assert all[0] == h && forall i :: 1 <= i < |all| ==> all[i] == ms[i - 1];
    forall v ensures v in b.content.vertices <==> HasVertex(all, v) {
      if i :| 0 <= i < |ms| && v in ms[i].content.vertices { assert all[i + 1] == ms[i]; }
    }
    forall e ensures e in b.content.edges <==> HasEdge(all, e) {
      if i :| 0 <= i < |ms| && e in ms[i].content.edges { assert all[i + 1] == ms[i]; }
    }
  }

  lemma {:induction false} Combined(ms: seq<Body>) returns (b: Body)
    requires ms != []
    ensures Combines(ms, b)
  {
    if |ms| == 1 {
      b := ms[0];
      assert ms == [b];
      CombinesOne(b, b);
    } else {
      var t := Combined(ms[1..]);
      CombinesAfter(ms[0], ms[1..], t);
      assert ms == [ms[0]] + ms[1..];
      b := Join(ms[0], t);
    }
  }

  lemma CombinedIsUnique(ms: seq<Body>, a: Body, b: Body)
    requires Combines(ms, a) && Combines(ms, b)
    ensures a == b
  {
    assert a.content.vertices == b.content.vertices && a.content.edges == b.content.edges;
  }

  lemma CombinesRest(ms: seq<Body>, b: Body) returns (t: Body)
    requires |ms| > 1 && Combines(ms, b)
    ensures Combines(ms[1..], t) && b == Join(ms[0], t)
  {
    t := Combined(ms[1..]);
    CombinesAfter(ms[0], ms[1..], t);
    assert ms == [ms[0]] + ms[1..];
    CombinedIsUnique(ms, b, Join(ms[0], t));
  }

  // --------------------------------------------------------------------------
  // Repetition
  // --------------------------------------------------------------------------

  // Each match after the first one continues the one before it.
  ghost predicate Chain(g: Graph, e: Expr, ms: seq<Body>) {
    ms != [] && forall i :: 1 <= i < |ms| ==> Continues(g, e, ms[i - 1], ms[i])
  }

  // There is no match at any end.
  ghost predicate NoneContinues(g: Graph, e: Expr, b: Body) {
    forall q :: q in b.content.ends ==> Matches(g, e, q, b.refs) == {}
  }

  // Beginning with nothing at the position, exactly the combined chains of an allowed length that are as long as
  // allowed or that nothing continues.
  lemma RepetitionMatches(g: Graph, e: Expr, min: nat, max: nat, pos: Position, refs: Refs, b: Body)
    ensures b in Matches(g, RepetitionExpr(min, max, e), pos, refs) <==>
      exists ms ::
        Chain(g, e, ms) && HasAll(ms[0], pos, {}, {}, refs) && min <= |ms| - 1 <= max && Combines(ms, b) &&
        (|ms| - 1 == max || NoneContinues(g, e, b))
  {
    var chain := EmptyAt(pos, refs);
    assert forall m :: HasAll(m, pos, {}, {}, refs) <==> m == chain;
    RepeatChains(g, e, min, max, 0, chain, b);
    assert Matches(g, RepetitionExpr(min, max, e), pos, refs) ==
        SemRepeat(World(g, false), Naive(e), min, max, 0, chain);
    hide Matches, Combines, Chain, NoneContinues, HasAll;
    if b in Matches(g, RepetitionExpr(min, max, e), pos, refs) {
      var ms :| IsRepeat(g, e, min, max, 0, chain, ms, b);
    }
    forall ms | Chain(g, e, ms)
      ensures IsRepeat(g, e, min, max, 0, chain, ms, b) <==>
        HasAll(ms[0], pos, {}, {}, refs) && min <= |ms| - 1 <= max && Combines(ms, b) &&
        (|ms| - 1 == max || NoneContinues(g, e, b))
    {}
  }

  ghost predicate IsRepeat(g: Graph, e: Expr, min: nat, max: nat, k: nat, chain: Body, ms: seq<Body>, b: Body) {
    Chain(g, e, ms) && ms[0] == chain && min <= k + |ms| - 1 <= max && Combines(ms, b) &&
    (k + |ms| - 1 == max || NoneContinues(g, e, b))
  }

  lemma {:induction false} RepeatChains(g: Graph, e: Expr, min: nat, max: nat, k: nat, chain: Body, b: Body)
    requires k <= max
    ensures b in SemRepeat(World(g, false), Naive(e), min, max, k, chain) <==>
      exists ms :: IsRepeat(g, e, min, max, k, chain, ms, b)
    decreases max - k
  {
    var w, n := World(g, false), Naive(e);
    var next := Continued(w, n, max, k, chain);
    if k < max {
      ContinuedUnfold(w, n, max, k, chain);
      NoneIsLinked(g, e, chain);
    }
    if next == {} {
      RepeatEnds(g, e, min, max, k, chain, b);
    } else {
      RepeatUnfold(w, n, min, max, k, chain);
      var more := k + 1;
      forall c | c in next
        ensures b in SemRepeat(w, n, min, max, more, c) <==> exists ms :: IsRepeat(g, e, min, max, more, c, ms, b)
      {
        RepeatChains(g, e, min, max, more, c, b);
      }
      RepeatGoesOn(g, e, min, max, k, more, chain, b);
    }
  }

  lemma NoneIsLinked(g: Graph, e: Expr, chain: Body)
    ensures LinksFrom(World(g, false), Naive(e), chain) == {} <==> NoneContinues(g, e, chain)
  {
    var w, n := World(g, false), Naive(e);
    if q, t :| q in chain.content.ends && t in Matches(g, e, q, chain.refs) {
      assert Join(chain, t) in LinksFrom(w, n, chain);
    }
  }

  lemma RepeatEnds(g: Graph, e: Expr, min: nat, max: nat, k: nat, chain: Body, b: Body)
    requires k <= max && Continued(World(g, false), Naive(e), max, k, chain) == {}
    requires k < max ==> NoneContinues(g, e, chain)
    ensures b in SemRepeat(World(g, false), Naive(e), min, max, k, chain) <==>
      exists ms :: IsRepeat(g, e, min, max, k, chain, ms, b)
  {
    assert SemRepeat(World(g, false), Naive(e), min, max, k, chain) == if k >= min then {chain} else {};
    CombinesOne(chain, chain);
    hide Matches, Combines, SemRepeat;
    if b == chain && k >= min { assert IsRepeat(g, e, min, max, k, chain, [chain], b); }
    forall ms | Chain(g, e, ms) && |ms| > 1 ensures exists n :: Continues(g, e, ms[0], n) {
      assert Continues(g, e, ms[0], ms[1]);
    }
    if ms :| IsRepeat(g, e, min, max, k, chain, ms, b) {
      if |ms| == 1 {
        assert ms == [chain];
        CombinesOne(chain, b);
      }
    }
  }

  lemma RepeatGoesOn(g: Graph, e: Expr, min: nat, max: nat, k: nat, more: nat, chain: Body, b: Body)
    requires k < max && more == k + 1 && !NoneContinues(g, e, chain)
    ensures (exists ms :: IsRepeat(g, e, min, max, k, chain, ms, b)) <==>
      exists c, ms :: c in LinksFrom(World(g, false), Naive(e), chain) && IsRepeat(g, e, min, max, more, c, ms, b)
  {
    if ms :| IsRepeat(g, e, min, max, k, chain, ms, b) {
      if |ms| > 1 { RepeatJoined(g, e, min, max, k, chain, ms, b); }
    }
    if c, ms :| c in LinksFrom(World(g, false), Naive(e), chain) && IsRepeat(g, e, min, max, more, c, ms, b) {
      var q, t :| q in chain.content.ends && t in Sem(World(g, false), Naive(e), q, chain.refs) && c == Join(chain, t);
      RepeatSplit(g, e, min, max, k, chain, q, t, ms, b);
    }
  }

  lemma RepeatJoined(g: Graph, e: Expr, min: nat, max: nat, k: nat, chain: Body, ms: seq<Body>, b: Body)
    requires IsRepeat(g, e, min, max, k, chain, ms, b) && |ms| > 1
    ensures Join(chain, ms[1]) in LinksFrom(World(g, false), Naive(e), chain)
    ensures IsRepeat(g, e, min, max, k + 1, Join(chain, ms[1]), [Join(chain, ms[1])] + ms[2..], b)
  {
    var t, c := ms[1], Join(chain, ms[1]);
    var rest := [c] + ms[2..];
    assert Continues(g, e, ms[0], ms[1]);
    assert ms == [chain, t] + ms[2..];
    CombinesJoined(chain, t, ms[2..], b);
    hide Matches, Combines, NoneContinues;
    forall i | 1 <= i < |rest| ensures Continues(g, e, rest[i - 1], rest[i]) {
      assert Continues(g, e, ms[i + 1 - 1], ms[i + 1]);
    }
  }

  lemma RepeatSplit(g: Graph, e: Expr, min: nat, max: nat, k: nat, chain: Body, q: Position, t: Body, ms: seq<Body>,
      b: Body)
    requires q in chain.content.ends && t in Matches(g, e, q, chain.refs)
    requires IsRepeat(g, e, min, max, k + 1, Join(chain, t), ms, b)
    ensures IsRepeat(g, e, min, max, k, chain, [chain, t] + ms[1..], b)
  {
    var all := [chain, t] + ms[1..];
    assert ms == [Join(chain, t)] + ms[1..];
    CombinesJoined(chain, t, ms[1..], b);
    hide Matches, Combines, NoneContinues;
    forall i | 1 <= i < |all| ensures Continues(g, e, all[i - 1], all[i]) {
      if i >= 2 { assert Continues(g, e, ms[i - 1 - 1], ms[i - 1]); }
    }
  }
}
