/** Where matches of a pattern may start. */
module StartPositions {
  import opened Base
  import opened Plans
  import opened Semantics
  import opened Dependencies
  import opened Visiting
  import opened Expressions

  // Where matches start: at vertices, or at vertices with certain edges.
  datatype StartShape =
    | AtVertex(typeName: Option<TypeName>)
    | AtEdge(labels: Labels, fromIt: bool, toIt: bool)

  ghost predicate StartsAt(s: StartShape, g: Graph, sp: Position) {
    match s
    case AtVertex(t) => sp.kind.CORE? && sp.v in g.vertices && (t.Some? ==> sp.v.typeName == t.value)
    case AtEdge(labels, fromIt, toIt) => sp.kind.ORBIT? && exists e :: e in g.edges && EdgeStarts(s, e, sp.v)
  }

  ghost predicate EdgeStarts(s: StartShape, e: Edge, v: VertexID)
    requires s.AtEdge?
  {
    HasLabel(s.labels, e.lab) && ((s.fromIt && e.from == v) || (s.toIt && e.to == v))
  }

  function EdgeShape(direction: Direction, forward: Labels, backward: Labels): StartShape {
    match direction
    case Forward => AtEdge(forward, true, false)
    case Backward => AtEdge(backward, false, true)
    case AnyDirection => AtEdge(forward, true, true)
    case _ => if forward.Some? || backward.None? then AtEdge(forward, true, false) else AtEdge(backward, false, true)
  }

  // What added vertices or edges may start matches.
  function DepsOfShape(s: StartShape): set<Dep> {
    match s
    case AtVertex(t) => {Dep(if t.Some? then NewVertexOfType(t.value) else NewVertex, EveryAddedVertex)}
    case AtEdge(labels, _, _) =>
      if labels.None? then {Dep(NewEdge, EveryAddedEdge)}
      else set l | l in labels.value :: Dep(NewEdgeWithLabel(l), EveryAddedEdge)
  }

  // The operand that matches of a concatenation or an intersection start with: the first one that isn't a negation.
  function Leading(ops: seq<Expr>): (i: nat)
    requires ops != []
    ensures i < |ops| && (IsUnless(ops[i]) ==> i == 0 && forall j :: 0 <= j < |ops| ==> IsUnless(ops[j]))
    ensures !IsUnless(ops[i]) ==> forall j :: 0 <= j < i ==> IsUnless(ops[j])
  {
    if !IsUnless(ops[0]) then 0
    else if |ops| == 1 then 0
    else
      var j := Leading(ops[1..]);
      if IsUnless(ops[1..][j]) then 0 else j + 1
  }

  // The shapes of starts of patterns that begin with a vertex that isn't a placeholder, or with an edge.
  ghost function Shapes(e: Expr): Option<set<StartShape>>
    decreases e
  {
    match e
    case VertexExpr(t, _, placeholder) => if placeholder.Some? then None else Some({AtVertex(t)})
    case EdgeExpr(direction, forward, backward) =>
      if direction.AnyDirection? && forward != backward then None else Some({EdgeShape(direction, forward, backward)})
    case NoopExpr => None
    case ConcatenationExpr(ops) => if ops == [] then None else Shapes(ops[Leading(ops)])
    case AndExpr(ops) => if ops == [] then None else Shapes(ops[Leading(ops)])
    case OrExpr(ops) => ShapesOfAll(ops)
    case OperationExpr(operation, op) => if operation.Unless? || operation.Maybe? then None else Shapes(op)
    case RepetitionExpr(min, _, op) => if min == 0 then None else Shapes(op)
  }

  ghost function ShapesOfAll(ops: seq<Expr>): Option<set<StartShape>>
    decreases ops
  {
    if ops == [] then Some({})
    else
      var first, rest := Shapes(ops[0]), ShapesOfAll(ops[1..]);
      if first.None? || rest.None? then None else Some(first.value + rest.value)
  }

  ghost predicate StartsAtSome(ss: set<StartShape>, g: Graph, sp: Position) {
    exists s :: s in ss && StartsAt(s, g, sp)
  }

  ghost function DepsOfShapes(ss: set<StartShape>): set<Dep> { set s, d | s in ss && d in DepsOfShape(s) :: d }

  // --------------------------------------------------------------------------
  // Finding start positions
  // --------------------------------------------------------------------------

  class StartPositionsDraft {
    var positions: seq<Position>
    var deps: seq<Dep>

    constructor ()
      ensures positions == [] && deps == []
    {
      positions, deps := [], [];
    }
  }

  // What start positions are looked up by: a shape, a placeholder, or nothing in particular.
  datatype Source = OfShape(shape: StartShape) | AtPlaceholder(vertex: VertexID) | Anywhere

  // Where matches of the expression are tried, unless it's an error to ask.
  ghost function Sources(e: Expr): Option<set<Source>>
    decreases e
  {
    match e
    case VertexExpr(t, _, placeholder) =>
      Some({if placeholder.Some? then AtPlaceholder(placeholder.value) else OfShape(AtVertex(t))})
    case EdgeExpr(direction, forward, backward) => Some({OfShape(EdgeShape(direction, forward, backward))})
    case NoopExpr => Some({Anywhere})
    case ConcatenationExpr(ops) => if ops == [] then None else Sources(ops[Leading(ops)])
    case AndExpr(ops) => if ops == [] then None else Sources(ops[Leading(ops)])
    case OrExpr(ops) => SourcesOfAll(ops)
    case OperationExpr(operation, op) => if operation.Unless? then None else Sources(op)
    case RepetitionExpr(min, _, op) => if min == 0 then Some({Anywhere}) else Sources(op)
  }

  ghost function SourcesOfAll(ops: seq<Expr>): Option<set<Source>>
    decreases ops
  {
    if ops == [] then Some({})
    else
      var first, rest := Sources(ops[0]), SourcesOfAll(ops[1..]);
      if first.None? || rest.None? then None else Some(first.value + rest.value)
  }

  // For edges with any label, all vertices are tried; a placeholder is tried if its vertex was ever stored.
  ghost predicate TriesAt(s: Source, q: Query, sp: Position) {
    match s
    case OfShape(shape) =>
      if shape.AtEdge? && shape.labels.None? then sp.kind.ORBIT? && sp.v in q.graph.vertices
      else StartsAt(shape, q.graph, sp)
    case AtPlaceholder(v) => sp == Position(v, CORE) && v in q.known
    case Anywhere => sp.v in q.graph.vertices
  }

  ghost function DepsOfSource(s: Source, q: Query): set<Dep> {
    match s
    case OfShape(shape) => DepsOfShape(shape)
    case AtPlaceholder(v) =>
      if v in q.known then {} else {Dep(ParticularVertex(v), AbsentPosition(Position(v, CORE)))}
    case Anywhere => {Dep(NewVertex, EveryAddedVertex)}
  }

  ghost predicate TriesAtSome(ss: set<Source>, q: Query, sp: Position) { exists s :: s in ss && TriesAt(s, q, sp) }

  ghost function DepsOfSources(ss: set<Source>, q: Query): set<Dep> {
    set s, d | s in ss && d in DepsOfSource(s, q) :: d
  }

  // The visit added exactly the positions of the sources, and their dependencies.
  ghost predicate AllFound(ss: set<Source>, q: Query, ps: seq<Position>, ds: seq<Dep>) {
    (forall sp :: sp in ps <==> TriesAtSome(ss, q, sp)) && Elems(ds) == DepsOfSources(ss, q)
  }

  lemma FoundTogether(a: set<Source>, b: set<Source>, q: Query, ps: seq<Position>, ds: seq<Dep>,
      qs: seq<Position>, es: seq<Dep>)
    requires AllFound(a, q, ps, ds) && AllFound(b, q, qs, es)
    ensures AllFound(a + b, q, ps + qs, ds + es)
  {
    ElemsAppend(ds, es);
    assert DepsOfSources(a + b, q) == DepsOfSources(a, q) + DepsOfSources(b, q);
  }

  lemma FoundOne(s: Source, q: Query, ps: seq<Position>, ds: seq<Dep>)
    requires (forall sp :: sp in ps <==> TriesAt(s, q, sp)) && Elems(ds) == DepsOfSource(s, q)
    ensures AllFound({s}, q, ps, ds)
  {
    assert s in {s};
    assert DepsOfSources({s}, q) == DepsOfSource(s, q);
  }

  // --------------------------------------------------------------------------
  // Patterns that begin with a shape
  // --------------------------------------------------------------------------

  ghost function OfShapes(ss: set<StartShape>): set<Source> { set s | s in ss :: OfShape(s) }

  lemma {:induction false} ShapesAreSources(e: Expr)
    requires Shapes(e).Some?
    ensures Sources(e) == Some(OfShapes(Shapes(e).value))
    decreases e
  {
    match e
    case ConcatenationExpr(ops) => ShapesAreSources(ops[Leading(ops)]);
    case AndExpr(ops) => ShapesAreSources(ops[Leading(ops)]);
    case OrExpr(ops) => ShapesOfAllAreSources(ops);
    case OperationExpr(operation, op) => ShapesAreSources(op);
    case RepetitionExpr(min, _, op) => ShapesAreSources(op);
    case VertexExpr(t, _, _) => assert OfShapes({AtVertex(t)}) == {OfShape(AtVertex(t))};
    case EdgeExpr(direction, forward, backward) =>
      var shape := EdgeShape(direction, forward, backward);
      assert OfShapes({shape}) == {OfShape(shape)};
    case _ =>
  }

  lemma {:induction false} ShapesOfAllAreSources(ops: seq<Expr>)
    requires ShapesOfAll(ops).Some?
    ensures SourcesOfAll(ops) == Some(OfShapes(ShapesOfAll(ops).value))
    decreases ops
  {
    if ops != [] {
      ShapesAreSources(ops[0]);
      ShapesOfAllAreSources(ops[1..]);
      var a, b := Shapes(ops[0]).value, ShapesOfAll(ops[1..]).value;
      assert OfShapes(a + b) == OfShapes(a) + OfShapes(b);
    } else {
      assert OfShapes({}) == {};
    }
  }

  // All positions of the shapes are tried, at vertices of the graph only.
  ghost predicate ShapesFound(ss: set<StartShape>, g: Graph, ps: seq<Position>, ds: seq<Dep>) {
    (forall sp :: StartsAtSome(ss, g, sp) ==> sp in ps) && (forall sp :: sp in ps ==> sp.v in g.vertices) &&
    Elems(ds) == DepsOfShapes(ss)
  }

  lemma ShapesAreFound(ss: set<StartShape>, q: Query, ps: seq<Position>, ds: seq<Dep>)
    requires WellFormed(q.graph) && AllFound(OfShapes(ss), q, ps, ds)
    ensures ShapesFound(ss, q.graph, ps, ds)
  {
    forall sp | StartsAtSome(ss, q.graph, sp) ensures sp in ps {
      var s :| s in ss && StartsAt(s, q.graph, sp);
      assert OfShape(s) in OfShapes(ss) && TriesAt(OfShape(s), q, sp);
    }
    forall d ensures d in DepsOfShapes(ss) <==> d in DepsOfSources(OfShapes(ss), q) {
      if d in DepsOfShapes(ss) {
        var s :| s in ss && d in DepsOfShape(s);
        assert OfShape(s) in OfShapes(ss) && d in DepsOfSource(OfShape(s), q);
      }
    }
  }

  // --------------------------------------------------------------------------
  // The visitor
  // --------------------------------------------------------------------------

  class FindStartPositionsVisitor {
    const query: Query
    const dest: StartPositionsDraft

    constructor (query: Query, dest: StartPositionsDraft)
      ensures this.query == query && this.dest == dest
    {
      this.query, this.dest := query, dest;
    }

    ghost predicate Added(ss: Option<set<Source>>, ps: seq<Position>, ds: seq<Dep>)
      reads dest
    {
      ps <= dest.positions && ds <= dest.deps &&
      (ss.Some? ==> AllFound(ss.value, query, dest.positions[|ps|..], dest.deps[|ds|..]))
    }

    method AddPositions(vs: set<VertexID>, kind: Kind)
      modifies dest
      ensures dest.deps == old(dest.deps) && old(dest.positions) <= dest.positions
      ensures forall sp :: sp in dest.positions[|old(dest.positions)|..] <==> sp.kind == kind && sp.v in vs
    {
      var list := Listed(vs);
      ghost var was := dest.positions;
      for i := 0 to |list|
        invariant dest.deps == old(dest.deps) && was <= dest.positions
        invariant forall sp :: sp in dest.positions[|was|..] <==> sp.kind == kind && sp.v in Elems(list[..i])
      {
        ghost var before := dest.positions[|was|..];
        ElemsPrefix(list, i);
        dest.positions := dest.positions + [Position(list[i], kind)];
        assert dest.positions[|was|..] == before + [Position(list[i], kind)];
      }
      ElemsWhole(list);
    }

    // Returns false when start positions can't be found, which is an error.
    method Visit(e: Expr) returns (ok: bool)
      requires ValidExpr(e) && QueryOk(query)
      modifies dest
      ensures Added(Sources(e), old(dest.positions), old(dest.deps)) && (ok <==> Sources(e).Some?)
      decreases e, 1
    {
      ghost var ps, ds := dest.positions, dest.deps;
      match e
      case VertexExpr(t, _, placeholder) =>
        VisitVertex(t, placeholder);
        ok := true;
      case EdgeExpr(direction, forward, backward) =>
        VisitEdge(direction, forward, backward);
        ok := true;
      case NoopExpr =>
        VisitNoop();
        ok := true;
      case ConcatenationExpr(ops) => ok := VisitLeading(ops);
      case AndExpr(ops) => ok := VisitLeading(ops);
      case OrExpr(ops) => ok := VisitAll(ops);
      case OperationExpr(operation, op) =>
        if operation.Unless? {
          return false;
        }
        ok := Visit(op);
      case RepetitionExpr(min, _, op) =>
        if min == 0 {
          // Without a repeat there is nothing to begin with.
          VisitNoop();
          return true;
        }
        ok := Visit(op);
    }

    method VisitVertex(t: Option<TypeName>, placeholder: Option<VertexID>)
      modifies dest
      ensures Added(Sources(VertexExpr(t, None, placeholder)), old(dest.positions), old(dest.deps))
    {
      ghost var ps, ds := dest.positions, dest.deps;
      if placeholder.Some? {
        var start := Position(placeholder.value, CORE);
        if placeholder.value in query.known {
          dest.positions := dest.positions + [start];
          assert dest.positions[|ps|..] == [start] && dest.deps[|ds|..] == [];
        } else {
          var d := Dep(ParticularVertex(placeholder.value), AbsentPosition(start));
          dest.deps := dest.deps + [d];
          assert dest.positions[|ps|..] == [] && dest.deps[|ds|..] == [d];
          assert Elems([d]) == {d};
        }
        FoundOne(AtPlaceholder(placeholder.value), query, dest.positions[|ps|..], dest.deps[|ds|..]);
        return;
      }
      var d: Dep;
      if t.Some? {
        AddPositions((set v | v in query.graph.vertices && v.typeName == t.value), CORE);
        d := Dep(NewVertexOfType(t.value), EveryAddedVertex);
      } else {
        AddPositions(query.graph.vertices, CORE);
        d := Dep(NewVertex, EveryAddedVertex);
      }
      dest.deps := dest.deps + [d];
      assert dest.deps[|ds|..] == [d] && Elems([d]) == {d};
      FoundOne(OfShape(AtVertex(t)), query, dest.positions[|ps|..], dest.deps[|ds|..]);
    }

    method VisitNoop()
      modifies dest
      ensures Added(Some({Anywhere}), old(dest.positions), old(dest.deps))
    {
      ghost var ps, ds := dest.positions, dest.deps;
      AddPositions(query.graph.vertices, CORE);
      ghost var qs := dest.positions;
      AddPositions(query.graph.vertices, ORBIT);
      assert dest.positions[|ps|..] == qs[|ps|..] + dest.positions[|qs|..];
      var d := Dep(NewVertex, EveryAddedVertex);
      dest.deps := dest.deps + [d];
      assert dest.deps[|ds|..] == [d] && Elems([d]) == {d};
      forall sp ensures sp in dest.positions[|ps|..] <==> TriesAt(Anywhere, query, sp) {
        assert sp.kind.CORE? || sp.kind.ORBIT?;
      }
      FoundOne(Anywhere, query, dest.positions[|ps|..], dest.deps[|ds|..]);
    }

    // The sources of suitable edges, and the targets where the direction allows it.
    method VisitEdge(direction: Direction, forward: Labels, backward: Labels)
      requires QueryOk(query)
      modifies dest
      ensures Added(Some({OfShape(EdgeShape(direction, forward, backward))}), old(dest.positions), old(dest.deps))
    {
      ghost var ps, ds := dest.positions, dest.deps;
      var shape := EdgeShape(direction, forward, backward);
      if shape.labels.None? {
        AddPositions(query.graph.vertices, ORBIT);
        var d := Dep(NewEdge, EveryAddedEdge);
        dest.deps := dest.deps + [d];
        assert dest.deps[|ds|..] == [d] && Elems([d]) == {d};
        FoundOne(OfShape(shape), query, dest.positions[|ps|..], dest.deps[|ds|..]);
        return;
      }
      AddEnds(shape, ps);
      var ls := shape.labels.value;
      for i := 0 to |ls|
        invariant dest.positions == old(dest.positions) || ps <= dest.positions
        invariant forall sp :: sp in dest.positions[|ps|..] <==> StartsAt(shape, query.graph, sp)
        invariant ds <= dest.deps && Elems(dest.deps[|ds|..]) == set l | l in ls[..i] ::
            Dep(NewEdgeWithLabel(l), EveryAddedEdge)
      {
        ghost var before := dest.deps[|ds|..];
        var d := Dep(NewEdgeWithLabel(ls[i]), EveryAddedEdge);
        dest.deps := dest.deps + [d];
        assert dest.deps[|ds|..] == before + [d] && ls[..i + 1] == ls[..i] + [ls[i]];
        ElemsSnoc(before, d);
      }
      assert ls[..|ls|] == ls;
      FoundOne(OfShape(shape), query, dest.positions[|ps|..], dest.deps[|ds|..]);
    }

    method AddEnds(shape: StartShape, ghost ps: seq<Position>)
      requires shape.AtEdge? && ps == dest.positions
      modifies dest
      ensures dest.deps == old(dest.deps) && ps <= dest.positions
      ensures forall sp :: sp in dest.positions[|ps|..] <==> StartsAt(shape, query.graph, sp)
    {
      var es := Listed((set e | e in query.graph.edges && HasLabel(shape.labels, e.lab)));
      assert forall e :: e in Elems(es) <==> e in query.graph.edges && HasLabel(shape.labels, e.lab);
      for i := 0 to |es|
        invariant dest.deps == old(dest.deps) && ps <= dest.positions
        invariant forall sp :: sp in dest.positions[|ps|..] <==>
            sp.kind.ORBIT? && exists e :: e in es[..i] && EdgeStarts(shape, e, sp.v)
      {
        ghost var before := dest.positions[|ps|..];
        assert es[..i + 1] == es[..i] + [es[i]] && es[i] in Elems(es);
        var more := (if shape.fromIt then [Position(es[i].from, ORBIT)] else []) +
            (if shape.toIt then [Position(es[i].to, ORBIT)] else []);
        assert forall sp :: sp in more <==> sp.kind.ORBIT? && EdgeStarts(shape, es[i], sp.v);
        assert dest.positions == ps + before;
        dest.positions := dest.positions + more;
        assert dest.positions == ps + (before + more);
        assert dest.positions[|ps|..] == before + more;
      }
      assert es[..|es|] == es;
    }

    method VisitAll(ops: seq<Expr>) returns (ok: bool)
      requires QueryOk(query) && forall o :: o in ops ==> ValidExpr(o)
      modifies dest
      ensures Added(SourcesOfAll(ops), old(dest.positions), old(dest.deps)) && (ok <==> SourcesOfAll(ops).Some?)
      decreases ops, 0
    {
      ghost var ps, ds := dest.positions, dest.deps;
      for i := 0 to |ops|
        invariant Added(SourcesOfAll(ops[..i]), ps, ds) && SourcesOfAll(ops[..i]).Some?
      {
        ghost var qs, es := dest.positions, dest.deps;
        ok := Visit(ops[i]);
        SourcesOfOneMore(ops, i);
        if !ok {
          return;
        }
        if SourcesOfAll(ops[..i + 1]).Some? {
          FoundTogether(SourcesOfAll(ops[..i]).value, Sources(ops[i]).value, query, qs[|ps|..], es[|ds|..],
                        dest.positions[|qs|..], dest.deps[|es|..]);
          assert dest.positions[|ps|..] == qs[|ps|..] + dest.positions[|qs|..];
          assert dest.deps[|ds|..] == es[|ds|..] + dest.deps[|es|..];
        }
      }
      assert ops[..|ops|] == ops;
      ok := true;
    }

    method VisitLeading(ops: seq<Expr>) returns (ok: bool)
      requires QueryOk(query) && ops != [] && forall o :: o in ops ==> ValidExpr(o)
      modifies dest
      ensures Added(Sources(ops[Leading(ops)]), old(dest.positions), old(dest.deps))
      ensures ok <==> Sources(ops[Leading(ops)]).Some?
      decreases ops, 0
    {
      for i := 0 to |ops|
        invariant dest.positions == old(dest.positions) && dest.deps == old(dest.deps)
        invariant forall j :: 0 <= j < i ==> IsUnless(ops[j])
      {
        if !IsUnless(ops[i]) {
          assert Leading(ops) == i;
          ok := Visit(ops[i]);
          return;
        }
      }
      assert Leading(ops) == 0;
      ok := Visit(ops[0]);
    }
  }

  lemma SourcesOfOneMore(ops: seq<Expr>, i: nat)
    requires i < |ops|
    ensures var a, b := SourcesOfAll(ops[..i]), Sources(ops[i]);
      SourcesOfAll(ops[..i + 1]) == if a.None? || b.None? then None else Some(a.value + b.value)
    ensures SourcesOfAll(ops).Some? ==> SourcesOfAll(ops[..i + 1]).Some?
  {
    if i == 0 {
      assert ops[..1][1..] == [] && ops[..0] == [];
      if Sources(ops[0]).Some? { assert Sources(ops[0]).value + {} == {} + Sources(ops[0]).value; }
    } else {
      assert ops[..i + 1][1..] == ops[1..][..i] && ops[..i][1..] == ops[1..][..i - 1];
      SourcesOfOneMore(ops[1..], i - 1);
      var f, a, b := Sources(ops[0]), SourcesOfAll(ops[1..][..i - 1]), Sources(ops[i]);
      if f.Some? && a.Some? && b.Some? { assert f.value + (a.value + b.value) == (f.value + a.value) + b.value; }
    }
  }
}
