/** The match visitor, and the registry of nested expressions. */
module Matcher {
  import opened Base
  import opened RefsAlgebra
  import opened Arrangement
  import opened Plans
  import opened Semantics
  import opened Unfolding
  import opened RefTracking
  import opened Dependencies
  import opened Matching
  import opened MatchingSteps
  import opened MatchingOps
  import opened MatchingJoins
  import opened Combining
  import opened NestedCache
  import opened NestedRefresh
  import opened NestedEviction
  import opened SortedLists
  import opened Visiting
  import opened VisitingOperands
  import opened VisitingRepeat

  class DepLog {
    var items: seq<Dep>

    constructor ()
      ensures items == []
    {
      items := [];
    }
  }

  class QuerySetDraft {
    var subgraphs: seq<Draft>
    const deps: DepLog  // shared with the drafts of operands

    constructor (deps: DepLog)
      ensures subgraphs == [] && this.deps == deps
    {
      subgraphs := [];
      this.deps := deps;
    }
  }

  // Vertices and edges of the path matched so far.
  class PathBuffers {
    var vertices: seq<VertexID>
    var edges: seq<Edge>

    constructor ()
      ensures vertices == [] && edges == []
    {
      vertices, edges := [], [];
    }
  }

  // How the name stands to the vertex in the refs: unset, equal, or in conflict.
  method FindBinding(refs: Refs, x: RefName, v: VertexID) returns (b: Binding)
    ensures b == BindingOf(refs, x, v)
  {
    var rest: set<Literal> := refs;
    while rest != {}
      invariant rest <= refs
      invariant forall l :: l in refs && l.name == x && l !in rest ==> l.negative && l.value != v
    {
      var l :| l in rest;
      if l.name == x {
        if l.value == v {
          b := if !l.negative then AlreadySet else Impossible;
          assert l == Literal(x, l.negative, v);
          return;
        }
        if !l.negative {
          assert l == Literal(x, false, l.value);
          assert IsSet(refs, x);
          return Impossible;
        }
      }
      rest := rest - {l};
    }
    b := Possible;
  }

  // --------------------------------------------------------------------------
  // Edges of the graph
  // --------------------------------------------------------------------------

  method SingleHops(es: set<Edge>, outgoing: bool) returns (ks: seq<HopList>)
    ensures HopsOf(ks) == set e | e in es :: Hop({e}, if outgoing then e.to else e.from)
  {
    var list := Listed(es);
    ks := [];
    for i := 0 to |list|
      invariant HopsOf(ks) == set e | e in list[..i] :: Hop({e}, if outgoing then e.to else e.from)
    {
      var k := HopList([list[i]], if outgoing then list[i].to else list[i].from);
      assert list[..i + 1] == list[..i] + [list[i]];
      assert HopOf(k).edges == {list[i]};
      HopsOfAppend(ks, [k]);
      ks := ks + [k];
    }
    assert list[..|list|] == list;
    assert forall e :: e in es <==> e in list by { assert forall e :: e in list <==> e in Elems(list); }
  }

  lemma HopsOfAppend(a: seq<HopList>, b: seq<HopList>)
    ensures HopsOf(a + b) == HopsOf(a) + HopsOf(b)
    ensures |b| == 1 ==> HopsOf(b) == {HopOf(b[0])}
  {
    if |b| == 1 { assert b == [b[0]]; }
  }

  // Hops of two edges, there and back; symmetric ones also have equal labels.
  method PairedHops(outgoing: set<Edge>, incoming: set<Edge>, symmetric: bool) returns (ks: seq<HopList>)
    ensures HopsOf(ks) ==
      if symmetric then set e | e in outgoing && e.Reverse() in incoming :: Hop({e, e.Reverse()}, e.to)
      else set e, f | e in outgoing && f in incoming && f.from == e.to :: Hop({e, f}, e.to)
  {
    ks := [];
    var es := Listed(outgoing);
    assert forall e :: e in outgoing <==> e in es by { assert forall e :: e in es <==> e in Elems(es); }
    if symmetric {
      for i := 0 to |es|
        invariant HopsOf(ks) == set e | e in es[..i] && e.Reverse() in incoming :: Hop({e, e.Reverse()}, e.to)
      {
        assert es[..i + 1] == es[..i] + [es[i]];
        if es[i].Reverse() in incoming {
          var k := HopList([es[i], es[i].Reverse()], es[i].to);
          assert HopOf(k).edges == {es[i], es[i].Reverse()};
          HopsOfAppend(ks, [k]);
          ks := ks + [k];
        }
      }
    } else {
      for i := 0 to |es|
        invariant HopsOf(ks) == set e, f | e in es[..i] && f in incoming && f.from == e.to :: Hop({e, f}, e.to)
      {
        assert es[..i + 1] == es[..i] + [es[i]];
        var more := PairsOf(es[i], incoming);
        HopsOfAppend(ks, more);
        ks := ks + more;
      }
    }
    assert es[..|es|] == es;
  }

  method PairsOf(e: Edge, incoming: set<Edge>) returns (ks: seq<HopList>)
    ensures HopsOf(ks) == set f | f in incoming && f.from == e.to :: Hop({e, f}, e.to)
  {
    ks := [];
    var fs := Listed(incoming);
    assert forall f :: f in incoming <==> f in fs by { assert forall f :: f in fs <==> f in Elems(fs); }
    for i := 0 to |fs|
      invariant HopsOf(ks) == set f | f in fs[..i] && f.from == e.to :: Hop({e, f}, e.to)
    {
      assert fs[..i + 1] == fs[..i] + [fs[i]];
      if fs[i].from == e.to {
        var k := HopList([e, fs[i]], e.to);
        assert HopOf(k).edges == {e, fs[i]};
        HopsOfAppend(ks, [k]);
        ks := ks + [k];
      }
    }
    assert fs[..|fs|] == fs;
  }

  // The hops of a pass over the edges of the position.
  method FindHops(g: Graph, m: MatchEdge, pos: Position, pass: nat) returns (ks: seq<HopList>)
    ensures HopsOf(ks) == HopsPass(g, m, pos, pass)
  {
    if pos.kind.CORE? {
      return [];
    }
    if pass == 0 {
      match m.direction
      case Forward => ks := SingleHops(Outgoing(g, pos.v, m.forward), true);
      case AnyDirection => ks := SingleHops(Outgoing(g, pos.v, m.forward), true);
      case Both => ks := PairedHops(Outgoing(g, pos.v, m.forward), Incoming(g, pos.v, m.backward), false);
      case BothSymmetric => ks := PairedHops(Outgoing(g, pos.v, m.forward), Incoming(g, pos.v, m.backward), true);
      case Backward => ks := [];
    } else if m.direction.Backward? || m.direction.AnyDirection? {
      ks := SingleHops(Incoming(g, pos.v, m.backward), false);
    } else {
      ks := [];
    }
  }

  // The hops to one vertex.
  method FindHopsTo(g: Graph, m: MatchEdge, pos: Position, to: VertexID) returns (ks: seq<HopList>)
    ensures HopsOf(ks) == HopsTo(g, m, pos, to)
  {
    var first := FindHops(g, m, pos, 0);
    var second := FindHops(g, m, pos, 1);
    HopsInPasses(g, m, pos);
    HopsOfAppend(first, second);
    var all := first + second;
    ks := [];
    for i := 0 to |all|
      invariant HopsOf(ks) == set k | k in all[..i] && k.to == to :: HopOf(k)
    {
      assert all[..i + 1] == all[..i] + [all[i]];
      if all[i].to == to {
        HopsOfAppend(ks, [all[i]]);
        ks := ks + [all[i]];
      }
    }
    assert all[..|all|] == all;
    assert HopsTo(g, m, pos, to) == set k | k in all && k.to == to :: HopOf(k) by {
      forall hop | hop in HopsTo(g, m, pos, to) ensures exists k :: k in all && k.to == to && HopOf(k) == hop {
        assert hop in HopsOf(all);
      }
    }
  }

  // The value of the name's positive literal.
  method FindValue(refs: Refs, x: RefName) returns (v: Option<VertexID>)
    ensures v.None? <==> !IsSet(refs, x)
    ensures v.Some? ==> v.value == ValueOf(refs, x)
  {
    var rest: set<Literal> := refs;
    while rest != {}
      invariant rest <= refs && forall l :: l in refs && l.name == x && l !in rest ==> l.negative
    {
      var l :| l in rest;
      if l.name == x && !l.negative {
        assert l == Literal(x, false, l.value);
        assert Literal(x, false, ValueOf(refs, x)) in refs;
        return Some(l.value);
      }
      rest := rest - {l};
    }
    v := None;
  }

  // --------------------------------------------------------------------------
  // Visitor
  // --------------------------------------------------------------------------

  // Continues the head with each of the tails.
  method ConcatenateAll(h: Draft, ts: seq<Draft>) returns (ds: seq<Draft>)
    ensures ConcatenatedAll(h, ts, ds)
  {
    ds := [];
    for i := 0 to |ts|
      invariant |ds| == i && forall j :: 0 <= j < i ==> ds[j] == Concatenated(h, ts[j])
    {
      ds := ds + [Concatenated(h, ts[i])];
    }
  }

  // The parts of the refs where none of the drafts match; refs that aren't shared are projected away.
  method UncoveredTerms(refs: Refs, es: seq<Draft>, shared: set<RefName>) returns (terms: seq<Refs>)
    ensures Elems(terms) == TermsWithout(refs, DraftRefs(es), shared)
  {
    terms := [refs];
    TermsWithoutNone(refs, shared);
    assert DraftRefs(es[..0]) == {} && Elems(terms) == {refs};
    for i := 0 to |es|
      invariant Elems(terms) == TermsWithout(refs, DraftRefs(es[..i]), shared)
    {
      if es[i].refs == refs {
        // This draft covers the whole region of the start: nothing is left to subtract from.
        NotNarrowed(refs, DraftRefs(es), shared);
        return [];
      }
      TermsWithoutOneMore(refs, DraftRefs(es[..i]), es[i].refs, shared);
      assert DraftRefs(es[..i + 1]) == DraftRefs(es[..i]) + {es[i].refs} by { assert es[..i + 1] == es[..i] + [es[i]]; }
      terms := SubtractRefsFromUnion(terms, Restrict(es[i].refs, shared));
      if terms == [] {
        assert DraftRefs(es[..i + 1]) <= DraftRefs(es);
        EmptyStays(refs, DraftRefs(es[..i + 1]), DraftRefs(es), shared);
        return;
      }
    }
    assert es[..|es|] == es;
  }

  // The cached subgraph, with other refs.
  method DraftOf(pos: Position, b: Body, refs: Refs, contents: bool) returns (d: Draft)
    ensures d.start == pos && BodyOf(d) == if contents then Body(b.content, refs) else Strip(Body(b.content, refs))
  {
    var ends := Listed(b.content.ends);
    if contents {
      var vertices := Listed(b.content.vertices);
      var edges := Listed(b.content.edges);
      d := Draft(pos, ends, vertices, edges, refs);
    } else {
      d := Draft(pos, ends, [], [], refs);
    }
  }

  // Sorted and deduplicated subgraphs of the drafts.
  method Finalized(ds: seq<Draft>) returns (s: set<Body>)
    ensures s == Bodies(ds)
  {
    s := {};
    for i := 0 to |ds|
      invariant s == Bodies(ds[..i])
    {
      var d := ds[i];
      var b := Body(Content(set x | x in d.ends, set x | x in d.vertices, set x | x in d.edges), d.refs);
      assert b == BodyOf(d);
      assert ds[..i + 1] == ds[..i] + [d];
      BodiesAppend(ds[..i], [d]);
      OneBody(d);
      s := s + {b};
    }
    assert ds[..|ds|] == ds;
  }

  // How a walk along items ends.
  datatype Tail = NoTail | ToVertex(edge: MatchEdge, vertex: MatchVertex)

  ghost predicate TailOk(tail: Tail) {
    tail.ToVertex? ==> IsKnown(tail.vertex) && (tail.vertex.placeholder.None? ==> tail.vertex.setRef.None?)
  }

  ghost function RestOf(items: seq<Step>, i: nat, tail: Tail): seq<Step>
    requires i <= |items|
  {
    items[i..] + if tail.NoTail? then [] else LookupSteps(tail.edge, tail.vertex)
  }

  lemma RestUnfold(items: seq<Step>, i: nat, tail: Tail)
    requires i <= |items|
    ensures i < |items| ==>
      var rest := RestOf(items, i, tail);
      rest != [] && rest[0] == items[i] && rest[1..] == RestOf(items, i + 1, tail)
    ensures i == |items| ==> RestOf(items, i, tail) == if tail.NoTail? then [] else LookupSteps(tail.edge, tail.vertex)
  {}

  const NO_CACHE := EmptyCache(Scope(false, {}))

  function EmptyCache(scope: Scope): Cache { Cache(map[], map[], map[], {}, scope) }

  class MatchVisitor {
    const mode: Mode
    const query: Query
    const registry: NestedRegistry?
    const start: Start
    const dest: QuerySetDraft
    const base: nat  // drafts in the destination before matching
    ghost const limit: Limit

    constructor (mode: Mode, query: Query, registry: NestedRegistry?, start: Start, dest: QuerySetDraft,
        ghost limit: Limit)
      ensures this.mode == mode && this.query == query && this.registry == registry && this.start == start
      ensures this.dest == dest && base == |dest.subgraphs| && this.limit == limit
    {
      this.mode, this.query, this.registry, this.start := mode, query, registry, start;
      this.dest, this.base, this.limit := dest, |dest.subgraphs|, limit;
    }

    ghost function W(): World { World(query.graph, registry != null) }

    ghost function Now(): Snapshot
      reads dest, dest.deps, registry
    {
      Snapshot(dest.subgraphs, dest.deps.items, if registry == null then NO_CACHE else registry.State())
    }

    // Whether to stop matching.
    predicate Enough()
      reads dest
    {
      mode.First? && |dest.subgraphs| > base
    }

    ghost predicate Begun()
      reads dest, dest.deps, registry
    {
      QueryOk(query) && base <= |dest.subgraphs| && (mode.First? ==> base == |dest.subgraphs|) &&
      ReadyIn(W(), limit, Now())
    }

    ghost predicate CanVisit(p: Plan)
      reads dest, dest.deps, registry
    {
      Begun() && Plans.Valid(p) && Supported(p, SetNames(start.refs)) && FitsIn(W(), limit, p, start.position)
    }

    // ------------------------------------------------------------------------
    // Dependencies
    // ------------------------------------------------------------------------

    method Log(o: Observable)
      modifies dest.deps
      ensures Recorded({o}, start.origin, old(Now()), Now())
    {
      dest.deps.items := dest.deps.items + [Dep(o, AtPosition(start.origin))];
      assert NewObs(old(Now()), Now()) == {o} by {
        assert dest.deps.items[|old(dest.deps.items)|..] == [Dep(o, AtPosition(start.origin))];
        assert ObsOf([Dep(o, AtPosition(start.origin))]) == {o};
      }
    }

    method AddEdgeDeps(labels: Labels, v: VertexID, outgoing: bool)
      modifies dest.deps
      ensures Recorded(if outgoing then FromObs(labels, v) else ToObs(labels, v), start.origin, old(Now()), Now())
    {
      if labels.None? {
        Log(if outgoing then EdgeFrom(v) else EdgeTo(v));
        return;
      }
      ghost var was := Now();
      ghost var done: set<Observable> := {};
      RecordedNothing(start.origin, was);
      for i := 0 to |labels.value|
        invariant Recorded(done, start.origin, was, Now())
        invariant done == if outgoing then FromObs(Some(labels.value[..i]), v) else ToObs(Some(labels.value[..i]), v)
      {
        ghost var before := Now();
        var l := labels.value[i];
        Log(if outgoing then EdgeFromWithLabel(v, l) else EdgeToWithLabel(v, l));
        RecordedMore(done, {if outgoing then EdgeFromWithLabel(v, l) else EdgeToWithLabel(v, l)}, start.origin, was,
            before, Now());
        done := done + {if outgoing then EdgeFromWithLabel(v, l) else EdgeToWithLabel(v, l)};
        assert labels.value[..i + 1] == labels.value[..i] + [l];
      }
      assert labels.value[..|labels.value|] == labels.value;
    }

    // Dependencies of a pass over the edges of the position.
    method AddPassDeps(m: MatchEdge, pos: Position, pass: nat)
      requires pass <= 1
      modifies dest.deps
      ensures Recorded(PassObs(m, pos, pass), start.origin, old(Now()), Now())
    {
      ghost var was := Now();
      RecordedNothing(start.origin, was);
      if pos.kind.CORE? {
        return;
      }
      if pass == 0 {
        if !m.direction.Backward? {
          AddEdgeDeps(m.forward, pos.v, true);
        }
        if m.direction.Both? || m.direction.BothSymmetric? {
          ghost var before := Now();
          AddEdgeDeps(m.backward, pos.v, false);
          RecordedMore(FromObs(m.forward, pos.v), ToObs(m.backward, pos.v), start.origin, was, before, Now());
        }
      } else if m.direction.Backward? || m.direction.AnyDirection? {
        AddEdgeDeps(m.backward, pos.v, false);
      }
    }

    method AddDepsBetween(labels: Labels, from: VertexID, to: VertexID, any: Observable)
      modifies dest.deps
      ensures Recorded(ObsBetween(labels, from, to, any), start.origin, old(Now()), Now())
    {
      if labels.None? {
        Log(any);
        return;
      }
      ghost var was := Now();
      RecordedNothing(start.origin, was);
      for i := 0 to |labels.value|
        invariant Recorded(ObsBetween(Some(labels.value[..i]), from, to, any), start.origin, was, Now())
      {
        ghost var before := Now();
        ghost var done := ObsBetween(Some(labels.value[..i]), from, to, any);
        var o := ParticularEdge(Edge(from, labels.value[i], to));
        Log(o);
        RecordedMore(done, {o}, start.origin, was, before, Now());
        assert labels.value[..i + 1] == labels.value[..i] + [labels.value[i]];
        assert ObsBetween(Some(labels.value[..i + 1]), from, to, any) == done + {o};
      }
      assert labels.value[..|labels.value|] == labels.value;
    }

    method AddParticularEdgeDeps(m: MatchEdge, from: VertexID, to: VertexID)
      modifies dest.deps
      ensures Recorded(BetweenObs(m, from, to), start.origin, old(Now()), Now())
    {
      ghost var was := Now();
      ghost var done: set<Observable> := {};
      RecordedNothing(start.origin, was);
      if !m.direction.Backward? {
        AddDepsBetween(m.forward, from, to, EdgeFrom(from));
        done := ObsBetween(m.forward, from, to, EdgeFrom(from));
      }
      if !m.direction.Forward? {
        ghost var before := Now();
        AddDepsBetween(m.backward, to, from, EdgeTo(from));
        RecordedMore(done, ObsBetween(m.backward, to, from, EdgeTo(from)), start.origin, was, before, Now());
        done := done + ObsBetween(m.backward, to, from, EdgeTo(from));
      }
      assert done == BetweenObs(m, from, to);
    }

    // ------------------------------------------------------------------------
    // Vertices, edges and paths
    // ------------------------------------------------------------------------

    method MatchVertexAt(m: MatchVertex, pos: Position, refs: Refs) returns (matched: Option<Refs>)
      requires QueryOk(query)
      modifies dest.deps
      ensures matched == VertexMatch(query.graph, m, pos, refs)
      ensures Recorded(if matched.Some? &&
          pos == start.origin then {ParticularVertex(pos.v)} else {}, start.origin, old(Now()), Now())
      ensures matched.None? ==> dest.deps.items == old(dest.deps.items)
    {
      RecordedNothing(start.origin, Now());
      if pos.kind != CORE || pos.v !in query.graph.vertices {
        return None;
      }
      if m.placeholder.Some? {
        if m.placeholder.value !in query.known || pos.v != m.placeholder.value {
          return None;
        }
      }
      if m.typeName.Some? && pos.v.typeName != m.typeName.value {
        return None;
      }
      matched := Some(refs);
      var ref := if m.setRef.Some? then m.setRef else m.matchRef;
      if ref.Some? {
        var binding := FindBinding(refs, ref.value, pos.v);
        match binding
        case Impossible => return None;
        case Possible => matched := Some(CopyAndSet(refs, ref.value, pos.v));
        case AlreadySet =>
      }
      if start.origin == pos {
        Log(ParticularVertex(pos.v));
      }
    }

    ghost predicate CanWalk(buf: PathBuffers, c: Content)
      reads dest, dest.deps, registry, buf
    {
      Begun() && Buffered(mode, c, buf.vertices, buf.edges)
    }

    // A depth-first walk along the items, then the tail. What the walk passes is in the buffers while it goes on,
    // unless contents aren't asked for. Stops early in First mode.
    method VisitItems(items: seq<Step>, i: nat, tail: Tail, first: Position, pos: Position, refs: Refs,
                      buf: PathBuffers, ghost c: Content) returns (stop: bool)
      requires i <= |items| && TailOk(tail) && CanWalk(buf, c)
      modifies dest, dest.deps, buf
      ensures Walked(mode, query.graph, RestOf(items, i, tail), start.origin, first, pos, refs, c, old(Now()), Now())
      ensures stop == Enough()
      ensures buf.vertices == old(buf.vertices) && buf.edges == old(buf.edges)
      ensures i < |items| && MissesVertex(items[i], query.graph, pos, refs) ==> Now() == old(Now())
      decreases tail.ToVertex?, |items| - i, 2
    {
      RestUnfold(items, i, tail);
      ghost var steps := RestOf(items, i, tail);
      ghost var was := Now();
      if i == |items| {
        if tail.ToVertex? {
          stop := VisitKnownVertex(tail.edge, tail.vertex, first, pos, refs, buf, c);
          return;
        }
        var d := Draft(first, [pos], buf.vertices, buf.edges, refs);
        dest.subgraphs := dest.subgraphs + [d];
        WalkedToEnd(mode, query.graph, start.origin, first, pos, refs, c, d, was, Now());
        return Enough();
      }
      match items[i]
      case VertexStep(m) =>
        var matched := MatchVertexAt(m, pos, refs);
        if matched.None? {
          WalkedNowhere(mode, query.graph, steps, start.origin, first, pos, refs, c, was);
          return false;
        }
        ghost var before := Now();
        if mode.Normal? {
          ElemsSnoc(buf.vertices, pos.v);
          buf.vertices := buf.vertices + [pos.v];
        }
        stop := VisitItems(items, i + 1, tail, first, pos.WithKind(ORBIT), matched.value, buf, WithVertex(c, pos.v));
        if mode.Normal? {
          buf.vertices := buf.vertices[..|buf.vertices| - 1];
        }
        WalkedVertex(mode, query.graph, steps, start.origin, first, pos, refs, c, was, before, Now());
      case EdgeStep(m) =>
        stop := VisitEdges(items, i, tail, first, pos, refs, buf, c);
    }

    method VisitEdges(items: seq<Step>, i: nat, tail: Tail, first: Position, pos: Position, refs: Refs,
                      buf: PathBuffers, ghost c: Content) returns (stop: bool)
      requires i < |items| && items[i].EdgeStep? && TailOk(tail) && CanWalk(buf, c)
      modifies dest, dest.deps, buf
      ensures Walked(mode, query.graph, RestOf(items, i, tail), start.origin, first, pos, refs, c, old(Now()), Now())
      ensures stop == Enough()
      ensures buf.vertices == old(buf.vertices) && buf.edges == old(buf.edges)
      decreases tail.ToVertex?, |items| - i, 1
    {
      RestUnfold(items, i, tail);
      ghost var steps, was, m, g := RestOf(items, i, tail), Now(), items[i].edge, query.graph;
      NothingNew(was, start.origin);
      NoHops(mode, g, steps[1..], first, refs, c);
      ghost var one;
      stop, one := VisitPass(items, i, tail, 0, first, pos, refs, buf, c, was, {});
      if stop {
        WalkedEdges(mode, g, steps, one, 0, start.origin, first, pos, refs, c, was, Now());
        return;
      }
      ghost var before := Now();
      ghost var two;
      stop, two := VisitPass(items, i, tail, 1, first, pos, refs, buf, c, was, one);
      HopsInPasses(g, m, pos);
      WalkedEdges(mode, g, steps, one + two, 1, start.origin, first, pos, refs, c, was, Now());
    }

    // Follows the hops of one pass over the edges: `done` of them, or all of them unless that's enough.
    method VisitPass(items: seq<Step>, i: nat, tail: Tail, pass: nat, first: Position, pos: Position, refs: Refs,
                     buf: PathBuffers, ghost c: Content, ghost was: Snapshot, ghost others: set<Hop>)
      returns (stop: bool, ghost done: set<Hop>)
      requires i < |items| && items[i].EdgeStep? && TailOk(tail) && CanWalk(buf, c) && pass <= 1
      requires Hopped(mode, query.graph, RestOf(items, i + 1, tail), others, start.origin, first, refs, c, was, Now())
      requires mode.First? ==> |was.drafts| == base
      modifies dest, dest.deps, buf
      ensures Hopped(mode, query.graph, RestOf(items, i + 1, tail), others + done, start.origin, first, refs, c, was,
          Now())
      ensures NewObs(was, Now()) >= NewObs(was, old(Now())) + PassObs(items[i].edge, pos, pass)
      ensures done <= HopsPass(query.graph, items[i].edge, pos, pass)
      ensures if stop then Enough() && NewDrafts(was, Now()) != []
                   else !Enough() && done == HopsPass(query.graph, items[i].edge, pos, pass)
      ensures buf.vertices == old(buf.vertices) && buf.edges == old(buf.edges)
      decreases tail.ToVertex?, |items| - i, 0
    {
      ghost var rest, g, before := RestOf(items, i + 1, tail), query.graph, Now();
      AddPassDeps(items[i].edge, pos, pass);
      NoNestedInPass(items[i].edge, pos, pass);
      RecordedThen(mode, g, rest, others, PassObs(items[i].edge, pos, pass), start.origin, first, refs, c, was, before,
          Now());
      ghost var obs := NewObs(was, Now());
      var hops := FindHops(query.graph, items[i].edge, pos, pass);
      done := {};
      assert others + done == others;
      for j := 0 to |hops|
        invariant CanWalk(buf, c) && done == HopsOf(hops[..j])
        invariant Hopped(mode, g, rest, others + done, start.origin, first, refs, c, was, Now())
        invariant obs <= NewObs(was, Now())
        invariant buf.vertices == old(buf.vertices) && buf.edges == old(buf.edges)
      {
        HopsOfSnoc(hops, j);
        ghost var hop, now := HopOf(hops[j]), Now();
        assert hop in HopsOf(hops);
        stop := VisitHop(items, i, tail, hops[j], first, refs, buf, c);
        HoppedOnce(mode, g, rest, others + done, hop, start.origin, first, refs, c, was, now, Now());
        LoggedTransitive(was, now, Now(), start.origin);
        done := done + {hop};
        assert others + done == others + HopsOf(hops[..j]) + {hop};
        if stop {
          assert HopsOf(hops[..j + 1]) <= HopsOf(hops);
          return;
        }
      }
      assert hops[..|hops|] == hops;
      stop := false;
    }

    method VisitHop(items: seq<Step>, i: nat, tail: Tail, hop: HopList, first: Position, refs: Refs,
                    buf: PathBuffers, ghost c: Content) returns (stop: bool)
      requires i < |items| && TailOk(tail) && CanWalk(buf, c)
      modifies dest, dest.deps, buf
      ensures Walked(mode, query.graph, RestOf(items, i + 1, tail), start.origin, first, Position(hop.to, CORE), refs,
                     WithEdges(c, HopOf(hop).edges), old(Now()), Now())
      ensures stop == Enough()
      ensures buf.vertices == old(buf.vertices) && buf.edges == old(buf.edges)
      decreases tail.ToVertex?, |items| - i - 1, 3
    {
      if mode.Normal? {
        ElemsAppend(buf.edges, hop.edges);
        buf.edges := buf.edges + hop.edges;
      }
      stop := VisitItems(items, i + 1, tail, first, Position(hop.to, CORE), refs, buf, WithEdges(c, HopOf(hop).edges));
      if mode.Normal? {
        buf.edges := buf.edges[..|buf.edges| - |hop.edges|];
      }
    }

    // The last hop of a walk, when it is known where it has to lead.
    method VisitKnownVertex(e: MatchEdge, v: MatchVertex, first: Position, pos: Position, refs: Refs,
                            buf: PathBuffers, ghost c: Content) returns (stop: bool)
      requires TailOk(ToVertex(e, v)) && CanWalk(buf, c)
      modifies dest, dest.deps, buf
      ensures Walked(mode, query.graph, LookupSteps(e, v), start.origin, first, pos, refs, c, old(Now()), Now())
      ensures stop == Enough()
      ensures buf.vertices == old(buf.vertices) && buf.edges == old(buf.edges)
      decreases true, 0, 1
    {
      ghost var was, g := Now(), query.graph;
      if pos.kind != ORBIT {
        NothingNew(was, start.origin);
        NoHops(mode, g, LookupSteps(e, v)[1..], first, refs, c);
        WalkedEdges(mode, g, LookupSteps(e, v), {}, 1, start.origin, first, pos, refs, c, was, was);
        return false;
      }
      var to: VertexID;
      if v.placeholder.Some? {
        to := v.placeholder.value;
        if to !in query.known {
          Log(ParticularVertex(to));
          LookupMeaning(g, e, v, pos, refs, c, to);
          FoundNothing(mode);
          assert NewDrafts(was, Now()) == [];
          WalkedToKnown(mode, g, e, v, start.origin, first, pos, refs, c, to, was, Now());
          return false;
        }
      } else {
        var found := FindValue(refs, v.matchRef.value);
        if found.None? {
          // The ref isn't set, so match all edges.
          assert RestOf([EdgeStep(e), VertexStep(v)], 0, NoTail) == LookupSteps(e, v);
          stop := VisitItems([EdgeStep(e), VertexStep(v)], 0, NoTail, first, pos, refs, buf, c);
          return;
        }
        to := found.value;
      }
      stop := LookUp(e, v, first, pos, refs, to, buf, c);
    }

    method LookUp(e: MatchEdge, v: MatchVertex, first: Position, pos: Position, refs: Refs, to: VertexID,
                  buf: PathBuffers, ghost c: Content) returns (stop: bool)
      requires TailOk(ToVertex(e, v)) && CanWalk(buf, c) && pos.kind.ORBIT? && KnownVertex(v, refs) == Some(to)
      modifies dest, dest.deps
      ensures Walked(mode, query.graph, LookupSteps(e, v), start.origin, first, pos, refs, c, old(Now()), Now())
      ensures stop == Enough()
    {
      ghost var was, g := Now(), query.graph;
      AddParticularEdgeDeps(e, pos.v, to);
      NoNestedBetween(e, pos.v, to);
      LookupMeaning(g, e, v, pos, refs, c, to);
      ghost var known := Now();
      var hops := FindHopsTo(query.graph, e, pos, to);
      if hops == [] {
        assert Looked({}, c, to, refs) == {};
        FoundNothing(mode);
        WalkedToKnown(mode, g, e, v, start.origin, first, pos, refs, c, to, was, Now());
        return false;
      }
      var matched := MatchVertexAt(v, Position(to, CORE), refs);
      RecordedMoreThan(was, known, Now(), start.origin, BetweenObs(e, pos.v, to));
      if matched.None? {
        FoundNothing(mode);
        WalkedToKnown(mode, g, e, v, start.origin, first, pos, refs, c, to, was, Now());
        return false;
      }
      ghost var looked := Now();
      stop := EmitHops(hops, first, to, matched.value, buf, c);
      HopsLooked(mode, g, e, v, start.origin, first, pos, refs, c, to, HopsOf(hops), was, looked, Now());
    }

    // Adds drafts that follow the hops to the vertex.
    method EmitHops(hops: seq<HopList>, first: Position, to: VertexID, r: Refs, buf: PathBuffers, ghost c: Content)
        returns (stop: bool)
      requires CanWalk(buf, c) && hops != []
      modifies dest`subgraphs
      ensures dest.deps.items == old(dest.deps.items) && old(dest.subgraphs) <= dest.subgraphs && stop == Enough()
      ensures Found(mode, Looked(HopsOf(hops), c, to, r), NewDrafts(old(Now()), Now()))
      ensures forall d :: d in NewDrafts(old(Now()), Now()) ==> d.start == first && d.refs == r
    {
      ghost var was := Now();
      NothingNew(was, start.origin);
      assert Looked({}, c, to, r) == {};
      FoundNothing(mode);
      for i := 0 to |hops|
        invariant Begun() && dest.deps.items == was.items && was.drafts <= dest.subgraphs
        invariant Found(mode, Looked(HopsOf(hops[..i]), c, to, r), NewDrafts(was, Now()))
        invariant forall d :: d in NewDrafts(was, Now()) ==> d.start == first && d.refs == r
      {
        ghost var before := NewDrafts(was, Now());
        var d := Draft(first, [Position(to, ORBIT)], if mode.Normal? then buf.vertices + [to] else [],
                       if mode.Normal? then buf.edges + hops[i].edges else [], r);
        dest.subgraphs := dest.subgraphs + [d];
        HopsOfSnoc(hops, i);
        LookedFound(mode, c, to, r, HopsOf(hops[..i]), hops[i], first, buf.vertices, buf.edges, before, d);
        assert NewDrafts(was, Now()) == before + [d];
        if Enough() {
          assert HopOf(hops[i]) in HopsOf(hops);
          LookedSome(c, to, r, HopsOf(hops[..i + 1]), HopsOf(hops));
          return true;
        }
      }
      assert hops[..|hops|] == hops;
      stop := false;
    }

    // ------------------------------------------------------------------------
    // Plans
    // ------------------------------------------------------------------------

    method Visit(p: Plan)
      requires CanVisit(p)
      modifies dest, dest.deps, registry
      ensures Visited(mode, W(), limit, Height(p), p, start, old(Now()), Now())
      // A vertex that doesn't match at the start leaves no trace, not even a dependency on the vertex.
      ensures MissesStart(p, query.graph, start) ==> Now() == old(Now())
      ensures IsSilent(p, query.graph, start) ==> Now() == WithDrafts(old(Now()), dest.subgraphs)
      decreases p, 2
    {
      hide Visited, CanVisit, Height;
      match p
      case PVertex(_) => VisitVertex(p);
      case PEdge(_) => VisitEdge(p);
      case PNoop => VisitNoop(p);
      case PPath(_) => VisitPath(p);
      case PPathToVertex(_, _, _) => VisitPathToVertex(p);
      case PConcatenation(_) => VisitConcatenation(p);
      case POr(_) => VisitOr(p);
      case PAndWithoutSetRef(_) => VisitAndWithout(p);
      case PAnd(_) => VisitAnd(p);
      case PAllAnd(_) => VisitAllAnd(p);
      case PNested(_, _) => VisitNested(p);
      case PRepetition(_, _, _) => VisitRepetition(p);
      case _ => VisitUnary(p);
    }

    // Operators with one operand.
    method VisitUnary(p: Plan)
      requires IsUnary(p) && CanVisit(p)
      modifies dest, dest.deps, registry
      ensures Visited(mode, W(), limit, Height(p), p, start, old(Now()), Now())
      ensures MissesStart(p, query.graph, start) ==> Now() == old(Now())
      ensures IsSilent(p, query.graph, start) ==> Now() == WithDrafts(old(Now()), dest.subgraphs)
      decreases p, 1
    {
      hide Visited, CanVisit, Height;
      match p
      case PAllWithoutSetRef(_) => VisitAllWithout(p);
      case PAll(_) => VisitAll(p);
      case PIfWithoutSetRef(_) => VisitIfWithout(p);
      case PIf(_) => VisitIf(p);
      case PUnlessWithoutSetNonLocalRef(_, _) => VisitUnlessWithout(p);
      case PUnless(_, _) => VisitUnless(p);
      case PSkip(_) => VisitSkip(p);
      case PMaybe(_) => VisitMaybe(p);
    }

    // Matches an operand into drafts of its own.
    method VisitApart(m: Mode, op: Plan, at: Start) returns (es: seq<Draft>)
      requires QueryOk(query) && ReadyIn(W(), limit, Now()) && at.origin == start.origin
      requires Plans.Valid(op) && Supported(op, SetNames(at.refs)) && FitsIn(W(), limit, op, at.position)
      modifies dest.deps, registry
      ensures Visited(m, W(), limit, Height(op), op, at, WithDrafts(old(Now()), []), WithDrafts(Now(), es))
      ensures MissesStart(op, query.graph, at) ==> es == [] && Now() == old(Now())
      decreases op, 3
    {
      hide Visited, Supported, Plans.Valid, Fits, Served, MissesStart;
      var qs := new QuerySetDraft(dest.deps);
      var visitor := new MatchVisitor(m, query, registry, at, qs, limit);
      visitor.Visit(op);
      es := qs.subgraphs;
    }

    method VisitVertex(p: Plan)
      requires p.PVertex? && CanVisit(p)
      modifies dest, dest.deps, registry
      ensures Visited(mode, W(), limit, Height(p), p, start, old(Now()), Now())
      ensures MissesStart(p, query.graph, start) ==> Now() == old(Now())
      decreases p, 0
    {
      ghost var was, m, steps := Now(), p.vertex, [VertexStep(p.vertex)];
      VertexIsSteps(m);
      var matched := MatchVertexAt(p.vertex, start.position, start.refs);
      if matched.None? {
        WalkedNowhere(mode, query.graph, steps, start.origin, start.origin, start.position, start.refs,
            Content({}, {}, {}), was);
        WalkedIsVisited(mode, W(), limit, Height(p), p, steps, start, start.origin, was, Now());
        return;
      }
      ghost var before := Now();
      var d := Draft(start.origin, [start.position.WithKind(ORBIT)], if mode.Normal? then [start.position.v] else [],
          [], matched.value);
      dest.subgraphs := dest.subgraphs + [d];
      assert steps[1..] == [];
      WalkedToEnd(mode, query.graph, start.origin, start.origin, start.position.WithKind(ORBIT), matched.value,
                  WithVertex(Content({}, {}, {}), start.position.v), d, before, Now());
      WalkedVertex(mode, query.graph, steps, start.origin, start.origin, start.position, start.refs,
          Content({}, {}, {}), was, before, Now());
      WalkedIsVisited(mode, W(), limit, Height(p), p, steps, start, start.origin, was, Now());
    }

    method VisitEdge(p: Plan)
      requires p.PEdge? && CanVisit(p)
      modifies dest, dest.deps, registry
      ensures Visited(mode, W(), limit, Height(p), p, start, old(Now()), Now())
      decreases p, 0
    {
      EdgeIsSteps(p.edge);
      ghost var was := Now();
      var buf := new PathBuffers();
      var stop := VisitItems([EdgeStep(p.edge)], 0, NoTail, start.position, start.position, start.refs, buf,
          Content({}, {}, {}));
      assert RestOf([EdgeStep(p.edge)], 0, NoTail) == [EdgeStep(p.edge)];
      WalkedIsVisited(mode, W(), limit, Height(p), p, [EdgeStep(p.edge)], start, start.position, was, Now());
    }

    method VisitNoop(p: Plan)
      requires p.PNoop? && CanVisit(p)
      modifies dest, dest.deps, registry
      ensures Visited(mode, W(), limit, Height(p), p, start, old(Now()), Now())
      decreases p, 0
    {
      ghost var was := Now();
      var d := Draft(start.origin, [start.position], [], [], start.refs);
      dest.subgraphs := dest.subgraphs + [d];
      NoopVisited(mode, W(), limit, start, d, was, Now());
    }

    method VisitPath(p: Plan)
      requires p.PPath? && CanVisit(p)
      modifies dest, dest.deps, registry
      ensures Visited(mode, W(), limit, Height(p), p, start, old(Now()), Now())
      ensures MissesStart(p, query.graph, start) ==> Now() == old(Now())
      decreases p, 0
    {
      PathIsSteps(p.path);
      ghost var was := Now();
      var buf := new PathBuffers();
      var first := if p.path.start.CORE? then start.origin else start.position;
      var stop := VisitItems(p.path.Items(), 0, NoTail, first, start.position, start.refs, buf, Content({}, {}, {}));
      assert RestOf(p.path.Items(), 0, NoTail) == p.path.Items();
      WalkedIsVisited(mode, W(), limit, Height(p), p, p.path.Items(), start, first, was, Now());
    }

    method VisitPathToVertex(p: Plan)
      requires p.PPathToVertex? && CanVisit(p)
      modifies dest, dest.deps, registry
      ensures Visited(mode, W(), limit, Height(p), p, start, old(Now()), Now())
      ensures MissesStart(p, query.graph, start) ==> Now() == old(Now())
      decreases p, 0
    {
      PathToVertexIsSteps(p.prefix, p.edge, p.vertex);
      ghost var was := Now();
      var buf := new PathBuffers();
      var first := if p.prefix.Length() > 0 && p.prefix.start.CORE? then start.origin else start.position;
      var stop := VisitItems(p.prefix.Items(), 0, ToVertex(p.edge, p.vertex), first, start.position, start.refs, buf,
          Content({}, {}, {}));
      ghost var steps := PathToVertexSteps(p.prefix, p.edge, p.vertex);
      assert RestOf(p.prefix.Items(), 0, ToVertex(p.edge, p.vertex)) == steps;
      WalkedIsVisited(mode, W(), limit, Height(p), p, steps, start, first, was, Now());
    }

    method VisitConcatenation(p: Plan)
      requires p.PConcatenation? && CanVisit(p)
      modifies dest, dest.deps, registry
      ensures Visited(mode, W(), limit, Height(p), p, start, old(Now()), Now())
      ensures MissesStart(p, query.graph, start) ==> Now() == old(Now())
      decreases p, 1
    {
      hide Visited, Supported, Height;
      assert p.operands[0..] == p.operands;
      VisitTail(p, 0);
    }

    // Matches the operands from the given one on.
    method VisitTail(p: Plan, i: nat)
      requires p.PConcatenation? && i < |p.operands| && CanVisit(PConcatenation(p.operands[i..]))
      modifies dest, dest.deps, registry
      ensures var rest := PConcatenation(p.operands[i..]);
          Visited(mode, W(), limit, Height(rest), rest, start, old(Now()), Now())
      ensures MissesStart(p.operands[i], query.graph, start) ==> Now() == old(Now())
      decreases p, 0, |p.operands| - i, 0, 0
    {
      ghost var was, ops := Now(), p.operands[i..];
      ghost var tall := Height(PConcatenation(ops));
      HeightOfTail(ops);
      TailFits(W(), limit, ops, start.position);
      HeadIsSupported(ops, SetNames(start.refs));
      assert p.operands[i] == ops[0] && ops[0] in ops;
      if i + 1 == |p.operands| {
        assert ops == [p.operands[i]];
        Visit(p.operands[i]);
        ServedTaller(W(), limit, tall, Height(p.operands[i]), was, Now());
        ConcatOfOne(mode, W(), p.operands[i], start, NewDrafts(was, Now()), NewObs(was, Now()));
        return;
      }
      assert ops[1..] == p.operands[i + 1..];
      var hs := VisitApart(AllMatches(mode), p.operands[i], start);
      ghost var head := WithDrafts(Now(), hs);
      ghost var from := Now();
      assert from == WithDrafts(head, was.drafts);
      ghost var visited := {};
      NotTailed(mode, W(), limit, tall, ops, start, from);
      for j := 0 to |hs|
        invariant Begun() && visited == PairsIn(hs[..j])
        invariant Tailed(mode, W(), limit, tall, ops, start, visited, from, Now())
        invariant hs == [] ==> Now() == from
      {
        PairsInSnoc(hs, j);
        var stop;
        stop, visited := VisitTails(p, i, hs, j, from, visited);
        if stop {
          ConcatVisited(mode, W(), limit, ops, start, visited, was, head, Now());
          return;
        }
      }
      assert hs[..|hs|] == hs;
      ConcatVisited(mode, W(), limit, ops, start, visited, was, head, Now());
    }

    // Continues a match of the head with the operands after it, from all its ends or from enough of them.
    method VisitTails(p: Plan, i: nat, hs: seq<Draft>, j: nat, ghost from: Snapshot,
        ghost before: set<(Body, Position)>)
      returns (stop: bool, ghost visited: set<(Body, Position)>)
      requires p.PConcatenation? && i + 1 < |p.operands| && CanVisit(PConcatenation(p.operands[i..])) && j < |hs|
      requires ReadyIn(W(), limit, from) && (mode.First? ==> |from.drafts| == base)
      requires Found(AllMatches(mode), Sem(W(), p.operands[i], start.position, start.refs), hs) && StartsOk(start, hs)
      requires Tailed(mode, W(), limit, Height(PConcatenation(p.operands[i..])), p.operands[i..], start, before, from,
          Now())
      modifies dest, dest.deps, registry
      ensures Tailed(mode, W(), limit, Height(PConcatenation(p.operands[i..])), p.operands[i..], start, visited, from,
          Now())
      ensures if stop then mode.First? && NewDrafts(from, Now()) != []
        else Begun() && visited == before + PairsOfEnds(hs[j], hs[j].ends)
      decreases p, 0, |p.operands| - i - 1, 2
    {
      ghost var ops := p.operands[i..];
      ghost var tall := Height(PConcatenation(ops));
      HeightOfTail(ops);
      assert ops[1..] == p.operands[i + 1..] && forall o :: o in ops[1..] ==> o in ops;
      var h := hs[j];
      ghost var body := BodyOfHead(mode, W(), ops[0], start.position, start.refs, hs, h);
      TailIsSupported(W(), ops, start.position, start.refs, body);
      TailFits(W(), limit, ops, start.position);
      ghost var rest := PConcatenation(ops[1..]);
      forall q | q in h.ends ensures FitsIn(W(), limit, rest, q) {
        FitsAtEnd(W(), limit, ops[0], start.position, start.refs, body, q, rest, Now().cache);
      }
      visited := before;
      for k := 0 to |h.ends|
        invariant Begun() && visited == before + PairsOfEnds(h, h.ends[..k])
        invariant Tailed(mode, W(), limit, tall, ops, start, visited, from, Now())
      {
        PairsOfEndsSnoc(h, k);
        VisitOneTail(p, i, hs, h, h.ends[k], from, visited);
        visited := visited + {(BodyOf(h), h.ends[k])};
        if Enough() {
          return true, visited;
        }
      }
      assert h.ends[..|h.ends|] == h.ends;
      stop := false;
    }

    method VisitOneTail(p: Plan, i: nat, hs: seq<Draft>, h: Draft, q: Position, ghost from: Snapshot,
        ghost visited: set<(Body, Position)>)
      requires p.PConcatenation? && i + 1 < |p.operands| && CanVisit(PConcatenation(p.operands[i..])) && h in hs &&
          q in h.ends
      requires ReadyIn(W(), limit, from)
      requires Found(AllMatches(mode), Sem(W(), p.operands[i], start.position, start.refs), hs) && StartsOk(start, hs)
      requires Supported(PConcatenation(p.operands[i + 1..]), SetNames(h.refs))
      requires FitsIn(W(), limit, PConcatenation(p.operands[i + 1..]), q)
      requires Tailed(mode, W(), limit, Height(PConcatenation(p.operands[i..])), p.operands[i..], start, visited, from,
          Now())
      modifies dest, dest.deps, registry
      ensures Tailed(mode, W(), limit, Height(PConcatenation(p.operands[i..])), p.operands[i..], start,
          visited + {(BodyOf(h), q)}, from, Now())
      ensures ReadyIn(W(), limit, Now()) && |dest.subgraphs| >= base
      decreases p, 0, |p.operands| - i - 1, 1
    {
      ghost var ops, b := p.operands[i..], Now();
      ghost var tall := Height(PConcatenation(ops));
      HeightOfTail(ops);
      assert ops[1..] == p.operands[i + 1..] && forall o :: o in ops[1..] ==> o in ops;
      var ts := VisitTailApart(p, i + 1, Start(start.origin, q, h.refs));
      ghost var t := WithDrafts(Now(), ts);
      var es := ConcatenateAll(h, ts);
      dest.subgraphs := dest.subgraphs + es;
      TailedOnce(mode, W(), limit, tall, ops, start, hs, visited, h, q, es, from, b, t);
    }

    method VisitTailApart(p: Plan, i: nat, at: Start) returns (ts: seq<Draft>)
      requires QueryOk(query) && ReadyIn(W(), limit, Now()) && at.origin == start.origin
      requires p.PConcatenation? && i < |p.operands|
      requires var rest := PConcatenation(p.operands[i..]);
        Plans.Valid(rest) && Supported(rest, SetNames(at.refs)) && FitsIn(W(), limit, rest, at.position)
      modifies dest.deps, registry
      ensures var rest := PConcatenation(p.operands[i..]);
        Visited(mode, W(), limit, Height(rest), rest, at, WithDrafts(old(Now()), []), WithDrafts(Now(), ts))
      decreases p, 0, |p.operands| - i, 0, 1
    {
      var qs := new QuerySetDraft(dest.deps);
      var visitor := new MatchVisitor(mode, query, registry, at, qs, limit);
      visitor.VisitTail(p, i);
      ts := qs.subgraphs;
    }

    method VisitOr(p: Plan)
      requires p.POr? && CanVisit(p)
      modifies dest, dest.deps, registry
      ensures Visited(mode, W(), limit, Height(p), p, start, old(Now()), Now())
      ensures MissesStart(p, query.graph, start) ==> Now() == old(Now())
      decreases p, 0
    {
      hide Supported, Plans.Valid, Height, Fits, Ready, Grown, Good;
      ghost var was, ops := Now(), p.operands;
      OrEmpty(mode, W(), start);
      NothingNew(was, start.origin);
      NothingServed(W(), limit, Height(p), was);
      assert ops[..0] == [];
      for i := 0 to |p.operands|
        invariant Begun() && Visited(mode, W(), limit, Height(p), POr(ops[..i]), start, was, Now())
        invariant MissesStart(p, query.graph, start) ==> Now() == was
      {
        ghost var before := Now();
        assert ops[i] in ops;
        HeightOfOperand(p, ops[i]);
        OperandFits(W(), limit, p, ops[i], start.position);
        OperandIsSupported(p, ops[i], SetNames(start.refs));
        Visit(p.operands[i]);
        OrVisited(mode, W(), limit, Height(p), ops, i, start, was, before, Now());
        if Enough() {
          OrEnough(W(), ops, i + 1, start, NewDrafts(was, Now()), NewObs(was, Now()));
          return;
        }
      }
      assert ops[..|ops|] == ops;
    }

    // Matches one of the operands that are joined, after the drafts of others.
    method VisitOperand(p: Plan, i: nat, m: Mode, ghost qs: seq<Draft>) returns (es: seq<Draft>)
      requires (IsJoin(p) || p.PAndWithoutSetRef?) && i < |p.operands| && CanVisit(p)
      modifies dest.deps, registry
      ensures Visited(m, W(), limit, Height(p.operands[i]), p.operands[i], start, WithDrafts(old(Now()), qs),
          WithDrafts(Now(), qs + es))
      ensures MissesStart(p.operands[i], query.graph, start) ==> es == [] && Now() == old(Now())
      ensures Begun() && dest.subgraphs == old(dest.subgraphs)
      decreases p.operands[i], 4
    {
      ghost var before := WithDrafts(Now(), qs);
      assert p.operands[i] in p.operands;
      OperandFits(W(), limit, p, p.operands[i], start.position);
      OperandIsSupported(p, p.operands[i], SetNames(start.refs));
      hide Supported, Plans.Valid, Height, Fits, Served, Good;
      es := VisitApart(m, p.operands[i], start);
      AppendedVisit(m, W(), limit, p.operands[i], start, before, WithDrafts(Now(), es));
    }

    method VisitAndWithout(p: Plan)
      requires p.PAndWithoutSetRef? && CanVisit(p)
      modifies dest, dest.deps, registry
      ensures Visited(mode, W(), limit, Height(p), p, start, old(Now()), Now())
      ensures MissesStart(p, query.graph, start) ==> Now() == old(Now())
      decreases p, 0
    {
      hide Supported, Plans.Valid, Height, Fits, Served, Good;
      ghost var was, ops := Now(), p.operands;
      ghost var from := WithDrafts(was, []);
      var qs: seq<Draft> := [];
      AndNotTried(mode, W(), limit, Height(p), ops, start, from);
      for i := 0 to |p.operands|
        invariant Begun() && dest.subgraphs == was.drafts
        invariant AndTried(mode, W(), limit, Height(p), ops, i, start, from, WithDrafts(Now(), qs))
        invariant ops != [] && MissesStart(ops[0], query.graph, start) ==> i == 0 && Now() == was
      {
        ghost var before := WithDrafts(Now(), qs);
        HeightOfOperand(p, ops[i]);
        var es := VisitOperand(p, i, mode, qs);
        ghost var after := WithDrafts(Now(), qs + es);
        if es == [] {
          // Operand i is without drafts, and so is the join.
          JoinExits(mode, W(), limit, p, mode, i, start, was, before, after);
          return;
        }
        AndTriedOnce(mode, W(), limit, Height(p), ops, i, start, from, before, after);
        qs := qs + es;
      }
      ghost var b := WithDrafts(Now(), qs);
      dest.subgraphs := dest.subgraphs + qs;
      AndVisited(mode, W(), limit, p, start, was, b);
    }

    // Matches operands into one list of drafts, remembering the operand of each. Tells whether all of
    // them matched.
    method MatchOperands(p: Plan) returns (ok: bool, qs: seq<Draft>, idx: seq<nat>)
      requires IsJoin(p) && CanVisit(p)
      modifies dest.deps, registry
      ensures ok ==> OperandsMatched(AllMatches(mode), W(), limit, Height(p), p.operands, |p.operands|, start, idx,
                                     WithDrafts(old(Now()), []), WithDrafts(Now(), qs))
      ensures !ok ==> Visited(mode, W(), limit, Height(p), p, start, old(Now()), Now())
      ensures p.operands != [] && MissesStart(p.operands[0], query.graph, start) ==> !ok && Now() == old(Now())
      decreases p, 0, 0
    {
      hide Supported, Plans.Valid, Height, Fits, Served, Good;
      ghost var was, ops, m := Now(), p.operands, AllMatches(mode);
      ghost var from := WithDrafts(was, []);
      qs, idx := [], [];
      NoOperandsMatched(m, W(), limit, Height(p), ops, start, from);
      for i := 0 to |p.operands|
        invariant Begun() && dest.subgraphs == was.drafts
        invariant OperandsMatched(m, W(), limit, Height(p), ops, i, start, idx, from, WithDrafts(Now(), qs))
        invariant ops != [] && MissesStart(ops[0], query.graph, start) ==> i == 0 && Now() == was
      {
        ghost var before := WithDrafts(Now(), qs);
        HeightOfOperand(p, ops[i]);
        var es := VisitOperand(p, i, AllMatches(mode), qs);
        ghost var after := WithDrafts(Now(), qs + es);
        if es == [] {
          JoinExits(mode, W(), limit, p, m, i, start, was, before, after);
          return false, [], [];
        }
        var more: seq<nat> := seq(|es|, _ => i);
        OperandMatched(m, W(), limit, Height(p), ops, i, start, idx, more, from, before, after);
        qs, idx := qs + es, idx + more;
      }
      ok := true;
    }

    method VisitAnd(p: Plan)
      requires p.PAnd? && CanVisit(p)
      modifies dest, dest.deps, registry
      ensures Visited(mode, W(), limit, Height(p), p, start, old(Now()), Now())
      ensures MissesStart(p, query.graph, start) ==> Now() == old(Now())
      decreases p, 0
    {
      ghost var was := Now();
      var ok, qs, idx := MatchOperands(p);
      if !ok {
        return;
      }
      var ds := JoinAnd(qs, idx, |p.operands|);
      dest.subgraphs := dest.subgraphs + ds;
      JoinVisited(mode, W(), limit, p, start, idx, ds, was, WithDrafts(Now(), qs));
    }

    method VisitAllAnd(p: Plan)
      requires p.PAllAnd? && CanVisit(p)
      modifies dest, dest.deps, registry
      ensures Visited(mode, W(), limit, Height(p), p, start, old(Now()), Now())
      ensures MissesStart(p, query.graph, start) ==> Now() == old(Now())
      decreases p, 0
    {
      ghost var was := Now();
      var ok, qs, idx := MatchOperands(p);
      if !ok {
        return;
      }
      var ds := JoinAll(qs, idx, |p.operands|);
      dest.subgraphs := dest.subgraphs + ds;
      JoinVisited(mode, W(), limit, p, start, idx, ds, was, WithDrafts(Now(), qs));
    }

    method VisitAllWithout(p: Plan)
      requires p.PAllWithoutSetRef? && CanVisit(p)
      modifies dest, dest.deps, registry
      ensures Visited(mode, W(), limit, Height(p), p, start, old(Now()), Now())
      ensures MissesStart(p, query.graph, start) ==> Now() == old(Now())
      decreases p, 0
    {
      ghost var was := Now();
      var es := VisitApart(mode, p.operand, start);
      ghost var b := WithDrafts(Now(), es);
      var ds: seq<Draft> := [];
      if es != [] {
        var d := MergeEverything(es, start.refs);
        ds := [d];
        OneBody(d);
      }
      dest.subgraphs := dest.subgraphs + ds;
      AllWithoutGood(mode, W(), p.operand, start, es, ds, NewObs(WithDrafts(was, []), b));
      UnaryVisited(mode, mode, W(), limit, p, p.operand, start, ds, was, b);
    }

    method VisitAll(p: Plan)
      requires p.PAll? && CanVisit(p)
      modifies dest, dest.deps, registry
      ensures Visited(mode, W(), limit, Height(p), p, start, old(Now()), Now())
      ensures MissesStart(p, query.graph, start) ==> Now() == old(Now())
      decreases p, 0
    {
      ghost var was := Now();
      var es := VisitApart(mode, p.operand, start);
      ghost var b := WithDrafts(Now(), es);
      var ds: seq<Draft> := [];
      if es != [] {
        var idx: seq<nat> := seq(|es|, _ => 0);
        OneOperand(es, idx);
        ds := JoinAll(es, idx, 1);
        assert AllKept(start.refs, es) ==> AllKept(start.refs, ds) by {
          assert AllHave(es, start.refs) ==> AllHave(ds, start.refs);
        }
      } else {
        AllOfOneEmptiness({});
      }
      dest.subgraphs := dest.subgraphs + ds;
      AllGood(mode, W(), p.operand, start, es, ds, NewObs(WithDrafts(was, []), b));
      UnaryVisited(mode, mode, W(), limit, p, p.operand, start, ds, was, b);
    }

    method VisitIfWithout(p: Plan)
      requires p.PIfWithoutSetRef? && CanVisit(p)
      modifies dest, dest.deps, registry
      ensures Visited(mode, W(), limit, Height(p), p, start, old(Now()), Now())
      ensures MissesStart(p, query.graph, start) ==> Now() == old(Now())
      decreases p, 0
    {
      ghost var was := Now();
      // Emptiness is all that counts, because no draft narrows the refs.
      var es := VisitApart(First, p.operand, start);
      ghost var b := WithDrafts(Now(), es);
      var ds := if es == [] then [] else [es[0].(ends := [start.position], vertices := [], edges := [])];
      dest.subgraphs := dest.subgraphs + ds;
      IfWithoutGood(mode, W(), p.operand, start, es, ds, NewObs(WithDrafts(was, []), b));
      UnaryVisited(mode, First, W(), limit, p, p.operand, start, ds, was, b);
    }

    method VisitIf(p: Plan)
      requires p.PIf? && CanVisit(p)
      modifies dest, dest.deps, registry
      ensures Visited(mode, W(), limit, Height(p), p, start, old(Now()), Now())
      ensures MissesStart(p, query.graph, start) ==> Now() == old(Now())
      decreases p, 0
    {
      ghost var was := Now();
      var es := VisitApart(NoContents(mode), p.operand, start);
      ghost var b := WithDrafts(Now(), es);
      var different: set<Refs> := {};
      var ds: seq<Draft> := [];
      for i := 0 to |es|
        invariant different == DraftRefs(es[..i]) == DraftRefs(ds) && Blank(start, ds) && (es == [] ==> ds == [])
      {
        assert es[..i + 1] == es[..i] + [es[i]];
        if es[i].refs !in different {
          different := different + {es[i].refs};
          ds := ds + [es[i].(ends := [start.position], vertices := [], edges := [])];
        }
      }
      assert es[..|es|] == es;
      dest.subgraphs := dest.subgraphs + ds;
      IfGood(mode, W(), p.operand, start, es, ds, NewObs(WithDrafts(was, []), b));
      UnaryVisited(mode, NoContents(mode), W(), limit, p, p.operand, start, ds, was, b);
    }

    method VisitUnlessWithout(p: Plan)
      requires p.PUnlessWithoutSetNonLocalRef? && CanVisit(p)
      modifies dest, dest.deps, registry
      ensures Visited(mode, W(), limit, Height(p), p, start, old(Now()), Now())
      ensures MissesStart(p.operand, query.graph, start) ==> Now() == WithDrafts(old(Now()), dest.subgraphs)
      decreases p, 0
    {
      ghost var was := Now();
      // Shared refs stay as they are: the negation holds exactly when there is no draft at all.
      var es := VisitApart(First, p.operand, start);
      ghost var b := WithDrafts(Now(), es);
      var ds := if es == [] then [Draft(start.position, [start.position], [], [], start.refs)] else [];
      dest.subgraphs := dest.subgraphs + ds;
      UnlessWithoutGood(mode, W(), p, start, es, ds, NewObs(WithDrafts(was, []), b));
      UnaryVisited(mode, First, W(), limit, p, p.operand, start, ds, was, b);
    }

    method VisitUnless(p: Plan)
      requires p.PUnless? && CanVisit(p)
      modifies dest, dest.deps, registry
      ensures Visited(mode, W(), limit, Height(p), p, start, old(Now()), Now())
      ensures MissesStart(p.operand, query.graph, start) ==> Now() == WithDrafts(old(Now()), dest.subgraphs)
      decreases p, 0
    {
      ghost var was := Now();
      var es := VisitApart(RefsOnly, p.operand, start);
      ghost var b := WithDrafts(Now(), es);
      var terms := UncoveredTerms(start.refs, es, p.shared);
      var ds: seq<Draft> := [];
      for i := 0 to |terms|
        invariant Now() == WithDrafts(b, was.drafts)
        invariant Blank(start, ds) && DraftRefs(ds) == Elems(terms[..i])
      {
        ElemsPrefix(terms, i);
        ds := ds + [Draft(start.position, [start.position], [], [], terms[i])];
      }
      ElemsWhole(terms);
      dest.subgraphs := dest.subgraphs + ds;
      UnlessTerms(start.refs, es, p.shared);
      UnlessGood(mode, W(), p, start, es, ds, NewObs(WithDrafts(was, []), b));
      UnaryVisited(mode, RefsOnly, W(), limit, p, p.operand, start, ds, was, b);
    }

    method VisitSkip(p: Plan)
      requires p.PSkip? && CanVisit(p)
      modifies dest, dest.deps, registry
      ensures Visited(mode, W(), limit, Height(p), p, start, old(Now()), Now())
      ensures MissesStart(p, query.graph, start) ==> Now() == old(Now())
      decreases p, 0
    {
      ghost var was := Now();
      var es := VisitApart(NoContents(mode), p.operand, start);
      ghost var b := WithDrafts(Now(), es);
      var ds: seq<Draft> := [];
      for i := 0 to |es|
        invariant |ds| == i && forall j :: 0 <= j < i ==> ds[j] == es[j].(vertices := [], edges := [])
      {
        ds := ds + [es[i].(vertices := [], edges := [])];
      }
      dest.subgraphs := dest.subgraphs + ds;
      SkipGood(mode, W(), p.operand, start, es, ds, NewObs(WithDrafts(was, []), b));
      UnaryVisited(mode, NoContents(mode), W(), limit, p, p.operand, start, ds, was, b);
    }

    method VisitMaybe(p: Plan)
      requires p.PMaybe? && CanVisit(p)
      modifies dest, dest.deps, registry
      ensures Visited(mode, W(), limit, Height(p), p, start, old(Now()), Now())
      ensures MissesStart(p.operand, query.graph, start) ==> Now() == WithDrafts(old(Now()), dest.subgraphs)
      decreases p, 0
    {
      ghost var was := Now();
      var before := |dest.subgraphs|;
      Visit(p.operand);
      ghost var now := Now();
      ghost var es := NewDrafts(was, now);
      if |dest.subgraphs| == before {
        dest.subgraphs := dest.subgraphs + [Draft(start.position, [start.position], [], [], start.refs)];
      }
      assert NewObs(was, Now()) == NewObs(was, now);
      MaybeGood(mode, W(), p.operand, start, es, NewDrafts(was, Now()), NewObs(was, now));
    }

    method VisitNested(p: Plan)
      requires p.PNested? && CanVisit(p)
      modifies dest, dest.deps, registry
      ensures Visited(mode, W(), limit, Height(p), p, start, old(Now()), Now())
      decreases p, 0
    {
      hide Good, AreCached, NestedSem, CachedSome;
      ghost var was := Now();
      NestedIsSupported(p, start.refs);
      if registry == null {
        Visit(p.plan);
        ServedTaller(W(), limit, Height(p), Height(p.plan), was, Now());
        InPlaceGood(mode, W(), p, start, NewDrafts(was, Now()), NewObs(was, Now()));
        return;
      }
      // The key of the entry has no refs but those of mentioned names.
      var n := NestedStart(p.names, p.plan, start.position, Restrict(start.refs, p.names));
      Log(NestedSubgraph(n));
      var cached := registry.Get(query, n, limit);
      ghost var now := Now();
      assert Logged(was, now, start.origin) && NewObs(was, now) == {NestedSubgraph(n)};
      ghost var some := AddCached(cached);
      CachedVisited(mode, W(), limit, p, start, some, was, Now());
    }

    // Adds cached subgraphs, within the region of the refs of the start.
    method AddCached(cached: set<Body>) returns (ghost some: set<Body>)
      requires mode.First? ==> base == |dest.subgraphs|
      modifies dest`subgraphs
      ensures old(dest.subgraphs) <= dest.subgraphs
      ensures some <= cached && (some == cached || (mode.First? && dest.subgraphs[|old(dest.subgraphs)|..] != []))
      ensures CachedSome(mode, start, some, dest.subgraphs[|old(dest.subgraphs)|..])
    {
      var list := Listed(cached);
      ghost var was := dest.subgraphs;
      some := {};
      CachedNone(mode, start.refs);
      for i := 0 to |list|
        invariant was <= dest.subgraphs && (mode.First? ==> base == |dest.subgraphs|)
        invariant some == Elems(list[..i]) && CachedSome(mode, start, some, dest.subgraphs[|was|..])
      {
        ghost var before := dest.subgraphs[|was|..];
        ElemsPrefix(list, i);
        var b := list[i];
        var combined := Meet(start.refs, b.refs);
        if combined.None? {
          CachedNoMore(mode, start, some, b, before);
        } else {
          var d := DraftOf(start.position, b, combined.value, mode.Normal?);
          dest.subgraphs := dest.subgraphs + [d];
          CachedOneMore(mode, start, some, b, before, d);
          assert dest.subgraphs[|was|..] == before + [d];
        }
        some := some + {b};
        if mode.First? && |dest.subgraphs| > base {
          assert some <= cached by { assert list[..i + 1] <= list; }
          return;
        }
      }
      ElemsWhole(list);
    }

    // Continues the chain with all matches of the operand from all its ends.
    method VisitChain(op: Plan, chain: Draft) returns (es: seq<Draft>)
      requires QueryOk(query) && ReadyIn(W(), limit, Now())
      requires Plans.Valid(op) && Supported(op, SetNames(chain.refs))
      requires forall q :: q in chain.ends ==> FitsIn(W(), limit, op, q)
      requires !mode.Normal? ==> StripContent(BodyOf(chain).content) == BodyOf(chain).content
      modifies dest.deps, registry
      ensures ChainVisited(AllMatches(mode), W(), limit, op, start.origin, chain, Elems(chain.ends), es, old(Now()),
          Now())
      decreases op, 4
    {
      hide Supported, Plans.Valid, Height, Fits, Ready, Grown, Good;
      ghost var was, m := Now(), AllMatches(mode);
      es := [];
      ChainNotContinued(m, W(), limit, op, start.origin, chain, was);
      assert Elems(chain.ends[..0]) == {};
      for i := 0 to |chain.ends|
        invariant QueryOk(query) && ReadyIn(W(), limit, Now())
        invariant ChainVisited(m, W(), limit, op, start.origin, chain, Elems(chain.ends[..i]), es, was, Now())
      {
        ghost var b := Now();
        var ts := VisitApart(AllMatches(mode), op, Start(start.origin, chain.ends[i], chain.refs));
        var more := ConcatenateAll(chain, ts);
        ContinuedOnce(m, W(), limit, op, start.origin, chain, Elems(chain.ends[..i]), chain.ends[i], es, more, was, b,
            WithDrafts(Now(), ts));
        ElemsPrefix(chain.ends, i);
        es := es + more;
      }
      ElemsWhole(chain.ends);
    }

    method VisitRepetition(p: Plan)
      requires p.PRepetition? && CanVisit(p)
      modifies dest, dest.deps, registry
      ensures Visited(mode, W(), limit, Height(p), p, start, old(Now()), Now())
      decreases p, 0, 1
    {
      hide AtRound, Supported, Plans.Valid, Height;
      ghost var was := Now();
      var chains := [Draft(start.origin, [start.position], [], [], start.refs)];
      var repeats: nat := 0;
      FirstRound(mode, W(), limit, p, start, was);
      while chains != []
        invariant Begun() && AtRound(mode, W(), limit, p, repeats, start, chains, was, Now())
        decreases p.max + 1 - repeats
      {
        RoundsRunOut(mode, W(), limit, p, repeats, start, chains, was, Now());
        var done;
        done, chains := VisitRound(p, repeats, chains, was);
        if done {
          return;
        }
        repeats := repeats + 1;
      }
      RoundsEnd(mode, W(), limit, p, repeats, start, was, Now());
    }

    // Continues a chain, unless it's as long as allowed.
    method TakeTurn(p: Plan, repeats: nat, chain: Draft) returns (es: seq<Draft>)
      requires p.PRepetition? && CanVisit(p) && Supported(p.operand, SetNames(chain.refs))
      requires forall q :: q in chain.ends ==> FitsIn(W(), limit, p.operand, q)
      requires !mode.Normal? ==> StripContent(BodyOf(chain).content) == BodyOf(chain).content
      modifies dest.deps, registry
      ensures ChainTurn(mode, W(), limit, p, repeats, start, chain, es, old(Now()), Now())
      ensures Begun()
      decreases p, 0, 0, 0
    {
      if repeats >= p.max {
        return [];
      }
      es := VisitChain(p.operand, chain);
    }

    // Continues all the chains of a round. Tells whether enough of them ended.
    method VisitRound(p: Plan, repeats: nat, chains: seq<Draft>, ghost was: Snapshot)
        returns (done: bool, continued: seq<Draft>)
      requires p.PRepetition? && CanVisit(p) && chains != [] && repeats <= p.max
      requires AtRound(mode, W(), limit, p, repeats, start, chains, was, Now())
      requires mode.First? ==> |was.drafts| == base
      modifies dest, dest.deps, registry
      ensures done ==> Visited(mode, W(), limit, Height(p), p, start, was, Now())
      ensures !done ==> Begun() && AtRound(mode, W(), limit, p, repeats + 1, start, continued, was, Now())
      decreases p, 0, 0, 2
    {
      ghost var begun := Now();
      continued := [];
      EnterRound(mode, W(), limit, p, repeats, start, chains, was, begun);
      for i := 0 to |chains|
        invariant Begun() && InRound(mode, W(), limit, p, repeats, start, chains, i, continued, was, begun, Now())
      {
        var es;
        done, es := VisitChainInRound(p, repeats, chains, i, continued, was, begun);
        if done {
          return true, [];
        }
        continued := continued + es;
      }
      LeaveRound(mode, W(), limit, p, repeats, start, chains, continued, was, begun, Now());
      done := false;
    }

    method VisitChainInRound(p: Plan, repeats: nat, chains: seq<Draft>, i: nat, ghost continued: seq<Draft>,
                             ghost was: Snapshot, ghost begun: Snapshot) returns (done: bool, es: seq<Draft>)
      requires p.PRepetition? && CanVisit(p) && i < |chains| && (mode.First? ==> |was.drafts| == base)
      requires InRound(mode, W(), limit, p, repeats, start, chains, i, continued, was, begun, Now())
      modifies dest, dest.deps, registry
      ensures done ==> Visited(mode, W(), limit, Height(p), p, start, was, Now())
      ensures !done ==> Begun() && InRound(mode, W(), limit, p, repeats, start, chains, i + 1, continued + es, was,
          begun, Now())
      decreases p, 0, 0, 1
    {
      hide InRound, ChainTurn, Visited, Served, Supported, Height;
      ghost var before := Now();
      ChainInRoundIsSupported(mode, W(), limit, p, repeats, start, chains, i, continued, was, begun, before);
      es := TakeTurn(p, repeats, chains[i]);
      ghost var after := Now();
      if es == [] && repeats >= p.min {
        dest.subgraphs := dest.subgraphs + [chains[i]];
        if Enough() {
          RoundEnough(mode, W(), limit, p, repeats, start, chains, i, continued, was, begun, before, after);
          return true, [];
        }
      }
      ghost var added := if es == [] && repeats >= p.min then [chains[i]] else [];
      InRoundOnce(mode, W(), limit, p, repeats, start, chains, i, continued, es, added, was, begun, before, after);
      assert Now() == WithDrafts(after, after.drafts + added);
      done := false;
    }
  }

  class NestedRegistry {
    var subgraphs: map<NestedStart, set<Body>>
    var deps: map<NestedStart, set<Observable>>
    var depToStarts: map<Observable, set<NestedStart>>
    var maybeUnused: set<Observable>
    const less: (Observable, Observable) -> bool  // the order of observables
    ghost var scope: Scope

    constructor (less: (Observable, Observable) -> bool, ghost scope: Scope)
      ensures State() == EmptyCache(scope) && this.less == less
    {
      subgraphs, deps, depToStarts, maybeUnused := map[], map[], map[], {};
      this.less, this.scope := less, scope;
    }

    // From now on, entries are about what is known now.
    method Clear(ghost known: set<VertexID>)
      modifies this
      ensures State() == EmptyCache(Scope(old(scope).edgeFirst, known))
    {
      subgraphs, deps, depToStarts, maybeUnused := map[], map[], map[], {};
      scope := Scope(scope.edgeFirst, known);
    }

    method MarkMaybeUnused(o: Observable)
      modifies this`maybeUnused
      ensures maybeUnused == old(maybeUnused) + if o.NestedSubgraph? then {o} else {}
    {
      if o.NestedSubgraph? {
        maybeUnused := maybeUnused + {o};
      }
    }

    ghost function State(): Cache
      reads this
    {
      Cache(subgraphs, deps, depToStarts, maybeUnused, scope)
    }

    // Matches the nested expression anew.
    method MatchNested(query: Query, n: NestedStart) returns (s: set<Body>, obs: set<Observable>)
      requires QueryOk(query) && EntryOk(n) && InScope(scope, Nested(n), n.pos)
      requires Ready(State(), query.graph, Limit(HeightOf(n), scope))
      modifies this
      ensures Ready(State(), query.graph, Limit(HeightOf(n), scope)) && Grown(old(State()), State(), HeightOf(n))
      ensures s == NestedSem(query.graph, n) && AreCached(State(), obs, HeightOf(n))
      ensures RecordedFor(query.graph, n, obs) && (StartsHere(query.graph, n) ==> Settled(query.graph, obs, n))
      decreases n.plan, 3
    {
      var log := new DepLog();
      var qs := new QuerySetDraft(log);
      var start := Start(n.pos, n.pos, n.refs);
      var visitor := new MatchVisitor(Normal, query, this, start, qs, Limit(HeightOf(n), scope));
      ghost var was := visitor.Now();
      visitor.Visit(n.plan);
      ghost var now := visitor.Now();
      assert NewDrafts(was, now) == qs.subgraphs && NewObs(was, now) == ObsOf(log.items);
      s := Finalized(qs.subgraphs);
      obs := set d | d in log.items :: d.observable;
      if StartsHere(query.graph, n) {
        NestedIsSettled(visitor.W(), n, obs);
      }
    }

    method Subscribe(n: NestedStart, o: Observable)
      modifies this`depToStarts
      ensures depToStarts == SubscribedTo(old(depToStarts), n, o)
    {
      depToStarts := depToStarts[o := (if o in depToStarts then depToStarts[o] else {}) + {n}];
    }

    // The cached subgraphs of the nested expression, matching it now if they aren't there.
    method Get(query: Query, n: NestedStart, ghost limit: Limit) returns (s: set<Body>)
      requires QueryOk(query) && EntryOk(n) && Fits(limit, Nested(n), n.pos) && Ready(State(), query.graph, limit)
      modifies this
      ensures Ready(State(), query.graph, limit) && Grown(old(State()), State(), limit.height)
      ensures n in subgraphs && s == NestedSem(query.graph, n)
      ensures n !in old(subgraphs) ==> n in deps && RecordedFor(query.graph, n, deps[n])
      decreases n.plan, 4
    {
      ghost var was := State();
      if n in subgraphs {
        s := subgraphs[n];
        assert UpToDate(was, query.graph, n);
        GrownItself(was, limit.height);
        return;
      }
      var obs;
      s, obs := MatchNested(query, n);
      ghost var c := State();
      UpToDateLifts(was, c, query.graph, HeightOf(n), limit.height);
      var list := Listed(obs);
      for i := 0 to |list|
        invariant State() == c.(depToStarts := depToStarts)
        invariant RelatesMore(c, n, Elems(list[..i]), depToStarts)
      {
        ElemsPrefix(list, i);
        SubscribedToRelates(c, n, Elems(list[..i]), depToStarts, list[i]);
        Subscribe(n, list[i]);
      }
      ElemsWhole(list);
      deps := deps[n := obs];
      maybeUnused := maybeUnused + {NestedSubgraph(n)};
      subgraphs := subgraphs[n := s];
      assert State() == WithEntry(c, n, s, obs, depToStarts);
      EntryAdded(c, n, s, obs, depToStarts);
      EntryAddedGrows(c, query.graph, n, s, obs, depToStarts, limit.height);
      GrownTransitive(was, c, State(), limit.height);
    }

    // ------------------------------------------------------------------------
    // Rematching
    // ------------------------------------------------------------------------

    method Unsubscribe(n: NestedStart, o: Observable)
      modifies this`depToStarts, this`maybeUnused
      ensures depToStarts == UnsubscribedFrom(old(depToStarts), n, o)
      ensures maybeUnused ==
        old(maybeUnused) + if o in old(depToStarts) && o !in depToStarts && o.NestedSubgraph? then {o} else {}
    {
      if o !in depToStarts {
        return;
      }
      var rest := depToStarts[o] - {n};
      if rest == {} {
        depToStarts := depToStarts - {o};
        if o.NestedSubgraph? {
          maybeUnused := maybeUnused + {o};
        }
      } else {
        depToStarts := depToStarts[o := rest];
      }
    }

    // Only dependencies that changed are updated: both lists are sorted.
    method ReplaceDeps(n: NestedStart, obs: set<Observable>)
      requires StrictOrder(less) && Wired(State()) && n in deps
      modifies this`deps, this`depToStarts, this`maybeUnused
      ensures deps == old(deps)[n := obs] && RelatesInstead(old(State()), State(), n, obs)
    {
      ghost var c := State();
      var before := SortedList(less, deps[n]);
      var after := SortedList(less, obs);
      var i, j := 0, 0;
      WalkStarts(less, before, after);
      DepsRelate(c, n, before, after);
      while i < |before| || j < |after|
        invariant Walked2(less, before, i, after, j) && deps == c.deps
        invariant Replacing(c, State(), n, before[i..], after[..j])
        decreases |before| - i + |after| - j
      {
        ghost var d := State();
        if j == |after| || (i < |before| && less(before[i], after[j])) {
          WalkFirst(less, before, i, after, j);
          Unsubscribe(n, before[i]);
          UnsubscribedReplacing(c, d, State(), n, before, i, after, j);
          i := i + 1;
        } else if i == |before| || less(after[j], before[i]) {
          assert Walked2(less, after, j, before, i);
          WalkFirst(less, after, j, before, i);
          Subscribe(n, after[j]);
          SubscribedReplacing(c, d, State(), n, before, i, after, j);
          j := j + 1;
        } else {
          assert before[i] == after[j];
          WalkBoth(less, before, i, after, j);
          KeptReplacing(c, d, n, before, i, after, j);
          i, j := i + 1, j + 1;
        }
      }
      assert before[i..] == [] && after[..j] == after;
      deps := deps[n := obs];
      ReplacedDeps(c, State(), n, after, obs);
    }

    // Schedules everything that depends on the observable, once.
    method Schedule(o: Observable, byHeight: map<nat, seq<NestedStart>>, scheduled: set<NestedStart>)
      returns (next: map<nat, seq<NestedStart>>, all: set<NestedStart>)
      requires Leveled(byHeight)
      ensures Leveled(next) && all == scheduled + Dependents(depToStarts, o)
      ensures PendingIn(next) == PendingIn(byHeight) + (Dependents(depToStarts, o) - scheduled)
    {
      next, all := byHeight, scheduled;
      if o !in depToStarts {
        return;
      }
      var starts := Listed(depToStarts[o]);
      for i := 0 to |starts|
        invariant Leveled(next) && all == scheduled + Elems(starts[..i])
        invariant PendingIn(next) == PendingIn(byHeight) + (Elems(starts[..i]) - scheduled)
      {
        ElemsPrefix(starts, i);
        if starts[i] !in all {
          WithPendingHas(next, starts[i]);
          next := WithPending(next, starts[i]);
          all := all + {starts[i]};
        }
      }
      ElemsWhole(starts);
    }

    // Matches an entry anew, when the entries nested in it are up to date.
    method Rematch(query: Query, n: NestedStart, ghost r: Refresh, ghost queued: set<NestedStart>,
        ghost rest: set<NestedStart>,
                   ghost scheduled: set<NestedStart>, ghost changed: set<Observable>)
      returns (s: set<Body>, obs: set<Observable>)
      requires QueryOk(query) && r.now == query.graph && HeightOf(n) <= r.top && n in subgraphs
      requires InRefresh(r, State(), HeightOf(n), queued, rest, scheduled, changed)
      modifies this
      ensures InRefresh(r, State(), HeightOf(n), queued, rest, scheduled, changed) && Wired(State())
      ensures n in subgraphs && n in deps && subgraphs[n] == old(subgraphs[n])
      ensures AreCached(State(), obs, HeightOf(n)) && s == NestedSem(r.now, n)
      ensures StartsHere(r.now, n) ==> Settled(r.now, obs, n)
    {
      hide InRefresh, Settled, AreCached, Wired, NestedSem, EntryOk, QueryOk, Ready, Grown;
      ghost var c := State();
      CanRematch(r, c, n, queued, rest, scheduled, changed);
      s, obs := MatchNested(query, n);
      GrownInRefresh(r, c, State(), HeightOf(n), queued, rest, scheduled, changed);
      StillCached(r, c, State(), n, queued, rest, scheduled, changed);
    }

    // Rematches an entry.
    method RefreshOne(query: Query, n: NestedStart, byHeight: map<nat, seq<NestedStart>>, scheduled: set<NestedStart>,
                      changed: set<Observable>, ghost r: Refresh, ghost rest: set<NestedStart>)
      returns (next: map<nat, seq<NestedStart>>, all: set<NestedStart>, more: set<Observable>)
      requires StrictOrder(less) && QueryOk(query) && r.now == query.graph && Leveled(byHeight) && HeightOf(n) <= r.top
      requires InRefresh(r, State(), HeightOf(n), PendingIn(byHeight), rest + {n}, scheduled, changed)
      modifies this
      ensures Leveled(next) && InRefresh(r, State(), HeightOf(n), PendingIn(next), rest, all, more)
      ensures forall k :: k in PendingIn(next) ==> k in PendingIn(byHeight) || HeightOf(k) > HeightOf(n)
    {
      hide InRefresh, EntryReplaced, RelatesInstead, Settled, AreCached, Wired, NestedSem, PendingIn, Leveled,
          Dependents,
        QueryOk, StrictOrder, HeightOf;
      next, all, more := byHeight, scheduled, changed;
      if n !in subgraphs {
        NotCached(r, State(), n, PendingIn(byHeight), rest, scheduled, changed);
        return;
      }
      var s, obs := Rematch(query, n, r, PendingIn(byHeight), rest + {n}, scheduled, changed);
      ghost var d := State();
      ReplaceDeps(n, obs);
      if s == subgraphs[n] {
        // Same subgraphs as before: dependents are not scheduled.
        assert subgraphs == subgraphs[n := s];
        ReplacedIs(d, State(), n, s, obs);
        AlreadyQueued(PendingIn(byHeight), scheduled);
        ReplacedInRefresh(r, d, State(), n, s, obs, PendingIn(byHeight), PendingIn(byHeight), rest, scheduled,
            scheduled, changed);
        return;
      }
      subgraphs := subgraphs[n := s];
      more := changed + {NestedSubgraph(n)};
      ReplacedIs(d, State(), n, s, obs);
      next, all := Schedule(NestedSubgraph(n), byHeight, scheduled);
      ReplacedInRefresh(r, d, State(), n, s, obs, PendingIn(byHeight), PendingIn(next), rest, scheduled, all, changed);
    }

    // Brings the entries up to date by ascending height, and returns those whose subgraphs aren't the same.
    method Update(query: Query, observed: seq<Observable>, ghost g: Graph) returns (changed: set<Observable>)
      requires StrictOrder(less) && QueryOk(query) && Wired(State()) && AllUpToDate(State(), g)
      requires NoneReturns(State(), g, query.graph)
      requires forall n, o :: DependsOn(State(), n, o) && !o.NestedSubgraph? && !Same(g, query.graph, o) ==>
          o in observed
      modifies this
      ensures Wired(State()) && AllUpToDate(State(), query.graph) &&
          Reported(old(State()), State(), query.graph, changed)
      ensures forall used: set<Observable> :: Marked(old(State()), used) ==> Marked(State(), used)
      ensures scope == Widened(old(scope), query.graph)
    {
      hide InRefresh, Wired, AllUpToDate, Reported, PendingIn, Leveled, QueryOk, StrictOrder, Marked, Same,
          NestedRefresh.AllFrom, AllScheduled, DependsOn, NoneReturns;
      ScopeWidens(State(), g, query.graph);
      scope := Widened(scope, query.graph);
      ghost var r := Refresh(State(), g, query.graph, Top(subgraphs.Keys));
      var byHeight, scheduled := ScheduleAll(observed);
      ScheduledAll(r.first, g, query.graph, observed, scheduled);
      GraphIsOk(query);
      ghost var low: nat := 0;
      StartRefresh(r, scheduled);
      NothingBelow(byHeight);
      changed := {};
      while byHeight.Keys != {}
        invariant Leveled(byHeight) && InRefresh(r, State(), low, PendingIn(byHeight), {}, scheduled, changed)
        invariant NestedRefresh.AllFrom(byHeight, low)
        decreases r.top + 1 - low
      {
        byHeight, scheduled, changed, low := RefreshLowest(query, byHeight, scheduled, changed, r, low);
      }
      NothingPending(byHeight);
      EndRefresh(r, State(), low, scheduled, changed);
    }

    // Rematches all the scheduled entries of the lowest height.
    method RefreshLowest(query: Query, byHeight: map<nat, seq<NestedStart>>, scheduled: set<NestedStart>,
        changed: set<Observable>,
                         ghost r: Refresh, ghost low: nat)
      returns (next: map<nat, seq<NestedStart>>, all: set<NestedStart>, more: set<Observable>, ghost to: nat)
      requires StrictOrder(less) && QueryOk(query) && r.now == query.graph && byHeight.Keys != {}
      requires Leveled(byHeight) && InRefresh(r, State(), low, PendingIn(byHeight), {}, scheduled, changed)
      requires NestedRefresh.AllFrom(byHeight, low)
      modifies this
      ensures Leveled(next) && InRefresh(r, State(), to, PendingIn(next), {}, all, more) &&
          NestedRefresh.AllFrom(next, to)
      ensures low < to <= r.top + 1
    {
      hide InRefresh, PendingIn, Leveled, QueryOk, StrictOrder;
      var h := FindLowest(byHeight);
      var starts := byHeight[h];
      LowestPending(byHeight, low, h);
      PendingBounded(r, State(), low, h, byHeight, scheduled, changed);
      RaiseRefresh(r, State(), low, h, PendingIn(byHeight), PendingIn(byHeight - {h}), Elems(starts), scheduled,
          changed);
      next, all, more := RefreshLevel(query, h, starts, byHeight - {h}, scheduled, changed, r);
      to := h + 1;
      RaiseRefresh(r, State(), h, to, PendingIn(next), PendingIn(next), {}, all, more);
    }

    method FindLowest(byHeight: map<nat, seq<NestedStart>>) returns (h: nat)
      requires byHeight.Keys != {}
      ensures IsLowest(h, byHeight) && h in byHeight
    {
      LowestHeight(byHeight);
      h :| IsLowest(h, byHeight);
    }

    method ScheduleAll(observed: seq<Observable>)
        returns (byHeight: map<nat, seq<NestedStart>>, scheduled: set<NestedStart>)
      ensures Leveled(byHeight) && scheduled == PendingIn(byHeight)
      ensures forall n :: n in scheduled <==> exists o :: o in observed && n in Dependents(depToStarts, o)
    {
      byHeight, scheduled := map[], {};
      assert PendingIn(byHeight) == {};
      for i := 0 to |observed|
        invariant Leveled(byHeight) && scheduled == PendingIn(byHeight)
        invariant forall n :: n in scheduled <==> exists o :: o in observed[..i] && n in Dependents(depToStarts, o)
      {
        assert observed[..i + 1] == observed[..i] + [observed[i]];
        byHeight, scheduled := Schedule(observed[i], byHeight, scheduled);
      }
      assert observed[..|observed|] == observed;
    }

    // Rematches all the scheduled entries of a height; what consists of them is higher.
    method RefreshLevel(query: Query, h: nat, starts: seq<NestedStart>, byHeight: map<nat, seq<NestedStart>>,
                        scheduled: set<NestedStart>, changed: set<Observable>, ghost r: Refresh)
      returns (next: map<nat, seq<NestedStart>>, all: set<NestedStart>, more: set<Observable>)
      requires StrictOrder(less) && QueryOk(query) && r.now == query.graph && h <= r.top
      requires Leveled(byHeight) && NestedRefresh.AllFrom(byHeight, h + 1) && forall n :: n in starts ==>
          HeightOf(n) == h
      requires InRefresh(r, State(), h, PendingIn(byHeight), Elems(starts), scheduled, changed)
      modifies this
      ensures Leveled(next) && NestedRefresh.AllFrom(next, h + 1)
      ensures InRefresh(r, State(), h, PendingIn(next), {}, all, more)
    {
      next, all, more := byHeight, scheduled, changed;
      assert starts[0..] == starts;
      for i := 0 to |starts|
        invariant Leveled(next) && NestedRefresh.AllFrom(next, h + 1)
        invariant InRefresh(r, State(), h, PendingIn(next), Elems(starts[i..]), all, more)
      {
        ElemsSuffix(starts, i);
        next, all, more := RefreshOne(query, starts[i], next, all, more, r, Elems(starts[i + 1..]));
      }
    }

    // ------------------------------------------------------------------------
    // Eviction
    // ------------------------------------------------------------------------

    // Drops entries that neither another entry nor an observer depends on.
    method EvictUnused(observed: set<Observable>)
      requires Wired(State()) && Marked(State(), observed)
      modifies this
      ensures Evicted(old(State()), State(), observed) && maybeUnused == {}
      ensures forall n :: n in subgraphs ==> NestedSubgraph(n) in observed || NestedSubgraph(n) in depToStarts
    {
      hide Kept, Marked, Evicted, Wired;
      ghost var c := State();
      KeptItself(c, observed);
      while maybeUnused != {}
        invariant Kept(c, State(), observed) && Marked(State(), observed)
        decreases |subgraphs|, maybeUnused != {}
      {
        var candidates := Listed(maybeUnused);
        ghost var d := State();
        maybeUnused := {};
        CandidatesTaken(c, d, observed, candidates);
        ghost var size := |subgraphs|;
        for i := 0 to |candidates|
          invariant Kept(c, State(), observed) && Marked(State(), observed + Elems(candidates[i..])) &&
              NestedOnly(candidates)
          invariant |subgraphs| <= size && (|subgraphs| == size ==> maybeUnused == {})
        {
          ElemsSuffix(candidates, i);
          ghost var rest := Elems(candidates[i + 1..]);
          assert observed + Elems(candidates[i..]) == observed + rest + {candidates[i]};
          AllNested(candidates, i);
          EvictOne(candidates[i], observed, c, rest);
        }
        assert observed + Elems(candidates[|candidates|..]) == observed;
      }
      EvictionIsDone(c, State(), observed);
    }

    method EvictOne(o: Observable, observed: set<Observable>, ghost c: Cache, ghost rest: set<Observable>)
      requires o.NestedSubgraph? && Kept(c, State(), observed) && Marked(State(), observed + rest + {o})
      modifies this
      ensures Kept(c, State(), observed) && Marked(State(), observed + rest)
      ensures State() == old(State()) || |subgraphs| < |old(subgraphs)|
    {
      hide Kept, Marked, Wired, RelatesInstead, EntryRemoved;
      ghost var d := State();
      if o in depToStarts || o in observed || o.start !in subgraphs {
        NotEvicted(d, o, observed, rest);
        return;
      }
      var n := o.start;
      KeptHasDeps(c, d, observed);
      subgraphs := subgraphs - {n};
      assert d.subgraphs.Keys == subgraphs.Keys + {n};
      RemoveDeps(n, d);
      RemovedIs(d, State(), n);
      RemovedKept(c, d, State(), n, observed);
      RemovedMarked(d, State(), n, observed, rest);
    }

    method RemoveDeps(n: NestedStart, ghost d: Cache)
      requires n in deps && Wired(d) && deps == d.deps && depToStarts == d.depToStarts && maybeUnused == d.maybeUnused
      requires scope == d.scope
      modifies this`deps, this`depToStarts, this`maybeUnused
      ensures deps == d.deps - {n} && RelatesInstead(d, State(), n, {})
    {
      var list := Listed(deps[n]);
      DepsLeft(d, n, list);
      hide Wired;
      for i := 0 to |list|
        invariant deps == d.deps && Replacing(d, State(), n, list[i..], [])
      {
        NoDuplicatesAfter(list, i);
        ghost var e := State();
        Unsubscribe(n, list[i]);
        var none: seq<Observable> := [];
        assert none[..0] == none;
        UnsubscribedReplacing(d, e, State(), n, list, i, none, 0);
      }
      ReplacedDeps(d, State(), n, [], {});
      deps := deps - {n};
    }
  }
}
