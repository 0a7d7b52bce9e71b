/** What changes are observed as. */
module Observing {
  import opened Base
  import opened Semantics
  import opened Dependencies

  datatype GraphChanges = GraphChanges(
    addedVertices: set<VertexID>, removedVertices: set<VertexID>, addedEdges: set<Edge>, removedEdges: set<Edge>)

  function Difference(g: Graph, h: Graph): GraphChanges {
    GraphChanges(h.vertices - g.vertices, g.vertices - h.vertices, h.edges - g.edges, g.edges - h.edges)
  }

  lemma NoDifference(g: Graph, h: Graph)
    ensures Difference(g, h) == GraphChanges({}, {}, {}, {}) <==> g == h
  {
    if Difference(g, h) == GraphChanges({}, {}, {}, {}) {
      SetsAreEqual(g.vertices, h.vertices);
      SetsAreEqual(g.edges, h.edges);
    }
  }

  lemma SetsAreEqual<T>(a: set<T>, b: set<T>)
    requires a - b == {} && b - a == {}
    ensures a == b
  {
    forall x ensures x in a <==> x in b { assert x !in a - b && x !in b - a; }
  }

  datatype Observation = Observation(observable: Observable, addedVertices: set<VertexID>, addedEdges: set<Edge>)

  ghost predicate SomeEdge(es: set<Edge>, o: Observable) { exists e :: e in es && Concerns(e, o) }

  // Adding or removing the edge is observed through the observable.
  predicate Concerns(e: Edge, o: Observable) {
    match o
    case EdgeFrom(v) => e.from == v
    case EdgeFromWithLabel(v, l) => e.from == v && e.lab == l
    case EdgeTo(v) => e.to == v
    case EdgeToWithLabel(v, l) => e.to == v && e.lab == l
    case ParticularEdge(f) => e == f
    case _ => false
  }

  ghost predicate Happened(ch: GraphChanges, o: Observable) {
    match o
    case NewVertex => ch.addedVertices != {}
    case NewVertexOfType(t) => exists v :: v in ch.addedVertices && v.typeName == t
    case ParticularVertex(v) => v in ch.addedVertices || v in ch.removedVertices
    case NewEdge => ch.addedEdges != {}
    case NewEdgeWithLabel(l) => exists e :: e in ch.addedEdges && e.lab == l
    case NestedSubgraph(_) => false
    case _ => SomeEdge(ch.addedEdges + ch.removedEdges, o)
  }

  ghost function ObservationOf(ch: GraphChanges, o: Observable): Observation {
    Observation(o,
      if o.NewVertex? then ch.addedVertices
      else if o.NewVertexOfType? then set v | v in ch.addedVertices && v.typeName == o.typeName else {},
      if o.NewEdge? then ch.addedEdges
      else if o.NewEdgeWithLabel? then set e | e in ch.addedEdges && e.lab == o.lab else {})
  }

  // An observable is observed exactly when the graphs differ in it.
  lemma HappenedIsDifferent(g: Graph, h: Graph, o: Observable)
    requires !o.NestedSubgraph?
    ensures Happened(Difference(g, h), o) <==> !Same(g, h, o)
  {
    var ch := Difference(g, h);
    match o
    case NewVertexOfType(t) =>
      if v :| v in h.vertices && v.typeName == t && v !in g.vertices { assert v in ch.addedVertices; }
    case NewEdgeWithLabel(l) =>
      if e :| e in h.edges && e.lab == l && e !in g.edges { assert e in ch.addedEdges; }
    case NewVertex =>
      if ch.addedVertices != {} {
        var v :| v in ch.addedVertices;
        assert v in h.vertices && v !in g.vertices;
        assert !(h.vertices <= g.vertices);
      } else {
        assert forall v :: v in h.vertices && v !in g.vertices ==> v in ch.addedVertices;
      }
    case NewEdge =>
      if ch.addedEdges != {} {
        var e :| e in ch.addedEdges;
        assert e in h.edges && e !in g.edges;
        assert !(h.edges <= g.edges);
      } else {
        assert forall e :: e in h.edges && e !in g.edges ==> e in ch.addedEdges;
      }
    case ParticularVertex(v) =>
    case NestedSubgraph(_) =>
    case _ =>
      EdgesConcerned(g, h, o);
      if e :| Concerns(e, o) && !SameEdge(g, h, e) { assert e in ch.addedEdges + ch.removedEdges; }
      if e :| e in ch.addedEdges + ch.removedEdges && Concerns(e, o) { assert !SameEdge(g, h, e); }
  }

  lemma EdgesConcerned(g: Graph, h: Graph, o: Observable)
    requires o.EdgeFrom? || o.EdgeFromWithLabel? || o.EdgeTo? || o.EdgeToWithLabel? || o.ParticularEdge?
    ensures Same(g, h, o) <==> forall e: Edge :: Concerns(e, o) ==> SameEdge(g, h, e)
  {
    if o.ParticularEdge? { assert Concerns(o.edge, o); }
  }

  // --------------------------------------------------------------------------
  // Collecting
  // --------------------------------------------------------------------------

  // Exactly what happened and what is wanted was collected.
  ghost predicate Collected(m: map<Observable, Observation>, ch: GraphChanges, wanted: set<Observable>) {
    (forall o :: o in m <==> Happened(ch, o) && o in wanted) && forall o :: o in m ==> m[o] == ObservationOf(ch, o)
  }

  function Noted(m: map<Observable, Observation>, o: Observable, vs: set<VertexID>, es: set<Edge>): Observation {
    if o in m then Observation(o, m[o].addedVertices + vs, m[o].addedEdges + es) else Observation(o, vs, es)
  }

  // The observable is observed if it's wanted, tracking added vertices and edges.
  method Observe(m: map<Observable, Observation>, o: Observable, vs: set<VertexID>, es: set<Edge>,
      wanted: set<Observable>)
    returns (next: map<Observable, Observation>)
    ensures next == if o in wanted then m[o := Noted(m, o, vs, es)] else m
  {
    next := m;
    if o !in wanted {
      return;
    }
    if o !in next {
      next := next[o := Observation(o, {}, {})];
    }
    assert {} + vs == vs && {} + es == es;
    next := next[o := Observation(o, next[o].addedVertices + vs, next[o].addedEdges + es)];
  }

  // What one more change is observed through, and what is tracked there.
  datatype Event = AddedVertex(v: VertexID) | RemovedVertex(v: VertexID) | AddedEdge(e: Edge) | RemovedEdge(e: Edge)

  ghost function WithEvent(ch: GraphChanges, ev: Event): GraphChanges {
    match ev
    case AddedVertex(v) => ch.(addedVertices := ch.addedVertices + {v})
    case RemovedVertex(v) => ch.(removedVertices := ch.removedVertices + {v})
    case AddedEdge(e) => ch.(addedEdges := ch.addedEdges + {e})
    case RemovedEdge(e) => ch.(removedEdges := ch.removedEdges + {e})
  }

  predicate SeenThrough(ev: Event, o: Observable) {
    match ev
    case AddedVertex(v) => o == NewVertex || o == NewVertexOfType(v.typeName) || o == ParticularVertex(v)
    case RemovedVertex(v) => o == ParticularVertex(v)
    case AddedEdge(e) => o == NewEdge || o == NewEdgeWithLabel(e.lab) || Concerns(e, o)
    case RemovedEdge(e) => Concerns(e, o)
  }

  ghost function TrackedVertices(ev: Event, o: Observable): set<VertexID> {
    if ev.AddedVertex? && (o.NewVertex? || o.NewVertexOfType?) then {ev.v} else {}
  }

  ghost function TrackedEdges(ev: Event, o: Observable): set<Edge> {
    if ev.AddedEdge? && (o.NewEdge? || o.NewEdgeWithLabel?) then {ev.e} else {}
  }

  lemma HappensAfter(ch: GraphChanges, ev: Event, o: Observable)
    ensures Happened(WithEvent(ch, ev), o) <==> Happened(ch, o) || SeenThrough(ev, o)
  {
    var all := WithEvent(ch, ev);
    match ev
    case AddedVertex(v) =>
      assert v in all.addedVertices;
    case RemovedVertex(v) =>
    case AddedEdge(e) =>
      assert e in all.addedEdges;
      SomeEdgeAfter(ch.addedEdges + ch.removedEdges, all.addedEdges + all.removedEdges, e, o);
    case RemovedEdge(e) =>
      SomeEdgeAfter(ch.addedEdges + ch.removedEdges, all.addedEdges + all.removedEdges, e, o);
  }

  lemma SomeEdgeAfter(es: set<Edge>, all: set<Edge>, e: Edge, o: Observable)
    requires all == es + {e}
    ensures SomeEdge(all, o) <==> SomeEdge(es, o) || Concerns(e, o)
  {
    if Concerns(e, o) { assert e in all; }
    if SomeEdge(es, o) {
      var f :| f in es && Concerns(f, o);
      assert f in all;
    }
  }

  lemma ObservationAfter(ch: GraphChanges, ev: Event, o: Observable)
    ensures var a, b := ObservationOf(ch, o), ObservationOf(WithEvent(ch, ev), o);
      if SeenThrough(ev, o) then b ==
          Observation(o, a.addedVertices + TrackedVertices(ev, o), a.addedEdges + TrackedEdges(ev, o)) else b == a
    ensures !Happened(ch, o) ==> ObservationOf(ch, o) == Observation(o, {}, {})
  {}

  ghost function Touch(m: map<Observable, Observation>, o: Observable, ev: Event,
      wanted: set<Observable>): map<Observable, Observation> {
    if o in wanted then m[o := Noted(m, o, TrackedVertices(ev, o), TrackedEdges(ev, o))] else m
  }

  ghost function TouchAll(m: map<Observable, Observation>, os: seq<Observable>, ev: Event,
      wanted: set<Observable>): map<Observable, Observation> {
    if os == [] then m else Touch(TouchAll(m, os[..|os| - 1], ev, wanted), os[|os| - 1], ev, wanted)
  }

  lemma TouchOneMore(m: map<Observable, Observation>, os: seq<Observable>, o: Observable, ev: Event,
      wanted: set<Observable>)
    ensures TouchAll(m, os + [o], ev, wanted) == Touch(TouchAll(m, os, ev, wanted), o, ev, wanted)
  {
    assert (os + [o])[..|os|] == os;
  }

  // Touching distinct observables touches each of them once.
  lemma {:induction false} TouchedOnce(m: map<Observable, Observation>, os: seq<Observable>, ev: Event,
      wanted: set<Observable>, o: Observable)
    requires NoDuplicates(os)
    ensures var next := TouchAll(m, os, ev, wanted);
      if o in os && o in wanted then o in next && next[o] == Noted(m, o, TrackedVertices(ev, o), TrackedEdges(ev, o))
      else (o in next <==> o in m) && (o in m ==> next[o] == m[o])
  {
    if os != [] {
      var rest, last := os[..|os| - 1], os[|os| - 1];
      assert os == rest + [last] && last !in rest;
      TouchedOnce(m, rest, ev, wanted, o);
    }
  }

  lemma TouchedIsCollected(m: map<Observable, Observation>, os: seq<Observable>, ch: GraphChanges, ev: Event,
      wanted: set<Observable>)
    requires Collected(m, ch, wanted) && NoDuplicates(os) && forall o :: o in os <==> SeenThrough(ev, o)
    ensures Collected(TouchAll(m, os, ev, wanted), WithEvent(ch, ev), wanted)
  {
    hide Happened, SeenThrough, ObservationOf, WithEvent, TrackedVertices, TrackedEdges, TouchAll;
    var next := TouchAll(m, os, ev, wanted);
    forall o ensures o in next <==> Happened(WithEvent(ch, ev), o) && o in wanted {
      assert o in m <==> Happened(ch, o) && o in wanted;
      HappensAfter(ch, ev, o);
      TouchedOnce(m, os, ev, wanted, o);
    }
    forall o | o in next ensures next[o] == ObservationOf(WithEvent(ch, ev), o) {
      assert o in m <==> Happened(ch, o) && o in wanted;
      HappensAfter(ch, ev, o);
      ObservationAfter(ch, ev, o);
      TouchedOnce(m, os, ev, wanted, o);
      assert {} + TrackedVertices(ev, o) == TrackedVertices(ev, o) && {} + TrackedEdges(ev, o) == TrackedEdges(ev, o);
    }
  }

  function ObservablesOf(ev: Event): seq<Observable> {
    match ev
    case AddedVertex(v) => [NewVertex, NewVertexOfType(v.typeName), ParticularVertex(v)]
    case RemovedVertex(v) => [ParticularVertex(v)]
    case AddedEdge(e) => [NewEdge, NewEdgeWithLabel(e.lab)] + ObservablesOfEdge(e)
    case RemovedEdge(e) => ObservablesOfEdge(e)
  }

  function ObservablesOfEdge(e: Edge): seq<Observable> {
    [EdgeFrom(e.from), EdgeFromWithLabel(e.from, e.lab), EdgeTo(e.to), EdgeToWithLabel(e.to, e.lab), ParticularEdge(e)]
  }

  lemma EdgeObservables(e: Edge)
    ensures NoDuplicates(ObservablesOfEdge(e)) && forall o :: o in ObservablesOfEdge(e) <==> Concerns(e, o)
  {
    var os := ObservablesOfEdge(e);
    assert os[0] in os && os[1] in os && os[2] in os && os[3] in os && os[4] in os;
  }

  lemma ObservablesAreAll(ev: Event)
    ensures NoDuplicates(ObservablesOf(ev)) && forall o :: o in ObservablesOf(ev) <==> SeenThrough(ev, o)
  {
    var os := ObservablesOf(ev);
    match ev
    case AddedVertex(v) => assert os[0] in os && os[1] in os && os[2] in os;
    case RemovedVertex(v) => assert os[0] in os;
    case RemovedEdge(e) => EdgeObservables(e);
    case AddedEdge(e) =>
      EdgeObservables(e);
      hide ObservablesOfEdge, Concerns;
      var es := ObservablesOfEdge(e);
      assert NewEdge !in es && NewEdgeWithLabel(e.lab) !in es by {
        NotOfEdge(e, NewEdge); NotOfEdge(e, NewEdgeWithLabel(e.lab));
      }
      assert os == [NewEdge, NewEdgeWithLabel(e.lab)] + es;
      forall i, k | 0 <= i < k < |os| ensures os[i] != os[k] {
        if k >= 2 {
          assert os[k] == es[k - 2] && os[k] in es;
          if i >= 2 { assert os[i] == es[i - 2]; }
        }
      }
  }

  lemma NotOfEdge(e: Edge, o: Observable)
    requires o.NewEdge? || o.NewEdgeWithLabel?
    ensures !Concerns(e, o)
  {}

  // Observes the change through all its observables.
  method ObserveEvent(m: map<Observable, Observation>, ev: Event, ghost ch: GraphChanges, wanted: set<Observable>)
    returns (next: map<Observable, Observation>)
    requires Collected(m, ch, wanted)
    ensures Collected(next, WithEvent(ch, ev), wanted)
  {
    hide Collected, WithEvent;
    next := m;
    var os := ObservablesOf(ev);
    for i := 0 to |os|
      invariant next == TouchAll(m, os[..i], ev, wanted)
    {
      var vs: set<VertexID> := if ev.AddedVertex? && (os[i].NewVertex? || os[i].NewVertexOfType?) then {ev.v} else {};
      var es: set<Edge> := if ev.AddedEdge? && (os[i].NewEdge? || os[i].NewEdgeWithLabel?) then {ev.e} else {};
      next := Observe(next, os[i], vs, es, wanted);
      TouchOneMore(m, os[..i], os[i], ev, wanted);
      assert os[..i + 1] == os[..i] + [os[i]];
    }
    assert os[..|os|] == os;
    ObservablesAreAll(ev);
    TouchedIsCollected(m, os, ch, ev, wanted);
  }

  // Observations of everything that has changed and that somebody depends on.
  method CollectObservations(ch: GraphChanges, wanted: set<Observable>) returns (m: map<Observable, Observation>)
    ensures Collected(m, ch, wanted)
  {
    hide Collected;
    m := map[];
    NothingCollected(wanted);
    var av := Listed(ch.addedVertices);
    assert Elems(av[..0]) == {};
    for i := 0 to |av|
      invariant Collected(m, GraphChanges(Elems(av[..i]), {}, {}, {}), wanted)
    {
      ElemsPrefix(av, i);
      m := ObserveEvent(m, AddedVertex(av[i]), GraphChanges(Elems(av[..i]), {}, {}, {}), wanted);
    }
    ElemsWhole(av);
    var rv := Listed(ch.removedVertices);
    assert Elems(rv[..0]) == {};
    for i := 0 to |rv|
      invariant Collected(m, GraphChanges(ch.addedVertices, Elems(rv[..i]), {}, {}), wanted)
    {
      ElemsPrefix(rv, i);
      m := ObserveEvent(m, RemovedVertex(rv[i]), GraphChanges(ch.addedVertices, Elems(rv[..i]), {}, {}), wanted);
    }
    ElemsWhole(rv);
    var ae := Listed(ch.addedEdges);
    assert Elems(ae[..0]) == {};
    for i := 0 to |ae|
      invariant Collected(m, GraphChanges(ch.addedVertices, ch.removedVertices, Elems(ae[..i]), {}), wanted)
    {
      ElemsPrefix(ae, i);
      m := ObserveEvent(m, AddedEdge(ae[i]), GraphChanges(ch.addedVertices, ch.removedVertices, Elems(ae[..i]), {}),
          wanted);
    }
    ElemsWhole(ae);
    var re := Listed(ch.removedEdges);
    assert Elems(re[..0]) == {};
    for i := 0 to |re|
      invariant Collected(m, GraphChanges(ch.addedVertices, ch.removedVertices, ch.addedEdges, Elems(re[..i])), wanted)
    {
      ElemsPrefix(re, i);
      m := ObserveEvent(m, RemovedEdge(re[i]),
          GraphChanges(ch.addedVertices, ch.removedVertices, ch.addedEdges, Elems(re[..i])), wanted);
    }
    ElemsWhole(re);
  }

  lemma NothingCollected(wanted: set<Observable>)
    ensures Collected(map[], GraphChanges({}, {}, {}, {}), wanted)
  {}
}
