/** Repetition without a maximum. */
module OpenRepetition {
  // When no chain is left after some layer, the loop ends there, and what it found is what is found with any maximum
  // from there on.

  import opened Base
  import opened RefsAlgebra
  import opened Plans
  import opened Semantics
  import opened Dependencies
  import opened Mentions
  import opened FiniteRefs
  import opened Combining
  import opened Unfolding
  import opened MatchingRepeat

  // The chains of the loop after k rounds.
  ghost function OpenLayer(w: World, op: Plan, k: nat, top: Body): set<Body> {
    if k == 0 then {top} else set c, d | c in OpenLayer(w, op, k - 1, top) && d in LinksFrom(w, op, c) :: d
  }

  // The chains that the loop found in k rounds: those that nothing continues, if they have enough repeats.
  ghost function OpenEnded(w: World, op: Plan, min: nat, k: nat, top: Body): set<Body> {
    if k == 0 then {}
    else
      OpenEnded(w, op, min, k - 1, top) +
      if k - 1 < min then {} else set c | c in OpenLayer(w, op, k - 1, top) && LinksFrom(w, op, c) == {}
  }

  lemma {:induction false} OpenLayersAgree(w: World, op: Plan, max: nat, k: nat, top: Body)
    requires k <= max
    ensures OpenLayer(w, op, k, top) == Layer(w, op, max, k, top)
  {
    hide Continued, LinksFrom, Next;
    if k > 0 {
      OpenLayersAgree(w, op, max, k - 1, top);
      NextIsExtended(w, op, max, k - 1, Layer(w, op, max, k - 1, top));
    }
  }

  lemma NextIsExtended(w: World, op: Plan, max: nat, k: nat, chains: set<Body>)
    requires k < max
    ensures Next(w, op, max, k, chains) == set c, d | c in chains && d in LinksFrom(w, op, c) :: d
  {
    hide Continued, LinksFrom;
    forall c ensures Continued(w, op, max, k, c) == LinksFrom(w, op, c) { ContinuedUnfold(w, op, max, k, c); }
  }

  lemma EndedIsUnextended(w: World, op: Plan, min: nat, max: nat, k: nat, chains: set<Body>)
    requires k < max
    ensures Ended(w, op, min, max, k, chains) ==
      if k < min then {} else set c | c in chains && LinksFrom(w, op, c) == {}
  {
    hide Continued, LinksFrom;
    forall c ensures Continued(w, op, max, k, c) == LinksFrom(w, op, c) { ContinuedUnfold(w, op, max, k, c); }
  }

  lemma {:induction false} OpenEndsAgree(w: World, op: Plan, min: nat, max: nat, k: nat, top: Body)
    requires k <= max
    ensures OpenEnded(w, op, min, k, top) == EndedBefore(w, op, min, max, k, top)
  {
    hide Continued, LinksFrom, Ended;
    if k > 0 {
      OpenEndsAgree(w, op, min, max, k - 1, top);
      OpenLayersAgree(w, op, max, k - 1, top);
      EndedIsUnextended(w, op, min, max, k - 1, Layer(w, op, max, k - 1, top));
    }
  }

  // A loop that ends in k rounds finds what is found with any maximum of k or more.
  lemma OpenIsBounded(w: World, op: Plan, min: nat, max: nat, k: nat, pos: Position, refs: Refs)
    requires OpenLayer(w, op, k, EmptyAt(pos, refs)) == {} && k <= max
    ensures Sem(w, PRepetition(op, min, max), pos, refs) == OpenEnded(w, op, min, k, EmptyAt(pos, refs))
  {
    var top := EmptyAt(pos, refs);
    OpenLayersAgree(w, op, max, k, top);
    OpenEndsAgree(w, op, min, max, k, top);
    RepeatIsEnded(w, op, min, max, k, top);
  }

  // --------------------------------------------------------------------------
  // Cycles
  // --------------------------------------------------------------------------

  // Where a chain may be continued: at a position, with some refs.
  datatype Place = Place(pos: Position, refs: Refs)

  // A match leads from one place to the other.
  ghost predicate Leads(w: World, op: Plan, a: Place, b: Place) {
    exists t :: t in Sem(w, op, a.pos, a.refs) && b.pos in t.content.ends && b.refs == t.refs
  }

  ghost predicate IsWalk(w: World, op: Plan, path: seq<Place>) {
    path != [] && forall i :: 0 <= i < |path| - 1 ==> Leads(w, op, path[i], path[i + 1])
  }

  // Matches lead from the start to a place that they lead back to.
  ghost predicate LeadsInCircles(w: World, op: Plan, start: Place) {
    exists path, i, j :: IsWalk(w, op, path) && path[0] == start && 0 <= i < j < |path| && path[i] == path[j]
  }

  // Without a maximum the loop ends if and only if matches don't lead in circles.
  lemma LoopEndsUnlessCircular(w: World, op: Plan, pos: Position, refs: Refs)
    requires WellFormed(w.graph)
    ensures (exists k: nat :: OpenLayer(w, op, k, EmptyAt(pos, refs)) == {}) <==>
      !LeadsInCircles(w, op, Place(pos, refs))
  {
    hide OpenLayer, LeadsInCircles, WellFormed;
    if LeadsInCircles(w, op, Place(pos, refs)) {
      forall k: nat ensures OpenLayer(w, op, k, EmptyAt(pos, refs)) != {} {
        CircularHasLayer(w, op, Place(pos, refs), k);
      }
    } else {
      var k := SomeLayerIsEmpty(w, op, Place(pos, refs));
    }
  }

  lemma CircularHasLayer(w: World, op: Plan, start: Place, k: nat)
    requires LeadsInCircles(w, op, start)
    ensures OpenLayer(w, op, k, EmptyAt(start.pos, start.refs)) != {}
  {
    var path, i, j :| IsWalk(w, op, path) && path[0] == start && 0 <= i < j < |path| && path[i] == path[j];
    var walk, x := WalkInCircles(w, op, path, i, j, k);
    var c := WalkHasChain(w, op, start, walk);
  }

  lemma SomeLayerIsEmpty(w: World, op: Plan, start: Place) returns (k: nat)
    requires WellFormed(w.graph) && !LeadsInCircles(w, op, start)
    ensures OpenLayer(w, op, k, EmptyAt(start.pos, start.refs)) == {}
  {
    hide LeadsInCircles, Places, LinksFrom;
    var top, n := EmptyAt(start.pos, start.refs), |Places(w, op, start)|;
    k := n + 1;
    if OpenLayer(w, op, k, top) != {} {
      var c :| c in OpenLayer(w, op, k, top);
      var b :| b in OpenLayer(w, op, k - 1, top) && c in LinksFrom(w, op, b);
      var q, t := LastLink(w, op, b, c);
      var walk := ChainHasWalk(w, op, start, n, b, q);
      LongWalkIsCircular(w, op, start, walk);
    }
  }

  // Any edge, and the vertex it leads to.
  const EDGE_AND_VERTEX := MatchPath(ORBIT, [MatchEdge(Forward, None, None)], [MatchVertex(None, None, None, None)])

  // On two vertices with edges both ways, no match leads back to its start, but two do: the loop doesn't end.
  lemma ThereAndBackIsCircular(a: VertexID, b: VertexID, lab: Label)
    ensures var w := World(Graph({a, b}, {Edge(a, lab, b), Edge(b, lab, a)}), true);
      LeadsInCircles(w, PPath(EDGE_AND_VERTEX), Place(Position(a, ORBIT), {})) &&
      forall k: nat :: OpenLayer(w, PPath(EDGE_AND_VERTEX), k, EmptyAt(Position(a, ORBIT), {})) != {}
  {
    var w := World(Graph({a, b}, {Edge(a, lab, b), Edge(b, lab, a)}), true);
    var op, start, there := PPath(EDGE_AND_VERTEX), Place(Position(a, ORBIT), {}), Place(Position(b, ORBIT), {});
    EdgeLeads(w, a, b, lab);
    EdgeLeads(w, b, a, lab);
    hide Leads;
    var path := [start, there, start];
    assert IsWalk(w, op, path) && path[0] == path[2];
    forall k: nat ensures OpenLayer(w, op, k, EmptyAt(start.pos, {})) != {} { CircularHasLayer(w, op, start, k); }
  }

  lemma EdgeLeads(w: World, a: VertexID, b: VertexID, lab: Label)
    requires Edge(a, lab, b) in w.graph.edges && b in w.graph.vertices
    ensures Leads(w, PPath(EDGE_AND_VERTEX), Place(Position(a, ORBIT), {}), Place(Position(b, ORBIT), {}))
  {
    var m, v := EDGE_AND_VERTEX.edges[0], EDGE_AND_VERTEX.vertices[0];
    var steps := EDGE_AND_VERTEX.Items();
    assert steps == [EdgeStep(m), VertexStep(v)] && steps[1..] == [VertexStep(v)] && [VertexStep(v)][1..] == [];
    var g, core, orbit := w.graph, Position(b, CORE), Position(b, ORBIT);
    var hop := Hop({Edge(a, lab, b)}, b);
    assert Edge(a, lab, b) in Outgoing(g, a, None) && hop in Hops(g, m, Position(a, ORBIT));
    var end := EmptyAt(orbit, {});
    assert end in SemSteps(g, [], orbit, {}) && VertexMatch(g, v, core, {}) == Some({});
    var tail := Join(Body(Content({}, {b}, {}), {}), end);
    assert tail in SemSteps(g, [VertexStep(v)], core, {});
    var t := Join(Body(Content({}, {}, hop.edges), {}), tail);
    assert t in SemSteps(g, steps, Position(a, ORBIT), {});
    assert t in Sem(w, PPath(EDGE_AND_VERTEX), Position(a, ORBIT), {});
  }

  // Walking round the circle gives walks of any length; the last place is that of x.
  lemma {:induction false} WalkInCircles(w: World, op: Plan, path: seq<Place>, i: nat, j: nat, k: nat)
      returns (walk: seq<Place>, x: nat)
    requires IsWalk(w, op, path) && i < j < |path| && path[i] == path[j]
    ensures IsWalk(w, op, walk) && walk[0] == path[0] && |walk| == k + 1
    ensures x < j && walk[k] == path[x]
  {
    hide Leads;
    if k == 0 {
      walk, x := [path[0]], 0;
    } else {
      var before, y := WalkInCircles(w, op, path, i, j, k - 1);
      assert Leads(w, op, path[y], path[y + 1]);
      x := if y + 1 < j then y + 1 else i;
      walk := before + [path[x]];
    }
  }

  // --------------------------------------------------------------------------
  // Walks and chains
  // --------------------------------------------------------------------------

  lemma {:induction false} WalkHasChain(w: World, op: Plan, start: Place, walk: seq<Place>) returns (c: Body)
    requires IsWalk(w, op, walk) && walk[0] == start
    ensures c in OpenLayer(w, op, |walk| - 1, EmptyAt(start.pos, start.refs))
    ensures walk[|walk| - 1].pos in c.content.ends && walk[|walk| - 1].refs == c.refs
    decreases |walk|
  {
    hide Sem, LinksFrom;
    var last := |walk| - 1;
    if last == 0 {
      c := EmptyAt(start.pos, start.refs);
    } else {
      var b := WalkHasChain(w, op, start, walk[..last]);
      assert Leads(w, op, walk[last - 1], walk[last - 1 + 1]);
      var q := walk[last - 1];
      var t :| t in Sem(w, op, q.pos, q.refs) && walk[last].pos in t.content.ends && walk[last].refs == t.refs;
      c := Join(b, t);
      LinkedBy(w, op, b, q.pos, t);
    }
  }

  lemma LinkedBy(w: World, op: Plan, chain: Body, q: Position, t: Body)
    requires q in chain.content.ends && t in Sem(w, op, q, chain.refs)
    ensures Join(chain, t) in LinksFrom(w, op, chain)
  {
    hide Sem;
  }

  lemma LastLink(w: World, op: Plan, chain: Body, c: Body) returns (q: Position, t: Body)
    requires c in LinksFrom(w, op, chain)
    ensures q in chain.content.ends && t in Sem(w, op, q, chain.refs) && c == Join(chain, t)
  {
    hide Sem;
    q, t :| q in chain.content.ends && t in Sem(w, op, q, chain.refs) && c == Join(chain, t);
  }

  // The matches of a chain are a walk to any of its ends.
  lemma {:induction false} ChainHasWalk(w: World, op: Plan, start: Place, k: nat, c: Body, end: Position)
      returns (walk: seq<Place>)
    requires c in OpenLayer(w, op, k, EmptyAt(start.pos, start.refs)) && end in c.content.ends
    ensures IsWalk(w, op, walk) && walk[0] == start && |walk| == k + 1 && walk[k] == Place(end, c.refs)
  {
    hide Sem, LinksFrom, Leads;
    if k == 0 {
      walk := [start];
    } else {
      var b :| b in OpenLayer(w, op, k - 1, EmptyAt(start.pos, start.refs)) && c in LinksFrom(w, op, b);
      var q, t := LastLink(w, op, b, c);
      var before := ChainHasWalk(w, op, start, k - 1, b, q);
      assert Leads(w, op, Place(q, b.refs), Place(end, c.refs)) by {
        LeadsBy(w, op, Place(q, b.refs), t, end);
      }
      walk := before + [Place(end, c.refs)];
    }
  }

  lemma LeadsBy(w: World, op: Plan, a: Place, t: Body, end: Position)
    requires t in Sem(w, op, a.pos, a.refs) && end in t.content.ends
    ensures Leads(w, op, a, Place(end, t.refs))
  {}

  // --------------------------------------------------------------------------
  // Finitely many places
  // --------------------------------------------------------------------------

  ghost function PaletteOf(w: World, op: Plan, start: Place): Palette {
    Palette(Mentioned(op) + Names(start.refs), w.graph.vertices + Values(start.refs))
  }

  ghost function LiteralsOver(c: Palette): set<Literal> {
    set x, v, negative | x in c.names && v in c.values && negative in {false, true} :: Literal(x, negative, v)
  }

  ghost function RefsOver(c: Palette): set<set<Literal>> { set r | r <= LiteralsOver(c) }

  ghost function PositionsAround(g: Graph, start: Position): set<Position> {
    set v, kind | v in g.vertices + {start.v} && kind in {CORE, ORBIT} :: Position(v, kind)
  }

  // All places there are for chains.
  ghost function Places(w: World, op: Plan, start: Place): set<(Position, set<Literal>)> {
    set q, r | q in PositionsAround(w.graph, start.pos) && r in RefsOver(PaletteOf(w, op, start)) :: (q, r)
  }

  ghost predicate IsPlace(w: World, op: Plan, start: Place, p: Place) {
    p.pos in PositionsAround(w.graph, start.pos) && Over(p.refs, PaletteOf(w, op, start))
  }

  lemma PlacesAreAll(w: World, op: Plan, start: Place, p: Place)
    requires IsPlace(w, op, start, p)
    ensures (p.pos, p.refs) in Places(w, op, start)
  {
    forall l | l in p.refs ensures l in LiteralsOver(PaletteOf(w, op, start)) {
      assert l.negative in {false, true};
    }
    assert p.refs in RefsOver(PaletteOf(w, op, start));
  }

  lemma PaletteFits(w: World, op: Plan, start: Place)
    ensures Mentioned(op) <= PaletteOf(w, op, start).names && w.graph.vertices <= PaletteOf(w, op, start).values
  {}

  lemma StartIsPlace(w: World, op: Plan, start: Place)
    ensures IsPlace(w, op, start, start)
  {
    forall l | l in start.refs ensures l.name in Names(start.refs) && l.value in Values(start.refs) {}
    assert start.pos.kind.CORE? || start.pos.kind.ORBIT?;
  }

  lemma NextIsPlace(w: World, op: Plan, start: Place, a: Place, b: Place)
    requires WellFormed(w.graph) && IsPlace(w, op, start, a) && Leads(w, op, a, b)
    ensures IsPlace(w, op, start, b)
  {
    hide Sem, Over, PaletteOf;
    var t :| t in Sem(w, op, a.pos, a.refs) && b.pos in t.content.ends && b.refs == t.refs;
    EndsAreHere(w, op, a.pos, a.refs);
    assert EndsOk(w.graph, a.pos, Stays(op), t.content);
    PaletteFits(w, op, start);
    assert b.pos.kind.CORE? || b.pos.kind.ORBIT?;
    MatchesOver(w, op, a.pos, a.refs, PaletteOf(w, op, start));
  }

  lemma {:induction false} WalkStaysInside(w: World, op: Plan, start: Place, walk: seq<Place>, i: nat)
    requires WellFormed(w.graph) && IsWalk(w, op, walk) && walk[0] == start && i < |walk|
    ensures IsPlace(w, op, start, walk[i])
  {
    hide Leads, IsPlace;
    if i == 0 {
      StartIsPlace(w, op, start);
    } else {
      WalkStaysInside(w, op, start, walk, i - 1);
      assert Leads(w, op, walk[i - 1], walk[i - 1 + 1]);
      NextIsPlace(w, op, start, walk[i - 1], walk[i]);
    }
  }

  // A walk over more places than there are comes back to one of them.
  lemma LongWalkIsCircular(w: World, op: Plan, start: Place, walk: seq<Place>)
    requires WellFormed(w.graph) && IsWalk(w, op, walk) && walk[0] == start && |walk| > |Places(w, op, start)|
    ensures LeadsInCircles(w, op, start)
  {
    hide Leads, IsPlace, Places;
    if NoDuplicates(walk) {
      var pairs := seq(|walk|, i requires 0 <= i < |walk| => Pair(walk[i]));
      forall i, j | 0 <= i < j < |pairs| ensures pairs[i] != pairs[j] {
        assert walk[i] != walk[j];
      }
      DistinctCount(pairs);
      forall i | 0 <= i < |walk| ensures pairs[i] in Places(w, op, start) {
        WalkStaysInside(w, op, start, walk, i);
        PlacesAreAll(w, op, start, walk[i]);
      }
      SubsetIsSmaller(Elems(pairs), Places(w, op, start));
      assert false;
    }
    var i, j :| 0 <= i < j < |walk| && walk[i] == walk[j];
  }

  function Pair(p: Place): (Position, set<Literal>) { (p.pos, p.refs) }

  lemma SubsetIsSmaller<T>(a: set<T>, b: set<T>)
    requires a <= b
    ensures |a| <= |b|
  {
    assert b == a + (b - a);
  }
}
