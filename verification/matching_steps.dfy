/** Right answers for vertices and edges, one after another, and paths of them. */
module MatchingSteps {
  import opened Base
  import opened RefsAlgebra
  import opened Plans
  import opened Semantics
  import opened RefTracking
  import opened Dependencies
  import opened Matching

  // --------------------------------------------------------------------------
  // Edges
  // --------------------------------------------------------------------------

  // Edges are looked for in two passes: outgoing ones (or pairs of them), and incoming ones.
  ghost function HopsPass(g: Graph, m: MatchEdge, pos: Position, pass: nat): set<Hop> {
    var outgoing, incoming := Outgoing(g, pos.v, m.forward), Incoming(g, pos.v, m.backward);
    if pos.kind.CORE? then {}
    else if pass == 0 then
      match m.direction
      case Forward => set e | e in outgoing :: Hop({e}, e.to)
      case AnyDirection => set e | e in outgoing :: Hop({e}, e.to)
      case Both => set e, f | e in outgoing && f in incoming && f.from == e.to :: Hop({e, f}, e.to)
      case BothSymmetric => set e | e in outgoing && e.Reverse() in incoming :: Hop({e, e.Reverse()}, e.to)
      case Backward => {}
    else if m.direction.Backward? || m.direction.AnyDirection? then set e | e in incoming :: Hop({e}, e.from)
    else {}
  }

  lemma HopsInPasses(g: Graph, m: MatchEdge, pos: Position)
    ensures Hops(g, m, pos) == HopsPass(g, m, pos, 0) + HopsPass(g, m, pos, 1)
  {}

  function FromObs(labels: Labels, v: VertexID): set<Observable> {
    if labels.None? then {EdgeFrom(v)} else set l | l in labels.value :: EdgeFromWithLabel(v, l)
  }

  function ToObs(labels: Labels, v: VertexID): set<Observable> {
    if labels.None? then {EdgeTo(v)} else set l | l in labels.value :: EdgeToWithLabel(v, l)
  }

  // The dependencies recorded in a pass.
  function PassObs(m: MatchEdge, pos: Position, pass: nat): set<Observable> {
    if pos.kind.CORE? then {}
    else if pass == 0 then
      (if m.direction.Backward? then {} else FromObs(m.forward, pos.v)) +
      (if m.direction.Both? || m.direction.BothSymmetric? then ToObs(m.backward, pos.v) else {})
    else if m.direction.Backward? || m.direction.AnyDirection? then ToObs(m.backward, pos.v)
    else {}
  }

  lemma OutgoingObserved(g: Graph, h: Graph, labels: Labels, v: VertexID)
    requires Agrees(g, h, FromObs(labels, v))
    ensures Outgoing(g, v, labels) == Outgoing(h, v, labels)
  {
    forall e: Edge | e.from == v && HasLabel(labels, e.lab) ensures SameEdge(g, h, e) {
      if labels.None? {
        assert Same(g, h, EdgeFrom(v));
      } else {
        assert Same(g, h, EdgeFromWithLabel(v, e.lab));
      }
    }
  }

  lemma IncomingObserved(g: Graph, h: Graph, labels: Labels, v: VertexID)
    requires Agrees(g, h, ToObs(labels, v))
    ensures Incoming(g, v, labels) == Incoming(h, v, labels)
  {
    forall e: Edge | e.to == v && HasLabel(labels, e.lab) ensures SameEdge(g, h, e) {
      if labels.None? {
        assert Same(g, h, EdgeTo(v));
      } else {
        assert Same(g, h, EdgeToWithLabel(v, e.lab));
      }
    }
  }

  lemma PassObserved(g: Graph, h: Graph, m: MatchEdge, pos: Position, pass: nat)
    requires Agrees(g, h, PassObs(m, pos, pass))
    ensures HopsPass(g, m, pos, pass) == HopsPass(h, m, pos, pass)
  {
    if pos.kind.ORBIT? {
      if pass == 0 {
        if !m.direction.Backward? { OutgoingObserved(g, h, m.forward, pos.v); }
        if m.direction.Both? || m.direction.BothSymmetric? { IncomingObserved(g, h, m.backward, pos.v); }
      } else if m.direction.Backward? || m.direction.AnyDirection? {
        IncomingObserved(g, h, m.backward, pos.v);
      }
    }
  }

  // --------------------------------------------------------------------------
  // Steps
  // --------------------------------------------------------------------------

  ghost predicate HereSteps(steps: seq<Step>, pos: Position, g: Graph) {
    pos.kind.ORBIT? || steps == [] || steps[0].EdgeStep? || pos.v in g.vertices
  }

  ghost predicate StepsSuffice(mode: Mode, g: Graph, obs: set<Observable>, steps: seq<Step>, pos: Position,
      refs: Refs) {
    forall h: Graph :: Alike(g, h, obs) && HereSteps(steps, pos, g) && HereSteps(steps, pos, h) ==>
      Unchanged(mode, SemSteps(g, steps, pos, refs), SemSteps(h, steps, pos, refs))
  }

  ghost predicate StepsTell(g: Graph, obs: set<Observable>, steps: seq<Step>, pos: Position, refs: Refs) {
    pos.kind.CORE? && steps != [] ==>
      forall h: Graph :: Alike(g, h, obs) && pos.v !in h.vertices ==> SemSteps(g, steps, pos, refs) == {}
  }

  ghost predicate StepsKeepRefs(steps: seq<Step>, refs: Refs, ds: seq<Draft>) {
    BoundBySteps(steps) <= SetNames(refs) ==> forall d :: d in ds ==> d.refs == refs
  }

  // Subgraphs that continue what was matched before.
  ghost function Continuing(c: Content, s: set<Body>): set<Body> {
    set t | t in s :: Body(JoinContents(c, t.content), t.refs)
  }

  ghost predicate GoodSteps(mode: Mode, g: Graph, steps: seq<Step>, origin: Position, first: Position, pos: Position,
                            refs: Refs, c: Content, ds: seq<Draft>, obs: set<Observable>) {
    Found(mode, Continuing(c, SemSteps(g, steps, pos, refs)), ds) &&
    StepsSuffice(mode, g, obs, steps, pos, refs) &&
    (pos == origin ==> StepsTell(g, obs, steps, pos, refs)) &&
    StepsKeepRefs(steps, refs, ds) &&
    forall d :: d in ds ==> d.start == first
  }

  ghost function Origins(start: Start, first: Position): bool { first == start.origin || first == start.position }

  ghost predicate IsSteps(p: Plan, steps: seq<Step>) {
    steps != [] &&
    (forall w: World, pos: Position, refs: Refs :: Sem(w, p, pos, refs) == SemSteps(w.graph, steps, pos, refs)) &&
    (forall pos: Position, g: Graph :: Here(p, pos, g) ==> HereSteps(steps, pos, g)) &&
    (forall bound: RefNames :: Changed(p, bound) == BoundBySteps(steps) - bound)
  }

  lemma ContinuingNothing(s: set<Body>, ends: set<Position>)
    ensures Continuing(Content(ends, {}, {}), s) == s
  {
    forall t | t in s ensures Body(JoinContents(Content(ends, {}, {}), t.content), t.refs) == t {}
  }

  // Right answers for the steps of a path are right answers for the path.
  lemma StepsAreGood(mode: Mode, w: World, p: Plan, steps: seq<Step>, start: Start, first: Position,
                     ds: seq<Draft>, obs: set<Observable>)
    requires IsSteps(p, steps) && Origins(start, first)
    requires GoodSteps(mode, w.graph, steps, start.origin, first, start.position, start.refs, Content({}, {}, {}), ds,
        obs)
    ensures Good(mode, w, p, start, ds, obs)
  {
    hide Sem, SemSteps, Alike, Continuing, Here, HereSteps, Changed, BoundBySteps, SetNames, Found, StepsSuffice,
        StepsTell;
    var pos, refs := start.position, start.refs;
    ContinuingNothing(SemSteps(w.graph, steps, pos, refs), {});
    forall h: Graph | Alike(w.graph, h, obs) && Comparable(p, pos, w.graph, h, AtOrigin(start))
      ensures Unchanged(mode, Sem(w, p, pos, refs), Sem(World(h, w.cached), p, pos, refs))
    {
      assert HereSteps(steps, pos, w.graph) && (Here(p, pos, h) ==> HereSteps(steps, pos, h));
      NotHereNothing(p, pos, h);
      StepsCompared(mode, w.graph, h, obs, steps, pos, refs);
    }
    assert Sem(w, p, pos, refs) == SemSteps(w.graph, steps, pos, refs);
    assert Changed(p, SetNames(refs)) == BoundBySteps(steps) - SetNames(refs);
    if Changed(p, SetNames(refs)) == {} {
      forall x | x in BoundBySteps(steps) ensures x in SetNames(refs) {
        assert x in SetNames(refs) || x in Changed(p, SetNames(refs));
      }
    }
    assert Suffices(mode, w, obs, p, pos, refs, AtOrigin(start));
  }

  lemma NotHereNothing(p: Plan, pos: Position, h: Graph)
    ensures !Here(p, pos, h) ==> pos.kind.CORE? && pos.v !in h.vertices
  {}

  // Either the start vertex is there, or its absence was told and there's nothing to match.
  lemma StepsCompared(mode: Mode, g: Graph, h: Graph, obs: set<Observable>, steps: seq<Step>, pos: Position, refs: Refs)
    requires steps != [] && Alike(g, h, obs) && StepsSuffice(mode, g, obs, steps, pos, refs) && HereSteps(steps, pos, g)
    requires HereSteps(steps, pos, h) || (pos.kind.CORE? && pos.v !in h.vertices && StepsTell(g, obs, steps, pos, refs))
    ensures Unchanged(mode, SemSteps(g, steps, pos, refs), SemSteps(h, steps, pos, refs))
  {}

  lemma VertexIsSteps(m: MatchVertex)
    ensures IsSteps(PVertex(m), [VertexStep(m)])
  {
    assert BoundBySteps([VertexStep(m)]) == VertexRefs(m) + BoundBySteps([]);
  }

  lemma EdgeIsSteps(m: MatchEdge)
    ensures IsSteps(PEdge(m), [EdgeStep(m)])
  {
    assert BoundBySteps([EdgeStep(m)]) == {} + BoundBySteps([]);
  }

  lemma PathIsSteps(path: MatchPath)
    requires path.Alternates() && path.Length() > 0
    ensures IsSteps(PPath(path), path.Items())
  {
    assert path.Items()[0] == path.Item(0);
  }

  lemma PathToVertexIsSteps(prefix: MatchPath, e: MatchEdge, v: MatchVertex)
    requires prefix.Alternates()
    ensures IsSteps(PPathToVertex(prefix, e, v), PathToVertexSteps(prefix, e, v))
  {
    var steps := PathToVertexSteps(prefix, e, v);
    if prefix.Length() > 0 {
      assert steps[0] == prefix.Item(0);
    }
  }

  lemma NoSteps(mode: Mode, g: Graph, origin: Position, first: Position, pos: Position, refs: Refs, c: Content,
      d: Draft)
    requires d.start == first && d.ends == [pos] && d.refs == refs
    requires if mode.Normal? then Elems(d.vertices) == c.vertices && Elems(d.edges) == c.edges
             else d.vertices == [] && d.edges == []
    ensures GoodSteps(mode, g, [], origin, first, pos, refs, c, [d], {})
  {
    var s := Continuing(c, SemSteps(g, [], pos, refs));
    assert SemSteps(g, [], pos, refs) == {EmptyAt(pos, refs)};
    assert c.vertices + {} == c.vertices && c.edges + {} == c.edges;
    assert s == {Body(Content({pos}, c.vertices, c.edges), refs)};
    assert Elems([pos]) == {pos};
    assert Bodies([d]) == {BodyOf(d)} by { assert d in [d]; }
    if mode.RefsOnly? {
      ElemsEmpty(d.vertices);
      ElemsEmpty(d.edges);
      var b := Body(Content({pos}, c.vertices, c.edges), refs);
      assert View(mode, s) == {Strip(b)} by { assert b in s; }
    }
  }

  // --------------------------------------------------------------------------
  // A vertex
  // --------------------------------------------------------------------------

  ghost function WithVertex(c: Content, v: VertexID): Content { Content({}, c.vertices + {v}, c.edges) }

  lemma ContinuingVertex(g: Graph, steps: seq<Step>, pos: Position, refs: Refs, c: Content)
    requires steps != [] && steps[0].VertexStep?
    ensures var matched := VertexMatch(g, steps[0].vertex, pos, refs);
      Continuing(c, SemSteps(g, steps, pos, refs)) ==
        if matched.None? then {}
        else Continuing(WithVertex(c, pos.v), SemSteps(g, steps[1..], pos.WithKind(ORBIT), matched.value))
  {
    var matched := VertexMatch(g, steps[0].vertex, pos, refs);
    if matched.Some? {
      var h := Body(Content({}, {pos.v}, {}), refs);
      var s := SemSteps(g, steps[1..], pos.WithKind(ORBIT), matched.value);
      forall t | t in s
        ensures JoinContents(c, Join(h, t).content) == JoinContents(WithVertex(c, pos.v), t.content)
      {
        assert c.vertices + ({pos.v} + t.content.vertices) == (c.vertices + {pos.v}) + t.content.vertices;
        assert {} + t.content.edges == t.content.edges;
      }
      assert SemSteps(g, steps, pos, refs) == set t | t in s :: Join(h, t);
      forall b | b in Continuing(WithVertex(c, pos.v), s) ensures b in Continuing(c, SemSteps(g, steps, pos, refs)) {
        var t :| t in s && b == Body(JoinContents(WithVertex(c, pos.v), t.content), t.refs);
        assert Join(h, t) in SemSteps(g, steps, pos, refs);
      }
    }
  }

  lemma VertexMatchElsewhere(g: Graph, h: Graph, m: MatchVertex, pos: Position, refs: Refs)
    requires pos.kind.ORBIT? || (pos.v in g.vertices && pos.v in h.vertices)
    ensures VertexMatch(g, m, pos, refs) == VertexMatch(h, m, pos, refs)
  {}

  lemma VertexEmptiness(g: Graph, steps: seq<Step>, pos: Position, refs: Refs)
    requires steps != [] && steps[0].VertexStep? && VertexMatch(g, steps[0].vertex, pos, refs).Some?
    ensures SemSteps(g, steps, pos, refs) == {} <==>
      SemSteps(g, steps[1..], pos.WithKind(ORBIT), VertexMatch(g, steps[0].vertex, pos, refs).value) == {}
  {
    var s := SemSteps(g, steps[1..], pos.WithKind(ORBIT), VertexMatch(g, steps[0].vertex, pos, refs).value);
    if s != {} {
      var t :| t in s;
      assert Join(Body(Content({}, {pos.v}, {}), refs), t) in SemSteps(g, steps, pos, refs);
    }
  }

  lemma VertexStepGood(mode: Mode, g: Graph, steps: seq<Step>, origin: Position, first: Position, pos: Position,
                       refs: Refs, c: Content, ds: seq<Draft>, obs: set<Observable>)
    requires steps != [] && steps[0].VertexStep?
    requires var matched := VertexMatch(g, steps[0].vertex, pos, refs);
      if matched.None? then ds == []
      else
        GoodSteps(mode, g, steps[1..], origin, first, pos.WithKind(ORBIT), matched.value, WithVertex(c, pos.v), ds,
            obs) &&
        (pos == origin ==> ParticularVertex(pos.v) in obs)
    ensures GoodSteps(mode, g, steps, origin, first, pos, refs, c, ds, obs)
  {
    var m := steps[0].vertex;
    var matched := VertexMatch(g, m, pos, refs);
    ContinuingVertex(g, steps, pos, refs, c);
    BodiesEmpty(ds);
    forall h: Graph | Alike(g, h, obs) && HereSteps(steps, pos, g) && HereSteps(steps, pos, h)
      ensures Unchanged(mode, SemSteps(g, steps, pos, refs), SemSteps(h, steps, pos, refs))
    {
      VertexMatchElsewhere(g, h, m, pos, refs);
      if matched.Some? {
        VertexEmptiness(g, steps, pos, refs);
        VertexEmptiness(h, steps, pos, refs);
        assert HereSteps(steps[1..], pos.WithKind(ORBIT), g) && HereSteps(steps[1..], pos.WithKind(ORBIT), h);
      }
    }
    if pos == origin && pos.kind.CORE? && matched.Some? {
      assert forall h: Graph :: Alike(g, h, obs) && pos.v !in h.vertices ==> !Same(g, h, ParticularVertex(pos.v));
    }
    if BoundBySteps(steps) <= SetNames(refs) && matched.Some? {
      KnownRefStays(m, pos.v, refs);
      assert BoundBySteps(steps) == VertexRefs(m) + BoundBySteps(steps[1..]);
    }
  }

  lemma KnownRefStays(m: MatchVertex, v: VertexID, refs: Refs)
    requires VertexRefs(m) <= SetNames(refs)
    ensures m.Ref().Some? ==> BindRef(refs, m.Ref().value, v).None? || BindRef(refs, m.Ref().value, v).value == refs
  {
    if m.Ref().Some? {
      var x := m.Ref().value;
      assert x in VertexRefs(m);
      var l :| l in refs && !l.negative && l.name == x;
      assert Literal(x, false, l.value) in refs;
      assert IsSet(refs, x);
    }
  }

  // --------------------------------------------------------------------------
  // An edge
  // --------------------------------------------------------------------------

  ghost function WithEdges(c: Content, es: set<Edge>): Content { Content({}, c.vertices, c.edges + es) }

  // Subgraphs that go on after the hops.
  ghost function AfterHops(g: Graph, hops: set<Hop>, rest: seq<Step>, refs: Refs, c: Content): set<Body> {
    set hop, b | hop in hops && b in
        Continuing(WithEdges(c, hop.edges), SemSteps(g, rest, Position(hop.to, CORE), refs)) :: b
  }

  lemma ContinuingEdge(g: Graph, steps: seq<Step>, pos: Position, refs: Refs, c: Content)
    requires steps != [] && steps[0].EdgeStep?
    ensures Continuing(c, SemSteps(g, steps, pos, refs)) ==
      AfterHops(g, Hops(g, steps[0].edge, pos), steps[1..], refs, c)
  {
    var hops, rest := Hops(g, steps[0].edge, pos), steps[1..];
    var s := SemSteps(g, steps, pos, refs);
    forall b | b in Continuing(c, s) ensures b in AfterHops(g, hops, rest, refs, c) {
      var j :| j in s && b == Body(JoinContents(c, j.content), j.refs);
      var hop, t :| hop in hops && t in SemSteps(g, rest, Position(hop.to, CORE), refs) &&
        j == Join(Body(Content({}, {}, hop.edges), refs), t);
      ContinuingHop(c, hop, t, refs);
      assert b in Continuing(WithEdges(c, hop.edges), SemSteps(g, rest, Position(hop.to, CORE), refs));
    }
    forall b | b in AfterHops(g, hops, rest, refs, c) ensures b in Continuing(c, s) {
      var hop :| hop in hops && b in Continuing(WithEdges(c, hop.edges),
          SemSteps(g, rest, Position(hop.to, CORE), refs));
      var t :| t in SemSteps(g, rest, Position(hop.to, CORE), refs) &&
        b == Body(JoinContents(WithEdges(c, hop.edges), t.content), t.refs);
      ContinuingHop(c, hop, t, refs);
      assert Join(Body(Content({}, {}, hop.edges), refs), t) in s;
    }
  }

  lemma ContinuingHop(c: Content, hop: Hop, t: Body, refs: Refs)
    ensures JoinContents(c, Join(Body(Content({}, {}, hop.edges), refs), t).content) ==
      JoinContents(WithEdges(c, hop.edges), t.content)
  {
    assert c.vertices + ({} + t.content.vertices) == c.vertices + t.content.vertices;
    assert c.edges + (hop.edges + t.content.edges) == (c.edges + hop.edges) + t.content.edges;
  }

  // The answer so far, having followed some of the hops.
  ghost predicate GoodHops(mode: Mode, g: Graph, rest: seq<Step>, hops: set<Hop>, first: Position,
                           refs: Refs, c: Content, ds: seq<Draft>, obs: set<Observable>) {
    Found(mode, AfterHops(g, hops, rest, refs, c), ds) &&
    (forall hop :: hop in hops ==> StepsSuffice(mode, g, obs, rest, Position(hop.to, CORE), refs)) &&
    StepsKeepRefs(rest, refs, ds) &&
    forall d :: d in ds ==> d.start == first
  }

  lemma NoHops(mode: Mode, g: Graph, rest: seq<Step>, first: Position, refs: Refs, c: Content)
    ensures GoodHops(mode, g, rest, {}, first, refs, c, [], {})
  {
    assert AfterHops(g, {}, rest, refs, c) == {};
  }

  lemma StepsSufficeMonotone(mode: Mode, g: Graph, a: set<Observable>, b: set<Observable>,
                             steps: seq<Step>, pos: Position, refs: Refs)
    requires a <= b && StepsSuffice(mode, g, a, steps, pos, refs)
    ensures StepsSuffice(mode, g, b, steps, pos, refs)
  {
    forall h: Graph | Alike(g, h, b) ensures Alike(g, h, a) { AlikeMonotone(g, h, a, b); }
  }

  lemma AfterHopsUnion(g: Graph, a: set<Hop>, b: set<Hop>, rest: seq<Step>, refs: Refs, c: Content)
    ensures AfterHops(g, a + b, rest, refs, c) == AfterHops(g, a, rest, refs, c) + AfterHops(g, b, rest, refs, c)
  {}

  lemma OneMoreHop(mode: Mode, g: Graph, rest: seq<Step>, hops: set<Hop>, hop: Hop, origin: Position, first: Position,
                   refs: Refs, c: Content, ds: seq<Draft>, a: set<Observable>, es: seq<Draft>, b: set<Observable>)
    requires GoodHops(mode, g, rest, hops, first, refs, c, ds, a)
    requires GoodSteps(mode, g, rest, origin, first, Position(hop.to, CORE), refs, WithEdges(c, hop.edges), es, b)
    ensures GoodHops(mode, g, rest, hops + {hop}, first, refs, c, ds + es, a + b)
  {
    AfterHopsUnion(g, hops, {hop}, rest, refs, c);
    assert AfterHops(g, {hop}, rest, refs, c) ==
      Continuing(WithEdges(c, hop.edges), SemSteps(g, rest, Position(hop.to, CORE), refs));
    FoundAppend(mode, AfterHops(g, hops, rest, refs, c), AfterHops(g, {hop}, rest, refs, c), ds, es);
    forall k | k in hops + {hop} ensures StepsSuffice(mode, g, a + b, rest, Position(k.to, CORE), refs) {
      if k in hops {
        StepsSufficeMonotone(mode, g, a, a + b, rest, Position(k.to, CORE), refs);
      } else {
        StepsSufficeMonotone(mode, g, b, a + b, rest, Position(k.to, CORE), refs);
      }
    }
  }

  lemma GoodHopsMonotone(mode: Mode, g: Graph, rest: seq<Step>, hops: set<Hop>, first: Position,
                         refs: Refs, c: Content, ds: seq<Draft>, a: set<Observable>, b: set<Observable>)
    requires a <= b && GoodHops(mode, g, rest, hops, first, refs, c, ds, a)
    ensures GoodHops(mode, g, rest, hops, first, refs, c, ds, b)
  {
    forall hop | hop in hops ensures StepsSuffice(mode, g, b, rest, Position(hop.to, CORE), refs) {
      StepsSufficeMonotone(mode, g, a, b, rest, Position(hop.to, CORE), refs);
    }
  }

  lemma AfterHopsEmptiness(g: Graph, steps: seq<Step>, pos: Position, refs: Refs)
    requires steps != [] && steps[0].EdgeStep?
    ensures SemSteps(g, steps, pos, refs) == {} <==>
      forall hop :: hop in Hops(g, steps[0].edge, pos) ==> SemSteps(g, steps[1..], Position(hop.to, CORE), refs) == {}
  {
    forall hop | hop in Hops(g, steps[0].edge, pos) && SemSteps(g, steps[1..], Position(hop.to, CORE), refs) != {}
      ensures SemSteps(g, steps, pos, refs) != {}
    {
      var t :| t in SemSteps(g, steps[1..], Position(hop.to, CORE), refs);
      assert Join(Body(Content({}, {}, hop.edges), refs), t) in SemSteps(g, steps, pos, refs);
    }
    if SemSteps(g, steps, pos, refs) != {} {
      var b :| b in SemSteps(g, steps, pos, refs);
      var hop, t :| hop in Hops(g, steps[0].edge, pos) && t in SemSteps(g, steps[1..], Position(hop.to, CORE), refs) &&
        b == Join(Body(Content({}, {}, hop.edges), refs), t);
    }
  }

  lemma AfterSameHops(mode: Mode, g: Graph, h: Graph, steps: seq<Step>, pos: Position, refs: Refs)
    requires steps != [] && steps[0].EdgeStep?
    requires Hops(g, steps[0].edge, pos) == Hops(h, steps[0].edge, pos)
    requires forall hop :: hop in Hops(g, steps[0].edge, pos) ==>
      Unchanged(mode, SemSteps(g, steps[1..], Position(hop.to, CORE), refs),
          SemSteps(h, steps[1..], Position(hop.to, CORE), refs))
    ensures Unchanged(mode, SemSteps(g, steps, pos, refs), SemSteps(h, steps, pos, refs))
  {
    AfterHopsEmptiness(g, steps, pos, refs);
    AfterHopsEmptiness(h, steps, pos, refs);
  }

  // All the hops of both passes were followed.
  lemma EdgeStepGood(mode: Mode, g: Graph, steps: seq<Step>, origin: Position, first: Position, pos: Position,
                     refs: Refs, c: Content, ds: seq<Draft>, obs: set<Observable>)
    requires WellFormed(g) && steps != [] && steps[0].EdgeStep?
    requires GoodHops(mode, g, steps[1..], Hops(g, steps[0].edge, pos), first, refs, c, ds, obs)
    requires PassObs(steps[0].edge, pos, 0) + PassObs(steps[0].edge, pos, 1) <= obs
    ensures GoodSteps(mode, g, steps, origin, first, pos, refs, c, ds, obs)
  {
    var m, rest := steps[0].edge, steps[1..];
    ContinuingEdge(g, steps, pos, refs, c);
    forall h: Graph | Alike(g, h, obs)
      ensures Unchanged(mode, SemSteps(g, steps, pos, refs), SemSteps(h, steps, pos, refs))
    {
      HopsInPasses(g, m, pos);
      HopsInPasses(h, m, pos);
      PassObserved(g, h, m, pos, 0);
      PassObserved(g, h, m, pos, 1);
      HopsStayInside(g, m, pos);
      HopsStayInside(h, m, pos);
      forall hop | hop in Hops(g, m, pos)
        ensures Unchanged(mode, SemSteps(g, rest, Position(hop.to, CORE), refs),
            SemSteps(h, rest, Position(hop.to, CORE), refs))
      {
        assert HereSteps(rest, Position(hop.to, CORE), g) && HereSteps(rest, Position(hop.to, CORE), h);
      }
      AfterSameHops(mode, g, h, steps, pos, refs);
    }
  }

  // Something was found after some of the hops, which is enough in First mode.
  lemma EdgeStepEnough(g: Graph, steps: seq<Step>, hops: set<Hop>, pass: nat, origin: Position, first: Position,
                       pos: Position, refs: Refs, c: Content, ds: seq<Draft>, obs: set<Observable>)
    requires WellFormed(g) && steps != [] && steps[0].EdgeStep? && ds != [] && pass <= 1
    requires hops <= HopsPass(g, steps[0].edge, pos, 0) + (if pass == 0 then {} else HopsPass(g, steps[0].edge, pos, 1))
    requires GoodHops(First, g, steps[1..], hops, first, refs, c, ds, obs)
    requires PassObs(steps[0].edge, pos, 0) + (if pass == 0 then {} else PassObs(steps[0].edge, pos, 1)) <= obs
    ensures GoodSteps(First, g, steps, origin, first, pos, refs, c, ds, obs)
  {
    var m, rest := steps[0].edge, steps[1..];
    ContinuingEdge(g, steps, pos, refs, c);
    HopsInPasses(g, m, pos);
    AfterHopsUnion(g, hops, Hops(g, m, pos) - hops, rest, refs, c);
    assert hops + (Hops(g, m, pos) - hops) == Hops(g, m, pos);
    var b :| b in AfterHops(g, hops, rest, refs, c);
    var hop :| hop in hops && b in Continuing(WithEdges(c, hop.edges), SemSteps(g, rest, Position(hop.to, CORE), refs));
    AfterHopsEmptiness(g, steps, pos, refs);
    HopsStayInside(g, m, pos);
    forall h: Graph | Alike(g, h, obs) ensures SemSteps(h, steps, pos, refs) != {} {
      HopsInPasses(h, m, pos);
      PassObserved(g, h, m, pos, 0);
      if pass == 1 { PassObserved(g, h, m, pos, 1); }
      assert hop in Hops(h, m, pos);
      HopsStayInside(h, m, pos);
      assert HereSteps(rest, Position(hop.to, CORE), g) && HereSteps(rest, Position(hop.to, CORE), h);
      AfterHopsEmptiness(h, steps, pos, refs);
    }
  }
}
