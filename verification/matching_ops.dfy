/** Right answers for operators that combine the right answers of operands. */
module MatchingOps {
  import opened Base
  import opened RefsAlgebra
  import opened Plans
  import opened Semantics
  import opened RefTracking
  import opened Dependencies
  import opened Matching
  import opened MatchingSteps

  // --------------------------------------------------------------------------
  // Paths to known vertices
  // --------------------------------------------------------------------------

  ghost function KnownVertex(v: MatchVertex, refs: Refs): Option<VertexID> {
    if v.placeholder.Some? then v.placeholder
    else if v.matchRef.Some? && IsSet(refs, v.matchRef.value) then Some(ValueOf(refs, v.matchRef.value))
    else None
  }

  ghost function HopsTo(g: Graph, m: MatchEdge, pos: Position, to: VertexID): set<Hop> {
    set hop | hop in Hops(g, m, pos) && hop.to == to
  }

  // One observable for each label, or the vertex's edges as a whole if labels aren't given.
  function BetweenObs(m: MatchEdge, from: VertexID, to: VertexID): set<Observable> {
    (if m.direction.Backward? then {}
     else if m.forward.Some? then set l | l in m.forward.value :: ParticularEdge(Edge(from, l, to))
     else {EdgeFrom(from)}) +
    (if m.direction.Forward? then {}
     else if m.backward.Some? then set l | l in m.backward.value :: ParticularEdge(Edge(to, l, from))
     else {EdgeTo(from)})
  }

  lemma EdgeBetweenObserved(g: Graph, h: Graph, m: MatchEdge, from: VertexID, to: VertexID, e: Edge)
    requires Agrees(g, h, BetweenObs(m, from, to))
    requires (!m.direction.Backward? && e.from == from && e.to == to && HasLabel(m.forward, e.lab)) ||
             (!m.direction.Forward? && e.from == to && e.to == from && HasLabel(m.backward, e.lab))
    ensures e in g.edges <==> e in h.edges
  {
    if !m.direction.Backward? && e.from == from && e.to == to && HasLabel(m.forward, e.lab) {
      if m.forward.Some? {
        assert ParticularEdge(Edge(from, e.lab, to)) in BetweenObs(m, from, to);
        assert Same(g, h, ParticularEdge(e));
      } else {
        assert Same(g, h, EdgeFrom(from));
        assert SameEdge(g, h, e);
      }
    } else {
      if m.backward.Some? {
        assert ParticularEdge(Edge(to, e.lab, from)) in BetweenObs(m, from, to);
        assert Same(g, h, ParticularEdge(e));
      } else {
        assert Same(g, h, EdgeTo(from));
        assert SameEdge(g, h, e);
      }
    }
  }

  lemma HopsToIncluded(g: Graph, h: Graph, m: MatchEdge, pos: Position, to: VertexID)
    requires forall e: Edge ::
      (!m.direction.Backward? && e.from == pos.v && e.to == to && HasLabel(m.forward, e.lab)) ||
      (!m.direction.Forward? && e.from == to && e.to == pos.v && HasLabel(m.backward, e.lab)) ==>
      (e in g.edges ==> e in h.edges)
    ensures HopsTo(g, m, pos, to) <= HopsTo(h, m, pos, to)
  {
    forall hop | hop in HopsTo(g, m, pos, to) ensures hop in HopsTo(h, m, pos, to) {
      match m.direction
      case Forward => var e :| e in Outgoing(g, pos.v, m.forward) && hop == Hop({e}, e.to);
      case Backward => var e :| e in Incoming(g, pos.v, m.backward) && hop == Hop({e}, e.from);
      case AnyDirection =>
        if e :| e in Outgoing(g, pos.v, m.forward) && hop == Hop({e}, e.to) {
        } else {
          var e :| e in Incoming(g, pos.v, m.backward) && hop == Hop({e}, e.from);
        }
      case Both =>
        var e, f :| e in Outgoing(g, pos.v, m.forward) && f in Incoming(g, pos.v, m.backward) && f.from == e.to &&
          hop == Hop({e, f}, e.to);
      case BothSymmetric =>
        var e :| e in Outgoing(g, pos.v, m.forward) && e.Reverse() in Incoming(g, pos.v, m.backward) &&
          hop == Hop({e, e.Reverse()}, e.to);
    }
  }

  // Looking between two vertices only depends on the edges between them.
  lemma HopsToObserved(g: Graph, h: Graph, m: MatchEdge, pos: Position, to: VertexID)
    requires Agrees(g, h, BetweenObs(m, pos.v, to))
    ensures HopsTo(g, m, pos, to) == HopsTo(h, m, pos, to)
  {
    forall e: Edge |
      (!m.direction.Backward? && e.from == pos.v && e.to == to && HasLabel(m.forward, e.lab)) ||
      (!m.direction.Forward? && e.from == to && e.to == pos.v && HasLabel(m.backward, e.lab))
      ensures e in g.edges <==> e in h.edges
    {
      EdgeBetweenObserved(g, h, m, pos.v, to, e);
    }
    HopsToIncluded(g, h, m, pos, to);
    HopsToIncluded(h, g, m, pos, to);
  }

  lemma OnlyKnownMatches(g: Graph, v: MatchVertex, refs: Refs, to: VertexID, pos: Position)
    requires KnownVertex(v, refs) == Some(to) && (v.placeholder.None? ==> v.setRef.None?)
    requires VertexMatch(g, v, pos, refs).Some?
    ensures pos.v == to
  {}

  // Subgraphs that end with one of the hops to the known vertex.
  ghost function Looked(hops: set<Hop>, c: Content, to: VertexID, r: Refs): set<Body> {
    set hop | hop in hops :: Body(Content({Position(to, ORBIT)}, c.vertices + {to}, c.edges + hop.edges), r)
  }

  ghost function LookupSteps(e: MatchEdge, v: MatchVertex): seq<Step> { [EdgeStep(e), VertexStep(v)] }

  lemma AfterHopToVertex(g: Graph, hop: Hop, v: MatchVertex, refs: Refs, c: Content)
    ensures Continuing(WithEdges(c, hop.edges), SemSteps(g, [VertexStep(v)], Position(hop.to, CORE), refs)) ==
      var matched := VertexMatch(g, v, Position(hop.to, CORE), refs);
      if matched.None? then {} else Looked({hop}, c, hop.to, matched.value)
  {
    var pos := Position(hop.to, CORE);
    var steps := [VertexStep(v)];
    ContinuingVertex(g, steps, pos, refs, WithEdges(c, hop.edges));
    var matched := VertexMatch(g, v, pos, refs);
    if matched.Some? {
      assert steps[1..] == [];
      assert SemSteps(g, [], pos.WithKind(ORBIT), matched.value) == {EmptyAt(pos.WithKind(ORBIT), matched.value)};
      var d := WithVertex(WithEdges(c, hop.edges), hop.to);
      assert d.vertices + {} == c.vertices + {hop.to} && d.edges + {} == c.edges + hop.edges;
    }
  }

  lemma LookupMeaning(g: Graph, e: MatchEdge, v: MatchVertex, pos: Position, refs: Refs, c: Content, to: VertexID)
    requires KnownVertex(v, refs) == Some(to) && (v.placeholder.None? ==> v.setRef.None?)
    ensures Continuing(c, SemSteps(g, LookupSteps(e, v), pos, refs)) ==
      var matched := VertexMatch(g, v, Position(to, CORE), refs);
      if matched.None? then {} else Looked(HopsTo(g, e, pos, to), c, to, matched.value)
  {
    hide Hops, VertexMatch, SemSteps, Continuing, KnownVertex, Looked;
    var steps := LookupSteps(e, v);
    ContinuingEdge(g, steps, pos, refs, c);
    assert steps[1..] == [VertexStep(v)];
    var matched := VertexMatch(g, v, Position(to, CORE), refs);
    forall hop | hop in Hops(g, e, pos)
      ensures Continuing(WithEdges(c, hop.edges), SemSteps(g, [VertexStep(v)], Position(hop.to, CORE), refs)) ==
        if hop.to != to || matched.None? then {} else Looked({hop}, c, to, matched.value)
    {
      AfterHopToVertex(g, hop, v, refs, c);
      if VertexMatch(g, v, Position(hop.to, CORE), refs).Some? {
        OnlyKnownMatches(g, v, refs, to, Position(hop.to, CORE));
      }
    }
    if matched.Some? {
      LookedEach(g, e, pos, to, c, matched.value);
      var after := AfterHops(g, Hops(g, e, pos), [VertexStep(v)], refs, c);
      forall b | b in after ensures b in Looked(HopsTo(g, e, pos, to), c, to, matched.value) {
        var hop :| hop in Hops(g, e, pos) &&
            b in Continuing(WithEdges(c, hop.edges), SemSteps(g, [VertexStep(v)], Position(hop.to, CORE), refs));
        assert hop in HopsTo(g, e, pos, to);
      }
    }
  }

  lemma LookedEach(g: Graph, e: MatchEdge, pos: Position, to: VertexID, c: Content, r: Refs)
    ensures forall b :: b in Looked(HopsTo(g, e, pos, to), c, to, r) <==>
      exists hop :: hop in HopsTo(g, e, pos, to) && b in Looked({hop}, c, to, r)
  {
    hide Hops;
    forall b | b in Looked(HopsTo(g, e, pos, to), c, to, r)
      ensures exists hop :: hop in HopsTo(g, e, pos, to) && b in Looked({hop}, c, to, r)
    {
      var hop :| hop in HopsTo(g, e, pos, to) &&
          b == Body(Content({Position(to, ORBIT)}, c.vertices + {to}, c.edges + hop.edges), r);
      assert b in Looked({hop}, c, to, r);
    }
  }

  lemma LookupSuffices(mode: Mode, g: Graph, obs: set<Observable>, e: MatchEdge, v: MatchVertex, pos: Position,
                       refs: Refs, to: VertexID)
    requires WellFormed(g) && KnownVertex(v, refs) == Some(to) && (v.placeholder.None? ==> v.setRef.None?)
    requires pos.kind.ORBIT? ==> BetweenObs(e, pos.v, to) <= obs || (to !in g.vertices && ParticularVertex(to) in obs)
    ensures StepsSuffice(mode, g, obs, LookupSteps(e, v), pos, refs)
  {
    var steps := LookupSteps(e, v);
    forall h: Graph | Alike(g, h, obs) ensures SemSteps(g, steps, pos, refs) == SemSteps(h, steps, pos, refs) {
      LookupMeaning(g, e, v, pos, refs, Content({}, {}, {}), to);
      LookupMeaning(h, e, v, pos, refs, Content({}, {}, {}), to);
      ContinuingNothing(SemSteps(g, steps, pos, refs), {});
      ContinuingNothing(SemSteps(h, steps, pos, refs), {});
      HopsStayInside(g, e, pos);
      HopsStayInside(h, e, pos);
      if pos.kind.ORBIT? {
        if BetweenObs(e, pos.v, to) <= obs {
          HopsToObserved(g, h, e, pos, to);
        } else {
          assert Same(g, h, ParticularVertex(to));
        }
      }
    }
  }

  // --------------------------------------------------------------------------
  // Concatenation
  // --------------------------------------------------------------------------

  ghost function TailsOf(w: World, rest: seq<Plan>, visited: set<(Body, Position)>): set<Body> {
    set v, t | v in visited && t in SemConcat(w, rest, v.1, v.0.refs) :: Join(v.0, t)
  }

  ghost function Pairs(s: set<Body>): set<(Body, Position)> { set h, q | h in s && q in h.content.ends :: (h, q) }

  lemma ConcatIsTails(w: World, ops: seq<Plan>, pos: Position, refs: Refs)
    requires |ops| > 1
    ensures SemConcat(w, ops, pos, refs) == TailsOf(w, ops[1..], Pairs(Sem(w, ops[0], pos, refs)))
  {
    var s := Sem(w, ops[0], pos, refs);
    forall h, q, t | h in s && q in h.content.ends && t in SemConcat(w, ops[1..], q, h.refs)
      ensures Join(h, t) in TailsOf(w, ops[1..], Pairs(s))
    {
      assert (h, q) in Pairs(s);
    }
  }

  // Answers for the tails visited so far.
  ghost predicate GoodTails(mode: Mode, w: World, rest: seq<Plan>, visited: set<(Body, Position)>, start: Start,
                            ds: seq<Draft>, obs: set<Observable>) {
    Found(mode, TailsOf(w, rest, visited), ds) &&
    StartsOk(start, ds) &&
    forall v :: v in visited ==> GoodTail(mode, w, rest, v, start.origin, obs)
  }

  ghost predicate GoodTail(mode: Mode, w: World, rest: seq<Plan>, v: (Body, Position), origin: Position,
      obs: set<Observable>) {
    Suffices(mode, w, obs, PConcatenation(rest), v.1, v.0.refs, v.1 == origin)
  }

  ghost predicate AllKeep(refs: Refs, ds: seq<Draft>) { forall d :: d in ds ==> d.refs == refs }

  function Concatenated(h: Draft, t: Draft): Draft {
    Draft(h.start, t.ends, t.vertices + h.vertices, t.edges + h.edges, t.refs)
  }

  lemma ConcatenatedBody(h: Draft, t: Draft)
    ensures BodyOf(Concatenated(h, t)) == Join(BodyOf(h), BodyOf(t))
  {
    ElemsAppend(t.vertices, h.vertices);
    ElemsAppend(t.edges, h.edges);
    assert Elems(t.vertices) + Elems(h.vertices) == Elems(h.vertices) + Elems(t.vertices);
    assert Elems(t.edges) + Elems(h.edges) == Elems(h.edges) + Elems(t.edges);
  }

  ghost predicate ConcatenatedAll(h: Draft, ts: seq<Draft>, ds: seq<Draft>) {
    |ds| == |ts| && forall i :: 0 <= i < |ts| ==> ds[i] == Concatenated(h, ts[i])
  }

  lemma ConcatenatedBodies(h: Draft, ts: seq<Draft>, ds: seq<Draft>)
    requires ConcatenatedAll(h, ts, ds)
    ensures Bodies(ds) == set t | t in Bodies(ts) :: Join(BodyOf(h), t)
  {
    forall i | 0 <= i < |ts| ensures BodyOf(ds[i]) == Join(BodyOf(h), BodyOf(ts[i])) {
      ConcatenatedBody(h, ts[i]);
    }
    forall t | t in Bodies(ts) ensures Join(BodyOf(h), t) in Bodies(ds) {
      var d :| d in ts && BodyOf(d) == t;
      var i :| 0 <= i < |ts| && ts[i] == d;
      assert ds[i] in ds;
    }
    forall b | b in Bodies(ds) ensures b in set t | t in Bodies(ts) :: Join(BodyOf(h), t) {
      var d :| d in ds && BodyOf(d) == b;
      var i :| 0 <= i < |ds| && ds[i] == d;
      assert ts[i] in ts && BodyOf(ts[i]) in Bodies(ts);
    }
  }

  lemma JoinFound(mode: Mode, h: Draft, s: set<Body>, ts: seq<Draft>, ds: seq<Draft>)
    requires ConcatenatedAll(h, ts, ds) && Found(mode, s, ts) &&
        (!mode.Normal? ==> StripContent(BodyOf(h).content) == BodyOf(h).content)
    ensures Found(mode, set t | t in s :: Join(BodyOf(h), t), ds)
  {
    ConcatenatedBodies(h, ts, ds);
    var joined := set t | t in s :: Join(BodyOf(h), t);
    if s != {} {
      var t :| t in s;
      assert Join(BodyOf(h), t) in joined;
    }
    if mode.RefsOnly? {
      assert Stripped(joined) == set t | t in Stripped(s) :: Join(BodyOf(h), t) by {
        forall t | t in s ensures Strip(Join(BodyOf(h), t)) == Join(BodyOf(h), Strip(t)) {}
        forall b | b in Stripped(joined) ensures b in set t | t in Stripped(s) :: Join(BodyOf(h), t) {
          var t :| t in s && b == Strip(Join(BodyOf(h), t));
          assert Strip(t) in Stripped(s);
        }
        forall b | b in set t | t in Stripped(s) :: Join(BodyOf(h), t) ensures b in Stripped(joined) {
          var t :| t in s && b == Join(BodyOf(h), Strip(t));
          assert Join(BodyOf(h), t) in joined;
        }
      }
    }
  }

  lemma TailsUnion(w: World, rest: seq<Plan>, a: set<(Body, Position)>, b: set<(Body, Position)>)
    ensures TailsOf(w, rest, a + b) == TailsOf(w, rest, a) + TailsOf(w, rest, b)
  {}

  lemma GoodTailMonotone(mode: Mode, w: World, rest: seq<Plan>, v: (Body, Position), origin: Position,
                         a: set<Observable>, b: set<Observable>)
    requires a <= b && GoodTail(mode, w, rest, v, origin, a)
    ensures GoodTail(mode, w, rest, v, origin, b)
  {
    SufficesMonotone(mode, w, a, b, PConcatenation(rest), v.1, v.0.refs, v.1 == origin);
  }

  lemma ConcatIsConcat(w: World, ops: seq<Plan>, pos: Position, refs: Refs)
    ensures Sem(w, PConcatenation(ops), pos, refs) == SemConcat(w, ops, pos, refs)
  {}

  lemma OneMoreTail(mode: Mode, w: World, rest: seq<Plan>, visited: set<(Body, Position)>, start: Start, h: Draft,
      q: Position,
                    ds: seq<Draft>, a: set<Observable>, ts: seq<Draft>, es: seq<Draft>, b: set<Observable>)
    requires GoodTails(mode, w, rest, visited, start, ds, a)
    requires Good(mode, w, PConcatenation(rest), Start(start.origin, q, h.refs), ts, b)
    requires ConcatenatedAll(h, ts, es) && (h.start == start.origin || h.start == start.position)
    requires !mode.Normal? ==> StripContent(BodyOf(h).content) == BodyOf(h).content
    ensures GoodTails(mode, w, rest, visited + {(BodyOf(h), q)}, start, ds + es, a + b)
  {
    hide Found, Join, Suffices, SemConcat, Sem;
    var v := (BodyOf(h), q);
    TailsUnion(w, rest, visited, {v});
    var s := SemConcat(w, rest, q, h.refs);
    ConcatIsConcat(w, rest, q, h.refs);
    JoinFound(mode, h, s, ts, es);
    assert TailsOf(w, rest, {v}) == set t | t in s :: Join(BodyOf(h), t);
    FoundAppend(mode, TailsOf(w, rest, visited), TailsOf(w, rest, {v}), ds, es);
    forall u | u in visited + {v} ensures GoodTail(mode, w, rest, u, start.origin, a + b) {
      if u in visited {
        GoodTailMonotone(mode, w, rest, u, start.origin, a, a + b);
      } else {
        assert GoodTail(mode, w, rest, v, start.origin, b);
        GoodTailMonotone(mode, w, rest, u, start.origin, b, a + b);
      }
    }
    forall d | d in es ensures d.start == start.origin || d.start == start.position {
      var i :| 0 <= i < |es| && es[i] == d;
    }
  }

  lemma NoTails(mode: Mode, w: World, rest: seq<Plan>, start: Start)
    ensures GoodTails(mode, w, rest, {}, start, [], {})
  {}

  lemma TailsOfStripped(w: World, rest: seq<Plan>, s: set<Body>)
    ensures Stripped(TailsOf(w, rest, Pairs(Stripped(s)))) == Stripped(TailsOf(w, rest, Pairs(s)))
    ensures TailsOf(w, rest, Pairs(Stripped(s))) == {} <==> TailsOf(w, rest, Pairs(s)) == {}
  {
    var a, b := TailsOf(w, rest, Pairs(Stripped(s))), TailsOf(w, rest, Pairs(s));
    forall x | x in a ensures exists y :: y in b && Strip(y) == Strip(x) {
      var v, t :| v in Pairs(Stripped(s)) && t in SemConcat(w, rest, v.1, v.0.refs) && x == Join(v.0, t);
      var h :| h in s && Strip(h) == v.0;
      assert (h, v.1) in Pairs(s);
      assert Join(h, t) in b;
    }
    forall y | y in b ensures exists x :: x in a && Strip(y) == Strip(x) {
      var v, t :| v in Pairs(s) && t in SemConcat(w, rest, v.1, v.0.refs) && y == Join(v.0, t);
      assert Strip(v.0) in Stripped(s);
      assert (Strip(v.0), v.1) in Pairs(Stripped(s));
      assert Join(Strip(v.0), t) in a;
    }
  }

  lemma PeeksUnfold(ops: seq<Plan>)
    requires ops != []
    ensures Peeks(PConcatenation(ops)) <==> Peeks(ops[0]) || (Stays(ops[0]) && Peeks(PConcatenation(ops[1..])))
  {
    assert Peeks(PConcatenation(ops)) == PeeksConcat(ops);
    assert Peeks(PConcatenation(ops[1..])) == PeeksConcat(ops[1..]);
  }

  // The end of a head is there, or it is the origin itself.
  lemma TailIsHere(g: Graph, cached: bool, ops: seq<Plan>, pos: Position, refs: Refs, b: Body, q: Position)
    requires |ops| > 1 && WellFormed(g) && b in Sem(World(g, cached), ops[0], pos, refs) && q in b.content.ends
    ensures Here(PConcatenation(ops), pos, g) ==> Here(PConcatenation(ops[1..]), q, g) && Here(ops[0], pos, g)
    ensures Here(PConcatenation(ops[1..]), q, g) || q == pos
  {
    PeeksUnfold(ops);
    EndsAreHere(World(g, cached), ops[0], pos, refs);
    assert EndOk(g, pos, Stays(ops[0]), q);
  }

  ghost predicate TailUnchanged(mode: Mode, w: World, x: World, rest: seq<Plan>, v: (Body, Position)) {
    Unchanged(mode, SemConcat(w, rest, v.1, v.0.refs), SemConcat(x, rest, v.1, v.0.refs))
  }

  lemma SameTails(mode: Mode, w: World, x: World, rest: seq<Plan>, visited: set<(Body, Position)>)
    requires forall v :: v in visited ==> TailUnchanged(mode, w, x, rest, v)
    ensures Unchanged(mode, TailsOf(w, rest, visited), TailsOf(x, rest, visited))
  {
    if mode.First? {
      TailsEmptiness(w, rest, visited);
      TailsEmptiness(x, rest, visited);
    } else {
      forall v | v in visited ensures SemConcat(w, rest, v.1, v.0.refs) == SemConcat(x, rest, v.1, v.0.refs) {
        assert TailUnchanged(mode, w, x, rest, v);
      }
    }
  }

  lemma TailsEmptiness(w: World, rest: seq<Plan>, visited: set<(Body, Position)>)
    ensures TailsOf(w, rest, visited) == {} <==> forall v :: v in visited ==> SemConcat(w, rest, v.1, v.0.refs) == {}
  {
    forall v | v in visited && SemConcat(w, rest, v.1, v.0.refs) != {} ensures TailsOf(w, rest, visited) != {} {
      var t :| t in SemConcat(w, rest, v.1, v.0.refs);
      assert Join(v.0, t) in TailsOf(w, rest, visited);
    }
  }

  // In a graph that looks alike, the head matches the same, and so do the tails that were visited.
  lemma AlikeTails(mode: Mode, w: World, h: Graph, ops: seq<Plan>, start: Start, visited: set<(Body, Position)>,
      obs: set<Observable>)
    requires |ops| > 1 && WellFormed(w.graph) && Alike(w.graph, h, obs)
    requires Comparable(PConcatenation(ops), start.position, w.graph, h, AtOrigin(start))
    requires Suffices(AllMatches(mode), w, obs, ops[0], start.position, start.refs, AtOrigin(start))
    requires visited <= Pairs(View(AllMatches(mode), Sem(w, ops[0], start.position, start.refs)))
    requires forall v :: v in visited ==> GoodTail(mode, w, ops[1..], v, start.origin, obs)
    ensures Sem(w, ops[0], start.position, start.refs) == Sem(World(h, w.cached), ops[0], start.position, start.refs)
    ensures forall v :: v in visited ==> TailUnchanged(mode, w, World(h, w.cached), ops[1..], v)
  {
    var pos, refs := start.position, start.refs;
    var x := World(h, w.cached);
    PeeksUnfold(ops);
    assert Comparable(ops[0], pos, w.graph, h, AtOrigin(start));
    assert Sem(w, ops[0], pos, refs) == Sem(x, ops[0], pos, refs);
    forall v | v in visited ensures TailUnchanged(mode, w, x, ops[1..], v) {
      var b :| b in Sem(w, ops[0], pos, refs) && b.refs == v.0.refs && v.1 in b.content.ends;
      TailIsHere(w.graph, w.cached, ops, pos, refs, b, v.1);
      TailIsHere(h, w.cached, ops, pos, refs, b, v.1);
      assert GoodTail(mode, w, ops[1..], v, start.origin, obs);
      assert Comparable(PConcatenation(ops[1..]), v.1, w.graph, h, v.1 == start.origin);
      assert Sem(w, PConcatenation(ops[1..]), v.1, v.0.refs) == SemConcat(w, ops[1..], v.1, v.0.refs);
      assert Sem(x, PConcatenation(ops[1..]), v.1, v.0.refs) == SemConcat(x, ops[1..], v.1, v.0.refs);
    }
  }

  // Tails of some of the heads, which are either all of them, or enough in First mode.
  ghost predicate EnoughTails(mode: Mode, w: World, ops: seq<Plan>, start: Start, visited: set<(Body, Position)>,
      ds: seq<Draft>)
    requires ops != []
  {
    var all := Pairs(View(AllMatches(mode), Sem(w, ops[0], start.position, start.refs)));
    visited <= all && (visited == all || (mode.First? && ds != []))
  }

  lemma AllTailsUnchanged(mode: Mode, w: World, x: World, ops: seq<Plan>, pos: Position, refs: Refs)
    requires |ops| > 1 && Sem(w, ops[0], pos, refs) == Sem(x, ops[0], pos, refs)
    requires forall v :: v in Pairs(View(AllMatches(mode), Sem(w, ops[0], pos, refs))) ==>
        TailUnchanged(mode, w, x, ops[1..], v)
    ensures Unchanged(mode, SemConcat(w, ops, pos, refs), SemConcat(x, ops, pos, refs))
  {
    var s := Sem(w, ops[0], pos, refs);
    ConcatIsTails(w, ops, pos, refs);
    ConcatIsTails(x, ops, pos, refs);
    forall v | v in Pairs(s) ensures TailUnchanged(mode, w, x, ops[1..], v) {
      if mode.Normal? {
      } else {
        assert Strip(v.0) in Stripped(s);
        assert (Strip(v.0), v.1) in Pairs(Stripped(s));
        assert TailUnchanged(mode, w, x, ops[1..], (Strip(v.0), v.1));
      }
    }
    SameTails(mode, w, x, ops[1..], Pairs(s));
  }

  lemma SomeTailsUnchanged(w: World, x: World, ops: seq<Plan>, pos: Position, refs: Refs,
      visited: set<(Body, Position)>)
    requires |ops| > 1 && Sem(w, ops[0], pos, refs) == Sem(x, ops[0], pos, refs)
    requires visited <= Pairs(Stripped(Sem(w, ops[0], pos, refs))) && TailsOf(w, ops[1..], visited) != {}
    requires forall v :: v in visited ==> TailUnchanged(First, w, x, ops[1..], v)
    ensures SemConcat(w, ops, pos, refs) != {} && SemConcat(x, ops, pos, refs) != {}
  {
    SameTails(First, w, x, ops[1..], visited);
    var all := Pairs(Stripped(Sem(w, ops[0], pos, refs)));
    TailsUnion(w, ops[1..], visited, all - visited);
    TailsUnion(x, ops[1..], visited, all - visited);
    assert visited + (all - visited) == all;
    ConcatIsTails(w, ops, pos, refs);
    ConcatIsTails(x, ops, pos, refs);
    TailsOfStripped(w, ops[1..], Sem(w, ops[0], pos, refs));
    TailsOfStripped(x, ops[1..], Sem(x, ops[0], pos, refs));
  }

  lemma ConcatSuffices(mode: Mode, w: World, ops: seq<Plan>, start: Start, visited: set<(Body, Position)>,
                       ds: seq<Draft>, obs: set<Observable>)
    requires |ops| > 1 && WellFormed(w.graph)
    requires Suffices(AllMatches(mode), w, obs, ops[0], start.position, start.refs, AtOrigin(start))
    requires EnoughTails(mode, w, ops, start, visited, ds) && GoodTails(mode, w, ops[1..], visited, start, ds, obs)
    ensures Suffices(mode, w, obs, PConcatenation(ops), start.position, start.refs, AtOrigin(start))
  {
    var pos, refs, p := start.position, start.refs, PConcatenation(ops);
    forall h: Graph | Alike(w.graph, h, obs) && Comparable(p, pos, w.graph, h, AtOrigin(start))
      ensures Unchanged(mode, Sem(w, p, pos, refs), Sem(World(h, w.cached), p, pos, refs))
    {
      AlikeTails(mode, w, h, ops, start, visited, obs);
      if visited == Pairs(View(AllMatches(mode), Sem(w, ops[0], pos, refs))) {
        AllTailsUnchanged(mode, w, World(h, w.cached), ops, pos, refs);
      } else {
        FoundEmpty(mode, TailsOf(w, ops[1..], visited), ds);
        SomeTailsUnchanged(w, World(h, w.cached), ops, pos, refs, visited);
      }
    }
  }

  lemma TailsView(mode: Mode, w: World, rest: seq<Plan>, s: set<Body>)
    ensures View(mode, TailsOf(w, rest, Pairs(View(AllMatches(mode), s)))) == View(mode, TailsOf(w, rest, Pairs(s)))
    ensures TailsOf(w, rest, Pairs(View(AllMatches(mode), s))) == {} <==> TailsOf(w, rest, Pairs(s)) == {}
  {
    TailsOfStripped(w, rest, s);
  }

  lemma SomeTailsFound(w: World, rest: seq<Plan>, s: set<Body>, visited: set<(Body, Position)>, ds: seq<Draft>)
    requires visited <= Pairs(Stripped(s)) && ds != [] && Found(First, TailsOf(w, rest, visited), ds)
    ensures TailsOf(w, rest, Pairs(s)) != {}
  {
    TailsOfStripped(w, rest, s);
    TailsUnion(w, rest, visited, Pairs(Stripped(s)) - visited);
    assert visited + (Pairs(Stripped(s)) - visited) == Pairs(Stripped(s));
  }

  lemma ConcatFound(mode: Mode, w: World, ops: seq<Plan>, start: Start, visited: set<(Body, Position)>, ds: seq<Draft>)
    requires |ops| > 1 && EnoughTails(mode, w, ops, start, visited, ds) &&
        Found(mode, TailsOf(w, ops[1..], visited), ds)
    ensures Found(mode, Sem(w, PConcatenation(ops), start.position, start.refs), ds)
  {
    var s := Sem(w, ops[0], start.position, start.refs);
    ConcatIsTails(w, ops, start.position, start.refs);
    if visited == Pairs(View(AllMatches(mode), s)) {
      TailsView(mode, w, ops[1..], s);
    } else {
      SomeTailsFound(w, ops[1..], s, visited, ds);
    }
  }

  lemma ConcatGood(mode: Mode, w: World, ops: seq<Plan>, start: Start, hs: seq<Draft>, visited: set<(Body, Position)>,
                   ds: seq<Draft>, a: set<Observable>, obs: set<Observable>)
    requires |ops| > 1 && WellFormed(w.graph) && a <= obs
    requires Good(AllMatches(mode), w, ops[0], start, hs, a)
    requires EnoughTails(mode, w, ops, start, visited, ds) && GoodTails(mode, w, ops[1..], visited, start, ds, obs)
    requires Changed(PConcatenation(ops), SetNames(start.refs)) == {} ==> AllKeep(start.refs, ds)
    ensures Good(mode, w, PConcatenation(ops), start, ds, obs)
  {
    GoodMonotone(AllMatches(mode), w, ops[0], start, hs, a, obs);
    ConcatFound(mode, w, ops, start, visited, ds);
    ConcatSuffices(mode, w, ops, start, visited, ds, obs);
  }

  // If nothing is changed by the concatenation, nothing is changed by the head and by the tail.
  lemma TailKeeps(w: World, ops: seq<Plan>, pos: Position, refs: Refs, h: Body, q: Position, ts: seq<Draft>)
    requires |ops| > 1 && (exists b :: b in Sem(w, ops[0], pos, refs) && b.refs == h.refs)
    requires KeepsRefs(PConcatenation(ops[1..]), h.refs, ts)
    ensures Changed(PConcatenation(ops), SetNames(refs)) == {} ==> AllKeep(refs, ts)
  {
    var bound := SetNames(refs);
    if Changed(PConcatenation(ops), bound) == {} {
      assert ChangedConcat(ops, bound) == {};
      MatchesRespect(w, ops[0], pos, refs, bound);
      assert SameOutside(refs, h.refs, {});
      assert h.refs == refs;
      BoundGrows(ops[0], bound);
      assert Bound(ops[0], bound) == bound;
      assert Changed(PConcatenation(ops[1..]), bound) == ChangedConcat(ops[1..], bound);
    }
  }
}
