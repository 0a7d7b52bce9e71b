/** What visits add to drafts, to the log of dependencies and to the registry. */
module Visiting {
  import opened Base
  import opened RefsAlgebra
  import opened Plans
  import opened Semantics
  import opened RefTracking
  import opened Dependencies
  import opened Matching
  import opened MatchingSteps
  import opened MatchingOps
  import opened MatchingJoins
  import opened NestedCache

  // What a dependency belongs to: one start position, or everything added to the graph later.
  datatype ObservableStart =
    | AtPosition(pos: Position)
    | AbsentPosition(pos: Position)
    | EveryAddedVertex
    | EveryAddedEdge

  datatype Dep = Dep(observable: Observable, start: ObservableStart)

  ghost function ObsOf(items: seq<Dep>): set<Observable> { set d | d in items :: d.observable }

  ghost predicate AllOfOrigin(items: seq<Dep>, origin: Position) {
    forall d :: d in items ==> d.start == AtPosition(origin)
  }

  // The graph to match on, and the vertices it has ever had.
  datatype Query = Query(graph: Graph, known: set<VertexID>)

  ghost predicate QueryOk(q: Query) { WellFormed(q.graph) && q.graph.vertices <= q.known }

  datatype Snapshot = Snapshot(drafts: seq<Draft>, items: seq<Dep>, cache: Cache)

  ghost function NewDrafts(a: Snapshot, b: Snapshot): seq<Draft>
    requires a.drafts <= b.drafts
  {
    b.drafts[|a.drafts|..]
  }

  ghost function NewObs(a: Snapshot, b: Snapshot): set<Observable>
    requires a.items <= b.items
  {
    ObsOf(b.items[|a.items|..])
  }

  // Dependencies of the origin are only added.
  ghost predicate Logged(a: Snapshot, b: Snapshot, origin: Position) {
    a.items <= b.items && AllOfOrigin(b.items[|a.items|..], origin)
  }

  // Drafts and dependencies of the origin are only added.
  ghost predicate Extends(a: Snapshot, b: Snapshot, origin: Position) { a.drafts <= b.drafts && Logged(a, b, origin) }

  ghost predicate ReadyIn(w: World, limit: Limit, a: Snapshot) { w.cached ==> Ready(a.cache, w.graph, limit) }

  // What the plan looks up from the position fits in the registry.
  ghost predicate FitsIn(w: World, limit: Limit, p: Plan, pos: Position) { w.cached ==> Fits(limit, p, pos) }

  // The registry stays ready, and holds all the nested subgraphs depended on.
  ghost predicate Served(w: World, limit: Limit, tall: nat, a: Snapshot, b: Snapshot)
    requires a.items <= b.items
  {
    w.cached ==>
      Ready(b.cache, w.graph, limit) && Grown(a.cache, b.cache, limit.height) &&
      AreCached(b.cache, NewObs(a, b), tall + 1)
  }

  // The visit added a right answer for the plan.
  ghost predicate Visited(mode: Mode, w: World, limit: Limit, tall: nat, p: Plan, start: Start, a: Snapshot,
      b: Snapshot) {
    Extends(a, b, start.origin) && Served(w, limit, tall, a, b) &&
        Good(mode, w, p, start, NewDrafts(a, b), NewObs(a, b))
  }

  // The same, when the drafts were added elsewhere.
  ghost predicate LoggedAndServed(w: World, limit: Limit, tall: nat, origin: Position, a: Snapshot, b: Snapshot) {
    Logged(a, b, origin) && Served(w, limit, tall, a, b)
  }

  lemma ObsAppend(a: seq<Dep>, b: seq<Dep>)
    ensures ObsOf(a + b) == ObsOf(a) + ObsOf(b)
  {}

  lemma NothingNew(a: Snapshot, origin: Position)
    ensures Extends(a, a, origin) && NewDrafts(a, a) == [] && NewObs(a, a) == {}
  {}

  lemma NothingServed(w: World, limit: Limit, tall: nat, a: Snapshot)
    requires ReadyIn(w, limit, a)
    ensures Served(w, limit, tall, a, a)
  {}

  lemma LoggedTransitive(a: Snapshot, b: Snapshot, c: Snapshot, origin: Position)
    requires Logged(a, b, origin) && Logged(b, c, origin)
    ensures Logged(a, c, origin) && NewObs(a, c) == NewObs(a, b) + NewObs(b, c)
  {
    assert c.items[|a.items|..] == b.items[|a.items|..] + c.items[|b.items|..];
    ObsAppend(b.items[|a.items|..], c.items[|b.items|..]);
  }

  lemma ExtendsTransitive(a: Snapshot, b: Snapshot, c: Snapshot, origin: Position)
    requires Extends(a, b, origin) && Extends(b, c, origin)
    ensures Extends(a, c, origin)
    ensures NewDrafts(a, c) == NewDrafts(a, b) + NewDrafts(b, c)
    ensures NewObs(a, c) == NewObs(a, b) + NewObs(b, c)
  {
    LoggedTransitive(a, b, c, origin);
  }

  lemma ServedTransitive(w: World, limit: Limit, t: nat, u: nat, a: Snapshot, b: Snapshot, c: Snapshot,
      origin: Position)
    requires ReadyIn(w, limit, a) && u <= t
    requires LoggedAndServed(w, limit, t, origin, a, b) && LoggedAndServed(w, limit, u, origin, b, c)
    ensures LoggedAndServed(w, limit, t, origin, a, c)
  {
    LoggedTransitive(a, b, c, origin);
    if w.cached {
      GrownTransitive(a.cache, b.cache, c.cache, limit.height);
    }
  }

  lemma ServedTaller(w: World, limit: Limit, t: nat, u: nat, a: Snapshot, b: Snapshot)
    requires a.items <= b.items && Served(w, limit, u, a, b) && u <= t
    ensures Served(w, limit, t, a, b)
  {}

  // Plain dependencies, that aren't nested subgraphs, don't involve the registry.
  lemma ServedWithoutRegistry(w: World, limit: Limit, tall: nat, a: Snapshot, b: Snapshot)
    requires a.items <= b.items && a.cache == b.cache && ReadyIn(w, limit, a)
    requires NoNested(NewObs(a, b))
    ensures Served(w, limit, tall, a, b)
  {}

  lemma OrVisited(mode: Mode, w: World, limit: Limit, tall: nat, ops: seq<Plan>, i: nat, start: Start,
                  a: Snapshot, b: Snapshot, c: Snapshot)
    requires i < |ops| && Height(ops[i]) <= tall && ReadyIn(w, limit, a)
    requires Visited(mode, w, limit, tall, POr(ops[..i]), start, a, b)
    requires Visited(mode, w, limit, Height(ops[i]), ops[i], start, b, c)
    ensures Visited(mode, w, limit, tall, POr(ops[..i + 1]), start, a, c)
  {
    ExtendsTransitive(a, b, c, start.origin);
    ServedTransitive(w, limit, tall, Height(ops[i]), a, b, c, start.origin);
    OrStep(mode, w, ops, i, start, NewDrafts(a, b), NewObs(a, b), NewDrafts(b, c), NewObs(b, c));
  }

  lemma OneMoreSuffices(mode: Mode, w: World, x: set<Observable>, y: set<Observable>, ops: seq<Plan>, i: nat,
      start: Start)
    requires i < |ops| && OperandsSuffice(mode, w, x, ops[..i], start) && OperandSuffices(mode, w, y, ops[i], start)
    ensures OperandsSuffice(mode, w, x + y, ops[..i + 1], start)
  {
    forall j: nat | j < i + 1 ensures OperandSuffices(mode, w, x + y, ops[j], start) {
      if j < i {
        assert OperandSuffices(mode, w, x, ops[..i][j], start);
        OperandSufficesMonotone(mode, w, x, x + y, ops[j], start);
      } else {
        OperandSufficesMonotone(mode, w, y, x + y, ops[i], start);
      }
    }
    assert forall j: nat :: j < i + 1 ==> ops[..i + 1][j] == ops[j];
  }

  // --------------------------------------------------------------------------
  // Concatenation
  // --------------------------------------------------------------------------

  lemma HeightOfTail(ops: seq<Plan>)
    requires ops != []
    ensures Height(PConcatenation(ops[1..])) <= Height(PConcatenation(ops)) &&
        Height(ops[0]) <= Height(PConcatenation(ops))
  {
    assert Height(PConcatenation(ops)) == MaxHeight(ops);
    assert Height(PConcatenation(ops[1..])) == MaxHeight(ops[1..]);
    assert ops[0] in ops;
  }

  lemma TailFits(w: World, limit: Limit, ops: seq<Plan>, pos: Position)
    requires ops != [] && FitsIn(w, limit, PConcatenation(ops), pos)
    ensures FitsIn(w, limit, ops[0], pos) && FitsIn(w, limit, PConcatenation(ops[1..]), pos)
  {
    HeightOfTail(ops);
  }

  // All ends of matches are known, as they are in the graph, or where the match started.
  lemma FitsAtEnd(w: World, limit: Limit, op: Plan, pos: Position, refs: Refs, h: Body, q: Position, p: Plan,
      cache: Cache)
    requires WellFormed(w.graph) && h in Sem(w, op, pos, refs) && q in h.content.ends && FitsIn(w, limit, p, pos)
    requires w.cached ==> Ready(cache, w.graph, limit)
    ensures FitsIn(w, limit, p, q)
  {
    EndsAreHere(w, op, pos, refs);
    assert EndsOk(w.graph, pos, Stays(op), h.content);
  }

  lemma TailIsSupported(w: World, ops: seq<Plan>, pos: Position, refs: Refs, h: Body)
    requires ops != [] && Supported(PConcatenation(ops), SetNames(refs)) && h in Sem(w, ops[0], pos, refs)
    ensures Supported(PConcatenation(ops[1..]), SetNames(h.refs))
  {
    var bound := SetNames(refs);
    assert Supported(PConcatenation(ops), bound) == SupportedConcat(ops, bound);
    MatchesRespect(w, ops[0], pos, refs, bound);
    assert Supported(PConcatenation(ops[1..]), Bound(ops[0], bound)) == SupportedConcat(ops[1..], Bound(ops[0], bound));
    SupportedIsMonotone(PConcatenation(ops[1..]), Bound(ops[0], bound), SetNames(h.refs));
  }

  lemma HeadIsSupported(ops: seq<Plan>, bound: RefNames)
    requires ops != [] && Supported(PConcatenation(ops), bound)
    ensures Supported(ops[0], bound)
  {
    assert Supported(PConcatenation(ops), bound) == SupportedConcat(ops, bound);
  }

  lemma ConcatOfOne(mode: Mode, w: World, p: Plan, start: Start, ds: seq<Draft>, obs: set<Observable>)
    requires Good(mode, w, p, start, ds, obs)
    ensures Good(mode, w, PConcatenation([p]), start, ds, obs)
  {
    var c, pos, refs := PConcatenation([p]), start.position, start.refs;
    forall x: World ensures Sem(x, c, pos, refs) == Sem(x, p, pos, refs) {
      assert Sem(x, c, pos, refs) == SemConcat(x, [p], pos, refs);
    }
    assert Peeks(c) == PeeksConcat([p]) && !PeeksConcat([p][1..]);
    assert Changed(c, SetNames(refs)) == ChangedConcat([p], SetNames(refs)) ==
        Changed(p, SetNames(refs)) + ChangedConcat([p][1..], Bound(p, SetNames(refs)));
    assert forall g: Graph :: Here(c, pos, g) ==> Here(p, pos, g);
  }

  lemma BodyOfHead(mode: Mode, w: World, op: Plan, pos: Position, refs: Refs, hs: seq<Draft>, h: Draft)
      returns (b: Body)
    requires Found(AllMatches(mode), Sem(w, op, pos, refs), hs) && h in hs
    ensures b in Sem(w, op, pos, refs) && b.refs == h.refs && b.content.ends == Elems(h.ends)
    ensures !mode.Normal? ==> StripContent(BodyOf(h).content) == BodyOf(h).content
  {
    assert BodyOf(h) in Bodies(hs);
    b :| b in Sem(w, op, pos, refs) && (if mode.Normal? then b == BodyOf(h) else Strip(b) == BodyOf(h));
  }

  // --------------------------------------------------------------------------
  // Steps
  // --------------------------------------------------------------------------

  // The walk added right answers for the steps.
  ghost predicate Walked(mode: Mode, g: Graph, steps: seq<Step>, origin: Position, first: Position, pos: Position,
                         refs: Refs, c: Content, a: Snapshot, b: Snapshot) {
    Extends(a, b, origin) && a.cache == b.cache && NoNested(NewObs(a, b)) &&
    GoodSteps(mode, g, steps, origin, first, pos, refs, c, NewDrafts(a, b), NewObs(a, b))
  }

  ghost predicate NoNested(obs: set<Observable>) { forall o :: o in obs ==> !o.NestedSubgraph? }

  lemma WalkedIsVisited(mode: Mode, w: World, limit: Limit, tall: nat, p: Plan, steps: seq<Step>, start: Start,
      first: Position,
                        a: Snapshot, b: Snapshot)
    requires IsSteps(p, steps) && Origins(start, first) && ReadyIn(w, limit, a)
    requires Walked(mode, w.graph, steps, start.origin, first, start.position, start.refs, Content({}, {}, {}), a, b)
    ensures Visited(mode, w, limit, tall, p, start, a, b)
  {
    StepsAreGood(mode, w, p, steps, start, first, NewDrafts(a, b), NewObs(a, b));
    ServedWithoutRegistry(w, limit, tall, a, b);
  }

  datatype HopList = HopList(edges: seq<Edge>, to: VertexID)

  ghost function HopOf(k: HopList): Hop { Hop(Elems(k.edges), k.to) }

  ghost function HopsOf(ks: seq<HopList>): set<Hop> { set k | k in ks :: HopOf(k) }

  lemma HopsOfSnoc(ks: seq<HopList>, i: nat)
    requires i < |ks|
    ensures HopsOf(ks[..i + 1]) == HopsOf(ks[..i]) + {HopOf(ks[i])}
  {
    assert ks[..i + 1] == ks[..i] + [ks[i]];
  }

  // The walk followed some hops, recording the dependencies on all of them first.
  ghost predicate Hopped(mode: Mode, g: Graph, rest: seq<Step>, hops: set<Hop>, origin: Position, first: Position,
                         refs: Refs, c: Content, a: Snapshot, b: Snapshot) {
    Extends(a, b, origin) && a.cache == b.cache && NoNested(NewObs(a, b)) &&
    GoodHops(mode, g, rest, hops, first, refs, c, NewDrafts(a, b), NewObs(a, b))
  }

  lemma HoppedOnce(mode: Mode, g: Graph, rest: seq<Step>, hops: set<Hop>, hop: Hop, origin: Position, first: Position,
                   refs: Refs, c: Content, a: Snapshot, b: Snapshot, d: Snapshot)
    requires Hopped(mode, g, rest, hops, origin, first, refs, c, a, b)
    requires Walked(mode, g, rest, origin, first, Position(hop.to, CORE), refs, WithEdges(c, hop.edges), b, d)
    ensures Hopped(mode, g, rest, hops + {hop}, origin, first, refs, c, a, d)
  {
    ExtendsTransitive(a, b, d, origin);
    OneMoreHop(mode, g, rest, hops, hop, origin, first, refs, c, NewDrafts(a, b), NewObs(a, b), NewDrafts(b, d),
        NewObs(b, d));
  }

  ghost predicate MissesVertex(s: Step, g: Graph, pos: Position, refs: Refs) {
    s.VertexStep? && VertexMatch(g, s.vertex, pos, refs).None?
  }

  // The plan comes to nothing as soon as its first vertex doesn't match at the start.
  ghost predicate MissesStart(p: Plan, g: Graph, start: Start)
    decreases p
  {
    match p
    case PVertex(m) => MissesVertex(VertexStep(m), g, start.position, start.refs)
    case PPath(path) => path.Alternates() && path.Length() > 0 &&
        MissesVertex(path.Item(0), g, start.position, start.refs)
    case PPathToVertex(prefix, _, _) =>
      prefix.Alternates() && prefix.Length() > 0 && MissesVertex(prefix.Item(0), g, start.position, start.refs)
    case PConcatenation(ops) => ops != [] && MissesStart(ops[0], g, start)
    case POr(ops) => forall o :: o in ops ==> MissesStart(o, g, start)
    case PAndWithoutSetRef(ops) => ops != [] && MissesStart(ops[0], g, start)
    case PAnd(ops) => ops != [] && MissesStart(ops[0], g, start)
    case PAllAnd(ops) => ops != [] && MissesStart(ops[0], g, start)
    case PAllWithoutSetRef(op) => MissesStart(op, g, start)
    case PAll(op) => MissesStart(op, g, start)
    case PIfWithoutSetRef(op) => MissesStart(op, g, start)
    case PIf(op) => MissesStart(op, g, start)
    case PSkip(op) => MissesStart(op, g, start)
    case _ => false
  }

  // Nothing was recorded: the plan misses its start, or falls back because its operand does.
  ghost predicate IsSilent(p: Plan, g: Graph, start: Start) {
    MissesStart(p, g, start) ||
    ((p.PUnless? || p.PUnlessWithoutSetNonLocalRef? || p.PMaybe?) && MissesStart(p.operand, g, start))
  }

  // What was recorded for an entry when it was matched: dependencies that suffice, or nothing at all.
  ghost predicate RecordedFor(g: Graph, n: NestedStart, obs: set<Observable>) {
    Suffices(Normal, World(g, true), obs, n.plan, n.pos, n.refs, true) &&
    (IsSilent(n.plan, g, Start(n.pos, n.pos, n.refs)) ==> obs == {})
  }

  // Dependencies were recorded, and nothing else.
  ghost predicate Recorded(obs: set<Observable>, origin: Position, a: Snapshot, b: Snapshot) {
    Logged(a, b, origin) && a.drafts == b.drafts && a.cache == b.cache && NewObs(a, b) == obs
  }

  lemma RecordedThen(mode: Mode, g: Graph, rest: seq<Step>, hops: set<Hop>, obs: set<Observable>, origin: Position,
      first: Position,
                     refs: Refs, c: Content, a: Snapshot, b: Snapshot, d: Snapshot)
    requires Hopped(mode, g, rest, hops, origin, first, refs, c, a, b) && Recorded(obs, origin, b, d) && NoNested(obs)
    ensures Hopped(mode, g, rest, hops, origin, first, refs, c, a, d) && NewObs(a, d) == NewObs(a, b) + obs
  {
    ExtendsTransitive(a, b, d, origin);
    assert NewDrafts(b, d) == [];
    GoodHopsMonotone(mode, g, rest, hops, first, refs, c, NewDrafts(a, b), NewObs(a, b), NewObs(a, d));
  }

  lemma RecordedNothing(origin: Position, a: Snapshot)
    ensures Recorded({}, origin, a, a)
  {
    NothingNew(a, origin);
  }

  lemma RecordedMore(x: set<Observable>, y: set<Observable>, origin: Position, a: Snapshot, b: Snapshot, c: Snapshot)
    requires Recorded(x, origin, a, b) && Recorded(y, origin, b, c)
    ensures Recorded(x + y, origin, a, c)
  {
    LoggedTransitive(a, b, c, origin);
  }

  // Edges with one of the labels between two vertices; any labels can't be listed.
  function ObsBetween(labels: Labels, from: VertexID, to: VertexID, any: Observable): set<Observable> {
    if labels.Some? then set l | l in labels.value :: ParticularEdge(Edge(from, l, to)) else {any}
  }

  lemma NoNestedInPass(m: MatchEdge, pos: Position, pass: nat)
    ensures NoNested(PassObs(m, pos, pass))
  {}

  lemma NoNestedBetween(m: MatchEdge, from: VertexID, to: VertexID)
    ensures NoNested(BetweenObs(m, from, to))
  {}

  // --------------------------------------------------------------------------
  // Walking
  // --------------------------------------------------------------------------

  // The buffers hold what was matched before, in the mode that needs it.
  ghost predicate Buffered(mode: Mode, c: Content, vertices: seq<VertexID>, edges: seq<Edge>) {
    if mode.Normal? then Elems(vertices) == c.vertices && Elems(edges) == c.edges
    else vertices == [] && edges == []
  }

  lemma WalkedToEnd(mode: Mode, g: Graph, origin: Position, first: Position, pos: Position, refs: Refs, c: Content,
                    d: Draft, a: Snapshot, b: Snapshot)
    requires d.start == first && d.ends == [pos] && d.refs == refs && Buffered(mode, c, d.vertices, d.edges)
    requires b == a.(drafts := a.drafts + [d])
    ensures Walked(mode, g, [], origin, first, pos, refs, c, a, b)
  {
    NoSteps(mode, g, origin, first, pos, refs, c, d);
    assert NewDrafts(a, b) == [d] && NewObs(a, b) == {};
  }

  lemma WalkedVertex(mode: Mode, g: Graph, steps: seq<Step>, origin: Position, first: Position, pos: Position,
      refs: Refs,
                     c: Content, a: Snapshot, b: Snapshot, d: Snapshot)
    requires steps != [] && steps[0].VertexStep? && VertexMatch(g, steps[0].vertex, pos, refs).Some?
    requires Recorded(if pos == origin then {ParticularVertex(pos.v)} else {}, origin, a, b)
    requires Walked(mode, g, steps[1..], origin, first, pos.WithKind(ORBIT),
        VertexMatch(g, steps[0].vertex, pos, refs).value,
                    WithVertex(c, pos.v), b, d)
    ensures Walked(mode, g, steps, origin, first, pos, refs, c, a, d)
  {
    ExtendsTransitive(a, b, d, origin);
    assert NewDrafts(a, b) == [];
    var r := VertexMatch(g, steps[0].vertex, pos, refs).value;
    GoodStepsMonotone(mode, g, steps[1..], origin, first, pos.WithKind(ORBIT), r, WithVertex(c, pos.v), NewDrafts(b, d),
        NewObs(b, d), NewObs(a, d));
    VertexStepGood(mode, g, steps, origin, first, pos, refs, c, NewDrafts(a, d), NewObs(a, d));
  }

  lemma GoodStepsMonotone(mode: Mode, g: Graph, steps: seq<Step>, origin: Position, first: Position, pos: Position,
                          refs: Refs, c: Content, ds: seq<Draft>, x: set<Observable>, y: set<Observable>)
    requires x <= y && GoodSteps(mode, g, steps, origin, first, pos, refs, c, ds, x)
    ensures GoodSteps(mode, g, steps, origin, first, pos, refs, c, ds, y)
  {
    StepsSufficeMonotone(mode, g, x, y, steps, pos, refs);
    forall h: Graph | Alike(g, h, y) ensures Alike(g, h, x) { AlikeMonotone(g, h, x, y); }
  }

  lemma WalkedNowhere(mode: Mode, g: Graph, steps: seq<Step>, origin: Position, first: Position, pos: Position,
      refs: Refs,
                      c: Content, a: Snapshot)
    requires steps != [] && steps[0].VertexStep? && VertexMatch(g, steps[0].vertex, pos, refs).None?
    ensures Walked(mode, g, steps, origin, first, pos, refs, c, a, a)
  {
    NothingNew(a, origin);
    VertexStepGood(mode, g, steps, origin, first, pos, refs, c, [], {});
  }

  lemma WalkedEdges(mode: Mode, g: Graph, steps: seq<Step>, hops: set<Hop>, pass: nat, origin: Position,
      first: Position,
                    pos: Position, refs: Refs, c: Content, a: Snapshot, b: Snapshot)
    requires WellFormed(g) && steps != [] && steps[0].EdgeStep? && pass <= 1
    requires Hopped(mode, g, steps[1..], hops, origin, first, refs, c, a, b)
    requires PassObs(steps[0].edge, pos, 0) + (if pass == 0 then {} else PassObs(steps[0].edge, pos, 1)) <= NewObs(a, b)
    requires hops <= HopsPass(g, steps[0].edge, pos, 0) + (if pass == 0 then {} else HopsPass(g, steps[0].edge, pos, 1))
    requires (pass == 1 && hops == Hops(g, steps[0].edge, pos)) || (mode.First? && NewDrafts(a, b) != [])
    ensures Walked(mode, g, steps, origin, first, pos, refs, c, a, b)
  {
    if pass == 1 && hops == Hops(g, steps[0].edge, pos) {
      EdgeStepGood(mode, g, steps, origin, first, pos, refs, c, NewDrafts(a, b), NewObs(a, b));
    } else {
      EdgeStepEnough(g, steps, hops, pass, origin, first, pos, refs, c, NewDrafts(a, b), NewObs(a, b));
    }
  }

  // Drafts found by looking the known vertex up.
  lemma WalkedToKnown(mode: Mode, g: Graph, e: MatchEdge, v: MatchVertex, origin: Position, first: Position,
      pos: Position,
                      refs: Refs, c: Content, to: VertexID, a: Snapshot, b: Snapshot)
    requires WellFormed(g) && KnownVertex(v, refs) == Some(to) && (v.placeholder.None? ==> v.setRef.None?)
    requires Extends(a, b, origin) && a.cache == b.cache && NoNested(NewObs(a, b))
    requires pos.kind.ORBIT? ==>
      BetweenObs(e, pos.v, to) <= NewObs(a, b) || (to !in g.vertices && ParticularVertex(to) in NewObs(a, b))
    requires Found(mode, Continuing(c, SemSteps(g, LookupSteps(e, v), pos, refs)), NewDrafts(a, b))
    requires forall d :: d in NewDrafts(a, b) ==>
      d.start == first && VertexMatch(g, v, Position(to, CORE), refs) == Some(d.refs)
    ensures Walked(mode, g, LookupSteps(e, v), origin, first, pos, refs, c, a, b)
  {
    LookupSuffices(mode, g, NewObs(a, b), e, v, pos, refs, to);
    var steps := LookupSteps(e, v);
    assert SemSteps(g, steps, pos, refs) == {} || pos.kind.ORBIT?;
    assert steps[1..] == [VertexStep(v)] && [VertexStep(v)][1..] == [];
    assert BoundBySteps([VertexStep(v)]) == VertexRefs(v) + BoundBySteps([]);
    assert BoundBySteps(steps) == {} + BoundBySteps([VertexStep(v)]);
    if BoundBySteps(steps) <= SetNames(refs) {
      KnownRefStays(v, to, refs);
    }
  }

  lemma LookedFound(mode: Mode, c: Content, to: VertexID, r: Refs, hops: set<Hop>, hop: HopList, first: Position,
                    vertices: seq<VertexID>, edges: seq<Edge>, ds: seq<Draft>, d: Draft)
    requires Buffered(mode, c, vertices, edges) && Found(mode, Looked(hops, c, to, r), ds)
    requires d == Draft(first, [Position(to, ORBIT)],
                        if mode.Normal? then vertices + [to] else [],
                        if mode.Normal? then edges + hop.edges else [], r)
    ensures Found(mode, Looked(hops + {HopOf(hop)}, c, to, r), ds + [d])
  {
    var b := Body(Content({Position(to, ORBIT)}, c.vertices + {to}, c.edges + HopOf(hop).edges), r);
    assert Looked({HopOf(hop)}, c, to, r) == {b};
    assert Looked(hops + {HopOf(hop)}, c, to, r) == Looked(hops, c, to, r) + Looked({HopOf(hop)}, c, to, r);
    assert Bodies([d]) == {BodyOf(d)} by { assert d in [d]; }
    assert Elems(d.ends) == {Position(to, ORBIT)};
    if mode.Normal? {
      ElemsSnoc(vertices, to);
      ElemsAppend(edges, hop.edges);
      assert BodyOf(d) == b;
    } else {
      ElemsEmpty(d.vertices);
      ElemsEmpty(d.edges);
      assert BodyOf(d) == Strip(b);
      assert Stripped({b}) == {Strip(b)};
    }
    FoundAppend(mode, Looked(hops, c, to, r), {b}, ds, [d]);
  }

  lemma FoundNothing(mode: Mode)
    ensures Found(mode, {}, [])
  {
    ViewEmpty(mode, {});
  }

  lemma LookedSome(c: Content, to: VertexID, r: Refs, some: set<Hop>, all: set<Hop>)
    requires some <= all && some != {}
    ensures Looked(some, c, to, r) != {} && Looked(all, c, to, r) != {}
  {
    var hop :| hop in some;
    var b := Body(Content({Position(to, ORBIT)}, c.vertices + {to}, c.edges + hop.edges), r);
    assert b in Looked(some, c, to, r) && b in Looked(all, c, to, r);
  }

  lemma RecordedMoreThan(a: Snapshot, b: Snapshot, c: Snapshot, origin: Position, x: set<Observable>)
    requires Recorded(x, origin, a, b) && (exists y :: Recorded(y, origin, b, c) && NoNested(y)) && NoNested(x)
    ensures Extends(a, c, origin) && a.cache == c.cache && a.drafts == c.drafts && x <= NewObs(a, c) &&
        NoNested(NewObs(a, c))
  {
    LoggedTransitive(a, b, c, origin);
  }

  // The dependencies were recorded, and then drafts that follow all the hops to the vertex were added.
  lemma HopsLooked(mode: Mode, g: Graph, e: MatchEdge, v: MatchVertex, origin: Position, first: Position, pos: Position,
                   refs: Refs, c: Content, to: VertexID, hops: set<Hop>, a: Snapshot, b: Snapshot, d: Snapshot)
    requires WellFormed(g) && KnownVertex(v, refs) == Some(to) && (v.placeholder.None? ==> v.setRef.None?)
    requires Extends(a, b, origin) && a.cache == b.cache && a.drafts == b.drafts && NoNested(NewObs(a, b))
    requires b.items == d.items && b.cache == d.cache && b.drafts <= d.drafts
    requires pos.kind.ORBIT? ==> BetweenObs(e, pos.v, to) <= NewObs(a, b)
    requires VertexMatch(g, v, Position(to, CORE), refs).Some? && hops == HopsTo(g, e, pos, to)
    requires Found(mode, Looked(hops, c, to, VertexMatch(g, v, Position(to, CORE), refs).value), NewDrafts(b, d))
    requires forall x :: x in NewDrafts(b, d) ==>
        x.start == first && x.refs == VertexMatch(g, v, Position(to, CORE), refs).value
    ensures Walked(mode, g, LookupSteps(e, v), origin, first, pos, refs, c, a, d)
  {
    assert NewDrafts(a, d) == NewDrafts(b, d) && NewObs(a, d) == NewObs(a, b);
    LookupMeaning(g, e, v, pos, refs, c, to);
    WalkedToKnown(mode, g, e, v, origin, first, pos, refs, c, to, a, d);
  }

  lemma GraphIsOk(q: Query)
    requires QueryOk(q)
    ensures WellFormed(q.graph)
  {}
}
