/** Matching whole queries from lists of start positions. */
module Queries {
  import opened Base
  import opened Plans
  import opened Semantics
  import opened RefTracking
  import opened Dependencies
  import opened Matching
  import opened NestedCache
  import opened Visiting
  import opened Expansion
  import opened Matcher

  datatype Subgraph = Subgraph(start: Position, body: Body)

  datatype QuerySet = QuerySet(subgraphs: set<Subgraph>, deps: seq<Dep>)

  ghost function DepsAt(items: seq<Dep>, sp: Position): set<Observable> {
    set d | d in items && d.start == AtPosition(sp) :: d.observable
  }

  // What matching from scratch finds from the positions.
  ghost function ResultsFrom(g: Graph, p: Plan, sps: set<Position>): set<Subgraph> {
    set sp, b | sp in sps && b in ResultAt(g, p, sp) :: Subgraph(sp, b)
  }

  ghost predicate MatchedFrom(g: Graph, p: Plan, sps: set<Position>, qs: QuerySet) {
    qs.subgraphs == ResultsFrom(g, p, sps) &&
    (forall sp :: sp in sps ==> Covered(g, p, DepsAt(qs.deps, sp), sp)) &&
    forall d :: d in qs.deps ==> d.start.AtPosition? && d.start.pos in sps
  }

  ghost predicate QueryPlanOk(p: Plan) { Plans.Valid(p) && Supported(p, {}) }

  ghost function SubgraphsOf(ds: seq<Draft>): set<Subgraph> { set d | d in ds :: Subgraph(d.start, BodyOf(d)) }

  lemma SubgraphsAppend(a: seq<Draft>, b: seq<Draft>)
    ensures SubgraphsOf(a + b) == SubgraphsOf(a) + SubgraphsOf(b)
  {}

  lemma SubgraphsFromOne(ds: seq<Draft>, sp: Position)
    requires forall d :: d in ds ==> d.start == sp
    ensures SubgraphsOf(ds) == set b | b in Bodies(ds) :: Subgraph(sp, b)
  {
    forall s | s in SubgraphsOf(ds) ensures s.start == sp && s.body in Bodies(ds) {}
  }

  method FinalizedSubgraphs(ds: seq<Draft>) returns (s: set<Subgraph>)
    ensures s == SubgraphsOf(ds)
  {
    s := {};
    for i := 0 to |ds|
      invariant s == SubgraphsOf(ds[..i])
    {
      var d := ds[i];
      var b := Body(Content(set x | x in d.ends, set x | x in d.vertices, set x | x in d.edges), d.refs);
      assert b == BodyOf(d);
      assert ds[..i + 1] == ds[..i] + [d];
      SubgraphsAppend(ds[..i], [d]);
      assert SubgraphsOf([d]) == {Subgraph(d.start, b)} by { assert d in [d]; }
      s := s + {Subgraph(d.start, b)};
    }
    assert ds[..|ds|] == ds;
  }

  lemma DepsAtAppend(a: seq<Dep>, b: seq<Dep>, sp: Position)
    ensures DepsAt(a + b, sp) == DepsAt(a, sp) + DepsAt(b, sp)
  {}

  lemma DepsOfOne(items: seq<Dep>, sp: Position)
    requires AllOfOrigin(items, sp)
    ensures DepsAt(items, sp) == ObsOf(items)
  {
    assert forall d :: d in items ==> d.start == AtPosition(sp);
  }

  // Matching from one position, with refs expanded, extends what was matched before.
  lemma OneMoreStart(g: Graph, p: Plan, starts: seq<Position>, i: nat, ds: seq<Draft>, items: seq<Dep>,
                     found: seq<Draft>, es: seq<Draft>, used: set<VertexID>, any: bool, more: seq<Dep>)
    requires i < |starts| && MatchedFrom(g, p, Elems(starts[..i]), QuerySet(SubgraphsOf(ds), items))
    requires AllOfOrigin(more, starts[i])
    requires Good(Normal, World(g, true), p, Start(starts[i], starts[i], {}), found, ObsOf(more))
    requires ExpandedAll(g, found, es, used, any) && (any ==> ObsOfUsed(used) <= ObsOf(more))
    ensures MatchedFrom(g, p, Elems(starts[..i + 1]), QuerySet(SubgraphsOf(ds + es), items + more))
  {
    var sp, s := starts[i], Sem(World(g, true), p, starts[i], {});
    ElemsPrefix(starts, i);
    UsedAreObserved(g, s, found, es, used, any, ObsOf(more));
    ResultIsCovered(g, p, ObsOf(more), sp);
    SubgraphsAppend(ds, es);
    SubgraphsFromOne(es, sp);
    ResultsOneMore(g, p, Elems(starts[..i]), sp);
    DepsOfOne(more, sp);
    forall q | q in Elems(starts[..i + 1]) ensures Covered(g, p, DepsAt(items + more, q), q) {
      DepsAtAppend(items, more, q);
      if q == sp {
        CoveredMonotone(g, p, ObsOf(more), DepsAt(items + more, q), q);
      } else {
        CoveredMonotone(g, p, DepsAt(items, q), DepsAt(items + more, q), q);
      }
    }
  }

  lemma ResultsOneMore(g: Graph, p: Plan, sps: set<Position>, sp: Position)
    ensures ResultsFrom(g, p, sps + {sp}) == ResultsFrom(g, p, sps) + set b | b in ResultAt(g, p, sp) :: Subgraph(sp, b)
  {
    hide ResultAt;
  }

  ghost predicate Answers(g: Graph, p: Plan, sps: set<Position>, qs: QuerySet, limit: Limit, c: Cache, d: Cache) {
    MatchedFrom(g, p, sps, qs) && Cached(g, qs.deps, limit, c, d)
  }

  // The query was matched from some of the positions.
  ghost predicate MatchedUpTo(g: Graph, p: Plan, starts: seq<Position>, i: nat, limit: Limit, c: Cache, now: Snapshot)
    requires i <= |starts|
  {
    MatchedFrom(g, p, Elems(starts[..i]), QuerySet(SubgraphsOf(now.drafts), now.items)) &&
    Cached(g, now.items, limit, c, now.cache)
  }

  // The registry is ready, and has grown by what the dependencies need.
  ghost predicate Cached(g: Graph, items: seq<Dep>, limit: Limit, c: Cache, d: Cache) {
    Ready(d, g, limit) && Grown(c, d, limit.height) && AreCached(d, ObsOf(items), limit.height)
  }

  // The plan was visited from one more position, refs were expanded, and dependencies of that recorded.
  lemma MatchedOnce(g: Graph, p: Plan, starts: seq<Position>, i: nat, limit: Limit, c: Cache, a: Snapshot, b: Snapshot,
                    es: seq<Draft>, used: set<VertexID>, any: bool, more: seq<Dep>)
    requires i < |starts| && Linked(c) && Height(p) < limit.height && MatchedUpTo(g, p, starts, i, limit, c, a)
    requires Visited(Normal, World(g, true), limit, Height(p), p, Start(starts[i], starts[i], {}), a, b)
    requires ExpandedAll(g, NewDrafts(a, b), es, used, any)
    requires AllOfOrigin(more, starts[i]) && ObsOf(more) == if any then ObsOfUsed(used) else {}
    ensures MatchedUpTo(g, p, starts, i + 1, limit, c, Snapshot(a.drafts + es, b.items + more, b.cache))
  {
    MatchedOnceCached(g, limit, Height(p), c, a, b, more, if any then used else {});
    hide Cached, Served, MatchedFrom, ExpandedAll, Good;
    MatchedOnceFound(g, p, starts, i, a, b, es, used, any, more);
  }

  lemma MatchedOnceFound(g: Graph, p: Plan, starts: seq<Position>, i: nat, a: Snapshot, b: Snapshot,
                         es: seq<Draft>, used: set<VertexID>, any: bool, more: seq<Dep>)
    requires i < |starts| && MatchedFrom(g, p, Elems(starts[..i]), QuerySet(SubgraphsOf(a.drafts), a.items))
    requires Extends(a, b, starts[i])
    requires Good(Normal, World(g, true), p, Start(starts[i], starts[i], {}), NewDrafts(a, b), NewObs(a, b))
    requires ExpandedAll(g, NewDrafts(a, b), es, used, any)
    requires AllOfOrigin(more, starts[i]) && ObsOf(more) == if any then ObsOfUsed(used) else {}
    ensures MatchedFrom(g, p, Elems(starts[..i + 1]), QuerySet(SubgraphsOf(a.drafts + es), b.items + more))
  {
    hide MatchedFrom, ExpandedAll, Good, SubgraphsOf;
    var sp, items := starts[i], b.items[|a.items|..] + more;
    ObsAppend(b.items[|a.items|..], more);
    GoodMonotone(Normal, World(g, true), p, Start(sp, sp, {}), NewDrafts(a, b), NewObs(a, b), ObsOf(items));
    OneMoreStart(g, p, starts, i, a.drafts, a.items, NewDrafts(a, b), es, used, any, items);
    assert a.items + items == b.items + more;
  }

  lemma MatchedOnceCached(g: Graph, limit: Limit, tall: nat, c: Cache, a: Snapshot, b: Snapshot, more: seq<Dep>,
      used: set<VertexID>)
    requires Linked(c) && tall < limit.height && Cached(g, a.items, limit, c, a.cache)
    requires a.items <= b.items && Served(World(g, true), limit, tall, a, b)
    requires ObsOf(more) <= ObsOfUsed(used)
    ensures Cached(g, b.items + more, limit, c, b.cache)
  {
    GrownTransitive(c, a.cache, b.cache, limit.height);
    CachedStillThere(a.cache, b.cache, limit.height, ObsOf(a.items));
    assert b.items == a.items + b.items[|a.items|..];
    ObsAppend(a.items, b.items[|a.items|..]);
    ObsAppend(b.items, more);
    assert forall o :: o in ObsOf(more) ==> !o.NestedSubgraph?;
  }

  method Match(query: Query, p: Plan, starts: seq<Position>, registry: NestedRegistry, ghost limit: Limit)
      returns (qs: QuerySet)
    requires QueryOk(query) && QueryPlanOk(p) && Ready(registry.State(), query.graph, limit)
    requires Height(p) < limit.height && forall sp :: sp in starts ==> Fits(limit, p, sp)
    modifies registry
    ensures Answers(query.graph, p, Elems(starts), qs, limit, old(registry.State()), registry.State())
    ensures forall s :: s in qs.subgraphs <==>
        s.start in starts && SetsSome(query.graph, Sem(World(query.graph, true), p, s.start, {}), s.body)
  {
    var log := new DepLog();
    var result := new QuerySetDraft(log);
    ghost var c := registry.State();
    GrownItself(c, limit.height);
    for i := 0 to |starts|
      modifies log, result, registry
      invariant MatchedUpTo(query.graph, p, starts, i, limit, c,
          Snapshot(result.subgraphs, log.items, registry.State()))
    {
      MatchFrom(query, p, starts, i, registry, log, result, limit, c);
    }
    ElemsWhole(starts);
    var s := FinalizedSubgraphs(result.subgraphs);
    qs := QuerySet(s, log.items);
    ResultsAreAnswers(query.graph, p, starts);
  }

  // Results are the matches with their refs set to answers.
  lemma ResultsAreAnswers(g: Graph, p: Plan, starts: seq<Position>)
    ensures forall s :: s in ResultsFrom(g, p, Elems(starts)) <==>
        s.start in starts && SetsSome(g, Sem(World(g, true), p, s.start, {}), s.body)
  {
    hide Sem, Expanded, SetsSome;
    forall s
      ensures s in ResultsFrom(g, p, Elems(starts)) <==>
          s.start in starts && SetsSome(g, Sem(World(g, true), p, s.start, {}), s.body)
    {
      ExpandedAreAnswers(g, Sem(World(g, true), p, s.start, {}), s.body);
    }
  }

  method MatchFrom(query: Query, p: Plan, starts: seq<Position>, i: nat, registry: NestedRegistry, log: DepLog,
                   result: QuerySetDraft, ghost limit: Limit, ghost c: Cache)
    requires QueryOk(query) && QueryPlanOk(p) && i < |starts| && Fits(limit, p, starts[i]) && Linked(c)
    requires result.deps == log
    requires MatchedUpTo(query.graph, p, starts, i, limit, c, Snapshot(result.subgraphs, log.items, registry.State()))
    modifies log, result, registry
    ensures MatchedUpTo(query.graph, p, starts, i + 1, limit, c,
        Snapshot(result.subgraphs, log.items, registry.State()))
  {
    hide MatchedFrom, Good, Visited, Served, Supported, ExpandedAll;
    var sp := starts[i];
    var visitor := new MatchVisitor(Normal, query, registry, Start(sp, sp, {}), result, limit);
    ghost var a := visitor.Now();
    var first := |result.subgraphs|;
    assert SetNames({}) == {};
    visitor.Visit(p);
    ghost var b := visitor.Now();
    VisitedExtends(Normal, World(query.graph, true), limit, Height(p), p, Start(sp, sp, {}), a, b);
    var es, used, any := ExpandNegatives(query.graph, result.subgraphs[first..]);
    result.subgraphs := result.subgraphs[..first] + es;
    ghost var more := [];
    if any {
      // Variants depend on which vertices there are.
      AddUsedDeps(used, sp, log);
      more := log.items[|b.items|..];
    }
    MatchedOnce(query.graph, p, starts, i, limit, c, a, b, es, used, any, more);
    assert log.items == b.items + more && result.subgraphs == a.drafts + es;
  }

  lemma VisitedExtends(mode: Mode, w: World, limit: Limit, tall: nat, p: Plan, start: Start, a: Snapshot, b: Snapshot)
    requires Visited(mode, w, limit, tall, p, start, a, b)
    ensures a.drafts <= b.drafts && a.items <= b.items
  {}

  lemma CachedStillThere(c: Cache, d: Cache, limit: nat, obs: set<Observable>)
    requires Linked(c) && Grown(c, d, limit) && AreCached(c, obs, limit)
    ensures AreCached(d, obs, limit)
  {}

  method AddUsedDeps(used: set<VertexID>, sp: Position, log: DepLog)
    modifies log
    ensures old(log.items) <= log.items && AllOfOrigin(log.items[|old(log.items)|..], sp)
    ensures ObsOf(log.items[|old(log.items)|..]) == ObsOfUsed(used)
  {
    ghost var was := log.items;
    var list := Listed(used);
    log.items := log.items + [Dep(NewVertex, AtPosition(sp))];
    assert log.items[|was|..] == [Dep(NewVertex, AtPosition(sp))];
    for i := 0 to |list|
      invariant was <= log.items && AllOfOrigin(log.items[|was|..], sp)
      invariant ObsOf(log.items[|was|..]) == ObsOfUsed(Elems(list[..i]))
    {
      ghost var before := log.items[|was|..];
      ElemsPrefix(list, i);
      var d := Dep(ParticularVertex(list[i]), AtPosition(sp));
      log.items := log.items + [d];
      assert log.items[|was|..] == before + [d];
      ObsAppend(before, [d]);
    }
    ElemsWhole(list);
  }
}
