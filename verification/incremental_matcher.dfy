/** Keeping the matches of a pattern up to date, and telling how. */
module Incremental {
  import opened Base
  import opened Plans
  import opened Semantics
  import opened Dependencies
  import opened NestedCache
  import opened NestedRefresh
  import opened SortedLists
  import opened Visiting
  import opened Expansion
  import opened Matcher
  import opened Queries
  import opened StartPositions
  import opened Observing
  import opened IncrementalState
  import opened SubgraphEvents
  import opened Subscriptions

  datatype IncrementalUpdate = IncrementalUpdate(addedDeps: set<Observable>, removedDeps: set<Observable>,
      changes: SubgraphChanges)

  // Strict orders of what is kept in sorted lists.
  datatype Orders = Orders(observables: (Observable, Observable) -> bool, bodies: (Body, Body) -> bool)

  ghost predicate OrdersOk(orders: Orders) { StrictOrder(orders.observables) && StrictOrder(orders.bodies) }

  // Dependencies by what they belong to.
  ghost predicate GroupedByStart(items: seq<Dep>, groups: map<ObservableStart, set<Observable>>) {
    (forall s :: s in groups <==> exists d :: d in items && d.start == s) &&
    forall s :: s in groups ==> groups[s] == set d | d in items && d.start == s :: d.observable
  }

  // Dependencies of one start are usually contiguous, so they're moved run by run.
  method GroupDeps(items: seq<Dep>) returns (groups: map<ObservableStart, set<Observable>>)
    ensures GroupedByStart(items, groups)
  {
    groups := map[];
    var begin := 0;
    while begin < |items|
      invariant begin <= |items| && GroupedByStart(items[..begin], groups)
    {
      var s := items[begin].start;
      var end := begin + 1;
      while end < |items| && items[end].start == s
        invariant begin < end <= |items| && forall k :: begin <= k < end ==> items[k].start == s
      {
        end := end + 1;
      }
      var run := items[begin..end];
      var deps: set<Observable> := set d | d in run :: d.observable;
      RunAdded(items, begin, end, s, groups, deps);
      groups := groups[s := (if s in groups then groups[s] else {}) + deps];
      begin := end;
    }
    assert items[..begin] == items;
  }

  lemma RunAdded(items: seq<Dep>, begin: nat, end: nat, s: ObservableStart,
      groups: map<ObservableStart, set<Observable>>, deps: set<Observable>)
    requires begin < end <= |items| && (forall k :: begin <= k < end ==> items[k].start == s) &&
        GroupedByStart(items[..begin], groups)
    requires deps == set d | d in items[begin..end] :: d.observable
    ensures GroupedByStart(items[..end], groups[s := (if s in groups then groups[s] else {}) + deps])
  {
    var run := items[begin..end];
    assert items[..end] == items[..begin] + run;
    assert forall d :: d in run ==> d.start == s;
    assert run[0] in run;
  }

  lemma GroupedAt(items: seq<Dep>, groups: map<ObservableStart, set<Observable>>, sp: Position)
    requires GroupedByStart(items, groups)
    ensures DepsAt(items, sp) == if AtPosition(sp) in groups then groups[AtPosition(sp)] else {}
  {}

  ghost function BodiesFrom(list: seq<Subgraph>, sp: Position): set<Body> {
    set g | g in list && g.start == sp :: g.body
  }

  lemma BodiesFromOneMore(list: seq<Subgraph>, i: nat, sp: Position)
    requires i < |list|
    ensures BodiesFrom(list[..i + 1], sp) == BodiesFrom(list[..i], sp) +
        if list[i].start == sp then {list[i].body} else {}
  {
    assert list[..i + 1] == list[..i] + [list[i]];
  }

  // Subgraphs by their start positions.
  method CalcSubgraphsByStart(s: set<Subgraph>) returns (m: map<Position, set<Body>>)
    ensures forall sp :: BodiesAt(m, sp) == set g | g in s && g.start == sp :: g.body
    ensures forall sp :: sp in m ==> m[sp] != {}
  {
    m := map[];
    var list := Listed(s);
    for i := 0 to |list|
      invariant forall sp :: BodiesAt(m, sp) == BodiesFrom(list[..i], sp)
      invariant forall sp :: sp in m ==> m[sp] != {}
    {
      var g := list[i];
      ghost var before := m;
      m := m[g.start := BodiesAt(m, g.start) + {g.body}];
      forall sp ensures BodiesAt(m, sp) == BodiesFrom(list[..i + 1], sp) {
        BodiesFromOneMore(list, i, sp);
      }
    }
    assert list[..|list|] == list;
    assert forall g :: g in list <==> g in s by { assert forall g :: g in list <==> g in Elems(list); }
  }

  lemma FoundAt(g: Graph, p: Plan, sps: set<Position>, qs: QuerySet, m: map<Position, set<Body>>, sp: Position)
    requires MatchedFrom(g, p, sps, qs)
    requires BodiesAt(m, sp) == set x | x in qs.subgraphs && x.start == sp :: x.body
    ensures BodiesAt(m, sp) == if sp in sps then ResultAt(g, p, sp) else {}
  {
    if sp in sps {
      forall b | b in ResultAt(g, p, sp) ensures b in BodiesAt(m, sp) {
        assert Subgraph(sp, b) in qs.subgraphs;
      }
    }
  }

  class IncrementalMatcher {
    const pattern: Pattern
    const orders: Orders
    var depToPositions: map<Observable, set<ObservableStart>>
    var startToDeps: map<ObservableStart, set<Observable>>
    var last: map<Position, set<Body>>

    constructor (pattern: Pattern, orders: Orders)
      ensures this.pattern == pattern && this.orders == orders && Now() == State(map[], map[], map[])
    {
      this.pattern, this.orders := pattern, orders;
      depToPositions, startToDeps, last := map[], map[], map[];
    }

    ghost function Now(): State
      reads this
    {
      State(depToPositions, startToDeps, last)
    }

    ghost predicate Valid()
      reads this
    {
      PatternOk(pattern) && OrdersOk(orders) && Coherent(pattern, Now())
    }

    // --------------------------------------------------------------------------
    // Dependencies
    // --------------------------------------------------------------------------

    method Subscribe(s: ObservableStart, d: Observable, added: seq<Observable>, removed: set<Observable>,
        ghost before: set<Observable>)
      returns (more: seq<Observable>, left: set<Observable>)
      requires Tracking(before, depToPositions, added, removed)
      modifies this`depToPositions
      ensures Tracking(before, depToPositions, more, left)
      ensures depToPositions == old(depToPositions)[d := Positions(old(depToPositions), d) + {s}]
    {
      TrackSubscribed(before, depToPositions, added, removed, s, d);
      var positions := Positions(depToPositions, d);
      more, left := added, removed;
      if positions == {} {
        if d in left {
          left := left - {d};
        } else {
          more := more + [d];
        }
      }
      depToPositions := depToPositions[d := positions + {s}];
    }

    method Unsubscribe(s: ObservableStart, d: Observable, ghost added: seq<Observable>, removed: set<Observable>,
        ghost before: set<Observable>)
      returns (left: set<Observable>)
      requires Tracking(before, depToPositions, added, removed) && d in before
      modifies this`depToPositions
      ensures Tracking(before, depToPositions, added, left)
      ensures d in old(depToPositions) && depToPositions == old(depToPositions)[d := old(depToPositions)[d] - {s}]
    {
      TrackUnsubscribed(before, depToPositions, added, removed, s, d);
      left := removed;
      depToPositions := depToPositions[d := depToPositions[d] - {s}];
      if depToPositions[d] == {} {
        left := left + {d};
      }
    }

    // Only dependencies that changed are updated: both lists are sorted.
    method Resubscribe(s: ObservableStart, oldDeps: set<Observable>, newDeps: set<Observable>, added: seq<Observable>,
                       removed: set<Observable>, ghost before: set<Observable>)
      returns (more: seq<Observable>, left: set<Observable>)
      requires OrdersOk(orders) && Tracking(before, depToPositions, added, removed) && oldDeps <= before
      requires KnowsOf(depToPositions, s, oldDeps)
      modifies this`depToPositions
      ensures Tracking(before, depToPositions, more, left) &&
          KnowsInstead(old(depToPositions), depToPositions, s, newDeps)
    {
      ghost var m := depToPositions;
      var olds := SortedList(orders.observables, oldDeps);
      var news := SortedList(orders.observables, newDeps);
      var i, j := 0, 0;
      more, left := added, removed;
      WalkStarts(orders.observables, olds, news);
      ResubscribeBegins(m, s, olds, news);
      while i < |olds| || j < |news|
        invariant Walked2(orders.observables, olds, i, news, j)
        invariant Tracking(before, depToPositions, more, left) &&
            Resubscribing(m, depToPositions, s, olds[i..], news[..j])
        decreases |olds| - i + |news| - j
      {
        ghost var a := depToPositions;
        if j == |news| || (i < |olds| && orders.observables(olds[i], news[j])) {
          WalkFirst(orders.observables, olds, i, news, j);
          assert olds[i] in Elems(olds);
          left := Unsubscribe(s, olds[i], more, left, before);
          UnsubscribedStep(m, a, depToPositions, s, olds, i, news, j);
          i := i + 1;
        } else if i == |olds| || orders.observables(news[j], olds[i]) {
          assert Walked2(orders.observables, news, j, olds, i);
          WalkFirst(orders.observables, news, j, olds, i);
          more, left := Subscribe(s, news[j], more, left, before);
          SubscribedStep(m, a, depToPositions, s, olds, i, news, j);
          j := j + 1;
        } else {
          assert olds[i] == news[j];
          WalkBoth(orders.observables, olds, i, news, j);
          BothStep(m, a, s, olds, i, news, j);
          i, j := i + 1, j + 1;
        }
      }
      ResubscribeEnds(m, depToPositions, s, olds, news, newDeps);
    }

    // --------------------------------------------------------------------------
    // Matching
    // --------------------------------------------------------------------------

    method FindStarts(query: Query) returns (draft: StartPositionsDraft)
      requires PatternOk(pattern) && QueryOk(query)
      ensures fresh(draft) && ShapesFound(ShapesOf(pattern), query.graph, draft.positions, draft.deps)
    {
      draft := new StartPositionsDraft();
      var finder := new FindStartPositionsVisitor(query, draft);
      var ok := finder.Visit(pattern.expr);
      assert draft.positions[0..] == draft.positions && draft.deps[0..] == draft.deps;
      ShapesAreSources(pattern.expr);
      ShapesAreFound(ShapesOf(pattern), query, draft.positions, draft.deps);
    }

    // Makes every start depend on its group of dependencies.
    method SubscribeAll(groups: map<ObservableStart, set<Observable>>, added: seq<Observable>)
        returns (more: seq<Observable>)
      requires Tracking({}, depToPositions, added, {}) && forall s :: s in groups ==> KnowsOf(depToPositions, s, {})
      modifies this`depToPositions
      ensures Tracking({}, depToPositions, more, {})
      ensures forall s, d :: Knows(depToPositions, s, d) <==>
          Knows(old(depToPositions), s, d) || (s in groups && d in groups[s])
    {
      more := added;
      ghost var m := depToPositions;
      var list := Listed(groups.Keys);
      assert forall s :: s in list <==> s in groups by { assert forall s :: s in list <==> s in Elems(list); }
      for i := 0 to |list|
        invariant Tracking({}, depToPositions, more, {})
        invariant forall s, d :: Knows(depToPositions, s, d) <==> Knows(m, s, d) || (s in list[..i] && d in groups[s])
      {
        assert list[..i + 1] == list[..i] + [list[i]];
        more := SubscribeEach(list[i], groups[list[i]], more);
      }
      assert list[..|list|] == list;
    }

    method SubscribeEach(s: ObservableStart, deps: set<Observable>, added: seq<Observable>)
        returns (more: seq<Observable>)
      requires Tracking({}, depToPositions, added, {})
      modifies this`depToPositions
      ensures Tracking({}, depToPositions, more, {})
      ensures forall k, d :: Knows(depToPositions, k, d) <==> Knows(old(depToPositions), k, d) || (k == s && d in deps)
    {
      more := added;
      ghost var m := depToPositions;
      var list := Listed(deps);
      assert Elems(list[..0]) == {};
      KnowsNothingMore(m, s);
      hide KnowsAlso, Knows, Tracking;
      for i := 0 to |list|
        invariant Tracking({}, depToPositions, more, {}) && KnowsAlso(m, depToPositions, s, Elems(list[..i]))
      {
        ElemsPrefix(list, i);
        ghost var before := depToPositions;
        var none;
        more, none := Subscribe(s, list[i], more, {}, {});
        KnowsOneMore(m, before, s, Elems(list[..i]), list[i]);
      }
      ElemsWhole(list);
      KnowsAlsoMeans(m, depToPositions, s, deps);
    }

    // Matches from scratch. Returns everything to subscribe to.
    method Reinitialize(query: Query, registry: NestedRegistry) returns (added: set<Observable>)
      requires PatternOk(pattern) && OrdersOk(orders) && QueryOk(query)
      requires Wired(registry.State()) && AllUpToDate(registry.State(), query.graph)
      requires registry.scope.edgeFirst ==> NestsEdgeFirst(pattern.plan)
      modifies this, registry
      ensures Valid() && Right(pattern, Now(), query.graph) && added == depToPositions.Keys
      ensures Fitting(pattern, Now(), registry.scope)
      ensures Matched(query.graph, old(registry.State()), registry.State())
      ensures CachedIn(registry.State(), depToPositions.Keys)
    {
      depToPositions, startToDeps, last := map[], map[], map[];
      var starts := FindStarts(query);
      ghost var limit, c := Limit(Height(pattern.plan) + 1, registry.scope), registry.State();
      StartsAreInScope(pattern, query.graph, starts.positions, c);
      var qs := Match(query, pattern.plan, starts.positions, registry, limit);
      MatchIsMatched(query.graph, pattern.plan, Elems(starts.positions), qs, limit, c, registry.State());
      last := CalcSubgraphsByStart(qs.subgraphs);
      var groups := GroupDeps(qs.deps);
      var list := SubscribeAll(groups, []);
      startToDeps := groups;
      var startGroups := GroupDeps(starts.deps);
      StartGroupsAreOthers(pattern, depToPositions, query.graph, Elems(starts.positions), qs, groups, starts.deps,
          startGroups);
      list := SubscribeAll(startGroups, list);
      added := set d | d in list;
      StartedCoherent(pattern, Now(), qs, groups, starts.deps, startGroups);
      StartedRight(pattern, Now(), query.graph, starts.positions, qs, groups);
      GroupsAreInScope(pattern, qs, query.graph, Elems(starts.positions), groups, registry.scope);
      assert added == Elems(list);
    }

    // Positions to rematch from, given the observations.
    method FindScheduled(os: seq<Observation>) returns (sps: set<Position>)
      ensures forall sp :: sp in sps <==> Scheduled(Now(), Elems(os), sp)
    {
      sps := {};
      for i := 0 to |os|
        invariant forall sp :: sp in sps <==>
            exists o, s :: o in os[..i] && Knows(depToPositions, s, o.observable) && Triggers(s, o, sp)
      {
        assert os[..i + 1] == os[..i] + [os[i]];
        if os[i].observable in depToPositions {
          var more := TriggeredBy(os[i], depToPositions[os[i].observable]);
          sps := sps + more;
        }
      }
      assert os[..|os|] == os;
      forall sp ensures Scheduled(Now(), Elems(os), sp) <==> sp in sps {
        assert forall o :: o in os <==> o in Elems(os);
      }
    }

    static method TriggeredBy(o: Observation, starts: set<ObservableStart>) returns (sps: set<Position>)
      ensures forall sp :: sp in sps <==> exists s :: s in starts && Triggers(s, o, sp)
    {
      sps := {};
      var list := Listed(starts);
      for i := 0 to |list|
        invariant forall sp :: sp in sps <==> exists s :: s in list[..i] && Triggers(s, o, sp)
      {
        assert list[..i + 1] == list[..i] + [list[i]];
        var more: set<Position> :=
          match list[i]
          case AtPosition(q) => {q}
          case AbsentPosition(_) => {}
          case EveryAddedVertex => set v | v in o.addedVertices :: Position(v, CORE)
          case EveryAddedEdge =>
            (set e | e in o.addedEdges :: Position(e.from, ORBIT)) +
                (set e | e in o.addedEdges :: Position(e.to, ORBIT));
        assert forall sp :: sp in more <==> Triggers(list[i], o, sp);
        sps := sps + more;
      }
      assert list[..|list|] == list;
      assert forall s :: s in list <==> s in starts by { assert forall s :: s in list <==> s in Elems(list); }
    }

    ghost predicate Updating(st: State, added: seq<Observable>, removed: set<Observable>)
      requires PatternOk(pattern)
      reads this
    {
      OrdersOk(orders) && Tracking(st.depToPositions.Keys, depToPositions, added, removed) &&
      IndexOf(depToPositions, startToDeps, DepsOfShapes(ShapesOf(pattern))) && last == st.last &&
      forall s :: s in startToDeps ==> s.AtPosition?
    }

    // The start has the dependencies from now on.
    method Replace(s: ObservableStart, deps: set<Observable>, drop: bool, added: seq<Observable>,
        removed: set<Observable>, ghost st: State)
      returns (more: seq<Observable>, left: set<Observable>)
      requires PatternOk(pattern) && Coherent(pattern, st) && Updating(st, added, removed) && s.AtPosition? &&
          (drop ==> deps == {})
      requires s in startToDeps ==> s in st.startToDeps && startToDeps[s] == st.startToDeps[s]
      modifies this`depToPositions, this`startToDeps
      ensures Updating(st, more, left)
      ensures startToDeps == if drop then old(startToDeps) - {s} else old(startToDeps)[s := deps]
    {
      var olds := if s in startToDeps then startToDeps[s] else {};
      ghost var m := depToPositions;
      OwnIsKnown(m, startToDeps, DepsOfShapes(ShapesOf(pattern)), s);
      WereKnown(pattern, st, s, olds);
      more, left := Resubscribe(s, olds, deps, added, removed, st.depToPositions.Keys);
      OwnReplaced(m, depToPositions, startToDeps, DepsOfShapes(ShapesOf(pattern)), s, deps);
      if drop {
        startToDeps := startToDeps - {s};
      } else {
        startToDeps := startToDeps[s := deps];
      }
    }

    // Every start has the dependencies that were recorded for it.
    method ReplaceGroups(groups: map<ObservableStart, set<Observable>>, ghost st: State)
      returns (added: seq<Observable>, removed: set<Observable>)
      requires Valid() && st == Now() && forall s :: s in groups ==> s.AtPosition?
      modifies this`depToPositions, this`startToDeps
      ensures Updating(st, added, removed) && OwnReplacedIn(st.startToDeps, startToDeps, groups, groups.Keys)
    {
      added, removed := [], {};
      StartTracking(pattern, st);
      var list := Listed(groups.Keys);
      assert Elems(list[..0]) == {};
      assert OwnReplacedIn(st.startToDeps, startToDeps, groups, Elems(list[..0]));
      assert Updating(st, added, removed);
      hide Updating, PatternOk, OrdersOk, Coherent, OwnReplacedIn;
      for i := 0 to |list|
        invariant Updating(st, added, removed) && OwnReplacedIn(st.startToDeps, startToDeps, groups, Elems(list[..i]))
      {
        ElemsPrefix(list, i);
        assert list[i] in Elems(list);
        NotReplacedYet(st.startToDeps, startToDeps, groups, list, i);
        ghost var own := startToDeps;
        added, removed := Replace(list[i], groups[list[i]], false, added, removed, st);
        OneGroupReplaced(st.startToDeps, own, groups, Elems(list[..i]), list[i]);
      }
      ElemsWhole(list);
    }

    // Dependencies of the rematched positions are replaced by the ones recorded now.
    method UpdateDeps(groups: map<ObservableStart, set<Observable>>, sps: set<Position>, ghost st: State)
      returns (added: set<Observable>, removed: set<Observable>)
      requires Valid() && st == Now() && forall s :: s in groups ==> s.AtPosition? && s.pos in sps
      modifies this`depToPositions, this`startToDeps
      ensures ExactDelta(st.depToPositions.Keys, depToPositions.Keys, added, removed)
      ensures IndexOf(depToPositions, startToDeps, DepsOfShapes(ShapesOf(pattern)))
      ensures forall d :: d in depToPositions ==> depToPositions[d] != {}
      ensures OwnReplacedAt(st.startToDeps, startToDeps, groups, sps)
    {
      var more: seq<Observable>;
      more, removed := ReplaceGroups(groups, st);
      var rest := Listed(sps);
      assert Elems(rest[..0]) == {};
      OwnDroppedNone(st.startToDeps, startToDeps, groups);
      for i := 0 to |rest|
        invariant Updating(st, more, removed) && OwnReplacedAt(st.startToDeps, startToDeps, groups, Elems(rest[..i]))
      {
        ElemsPrefix(rest, i);
        var s := AtPosition(rest[i]);
        if s !in groups && s in startToDeps {
          more, removed := Replace(s, {}, true, more, removed, st);
        }
      }
      ElemsWhole(rest);
      added := set d | d in more;
      assert added == Elems(more);
      TrackEnds(st.depToPositions.Keys, depToPositions, more, removed);
      depToPositions := depToPositions - removed;
    }

    // Rematches where something was observed, and reports what has changed.
    method MatchIncrementally(query: Query, os: seq<Observation>, registry: NestedRegistry, ghost g: Graph)
        returns (update: IncrementalUpdate)
      requires Valid() && QueryOk(query) && WellFormed(g) && Right(pattern, Now(), g) &&
          Told(Now(), g, query.graph, Elems(os))
      requires Wired(registry.State()) && AllUpToDate(registry.State(), query.graph)
      requires Fitting(pattern, Now(), registry.scope)
      requires CachedIn(registry.State(), depToPositions.Keys)
      modifies this, registry
      ensures Valid() && Right(pattern, Now(), query.graph) && Fitting(pattern, Now(), registry.scope)
      ensures Matched(query.graph, old(registry.State()), registry.State()) &&
          CachedIn(registry.State(), depToPositions.Keys)
      ensures ExactDelta(old(depToPositions.Keys), depToPositions.Keys, update.addedDeps, update.removedDeps)
      ensures ExactEvents(AllSubgraphs(old(last)), AllSubgraphs(last), update.changes)
    {
      ghost var st, c := Now(), registry.State();
      var sps, list, qs := MatchScheduled(query, os, registry, g);
      hide Coherent, Right, Told, Fitting, CachedIn, MatchedFrom, ExactEvents, InScope, Scheduled, OrdersOk;
      var curr := CalcSubgraphsByStart(qs.subgraphs);
      var changes := FindSubgraphChanges(orders.bodies, list, last, curr);
      var groups := GroupDeps(qs.deps);
      var added, removed := UpdateDeps(groups, sps, st);
      last := (map sp | sp in last && sp !in sps :: last[sp]) + curr;
      update := IncrementalUpdate(added, removed, changes);
      RematchedState(pattern, st, Now(), query.graph, sps, qs, groups, curr);
      RematchedIsRight(pattern, st, Now(), g, query.graph, Elems(os), sps);
      EventsOfRematched(query.graph, pattern, st, Now(), sps, qs, curr, changes);
      CachedNow(pattern, st, Now(), query.graph, c, registry.State(), sps, qs, groups);
      RematchedIsFitting(pattern, st, Now(), query.graph, sps, qs, groups, registry.scope);
    }

    // Matches anew from the positions that the observations schedule.
    method MatchScheduled(query: Query, os: seq<Observation>, registry: NestedRegistry, ghost g: Graph)
        returns (sps: set<Position>, list: seq<Position>, qs: QuerySet)
      requires Valid() && QueryOk(query) && Told(Now(), g, query.graph, Elems(os))
      requires Wired(registry.State()) && AllUpToDate(registry.State(), query.graph)
      requires Fitting(pattern, Now(), registry.scope)
      modifies registry
      ensures Elems(list) == sps && NoDuplicates(list) && forall sp :: sp in sps <==> Scheduled(Now(), Elems(os), sp)
      ensures MatchedFrom(query.graph, pattern.plan, sps, qs)
      ensures Matched(query.graph, old(registry.State()), registry.State())
      ensures CachedIn(registry.State(), ObsOf(qs.deps))
      ensures forall sp :: sp in sps ==> InScope(registry.scope, pattern.plan, sp)
    {
      hide Coherent, MatchedFrom, Scheduled, Fitting;
      sps := FindScheduled(os);
      list := Listed(sps);
      ghost var limit, c := Limit(Height(pattern.plan) + 1, registry.scope), registry.State();
      forall sp | sp in list ensures Fits(limit, pattern.plan, sp) {
        assert sp in Elems(list);
        ScheduledIsInScope(pattern, Now(), query.graph, Elems(os), registry.scope, sp);
      }
      assert forall sp :: sp in sps <==> sp in Elems(list);
      qs := Match(query, pattern.plan, list, registry, limit);
      MatchIsMatched(query.graph, pattern.plan, sps, qs, limit, c, registry.State());
    }
  }

  // The registry has grown by up to date entries.
  ghost predicate Matched(g: Graph, c: Cache, d: Cache) {
    Wired(d) && AllUpToDate(d, g) && c.subgraphs.Keys <= d.subgraphs.Keys && StaysMarked(c, d) && c.scope == d.scope
  }

  ghost predicate CachedIn(c: Cache, obs: set<Observable>) { forall n :: NestedSubgraph(n) in obs ==> n in c.subgraphs }

  lemma MatchIsMatched(g: Graph, p: Plan, sps: set<Position>, qs: QuerySet, limit: Limit, c: Cache, d: Cache)
    requires Wired(c) && AllUpToDate(c, g) && Answers(g, p, sps, qs, limit, c, d)
    ensures Matched(g, c, d) && CachedIn(d, ObsOf(qs.deps))
  {
    assert c.deps.Keys == c.subgraphs.Keys;
    forall n | n in d.subgraphs ensures UpToDate(d, g, n) {
      if n in c.subgraphs { assert UpToDate(c, g, n); }
    }
    forall used: set<Observable> | Marked(c, used) ensures Marked(d, used) {
      GrownMarked(c, d, limit.height, used);
    }
  }

  lemma StartsAreInScope(p: Pattern, g: Graph, starts: seq<Position>, c: Cache)
    requires Shapes(p.expr).Some? && WellFormed(g) && g.vertices <= c.scope.known
    requires c.scope.edgeFirst ==> NestsEdgeFirst(p.plan)
    requires forall sp :: sp in starts ==> sp.v in g.vertices
    ensures forall sp :: sp in starts ==> InScope(c.scope, p.plan, sp)
  {}

  // Groups are for positions that were matched from.
  lemma GroupsAreInScope(p: Pattern, qs: QuerySet, g: Graph, sps: set<Position>,
      groups: map<ObservableStart, set<Observable>>, s: Scope)
    requires MatchedFrom(g, p.plan, sps, qs) && GroupedByStart(qs.deps, groups)
    requires forall sp :: sp in sps ==> InScope(s, p.plan, sp)
    ensures forall k :: k in groups ==> k.AtPosition? && k.pos.v in s.known
  {
    forall k | k in groups ensures k.AtPosition? && k.pos.v in s.known {
      var d :| d in qs.deps && d.start == k;
    }
  }

  lemma RematchedIsFitting(p: Pattern, st: State, next: State, g: Graph, sps: set<Position>, qs: QuerySet,
                           groups: map<ObservableStart, set<Observable>>, s: Scope)
    requires MatchedFrom(g, p.plan, sps, qs) && GroupedByStart(qs.deps, groups)
    requires OwnReplacedAt(st.startToDeps, next.startToDeps, groups, sps) && Fitting(p, st, s)
    requires forall sp :: sp in sps ==> InScope(s, p.plan, sp)
    ensures Fitting(p, next, s)
  {
    GroupsAreInScope(p, qs, g, sps, groups, s);
  }

  // Dependencies of start positions, and of added vertices and edges, don't get mixed up.
  lemma StartGroupsAreOthers(p: Pattern, m: Index, g: Graph, sps: set<Position>, qs: QuerySet,
      groups: map<ObservableStart, set<Observable>>,
                             startDeps: seq<Dep>, startGroups: map<ObservableStart, set<Observable>>)
    requires PatternOk(p) && MatchedFrom(g, p.plan, sps, qs) && GroupedByStart(qs.deps, groups)
    requires Elems(startDeps) == DepsOfShapes(ShapesOf(p)) && GroupedByStart(startDeps, startGroups)
    requires forall s, d :: Knows(m, s, d) <==> s in groups && d in groups[s]
    ensures (forall s :: s in groups ==> s.AtPosition?) && (forall s :: s in startGroups ==> !s.AtPosition?)
    ensures forall s :: s in startGroups ==> KnowsOf(m, s, {})
  {
    forall s | s in startGroups ensures !s.AtPosition? {
      var d :| d in startDeps && d.start == s;
      assert d in Elems(startDeps);
    }
  }

  lemma StartedCoherent(p: Pattern, st: State, qs: QuerySet, groups: map<ObservableStart, set<Observable>>,
                        startDeps: seq<Dep>, startGroups: map<ObservableStart, set<Observable>>)
    requires PatternOk(p) && GroupedByStart(qs.deps, groups) && (forall s :: s in groups ==> s.AtPosition?) &&
        st.startToDeps == groups
    requires Elems(startDeps) == DepsOfShapes(ShapesOf(p)) && GroupedByStart(startDeps, startGroups)
    requires forall s :: s in startGroups ==> !s.AtPosition?
    requires forall s, d :: Knows(st.depToPositions, s, d) <==>
        (s in groups && d in groups[s]) || (s in startGroups && d in startGroups[s])
    requires forall d :: d in st.depToPositions ==> st.depToPositions[d] != {}
    requires forall sp :: sp in st.last ==> st.last[sp] != {}
    ensures Coherent(p, st)
    ensures forall n :: NestedSubgraph(n) in st.depToPositions ==> NestedSubgraph(n) in ObsOf(qs.deps)
  {
    forall s, d ensures Knows(st.depToPositions, s, d) <==> ShouldKnow(p, st.startToDeps, s, d) {
      if !s.AtPosition? {
        assert Dep(d, s) in startDeps <==> Dep(d, s) in Elems(startDeps);
        if s in startGroups && d in startGroups[s] {
          var x :| x in startDeps && x.start == s && x.observable == d;
          assert x == Dep(d, s);
        }
      }
    }
    forall x | x in startDeps ensures !x.observable.NestedSubgraph? {
      assert x in Elems(startDeps);
    }
    forall n | NestedSubgraph(n) in st.depToPositions ensures NestedSubgraph(n) in ObsOf(qs.deps) {
      var s :| s in st.depToPositions[NestedSubgraph(n)];
      assert Knows(st.depToPositions, s, NestedSubgraph(n));
      assert s in groups;
      var x :| x in qs.deps && x.start == s && x.observable == NestedSubgraph(n);
    }
  }

  lemma StartedRight(p: Pattern, st: State, g: Graph, starts: seq<Position>, qs: QuerySet,
      groups: map<ObservableStart, set<Observable>>)
    requires PatternOk(p) && WellFormed(g) && MatchedFrom(g, p.plan, Elems(starts), qs) &&
        GroupedByStart(qs.deps, groups) &&
        st.startToDeps == groups
    requires forall sp :: StartsAtSome(ShapesOf(p), g, sp) ==> sp in starts
    requires forall sp :: BodiesAt(st.last, sp) == set x | x in qs.subgraphs && x.start == sp :: x.body
    ensures Right(p, st, g)
  {
    forall sp: Position ensures RightAt(p, st, g, sp) {
      FoundAt(g, p.plan, Elems(starts), qs, st.last, sp);
      GroupedAt(qs.deps, groups, sp);
      assert StartsAtSome(ShapesOf(p), g, sp) ==> sp in Elems(starts);
    }
  }

  lemma WereKnown(p: Pattern, st: State, s: ObservableStart, deps: set<Observable>)
    requires PatternOk(p) && Coherent(p, st) && s.AtPosition?
    requires (s in st.startToDeps && deps == st.startToDeps[s]) || deps == {}
    ensures deps <= st.depToPositions.Keys
  {
    forall d | d in deps ensures d in st.depToPositions.Keys {
      assert ShouldKnow(p, st.startToDeps, s, d);
      assert Knows(st.depToPositions, s, d);
    }
  }

  lemma StartTracking(p: Pattern, st: State)
    requires PatternOk(p) && Coherent(p, st)
    ensures Tracking(st.depToPositions.Keys, st.depToPositions, [], {})
    ensures IndexOf(st.depToPositions, st.startToDeps, DepsOfShapes(ShapesOf(p)))
  {
    forall s, d ensures Knows(st.depToPositions, s, d) <==>
        if s.AtPosition? then s in st.startToDeps &&
            d in st.startToDeps[s] else Dep(d, s) in DepsOfShapes(ShapesOf(p)) {
      assert Knows(st.depToPositions, s, d) <==> ShouldKnow(p, st.startToDeps, s, d);
    }
  }

  // The groups done so far have their dependencies; the others are as before.
  // The start depends on some more.
  ghost predicate KnowsAlso(m: Index, next: Index, s: ObservableStart, deps: set<Observable>) {
    forall k, d :: Knows(next, k, d) <==> Knows(m, k, d) || (k == s && d in deps)
  }

  lemma KnowsNothingMore(m: Index, s: ObservableStart)
    ensures KnowsAlso(m, m, s, {})
  {}

  lemma KnowsOneMore(m: Index, now: Index, s: ObservableStart, deps: set<Observable>, d: Observable)
    requires KnowsAlso(m, now, s, deps)
    ensures KnowsAlso(m, now[d := Positions(now, d) + {s}], s, deps + {d})
  {
    var next := now[d := Positions(now, d) + {s}];
    forall k, q ensures Knows(next, k, q) <==> Knows(m, k, q) || (k == s && q in deps + {d}) {
      assert Knows(next, k, q) <==> Knows(now, k, q) || (k == s && q == d);
      assert Knows(now, k, q) <==> Knows(m, k, q) || (k == s && q in deps);
    }
  }

  lemma KnowsAlsoMeans(m: Index, next: Index, s: ObservableStart, deps: set<Observable>)
    requires KnowsAlso(m, next, s, deps)
    ensures forall k, d :: Knows(next, k, d) <==> Knows(m, k, d) || (k == s && d in deps)
  {}

  ghost predicate OwnReplacedIn(own: map<ObservableStart, set<Observable>>, next: map<ObservableStart, set<Observable>>,
                                groups: map<ObservableStart, set<Observable>>, done: set<ObservableStart>) {
    forall s :: if s in done then s in groups && s in next && next[s] == groups[s]
      else (s in next <==> s in own) && (s in own ==> next[s] == own[s])
  }

  lemma NotReplacedYet(own: map<ObservableStart, set<Observable>>, next: map<ObservableStart, set<Observable>>,
                       groups: map<ObservableStart, set<Observable>>, list: seq<ObservableStart>, i: nat)
    requires i < |list| && NoDuplicates(list) && OwnReplacedIn(own, next, groups, Elems(list[..i]))
    ensures list[i] in next ==> list[i] in own && next[list[i]] == own[list[i]]
  {
    assert list[i] !in Elems(list[..i]);
  }

  lemma OneGroupReplaced(own: map<ObservableStart, set<Observable>>, next: map<ObservableStart, set<Observable>>,
                         groups: map<ObservableStart, set<Observable>>, done: set<ObservableStart>, s: ObservableStart)
    requires OwnReplacedIn(own, next, groups, done) && s in groups
    ensures OwnReplacedIn(own, next[s := groups[s]], groups, done + {s})
  {}

  // All the groups have their dependencies, and the positions without a group have none.
  ghost predicate OwnReplacedAt(own: map<ObservableStart, set<Observable>>, next: map<ObservableStart, set<Observable>>,
                                groups: map<ObservableStart, set<Observable>>, done: set<Position>) {
    forall s :: if s in groups then s in next && next[s] == groups[s]
      else if s.AtPosition? && s.pos in done then s !in next
      else (s in next <==> s in own) && (s in own ==> next[s] == own[s])
  }

  lemma OwnDroppedNone(own: map<ObservableStart, set<Observable>>, next: map<ObservableStart, set<Observable>>,
                       groups: map<ObservableStart, set<Observable>>)
    requires OwnReplacedIn(own, next, groups, groups.Keys)
    ensures OwnReplacedAt(own, next, groups, {})
  {}

  lemma RematchedState(p: Pattern, st: State, next: State, g: Graph, sps: set<Position>, qs: QuerySet,
                       groups: map<ObservableStart, set<Observable>>, curr: map<Position, set<Body>>)
    requires PatternOk(p) && Coherent(p, st) && MatchedFrom(g, p.plan, sps, qs) && GroupedByStart(qs.deps, groups)
    requires forall sp :: BodiesAt(curr, sp) == set x | x in qs.subgraphs && x.start == sp :: x.body
    requires forall sp :: sp in curr ==> curr[sp] != {}
    requires OwnReplacedAt(st.startToDeps, next.startToDeps, groups, sps)
    requires next.last == (map sp | sp in st.last && sp !in sps :: st.last[sp]) + curr
    requires IndexOf(next.depToPositions, next.startToDeps, DepsOfShapes(ShapesOf(p)))
    requires forall d :: d in next.depToPositions ==> next.depToPositions[d] != {}
    ensures Coherent(p, next) && Rematched(p, st, next, g, sps)
  {
    forall s | s in groups ensures s.AtPosition? && s.pos in sps {
      var d :| d in qs.deps && d.start == s;
    }
    forall sp: Position
      ensures LastAt(next, sp) == if sp in sps then ResultAt(g, p.plan, sp) else LastAt(st, sp)
      ensures OwnDeps(next, sp) == if sp in sps then DepsAt(qs.deps, sp) else OwnDeps(st, sp)
    {
      FoundAt(g, p.plan, sps, qs, curr, sp);
      GroupedAt(qs.deps, groups, sp);
    }
    forall s, d ensures Knows(next.depToPositions, s, d) <==> ShouldKnow(p, next.startToDeps, s, d) {}
  }

  lemma EventsOfRematched(g: Graph, p: Pattern, st: State, next: State, sps: set<Position>, qs: QuerySet,
                          curr: map<Position, set<Body>>, changes: SubgraphChanges)
    requires MatchedFrom(g, p.plan, sps, qs) && EventsOf(sps, st.last, curr, changes)
    requires forall sp :: sp in curr ==> curr[sp] != {}
    requires forall sp :: BodiesAt(curr, sp) == set x | x in qs.subgraphs && x.start == sp :: x.body
    requires next.last == (map sp | sp in st.last && sp !in sps :: st.last[sp]) + curr
    ensures ExactEvents(AllSubgraphs(st.last), AllSubgraphs(next.last), changes)
  {
    forall sp: Position
      ensures BodiesAt(next.last, sp) == if sp in sps then BodiesAt(curr, sp) else BodiesAt(st.last, sp)
    {
      FoundAt(g, p.plan, sps, qs, curr, sp);
    }
    assert EventsOf(sps, st.last, next.last, changes);
    EventsAreExact(sps, st.last, next.last, changes);
  }

  lemma CachedNow(p: Pattern, st: State, next: State, g: Graph, c: Cache, d: Cache, sps: set<Position>, qs: QuerySet,
                  groups: map<ObservableStart, set<Observable>>)
    requires PatternOk(p) && Coherent(p, st) && Coherent(p, next) && GroupedByStart(qs.deps, groups)
    requires OwnReplacedAt(st.startToDeps, next.startToDeps, groups, sps)
    requires CachedIn(c, st.depToPositions.Keys) && Matched(g, c, d) && CachedIn(d, ObsOf(qs.deps))
    ensures CachedIn(d, next.depToPositions.Keys)
  {
    forall n | NestedSubgraph(n) in next.depToPositions.Keys ensures n in d.subgraphs {
      var o := NestedSubgraph(n);
      var s :| s in next.depToPositions[o];
      assert Knows(next.depToPositions, s, o);
      assert ShouldKnow(p, next.startToDeps, s, o);
      if s in groups && s.AtPosition? {
        var x :| x in qs.deps && x.start == s && x.observable == o;
      } else {
        assert ShouldKnow(p, st.startToDeps, s, o);
        assert Knows(st.depToPositions, s, o);
      }
    }
  }
}
