/** All observers of a graph, with their routes and subscriptions. */
module Observers {
  import opened Base
  import opened Semantics
  import opened Dependencies
  import opened NestedCache
  import opened NestedRefresh
  import opened NestedEviction
  import opened SortedLists
  import opened Visiting
  import opened Matcher
  import opened Queries
  import opened Observing
  import opened IncrementalState
  import opened SubgraphEvents
  import opened Subscriptions
  import opened Incremental

  datatype ObserverId = ObserverId(name: int)

  // What an observer is told about.
  datatype Flags = Flags(onCreate: bool, onChange: bool, onDelete: bool)

  datatype Observer = Observer(id: ObserverId, flags: Flags, matcher: IncrementalMatcher)

  datatype Report = Created(id: ObserverId, subgraph: Subgraph) | Changed(id: ObserverId, subgraph: Subgraph) |
      Deleted(id: ObserverId, subgraph: Subgraph)

  function ReportsOf(id: ObserverId, flags: Flags, ch: SubgraphChanges): set<Report> {
    (if flags.onCreate then set s | s in ch.added :: Created(id, s) else {}) +
    (if flags.onChange then set c | c in ch.changed :: Changed(id, c.1) else {}) +
    (if flags.onDelete then set s | s in ch.removed :: Deleted(id, s) else {})
  }

  // The observer wants to know, and it happened: a subgraph came that wasn't there, either in the place of another one
  // with its start and refs or not, or a subgraph went and none took its place.
  ghost predicate IsDue(r: Report, flags: Flags, before: set<Subgraph>, now: set<Subgraph>) {
    match r
    case Created(_, s) => flags.onCreate && s in now && s !in before && forall x :: !Became(before, now, x, s)
    case Changed(_, s) => flags.onChange && exists x :: Became(before, now, x, s)
    case Deleted(_, s) => flags.onDelete && s in before && s !in now && forall y :: !Became(before, now, s, y)
  }

  lemma ReportsAreDue(id: ObserverId, flags: Flags, before: set<Subgraph>, now: set<Subgraph>, ch: SubgraphChanges,
      r: Report)
    requires ExactEvents(before, now, ch)
    ensures r in ReportsOf(id, flags, ch) <==> (r.id == id && IsDue(r, flags, before, now))
  {
    hide Became;
    match r
    case Created(_, s) =>
    case Changed(_, s) =>
      if x :| Became(before, now, x, s) { assert (x, s) in ch.changed && (x, s).1 == s; }
      if r in ReportsOf(id, flags, ch) {
        var c :| c in ch.changed && r == Changed(id, c.1);
        assert (c.0, c.1) in ch.changed;
      }
    case Deleted(_, s) =>
  }

  lemma NothingIsDue(flags: Flags, now: set<Subgraph>, r: Report)
    ensures !IsDue(r, flags, now, now)
  {}

  // Exactly what is due was reported, to all observers.
  ghost predicate ReportsExactly(observers: map<ObserverId, Observer>, before: map<ObserverId, State>,
      after: map<ObserverId, State>, reports: set<Report>) {
    forall r :: r in reports <==> (r.id in observers && r.id in before && r.id in after &&
        IsDue(r, observers[r.id].flags, AllSubgraphs(before[r.id].last), AllSubgraphs(after[r.id].last)))
  }

  lemma ExactlyReported(observers: map<ObserverId, Observer>, before: map<ObserverId, State>,
      after: map<ObserverId, State>, told: map<ObserverId, SubgraphChanges>, reports: set<Report>)
    requires AllEvents(before, after, told) && observers.Keys == before.Keys && told.Keys <= observers.Keys
    requires forall r :: r in reports <==> exists id :: id in told && r in ReportsOf(id, observers[id].flags, told[id])
    ensures ReportsExactly(observers, before, after, reports)
  {
    hide IsDue, ReportsOf, ExactEvents;
    forall r
      ensures r in reports <==> (r.id in observers && r.id in before && r.id in after &&
          IsDue(r, observers[r.id].flags, AllSubgraphs(before[r.id].last), AllSubgraphs(after[r.id].last)))
    {
      if r.id in observers && r.id !in told {
        NothingIsDue(observers[r.id].flags, AllSubgraphs(before[r.id].last), r);
      }
      forall id | id in told
        ensures r in ReportsOf(id, observers[id].flags, told[id]) <==> (r.id == id &&
          IsDue(r, observers[id].flags, AllSubgraphs(before[id].last), AllSubgraphs(after[id].last)))
      {
        ReportsAreDue(id, observers[id].flags, AllSubgraphs(before[id].last), AllSubgraphs(after[id].last), told[id],
            r);
      }
    }
  }

  type SubscriptionMap = map<Observable, set<ObserverId>>

  ghost predicate Subscribes(m: SubscriptionMap, id: ObserverId, o: Observable) { o in m && id in m[o] }

  // --------------------------------------------------------------------------
  // Observations
  // --------------------------------------------------------------------------

  ghost predicate AllObserved(c: Cache, subs: set<Observable>, ch: GraphChanges, m: map<Observable, Observation>) {
    Collected(m, ch, subs + c.depToStarts.Keys)
  }

  lemma NestedAreObserved(c: Cache, g: Graph, h: Graph, subs: set<Observable>, m: map<Observable, Observation>,
      observed: seq<Observable>)
    requires Wired(c) && AllObserved(c, subs, Difference(g, h), m) && Elems(observed) == m.Keys
    ensures forall n, o :: DependsOn(c, n, o) && !o.NestedSubgraph? && !Same(g, h, o) ==> o in observed
  {
    forall n, o | DependsOn(c, n, o) && !o.NestedSubgraph? && !Same(g, h, o) ensures o in observed {
      assert Subscribed(c, n, o);
      HappenedIsDifferent(g, h, o);
      assert o in m;
      assert o in Elems(observed);
    }
  }

  // The observations of the graph, and of the cached subgraphs that have changed.
  ghost predicate AllObservations(os: set<Observation>, m: map<Observable, Observation>, changed: set<Observable>) {
    forall o :: o in os <==>
        (o.observable in m && m[o.observable] == o) ||
        (o.observable in changed && o == Observation(o.observable, {}, {}))
  }

  // Whatever is subscribed to and has changed is among the observations.
  lemma ChangesAreObserved(c: Cache, d: Cache, g: Graph, h: Graph, subs: set<Observable>,
      m: map<Observable, Observation>,
                           changed: set<Observable>, os: set<Observation>, o: Observable)
    requires AllObserved(c, subs, Difference(g, h), m) && AllObservations(os, m, changed)
    requires AllUpToDate(c, g) && AllUpToDate(d, h) && Reported(c, d, h, changed) && CachedIn(c, subs)
    requires o in subs && !Same(g, h, o)
    ensures ObservationOf(Difference(g, h), o) in os
  {
    if o.NestedSubgraph? {
      assert o == NestedSubgraph(o.start);
      assert UpToDate(c, g, o.start) && UpToDate(d, h, o.start);
      assert o in changed;
    } else {
      HappenedIsDifferent(g, h, o);
      assert o in m;
    }
  }

  // The observations routed to an observer: those of what it's subscribed to.
  ghost predicate RoutedTo(subs: SubscriptionMap, os: set<Observation>, id: ObserverId, mine: set<Observation>) {
    forall o :: o in mine <==> o in os && Subscribes(subs, id, o.observable)
  }

  function RoutedFor(routed: map<ObserverId, seq<Observation>>, id: ObserverId): seq<Observation> {
    if id in routed then routed[id] else []
  }

  ghost predicate RightWith(p: Pattern, st: State, g: Graph, s: Scope) {
    PatternOk(p) && Coherent(p, st) && Right(p, st, g) && Fitting(p, st, s)
  }

  // The matcher is right about the graph, with what the registry may look up for it.
  ghost predicate KnowsAll(m: IncrementalMatcher, g: Graph, s: Scope)
    reads m
  {
    PatternOk(m.pattern) && Right(m.pattern, m.Now(), g) && Fitting(m.pattern, m.Now(), s)
  }

  // Subscriptions of one observer were updated.
  ghost predicate ChangedFor(subs: SubscriptionMap, next: SubscriptionMap, id: ObserverId, added: set<Observable>,
      removed: set<Observable>) {
    forall i, o :: Subscribes(next, i, o) <==>
      if i == id then o in added - removed || (Subscribes(subs, id, o) && o !in removed) else Subscribes(subs, i, o)
  }

  ghost predicate OnlyFor(subs: SubscriptionMap, next: SubscriptionMap, id: ObserverId, keys: set<Observable>) {
    forall i, o :: Subscribes(next, i, o) ==> if i == id then o in keys else Subscribes(subs, i, o)
  }

  ghost predicate NoneEmpty(subs: SubscriptionMap) { forall o :: o in subs ==> subs[o] != {} }

  function WithSubscription(m: SubscriptionMap, id: ObserverId, o: Observable): SubscriptionMap {
    m[o := (if o in m then m[o] else {}) + {id}]
  }

  function WithoutSubscription(m: SubscriptionMap, id: ObserverId, o: Observable): SubscriptionMap {
    if o !in m then m else if m[o] - {id} == {} then m - {o} else m[o := m[o] - {id}]
  }

  lemma SubscriptionAdded(m: SubscriptionMap, id: ObserverId, o: Observable)
    ensures forall k, q :: Subscribes(WithSubscription(m, id, o), k, q) <==> Subscribes(m, k, q) || (k == id && q == o)
    ensures NoneEmpty(m) ==> NoneEmpty(WithSubscription(m, id, o))
  {}

  lemma SubscriptionRemoved(m: SubscriptionMap, id: ObserverId, o: Observable)
    ensures forall k, q :: Subscribes(WithoutSubscription(m, id, o), k, q) <==>
        Subscribes(m, k, q) && !(k == id && q == o)
    ensures NoneEmpty(m) ==> NoneEmpty(WithoutSubscription(m, id, o))
  {
    var next := WithoutSubscription(m, id, o);
    forall k, q ensures Subscribes(next, k, q) <==> Subscribes(m, k, q) && !(k == id && q == o) {
      if o in m && q == o { assert k in m[o] && k != id <==> k in m[o] - {id}; }
    }
  }

  // --------------------------------------------------------------------------
  // Containers
  // --------------------------------------------------------------------------

  class ObserverContainer {
    var observers: map<ObserverId, Observer>
    var subscriptions: SubscriptionMap
    const registry: NestedRegistry
    const orders: Orders

    constructor (orders: Orders)
      requires OrdersOk(orders)
      ensures observers == map[] && subscriptions == map[] && fresh(registry) && Matchers() == {}
      ensures registry.State() == EmptyCache(Scope(true, {})) && this.orders == orders
      ensures forall g: Graph :: g.vertices == {} ==> UpToDateWith(g)
    {
      observers, subscriptions := map[], map[];
      this.orders := orders;
      registry := new NestedRegistry(orders.observables, Scope(true, {}));
    }

    ghost function Matchers(): set<object>
      reads this`observers
    {
      set id | id in observers :: observers[id].matcher
    }

    // Different observers have different matchers.
    ghost predicate Distinct()
      reads this`observers
    {
      (forall id :: id in observers ==> observers[id].id == id) &&
      forall i, j :: i in observers && j in observers && i != j ==> observers[i].matcher != observers[j].matcher
    }

    ghost predicate MatchersValid()
      reads this`observers, Matchers()
    {
      forall id :: id in observers ==> observers[id].matcher.Valid() && observers[id].matcher.orders == orders
    }

    // Subscriptions are exactly what observers depend on.
    ghost predicate SubscriptionsExact()
      reads this, Matchers()
    {
      NoneEmpty(subscriptions) &&
      forall id, o :: Subscribes(subscriptions, id, o) <==> id in observers && o in observers[id].matcher.depToPositions
    }

    ghost predicate Valid()
      reads this, Matchers(), registry
    {
      MatchersOk() && RegistryOk(registry.State(), subscriptions.Keys)
    }

    ghost predicate MatchersOk()
      reads this, Matchers()
    {
      OrdersOk(orders) && registry.less == orders.observables && Distinct() && MatchersValid() && SubscriptionsExact()
    }

    lemma DependsSubscribed(id: ObserverId)
      requires MatchersOk() && id in observers
      ensures forall d :: d in observers[id].matcher.depToPositions ==> Subscribes(subscriptions, id, d)
      ensures registry.less == orders.observables && OrdersOk(orders)
    {}

    ghost function States(): map<ObserverId, State>
      reads this`observers, Matchers()
    {
      map id | id in observers :: observers[id].matcher.Now()
    }

    // Everything is fine, except that subscriptions of one observer have to be updated.
    ghost predicate OkExcept(id: ObserverId, states: map<ObserverId, State>, subs: SubscriptionMap)
      reads this`observers, Matchers()
    {
      OrdersOk(orders) && registry.less == orders.observables && Distinct() && id in observers &&
          states.Keys == observers.Keys &&
      ExactFor(states, subs) && observers[id].matcher.Valid() &&
      (forall k :: k in observers ==>
          observers[k].matcher.orders == orders && PatternOk(observers[k].matcher.pattern)) &&
      forall k :: k in observers && k != id ==>
          observers[k].matcher.Now() == states[k] && Coherent(observers[k].matcher.pattern, states[k])
    }

    // Subscriptions are exact again, when those of one observer have been updated.
    lemma StillExact(id: ObserverId, states: map<ObserverId, State>, subs: SubscriptionMap, added: set<Observable>,
        removed: set<Observable>)
      requires OkExcept(id, states, subs)
      requires ExactDelta(states[id].depToPositions.Keys, observers[id].matcher.depToPositions.Keys, added, removed)
      requires ChangedFor(subs, subscriptions, id, added, removed)
      requires NoneEmpty(subscriptions)
      ensures MatchersOk()
    {
      hide PatternOk, Coherent;
      forall i, o
        ensures Subscribes(subscriptions, i, o) <==> i in observers && o in observers[i].matcher.depToPositions
      {
        assert Subscribes(subs, i, o) <==> i in states && o in states[i].depToPositions;
        if i in observers && i != id { assert observers[i].matcher.Now() == states[i]; }
      }
      forall i | i in observers ensures observers[i].matcher.Valid() {
        if i != id { assert observers[i].matcher.Now() == states[i]; }
      }
    }

    lemma StatesAre(id: ObserverId)
      requires Valid() && id in observers
      ensures OkExcept(id, States(), subscriptions) && observers[id].matcher.Valid()
      ensures Wired(registry.State()) && CachedIn(registry.State(), observers[id].matcher.depToPositions.Keys)
      ensures NoneEmpty(subscriptions)
    {
      forall d | d in observers[id].matcher.depToPositions.Keys ensures d in subscriptions.Keys {
        assert Subscribes(subscriptions, id, d);
      }
    }

    lemma OrdersAreOk()
      requires MatchersOk()
      ensures registry.less == orders.observables && StrictOrder(registry.less) && SubscriptionsExact()
    {}

    // All observers know exactly what matching from scratch would find.
    ghost predicate AllRight(g: Graph, s: Scope)
      reads this`observers, Matchers()
    {
      forall id :: id in observers ==> KnowsAll(observers[id].matcher, g, s)
    }

    ghost predicate UpToDateWith(g: Graph)
      reads this, Matchers(), registry
    {
      Valid() && AllRight(g, registry.scope) && AllUpToDate(registry.State(), g)
    }

    lemma StillRight(g: Graph, a: Scope, b: Scope)
      requires AllRight(g, a) && a.known <= b.known && a.edgeFirst == b.edgeFirst
      ensures AllRight(g, b)
    {}

    // Where no cached expression may begin with a vertex, no observer looks up one that does.
    ghost predicate AllEdgeFirst()
      reads this`observers, Matchers(), registry
    {
      registry.scope.edgeFirst ==>
        forall id :: id in observers ==> NestsEdgeFirst(observers[id].matcher.pattern.plan)
    }

    // From now on, patterns may look up expressions that begin with a vertex.
    ghost method AllowVertexFirst(g: Graph)
      requires UpToDateWith(g)
      modifies registry`scope
      ensures UpToDateWith(g) && registry.scope == Scope(false, old(registry.scope).known)
      ensures registry.State() == old(registry.State()).(scope := registry.scope)
    {
      ghost var c := registry.State();
      assert registry !in Matchers();
      registry.scope := Scope(false, registry.scope.known);
      ScopeLoosened(c, registry.State(), subscriptions.Keys, g);
      assert MatchersOk();
    }

    method ApplySubscriptionChanges(id: ObserverId, added: set<Observable>, removed: set<Observable>)
      modifies this`subscriptions, registry`maybeUnused
      ensures ChangedFor(old(subscriptions), subscriptions, id, added, removed)
      ensures NoneEmpty(old(subscriptions)) ==> NoneEmpty(subscriptions)
      ensures registry.maybeUnused == old(registry.maybeUnused) + set o | o in removed && o.NestedSubgraph?
    {
      ghost var was := subscriptions;
      var list := Listed(added);
      assert forall o :: o in list <==> o in added by { assert forall o :: o in list <==> o in Elems(list); }
      for i := 0 to |list|
        invariant registry.maybeUnused == old(registry.maybeUnused)
        invariant forall k, o :: Subscribes(subscriptions, k, o) <==>
            Subscribes(was, k, o) || (k == id && o in list[..i])
        invariant NoneEmpty(was) ==> NoneEmpty(subscriptions)
      {
        assert list[..i + 1] == list[..i] + [list[i]];
        SubscriptionAdded(subscriptions, id, list[i]);
        subscriptions := WithSubscription(subscriptions, id, list[i]);
      }
      assert list[..|list|] == list;
      ghost var mid := subscriptions;
      var gone := Listed(removed);
      assert forall o :: o in gone <==> o in removed by { assert forall o :: o in gone <==> o in Elems(gone); }
      for i := 0 to |gone|
        invariant registry.maybeUnused == old(registry.maybeUnused) + set o | o in gone[..i] && o.NestedSubgraph?
        invariant forall k, o :: Subscribes(subscriptions, k, o) <==>
            Subscribes(mid, k, o) && !(k == id && o in gone[..i])
        invariant NoneEmpty(mid) ==> NoneEmpty(subscriptions)
      {
        assert gone[..i + 1] == gone[..i] + [gone[i]];
        registry.MarkMaybeUnused(gone[i]);
        SubscriptionRemoved(subscriptions, id, gone[i]);
        subscriptions := WithoutSubscription(subscriptions, id, gone[i]);
      }
      assert gone[..|gone|] == gone;
    }

    // Refreshes the cache, and sorts what happened to the graph and to cached subgraphs by subscribers.
    method RouteObservations(changes: GraphChanges, query: Query, ghost g: Graph)
        returns (routed: map<ObserverId, seq<Observation>>)
      requires UpToDateWith(g) && WellFormed(g) && QueryOk(query) && changes == Difference(g, query.graph)
      requires NoneReturns(registry.State(), g, query.graph)
      modifies registry
      ensures Valid() && AllRight(g, registry.scope) && AllUpToDate(registry.State(), query.graph)
      ensures routed.Keys <= observers.Keys && registry.scope == Widened(old(registry.scope), query.graph)
      ensures forall id :: id in observers ==>
          Told(observers[id].matcher.Now(), g, query.graph, Elems(RoutedFor(routed, id)))
    {
      hide Wired, AllUpToDate, Marked, Reported, AllObservations, Collected, Told, AllRight, MatchersOk, QueryOk, Same,
          DependsOn, SubscriptionsExact;
      OrdersAreOk();
      GraphIsOk(query);
      ghost var c, h, subs := registry.State(), query.graph, subscriptions.Keys;
      var m := CollectObservations(changes, subscriptions.Keys + registry.depToStarts.Keys);
      var observed := Listed(m.Keys);
      NestedAreObserved(c, g, h, subs, m, observed);
      assert registry !in Matchers();
      var changed := registry.Update(query, observed, g);
      assert MatchersOk();
      StillRight(g, c.scope, registry.scope);
      RefreshedCache(c, registry.State(), h, changed, subs);
      var os := (set o | o in m :: m[o]) + (set o | o in changed :: Observation(o, {}, {}));
      ObservationsAreAll(os, m, changed, subs + c.depToStarts.Keys, changes);
      routed := Route(os);
      forall id | id in observers ensures Told(observers[id].matcher.Now(), g, h, Elems(RoutedFor(routed, id))) {
        DependsSubscribed(id);
        assert forall o :: o in Elems(RoutedFor(routed, id)) <==> o in RoutedFor(routed, id);
        AllTold(c, registry.State(), g, h, subscriptions, m, changed, os, id, observers[id].matcher.Now(),
            Elems(RoutedFor(routed, id)));
      }
    }

    method Route(os: set<Observation>) returns (routed: map<ObserverId, seq<Observation>>)
      requires SubscriptionsExact()
      ensures forall id, o :: o in RoutedFor(routed, id) <==> o in os && Subscribes(subscriptions, id, o.observable)
      ensures routed.Keys <= observers.Keys
    {
      routed := map[];
      var list := Listed(os);
      assert forall o :: o in list <==> o in os by { assert forall o :: o in list <==> o in Elems(list); }
      for i := 0 to |list|
        invariant forall id, o :: o in RoutedFor(routed, id) <==>
            o in list[..i] && Subscribes(subscriptions, id, o.observable)
        invariant routed.Keys <= observers.Keys
      {
        assert list[..i + 1] == list[..i] + [list[i]];
        if list[i].observable in subscriptions {
          ghost var before := routed;
          routed := RouteOne(list[i], subscriptions[list[i].observable], routed);
          forall id | id in routed.Keys ensures id in observers.Keys {
            if id !in before.Keys { assert Subscribes(subscriptions, id, list[i].observable); }
          }
        }
      }
      assert list[..|list|] == list;
    }

    static method RouteOne(o: Observation, ids: set<ObserverId>, routed: map<ObserverId, seq<Observation>>)
      returns (next: map<ObserverId, seq<Observation>>)
      ensures forall id, x :: x in RoutedFor(next, id) <==> x in RoutedFor(routed, id) || (x == o && id in ids)
      ensures next.Keys == routed.Keys + ids
    {
      next := routed;
      var list := Listed(ids);
      assert Elems(list[..0]) == {};
      for i := 0 to |list|
        invariant forall id, x :: x in RoutedFor(next, id) <==>
            x in RoutedFor(routed, id) || (x == o && id in Elems(list[..i]))
        invariant next.Keys == routed.Keys + Elems(list[..i])
      {
        ElemsPrefix(list, i);
        next := next[list[i] := RoutedFor(next, list[i]) + [o]];
      }
      ElemsWhole(list);
    }

    // One observer, that the observations were routed to, rematches.
    method ObserveOne(id: ObserverId, os: seq<Observation>, query: Query, ghost g: Graph) returns (ch: SubgraphChanges)
      requires id in observers && Valid() && QueryOk(query) && WellFormed(g) &&
          AllUpToDate(registry.State(), query.graph)
      requires KnowsAll(observers[id].matcher, g, registry.scope) &&
          Told(observers[id].matcher.Now(), g, query.graph, Elems(os))
      modifies this`subscriptions, registry, observers[id].matcher
      ensures Valid() && AllUpToDate(registry.State(), query.graph) &&
          KnowsAll(observers[id].matcher, query.graph, registry.scope)
      ensures EventsFrom(old(observers[id].matcher.Now()), observers[id].matcher.Now(), ch)
      ensures registry.scope == old(registry.scope)
    {
      hide MatchersOk, AllUpToDate, Told, QueryOk, KnowsAll, EventsFrom, OkExcept, Matched, CachedIn, RegistryOk,
          WellFormed;
      ghost var c, states := registry.State(), States();
      StatesAre(id);
      var update := Rematch(id, os, query, g, states);
      ch := update.changes;
      UpdateSubscriptions(id, update.addedDeps, update.removedDeps, query.graph, c, states);
    }

    method Rematch(id: ObserverId, os: seq<Observation>, query: Query, ghost g: Graph,
        ghost states: map<ObserverId, State>)
      returns (update: IncrementalUpdate)
      requires OkExcept(id, states, subscriptions) && observers[id].matcher.Now() == states[id] && QueryOk(query) &&
          WellFormed(g)
      requires Wired(registry.State()) && AllUpToDate(registry.State(), query.graph)
      requires CachedIn(registry.State(), observers[id].matcher.depToPositions.Keys)
      requires KnowsAll(observers[id].matcher, g, registry.scope) && Told(states[id], g, query.graph, Elems(os))
      modifies registry, observers[id].matcher
      ensures OkExcept(id, states, subscriptions) && KnowsAll(observers[id].matcher, query.graph, registry.scope)
      ensures Matched(query.graph, old(registry.State()), registry.State())
      ensures CachedIn(registry.State(), observers[id].matcher.depToPositions.Keys)
      ensures ExactDelta(states[id].depToPositions.Keys, observers[id].matcher.depToPositions.Keys, update.addedDeps,
          update.removedDeps)
      ensures EventsFrom(states[id], observers[id].matcher.Now(), update.changes)
      ensures registry.scope == old(registry.scope)
    {
      hide Wired, AllUpToDate, Told, QueryOk, Coherent, IncrementalState.Right, ExactEvents, CachedIn, WellFormed;
      update := observers[id].matcher.MatchIncrementally(query, os, registry, g);
    }

    method UpdateSubscriptions(id: ObserverId, added: set<Observable>, removed: set<Observable>, ghost h: Graph,
        ghost c: Cache,
                               ghost states: map<ObserverId, State>)
      requires OkExcept(id, states, subscriptions) && NoneEmpty(subscriptions)
      requires RegistryOk(c, subscriptions.Keys) && Matched(h, c, registry.State())
      requires CachedIn(registry.State(), observers[id].matcher.depToPositions.Keys)
      requires ExactDelta(states[id].depToPositions.Keys, observers[id].matcher.depToPositions.Keys, added, removed)
      modifies this`subscriptions, registry`maybeUnused
      ensures Valid() && AllUpToDate(registry.State(), h)
    {
      ghost var d, subs, keys := registry.State(), subscriptions, observers[id].matcher.depToPositions.Keys;
      hide OkExcept, RegistryOk, Matched, CachedIn, AllUpToDate, MatchersOk, ExactFor, ChangedFor, OnlyFor, NoneEmpty,
          ExactDelta;
      ApplySubscriptionChanges(id, added, removed);
      assert OkExcept(id, states, subs);
      StillExact(id, states, subs, added, removed);
      OnlyHis(id, states, subs, added, removed);
      RegistryStaysOk(h, c, d, registry.State(), subs, subscriptions, id, removed, keys);
    }

    lemma OnlyHis(id: ObserverId, states: map<ObserverId, State>, subs: SubscriptionMap, added: set<Observable>,
        removed: set<Observable>)
      requires OkExcept(id, states, subs)
      requires ExactDelta(states[id].depToPositions.Keys, observers[id].matcher.depToPositions.Keys, added, removed)
      requires ChangedFor(subs, subscriptions, id, added, removed)
      requires NoneEmpty(subs)
      ensures OnlyFor(subs, subscriptions, id, observers[id].matcher.depToPositions.Keys)
      ensures forall o :: o in subs && o !in removed ==> o in subscriptions
    {
      forall o | o in subs && o !in removed ensures o in subscriptions {
        var i :| i in subs[o];
        assert Subscribes(subs, i, o);
        assert Subscribes(subscriptions, i, o);
      }
    }

    // While observers rematch one by one: those that are done know all about the graph now, the others are as before.
    ghost predicate InObserve(done: set<ObserverId>, g: Graph, h: Graph, states: map<ObserverId, State>)
      reads this, Matchers(), registry
    {
      Valid() && AllUpToDate(registry.State(), h) && states.Keys == observers.Keys &&
      forall id :: id in observers ==> if id in done then KnowsAll(observers[id].matcher, h, registry.scope)
        else KnowsAll(observers[id].matcher, g, registry.scope) && observers[id].matcher.Now() == states[id]
    }

    method ObserveNext(id: ObserverId, os: seq<Observation>, query: Query, ghost g: Graph, ghost done: set<ObserverId>,
                       ghost states: map<ObserverId, State>, events: map<ObserverId, SubgraphChanges>)
                           returns (more: map<ObserverId, SubgraphChanges>)
      requires InObserve(done, g, query.graph, states) && EventsSoFar(done, states, States(), events) &&
          id in observers && id !in done
      requires QueryOk(query) && WellFormed(g) && Told(states[id], g, query.graph, Elems(os))
      modifies this`subscriptions, registry, observers[id].matcher
      ensures InObserve(done + {id}, g, query.graph, states) && EventsSoFar(done + {id}, states, States(), more)
      ensures more == events[id := more[id]]
      ensures registry.scope == old(registry.scope)
    {
      hide MatchersOk, RegistryOk, AllUpToDate, Told, KnowsAll, EventsFrom, QueryOk, EventsSoFar;
      AreDistinct();
      ghost var now := States();
      var ch := ObserveOne(id, os, query, g);
      more := events[id := ch];
      forall k | k in now && k != id ensures States()[k] == now[k] {
        assert observers[k].matcher != observers[id].matcher;
      }
      ToldOneMore(done, states, now, States(), events, id, ch);
    }

    lemma AreDistinct()
      requires Valid()
      ensures Distinct()
    {}

    lemma StartObserve(g: Graph, h: Graph)
      requires Valid() && AllRight(g, registry.scope) && AllUpToDate(registry.State(), h)
      ensures InObserve({}, g, h, States()) && EventsSoFar({}, States(), States(), map[])
    {}

    lemma ToldIn(states: map<ObserverId, State>, g: Graph, h: Graph, routed: map<ObserverId, seq<Observation>>)
      requires states == States()
      requires forall id :: id in observers ==> Told(observers[id].matcher.Now(), g, h, Elems(RoutedFor(routed, id)))
      ensures AllToldIn(states, g, h, routed)
    {
      forall id | id in states ensures Told(states[id], g, h, Elems(RoutedFor(routed, id))) {
        assert id in observers && states[id] == observers[id].matcher.Now();
      }
    }

    lemma EventsOfAll(done: set<ObserverId>, g: Graph, h: Graph, states: map<ObserverId, State>,
        events: map<ObserverId, SubgraphChanges>)
      requires InObserve(done, g, h, states) && EventsSoFar(done, states, States(), events)
      ensures AllEvents(states, States(), events) && events.Keys <= observers.Keys
    {}

    // Observers that nothing was routed to have nothing to rematch.
    lemma NotRouted(done: set<ObserverId>, g: Graph, h: Graph, states: map<ObserverId, State>,
        routed: map<ObserverId, seq<Observation>>)
      requires InObserve(done, g, h, states) && done == routed.Keys && WellFormed(g) && WellFormed(h) &&
          AllToldIn(states, g, h, routed)
      ensures UpToDateWith(h)
    {
      forall id | id in observers ensures KnowsAll(observers[id].matcher, h, registry.scope) {
        if id !in done {
          var m := observers[id].matcher;
          assert Told(states[id], g, h, Elems(RoutedFor(routed, id)));
          var none: set<Observation> := {};
          assert Elems(RoutedFor(routed, id)) == none;
          assert m.Valid();
          NotToldIsRight(m.pattern, m.Now(), g, h);
        }
      }
    }

    method RematchAll(routed: map<ObserverId, seq<Observation>>, query: Query, ghost g: Graph,
        ghost states: map<ObserverId, State>)
      returns (told: map<ObserverId, SubgraphChanges>)
      requires InObserve({}, g, query.graph, states) && EventsSoFar({}, states, States(), map[]) &&
          routed.Keys <= observers.Keys
      requires QueryOk(query) && WellFormed(g) && AllToldIn(states, g, query.graph, routed)
      modifies this`subscriptions, registry, Matchers()
      ensures observers == old(observers) && InObserve(routed.Keys, g, query.graph, states) &&
          EventsSoFar(routed.Keys, states, States(), told)
      ensures registry.scope == old(registry.scope)
    {
      hide InObserve, Told, WellFormed, QueryOk, EventsFrom;
      var list := Listed(routed.Keys);
      told := map[];
      assert Elems(list[..0]) == {};
      for i := 0 to |list|
        invariant observers == old(observers) && registry.scope == old(registry.scope)
        invariant InObserve(Elems(list[..i]), g, query.graph, states) &&
            EventsSoFar(Elems(list[..i]), states, States(), told)
      {
        ElemsPrefix(list, i);
        assert list[i] in Elems(list) && list[i] !in Elems(list[..i]);
        assert RoutedFor(routed, list[i]) == routed[list[i]];
        told := ObserveNext(list[i], routed[list[i]], query, g, Elems(list[..i]), states, told);
      }
      ElemsWhole(list);
    }

    method Report(told: map<ObserverId, SubgraphChanges>) returns (reports: set<Report>)
      requires told.Keys <= observers.Keys
      ensures forall r :: r in reports <==> exists id :: id in told && r in ReportsOf(id, observers[id].flags, told[id])
    {
      reports := {};
      var list := Listed(told.Keys);
      assert forall id :: id in list <==> id in told by { assert forall id :: id in list <==> id in Elems(list); }
      for i := 0 to |list|
        invariant forall r :: r in reports <==>
            exists id :: id in list[..i] && r in ReportsOf(id, observers[id].flags, told[id])
      {
        assert list[..i + 1] == list[..i] + [list[i]];
        reports := reports + ReportsOf(list[i], observers[list[i]].flags, told[list[i]]);
      }
      assert list[..|list|] == list;
    }

    // Only what somebody depends on is cached.
    ghost predicate AllReferenced()
      reads this, registry
    {
      forall n :: n in registry.subgraphs ==> Referenced(registry.State(), subscriptions.Keys, n)
    }

    method EvictUnusedNested(ghost h: Graph)
      requires UpToDateWith(h)
      modifies registry
      ensures UpToDateWith(h) && AllReferenced()
      ensures Evicted(old(registry.State()), registry.State(), subscriptions.Keys)
      ensures registry.scope == old(registry.scope)
    {
      ghost var c := registry.State();
      assert registry !in Matchers();
      registry.EvictUnused(subscriptions.Keys);
      EvictedIsOk(h, c, registry.State(), subscriptions.Keys);
      assert MatchersOk() && AllRight(h, registry.scope);
    }

    method RouteAndRematch(changes: GraphChanges, query: Query, ghost g: Graph)
        returns (events: map<ObserverId, SubgraphChanges>)
      requires UpToDateWith(g) && WellFormed(g) && QueryOk(query) && changes == Difference(g, query.graph)
      requires NoneReturns(registry.State(), g, query.graph)
      modifies this`subscriptions, registry, Matchers()
      ensures observers == old(observers) && UpToDateWith(query.graph)
      ensures AllEvents(old(States()), States(), events) && events.Keys <= observers.Keys
      ensures registry.scope == Widened(old(registry.scope), query.graph)
    {
      hide InObserve, EventsSoFar, WellFormed, Told, QueryOk, MatchersOk, RegistryOk, AllRight, AllUpToDate, AllEvents,
          AllToldIn;
      ghost var states := States();
      var routed := RouteObservations(changes, query, g);
      assert registry !in Matchers() && States() == states;
      ToldIn(states, g, query.graph, routed);
      StartObserve(g, query.graph);
      GraphIsOk(query);
      events := RematchAll(routed, query, g, states);
      NotRouted(routed.Keys, g, query.graph, states, routed);
      EventsOfAll(routed.Keys, g, query.graph, states, events);
    }

    // Every observer is told exactly how its subgraphs have changed, and knows all about the graph now.
    method Observe(changes: GraphChanges, query: Query, ghost g: Graph) returns (reports: set<Report>)
      requires UpToDateWith(g) && WellFormed(g) && QueryOk(query) && changes == Difference(g, query.graph)
      requires NoneReturns(registry.State(), g, query.graph)
      modifies this`subscriptions, registry, Matchers()
      ensures observers == old(observers) && UpToDateWith(query.graph) && AllReferenced()
      ensures registry.scope == Widened(old(registry.scope), query.graph)
      ensures ReportsExactly(observers, old(States()), States(), reports)
    {
      hide UpToDateWith, AllReferenced, WellFormed, QueryOk, AllEvents, Evicted, ReportsOf, ReportsExactly;
      var events := RouteAndRematch(changes, query, g);
      ghost var after := States();
      assert registry !in Matchers();
      EvictUnusedNested(query.graph);
      assert States() == after;
      reports := Report(events);
      ExactlyReported(observers, old(States()), States(), events, reports);
    }

    // ------------------------------------------------------------------------
    // Registration and rollback
    // ------------------------------------------------------------------------

    // Some of the observers have been matched from scratch, and have their subscriptions.
    ghost predicate OkAmong(done: set<ObserverId>)
      reads this, Matchers()
    {
      OrdersOk(orders) && registry.less == orders.observables && Distinct() && done <= observers.Keys &&
          NoneEmpty(subscriptions) &&
      (forall k :: k in observers ==>
          observers[k].matcher.orders == orders && PatternOk(observers[k].matcher.pattern)) &&
      (forall k :: k in done ==> observers[k].matcher.Valid()) &&
      forall i, o :: Subscribes(subscriptions, i, o) <==> i in done && o in observers[i].matcher.depToPositions
    }

    ghost predicate RightAmong(done: set<ObserverId>, g: Graph)
      reads this, Matchers(), registry
    {
      OkAmong(done) && RegistryOk(registry.State(), subscriptions.Keys) && AllUpToDate(registry.State(), g) &&
      AllEdgeFirst() && forall k :: k in done ==> KnowsAll(observers[k].matcher, g, registry.scope)
    }

    lemma AllAmong(g: Graph)
      ensures RightAmong(observers.Keys, g) <==> UpToDateWith(g)
    {
      if RightAmong(observers.Keys, g) { assert SubscriptionsExact(); }
      if UpToDateWith(g) { assert OkAmong(observers.Keys); }
    }

    lemma NoneAmong(g: Graph)
      requires subscriptions == map[] && registry.State() == EmptyCache(registry.scope) && OrdersOk(orders) &&
          registry.less == orders.observables && Distinct() && g.vertices <= registry.scope.known && AllEdgeFirst()
      requires forall k :: k in observers ==>
          observers[k].matcher.orders == orders && PatternOk(observers[k].matcher.pattern)
      ensures RightAmong({}, g)
    {
      assert Linked(EmptyCache(registry.scope));
    }

    // Matches one more observer from scratch, and subscribes it.
    method Start(id: ObserverId, query: Query, ghost done: set<ObserverId>)
      requires RightAmong(done, query.graph) && id in observers && id !in done && QueryOk(query)
      modifies this`subscriptions, registry, observers[id].matcher
      ensures RightAmong(done + {id}, query.graph) && registry.scope == old(registry.scope)
    {
      hide RegistryOk, AllUpToDate, OrdersOk, StrictOrder, Coherent, IncrementalState.Right, Matched, CachedIn, Wired,
          PatternOk;
      var m := observers[id].matcher;
      ghost var c, subs, states := registry.State(), subscriptions, States();
      RegistryIsOk(c, subs.Keys, {});
      var added := m.Reinitialize(query, registry);
      ghost var d := registry.State();
      ApplySubscriptionChanges(id, added, {});
      forall k | k in done ensures observers[k].matcher.Now() == states[k] {}
      Started(id, done, query.graph, states, subs, added);
      StartedOnly(subs, subscriptions, id, added);
      RegistryStaysOk(query.graph, c, d, registry.State(), subs, subscriptions, id, {}, added);
    }

    lemma Started(id: ObserverId, done: set<ObserverId>, g: Graph, states: map<ObserverId, State>,
        subs: SubscriptionMap, added: set<Observable>)
      requires OrdersOk(orders) && registry.less == orders.observables && Distinct() && done <= observers.Keys &&
          NoneEmpty(subscriptions)
      requires id in observers && id !in done && states.Keys == observers.Keys
      requires forall k :: k in observers ==>
          observers[k].matcher.orders == orders && PatternOk(observers[k].matcher.pattern)
      requires forall k :: k in done ==>
          observers[k].matcher.Now() == states[k] &&
              RightWith(observers[k].matcher.pattern, states[k], g, registry.scope)
      requires observers[id].matcher.Valid() && KnowsAll(observers[id].matcher, g, registry.scope) &&
          added == observers[id].matcher.depToPositions.Keys
      requires forall i, o :: Subscribes(subs, i, o) <==> i in done && o in states[i].depToPositions
      requires ChangedFor(subs, subscriptions, id, added, {})
      ensures OkAmong(done + {id}) && forall k :: k in done + {id} ==> KnowsAll(observers[k].matcher, g, registry.scope)
    {
      hide PatternOk, Coherent, IncrementalState.Right;
      forall i, o
        ensures Subscribes(subscriptions, i, o) <==> i in done + {id} && o in observers[i].matcher.depToPositions
      {
        assert Subscribes(subs, i, o) <==> i in done && o in states[i].depToPositions;
      }
    }

    // Registers an observer, unless there's one with the ID already.
    method Register(id: ObserverId, flags: Flags, pattern: Pattern, query: Query) returns (ok: bool)
      requires UpToDateWith(query.graph) && QueryOk(query) && PatternOk(pattern)
      requires registry.scope.edgeFirst ==> NestsEdgeFirst(pattern.plan)
      modifies this, registry
      ensures ok <==> id !in old(observers)
      ensures UpToDateWith(query.graph) && (!ok ==> observers == old(observers))
      ensures ok ==>
          observers.Keys == old(observers.Keys) + {id} && observers[id].matcher.pattern == pattern &&
          observers[id].flags == flags
      ensures forall k :: k in old(observers) ==> observers[k] == old(observers)[k]
      ensures ok ==> fresh(observers[id].matcher)
      ensures registry.scope == old(registry.scope)
    {
      hide RightAmong, OkAmong, PatternOk;
      if id in observers {
        return false;
      }
      ghost var done := observers.Keys;
      var matcher := new IncrementalMatcher(pattern, orders);
      AllAmong(query.graph);
      Enter(id, flags, matcher, query.graph);
      Start(id, query, done);
      assert observers.Keys == done + {id};
      AllAmong(query.graph);
      ok := true;
    }

    // Enters an observer with a matcher that has matched nothing.
    method Enter(id: ObserverId, flags: Flags, matcher: IncrementalMatcher, ghost g: Graph)
      requires id !in observers && RightAmong(observers.Keys, g)
      requires matcher !in Matchers() && matcher.orders == orders && PatternOk(matcher.pattern)
      requires registry.scope.edgeFirst ==> NestsEdgeFirst(matcher.pattern.plan)
      modifies this`observers
      ensures observers == old(observers)[id := Observer(id, flags, matcher)]
      ensures RightAmong(old(observers.Keys), g)
    {
      hide KnowsAll, RegistryOk, AllUpToDate, NoneEmpty, PatternOk, Coherent, IncrementalState.Right;
      observers := observers[id := Observer(id, flags, matcher)];
    }

    // Forgets everything, and matches all observers from scratch.
    method ReinitializeAll(query: Query)
      requires MatchersOk() && AllEdgeFirst() && QueryOk(query)
      modifies this`subscriptions, registry, Matchers()
      ensures observers == old(observers) && UpToDateWith(query.graph)
      ensures registry.scope == Scope(old(registry.scope).edgeFirst, query.graph.vertices)
    {
      PatternsAreOk();
      subscriptions := map[];
      registry.Clear(query.graph.vertices);
      NoneAmong(query.graph);
      var list := Listed(observers.Keys);
      assert Elems(list[..0]) == {};
      for i := 0 to |list|
        invariant observers == old(observers) && RightAmong(Elems(list[..i]), query.graph)
        invariant registry.scope == Scope(old(registry.scope).edgeFirst, query.graph.vertices)
      {
        hide RightAmong, QueryOk;
        ElemsPrefix(list, i);
        assert list[i] in Elems(list) && list[i] !in Elems(list[..i]);
        Start(list[i], query, Elems(list[..i]));
      }
      ElemsWhole(list);
      AllAmong(query.graph);
    }

    lemma PatternsAreOk()
      requires MatchersOk()
      ensures OrdersOk(orders) && registry.less == orders.observables && Distinct()
      ensures forall k :: k in observers ==>
          observers[k].matcher.orders == orders && PatternOk(observers[k].matcher.pattern)
    {}
  }

  lemma AllTold(c: Cache, d: Cache, g: Graph, h: Graph, subs: SubscriptionMap, m: map<Observable, Observation>,
      changed: set<Observable>,
                os: set<Observation>, id: ObserverId, st: State, mine: set<Observation>)
    requires AllObserved(c, subs.Keys, Difference(g, h), m) && AllObservations(os, m, changed) &&
        RoutedTo(subs, os, id, mine)
    requires AllUpToDate(c, g) && AllUpToDate(d, h) && Reported(c, d, h, changed) && CachedIn(c, subs.Keys)
    requires WellFormed(h) && forall o :: o in st.depToPositions ==> Subscribes(subs, id, o)
    ensures Told(st, g, h, mine)
  {
    forall o | o in mine ensures Genuine(o, h) { assert o in os; }
    forall o | o in st.depToPositions && !Same(g, h, o) ensures ObservationOf(Difference(g, h), o) in mine {
      assert Subscribes(subs, id, o);
      ChangesAreObserved(c, d, g, h, subs.Keys, m, changed, os, o);
    }
  }

  lemma ScopeLoosened(c: Cache, d: Cache, subs: set<Observable>, g: Graph)
    requires RegistryOk(c, subs) && AllUpToDate(c, g) && d == c.(scope := Scope(false, c.scope.known))
    ensures RegistryOk(d, subs) && AllUpToDate(d, g)
  {
    MoreScope(c, d);
    forall n | n in d.subgraphs ensures UpToDate(d, g, n) { assert UpToDate(c, g, n); }
  }

  lemma MoreScope(c: Cache, d: Cache)
    requires Wired(c) && d == c.(scope := d.scope)
    ensures Wired(d)
  {
    forall k, o ensures Subscribed(d, k, o) <==> DependsOn(d, k, o) {
      assert Subscribed(c, k, o) <==> DependsOn(c, k, o);
    }
    forall k, q | DependsOn(d, k, NestedSubgraph(q)) ensures CachedDeeper(d, k, q) {
      assert DependsOn(c, k, NestedSubgraph(q));
      assert CachedDeeper(c, k, q);
    }
  }

  ghost predicate RegistryOk(c: Cache, subs: set<Observable>) { Wired(c) && CachedIn(c, subs) && Marked(c, subs) }

  // The refreshed cache still has everything that's subscribed to.
  lemma RefreshedCache(c: Cache, d: Cache, h: Graph, changed: set<Observable>, subs: set<Observable>)
    requires Wired(c) && Wired(d) && Reported(c, d, h, changed) && CachedIn(c, subs)
    ensures CachedIn(d, subs)
  {}

  lemma ObservationsAreAll(os: set<Observation>, m: map<Observable, Observation>, changed: set<Observable>,
      wanted: set<Observable>, ch: GraphChanges)
    requires Collected(m, ch, wanted)
    requires os == (set o | o in m :: m[o]) + (set o | o in changed :: Observation(o, {}, {}))
    ensures AllObservations(os, m, changed)
  {
    forall o | o in m ensures m[o].observable == o {}
  }

  ghost predicate ExactFor(states: map<ObserverId, State>, subs: SubscriptionMap) {
    forall id, o :: Subscribes(subs, id, o) <==> id in states && o in states[id].depToPositions
  }

  // The events tell exactly how the subgraphs have changed.
  ghost predicate EventsFrom(st: State, next: State, ch: SubgraphChanges) {
    ExactEvents(AllSubgraphs(st.last), AllSubgraphs(next.last), ch)
  }

  lemma RegistryIsOk(c: Cache, subs: set<Observable>, keys: set<Observable>)
    requires RegistryOk(c, subs) && keys <= subs
    ensures Wired(c) && CachedIn(c, keys)
  {}

  // The registry has grown, and what was unsubscribed from is marked.
  lemma RegistryStaysOk(h: Graph, c: Cache, d: Cache, e: Cache, subs: SubscriptionMap, next: SubscriptionMap,
      id: ObserverId,
                        removed: set<Observable>, keys: set<Observable>)
    requires RegistryOk(c, subs.Keys) && Matched(h, c, d) && CachedIn(d, keys)
    requires e == d.(maybeUnused := d.maybeUnused + set o | o in removed && o.NestedSubgraph?)
    requires OnlyFor(subs, next, id, keys)
    requires NoneEmpty(next)
    requires forall o :: o in subs && o !in removed ==> o in next
    ensures RegistryOk(e, next.Keys) && AllUpToDate(e, h)
  {
    MoreMarked(d, e);
    forall n | NestedSubgraph(n) in next.Keys ensures n in e.subgraphs {
      assert next[NestedSubgraph(n)] != {};
      var i :| i in next[NestedSubgraph(n)];
      assert Subscribes(next, i, NestedSubgraph(n));
    }
    assert Marked(d, subs.Keys);
    forall n | n in e.subgraphs
      ensures NestedSubgraph(n) in e.depToStarts || NestedSubgraph(n) in next.Keys || NestedSubgraph(n) in e.maybeUnused
    {}
    forall n | n in e.subgraphs ensures UpToDate(e, h, n) {
      assert UpToDate(d, h, n);
    }
  }

  lemma MoreMarked(d: Cache, e: Cache)
    requires Wired(d) && d.maybeUnused <= e.maybeUnused && e == d.(maybeUnused := e.maybeUnused)
    requires forall o :: o in e.maybeUnused ==> o.NestedSubgraph?
    ensures Wired(e)
  {
    forall k, o ensures Subscribed(e, k, o) <==> DependsOn(e, k, o) {
      assert Subscribed(d, k, o) <==> DependsOn(d, k, o);
    }
    forall k, q | DependsOn(e, k, NestedSubgraph(q)) ensures CachedDeeper(e, k, q) {
      assert DependsOn(d, k, NestedSubgraph(q));
      assert CachedDeeper(d, k, q);
    }
  }

  ghost predicate EventsSoFar(done: set<ObserverId>, states: map<ObserverId, State>, now: map<ObserverId, State>,
      events: map<ObserverId, SubgraphChanges>) {
    states.Keys == now.Keys && events.Keys == done && done <= states.Keys &&
    forall id :: id in states && id in now ==>
        if id in events then EventsFrom(states[id], now[id], events[id]) else now[id] == states[id]
  }

  lemma ToldOneMore(done: set<ObserverId>, states: map<ObserverId, State>, now: map<ObserverId, State>,
      next: map<ObserverId, State>,
                      events: map<ObserverId, SubgraphChanges>, id: ObserverId, ch: SubgraphChanges)
    requires EventsSoFar(done, states, now, events) && id in now && id in states && id !in done
    requires next.Keys == now.Keys && (forall k :: k in now && k != id ==> next[k] == now[k]) &&
        EventsFrom(now[id], next[id], ch)
    ensures EventsSoFar(done + {id}, states, next, events[id := ch])
  {
    hide EventsFrom;
  }

  ghost predicate AllToldIn(states: map<ObserverId, State>, g: Graph, h: Graph,
      routed: map<ObserverId, seq<Observation>>) {
    forall id :: id in states ==> Told(states[id], g, h, Elems(RoutedFor(routed, id)))
  }

  // Observers were told exactly how their subgraphs have changed, or they haven't.
  ghost predicate AllEvents(before: map<ObserverId, State>, after: map<ObserverId, State>,
      told: map<ObserverId, SubgraphChanges>) {
    before.Keys == after.Keys &&
    forall id :: id in before && id in after ==>
      if id in told then EventsFrom(before[id], after[id], told[id]) else before[id] == after[id]
  }

  lemma EvictedIsOk(h: Graph, c: Cache, d: Cache, subs: set<Observable>)
    requires RegistryOk(c, subs) && AllUpToDate(c, h) && Evicted(c, d, subs)
    ensures RegistryOk(d, subs) && AllUpToDate(d, h) && forall n :: n in d.subgraphs ==> Referenced(d, subs, n)
  {
    KeptUpToDate(c, d, h, subs);
    forall n | n in d.subgraphs
      ensures NestedSubgraph(n) in d.depToStarts || NestedSubgraph(n) in subs || NestedSubgraph(n) in d.maybeUnused
    {
      assert Referenced(d, subs, n);
      if NestedSubgraph(n) !in subs {
        var k :| DependsOn(d, k, NestedSubgraph(n));
        assert Subscribed(d, k, NestedSubgraph(n));
      }
    }
  }

  lemma StartedOnly(subs: SubscriptionMap, next: SubscriptionMap, id: ObserverId, added: set<Observable>)
    requires ChangedFor(subs, next, id, added, {}) && NoneEmpty(subs) && forall o :: !Subscribes(subs, id, o)
    ensures OnlyFor(subs, next, id, added) && forall o :: o in subs ==> o in next
  {
    forall o | o in subs ensures o in next {
      assert subs[o] != {};
      var i :| i in subs[o];
      assert Subscribes(subs, i, o);
      assert Subscribes(next, i, o);
    }
  }
}
