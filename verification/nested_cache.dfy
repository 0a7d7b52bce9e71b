/** The cache of nested expressions, and what makes it right. */
module NestedCache {
  import opened Base
  import opened Plans
  import opened Semantics
  import opened RefTracking
  import opened Dependencies
  import opened Matching

  datatype Cache = Cache(
    subgraphs: map<NestedStart, set<Body>>,
    deps: map<NestedStart, set<Observable>>,
    depToStarts: map<Observable, set<NestedStart>>,
    maybeUnused: set<Observable>,
    scope: Scope)

  // What entries may be about: vertices that are known, and, if so restricted, plans that look up nothing which tests
  // its start vertex.
  datatype Scope = Scope(edgeFirst: bool, known: set<VertexID>)

  ghost predicate InScope(s: Scope, p: Plan, pos: Position) { (s.edgeFirst ==> NestsEdgeFirst(p)) && pos.v in s.known }

  function Nested(n: NestedStart): Plan { PNested(n.names, n.plan) }

  // What may be matched with the registry: nested expressions below the height, in the scope.
  datatype Limit = Limit(height: nat, scope: Scope)

  ghost predicate Fits(limit: Limit, p: Plan, pos: Position) {
    Height(p) < limit.height && InScope(limit.scope, p, pos)
  }

  function HeightOf(n: NestedStart): nat { Height(Nested(n)) }

  ghost predicate EntryOk(n: NestedStart) {
    Plans.Valid(n.plan) && Supported(n.plan, SetNames(n.refs))
  }

  ghost predicate DependsOn(c: Cache, n: NestedStart, o: Observable) { n in c.deps && o in c.deps[n] }

  ghost predicate Subscribed(c: Cache, n: NestedStart, o: Observable) { o in c.depToStarts && n in c.depToStarts[o] }

  // The maps are views of one relation.
  ghost predicate Linked(c: Cache) {
    c.deps.Keys == c.subgraphs.Keys &&
    (forall n, o :: Subscribed(c, n, o) <==> DependsOn(c, n, o)) &&
    (forall o :: o in c.depToStarts ==> c.depToStarts[o] != {})
  }

  ghost predicate CachedDeeper(c: Cache, n: NestedStart, m: NestedStart) {
    m in c.subgraphs && HeightOf(m) < HeightOf(n)
  }

  // What cached subgraphs depend on is cached, and is nested deeper.
  ghost predicate Closed(c: Cache) {
    forall n, m :: DependsOn(c, n, NestedSubgraph(m)) ==> CachedDeeper(c, n, m)
  }

  ghost predicate Wired(c: Cache) {
    Linked(c) && Closed(c) && (forall o :: o in c.maybeUnused ==> o.NestedSubgraph?)
  }

  // The matcher supports the entries, and they are in the scope, like the vertices of the graph.
  ghost predicate Scoped(c: Cache, g: Graph) {
    (forall n :: n in c.subgraphs ==> EntryOk(n) && InScope(c.scope, Nested(n), n.pos)) &&
    g.vertices <= c.scope.known
  }

  // In all graphs that agree on the observables, the nested expression matches the same.
  ghost predicate Settled(g: Graph, obs: set<Observable>, n: NestedStart) {
    forall h: Graph :: Alike(g, h, obs) ==> NestedSem(h, n) == NestedSem(g, n)
  }

  // The nested expression doesn't test its start vertex, or the vertex is there.
  ghost predicate StartsHere(g: Graph, n: NestedStart) { Here(n.plan, n.pos, g) }

  // The subgraphs are right, and unless the start vertex is missing, the dependencies tell when they change.
  ghost predicate UpToDate(c: Cache, g: Graph, n: NestedStart) {
    n in c.subgraphs && n in c.deps && c.subgraphs[n] == NestedSem(g, n) &&
    (StartsHere(g, n) ==> Settled(g, c.deps[n], n))
  }

  ghost predicate UpToDateBelow(c: Cache, g: Graph, limit: nat) {
    forall n :: n in c.subgraphs && HeightOf(n) < limit ==> UpToDate(c, g, n)
  }

  ghost predicate Ready(c: Cache, g: Graph, limit: Limit) {
    Wired(c) && Scoped(c, g) && c.scope == limit.scope && UpToDateBelow(c, g, limit.height)
  }

  // Entries are only added, up to date and below the limit; unused ones are marked.
  ghost predicate Grown(c: Cache, d: Cache, limit: nat) {
    c.subgraphs.Keys <= d.subgraphs.Keys &&
    c.maybeUnused <= d.maybeUnused && c.scope == d.scope &&
    (forall n :: n in c.subgraphs && n in c.deps ==>
      n in d.subgraphs && n in d.deps && d.subgraphs[n] == c.subgraphs[n] && d.deps[n] == c.deps[n]) &&
    (forall n :: n in d.subgraphs && n !in c.subgraphs ==> HeightOf(n) < limit && NestedSubgraph(n) in d.maybeUnused)
  }

  lemma GrownItself(c: Cache, limit: nat)
    ensures Grown(c, c, limit)
  {}

  lemma GrownTransitive(c: Cache, d: Cache, e: Cache, limit: nat)
    requires Linked(c) && Linked(d) && Grown(c, d, limit) && Grown(d, e, limit)
    ensures Grown(c, e, limit)
  {
    assert c.deps.Keys == c.subgraphs.Keys;
    assert d.deps.Keys == d.subgraphs.Keys;
  }

  // Nested subgraphs among the observables are cached.
  ghost predicate AreCached(c: Cache, obs: set<Observable>, limit: nat) {
    forall n :: NestedSubgraph(n) in obs ==> n in c.subgraphs && HeightOf(n) < limit
  }

  // Makes the start depend on one more observable.
  function SubscribedTo(m: map<Observable, set<NestedStart>>, n: NestedStart, o: Observable): map<Observable,
      set<NestedStart>> {
    m[o := (if o in m then m[o] else {}) + {n}]
  }

  function UnsubscribedFrom(m: map<Observable, set<NestedStart>>, n: NestedStart, o: Observable): map<Observable,
      set<NestedStart>> {
    if o !in m then m
    else if m[o] - {n} == {} then m - {o}
    else m[o := m[o] - {n}]
  }

  ghost predicate Relates(m: map<Observable, set<NestedStart>>, n: NestedStart, o: Observable) { o in m && n in m[o] }

  function WithEntry(c: Cache, n: NestedStart, s: set<Body>, obs: set<Observable>,
      m: map<Observable, set<NestedStart>>): Cache {
    Cache(c.subgraphs[n := s], c.deps[n := obs], m, c.maybeUnused + {NestedSubgraph(n)}, c.scope)
  }

  ghost predicate RelatesMore(c: Cache, n: NestedStart, obs: set<Observable>, m: map<Observable, set<NestedStart>>) {
    (forall k, o :: Relates(m, k, o) <==> Relates(c.depToStarts, k, o) || (k == n && o in obs)) &&
    (forall o :: o in m ==> m[o] != {})
  }

  lemma EntryAddedLinked(c: Cache, n: NestedStart, s: set<Body>, obs: set<Observable>,
      m: map<Observable, set<NestedStart>>)
    requires Linked(c) && n !in c.subgraphs && RelatesMore(c, n, obs, m)
    ensures Linked(WithEntry(c, n, s, obs, m))
  {
    var d := WithEntry(c, n, s, obs, m);
    assert n !in c.deps.Keys;
    forall k, o ensures Subscribed(d, k, o) <==> DependsOn(d, k, o) {
      assert Relates(m, k, o) <==> Relates(c.depToStarts, k, o) || (k == n && o in obs);
      assert Subscribed(c, k, o) <==> DependsOn(c, k, o);
    }
  }

  lemma EntryAddedClosed(c: Cache, n: NestedStart, s: set<Body>, obs: set<Observable>,
      m: map<Observable, set<NestedStart>>)
    requires Closed(c) && AreCached(c, obs, HeightOf(n))
    ensures Closed(WithEntry(c, n, s, obs, m))
  {
    var d := WithEntry(c, n, s, obs, m);
    forall k, q | DependsOn(d, k, NestedSubgraph(q)) ensures CachedDeeper(d, k, q) {
      if k == n {
        assert NestedSubgraph(q) in obs;
      } else {
        assert DependsOn(c, k, NestedSubgraph(q));
      }
      assert q in c.subgraphs && HeightOf(q) < HeightOf(k);
    }
  }

  // A new entry keeps the maps linked and closed.
  lemma EntryAdded(c: Cache, n: NestedStart, s: set<Body>, obs: set<Observable>, m: map<Observable, set<NestedStart>>)
    requires Wired(c) && n !in c.subgraphs && AreCached(c, obs, HeightOf(n)) && RelatesMore(c, n, obs, m)
    ensures Wired(WithEntry(c, n, s, obs, m))
    ensures forall g :: Scoped(c, g) && EntryOk(n) && InScope(c.scope, Nested(n), n.pos) ==>
      Scoped(WithEntry(c, n, s, obs, m), g)
  {
    EntryAddedLinked(c, n, s, obs, m);
    EntryAddedClosed(c, n, s, obs, m);
  }

  lemma EntryAddedGrows(c: Cache, g: Graph, n: NestedStart, s: set<Body>, obs: set<Observable>,
                        m: map<Observable, set<NestedStart>>, limit: nat)
    requires UpToDateBelow(c, g, limit) && n !in c.subgraphs && HeightOf(n) < limit
    requires s == NestedSem(g, n) && (StartsHere(g, n) ==> Settled(g, obs, n))
    ensures UpToDateBelow(WithEntry(c, n, s, obs, m), g, limit) && Grown(c, WithEntry(c, n, s, obs, m), limit)
  {
    var d := WithEntry(c, n, s, obs, m);
    forall k | k in d.subgraphs && HeightOf(k) < limit ensures UpToDate(d, g, k) {
      if k == n {
        assert UpToDate(d, g, n);
      } else {
        assert UpToDate(c, g, k);
      }
    }
  }

  lemma UpToDateLifts(c: Cache, d: Cache, g: Graph, low: nat, limit: nat)
    requires Linked(c) && UpToDateBelow(c, g, limit) && Grown(c, d, low) && UpToDateBelow(d, g, low) && low <= limit
    ensures UpToDateBelow(d, g, limit) && Grown(c, d, limit)
  {
    forall n | n in d.subgraphs && HeightOf(n) < limit ensures UpToDate(d, g, n) {
      if n in c.subgraphs {
        assert UpToDate(c, g, n);
      }
    }
  }

  lemma SubscribedToRelates(c: Cache, n: NestedStart, obs: set<Observable>, m: map<Observable, set<NestedStart>>,
      o: Observable)
    requires RelatesMore(c, n, obs, m)
    ensures RelatesMore(c, n, obs + {o}, SubscribedTo(m, n, o))
  {
    var next := SubscribedTo(m, n, o);
    forall k, q ensures Relates(next, k, q) <==> Relates(c.depToStarts, k, q) || (k == n && q in obs + {o}) {
      assert Relates(m, k, q) <==> Relates(c.depToStarts, k, q) || (k == n && q in obs);
    }
  }

  // What a match from the start of the entry recorded settles it, if its start vertex is there.
  lemma NestedIsSettled(w: World, n: NestedStart, obs: set<Observable>)
    requires w.cached && StartsHere(w.graph, n) && Suffices(Normal, w, obs, n.plan, n.pos, n.refs, true)
    ensures Settled(w.graph, obs, n)
  {
    forall h: Graph | Alike(w.graph, h, obs) ensures NestedSem(h, n) == NestedSem(w.graph, n) {
      assert w == World(w.graph, true) && Comparable(n.plan, n.pos, w.graph, h, true);
      assert Unchanged(Normal, Sem(w, n.plan, n.pos, n.refs), Sem(World(h, w.cached), n.plan, n.pos, n.refs));
    }
  }
}
