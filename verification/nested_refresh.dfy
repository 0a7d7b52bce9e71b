/** Refreshing cached nested subgraphs by height after the graph has changed. */
module NestedRefresh {
  import opened Base
  import opened Semantics
  import opened Dependencies
  import opened Matching
  import opened NestedCache
  import opened AbsentStarts

  ghost predicate AllUpToDate(c: Cache, g: Graph) {
    Scoped(c, g) && forall n :: n in c.subgraphs ==> UpToDate(c, g, n)
  }

  function Widened(s: Scope, g: Graph): Scope { Scope(s.edgeFirst, s.known + g.vertices) }

  // When more vertices are known, the cache is as right as before.
  lemma ScopeWidens(c: Cache, g: Graph, h: Graph)
    requires Wired(c) && AllUpToDate(c, g)
    ensures var d := c.(scope := Widened(c.scope, h));
      Wired(d) && AllUpToDate(d, g) && h.vertices <= d.scope.known && (NoneReturns(c, g, h) ==> NoneReturns(d, g, h)) &&
      (forall n, o :: DependsOn(d, n, o) <==> DependsOn(c, n, o)) &&
      (forall e, changed :: Reported(d, e, h, changed) ==> Reported(c, e, h, changed)) &&
      forall used :: Marked(d, used) <==> Marked(c, used)
  {
    var d := c.(scope := Widened(c.scope, h));
    forall n, o ensures Subscribed(d, n, o) <==> DependsOn(d, n, o) {
      assert Subscribed(c, n, o) <==> DependsOn(c, n, o);
    }
    forall n, m | DependsOn(d, n, NestedSubgraph(m)) ensures CachedDeeper(d, n, m) {
      assert DependsOn(c, n, NestedSubgraph(m));
      assert CachedDeeper(c, n, m);
    }
    forall n | n in d.subgraphs ensures UpToDate(d, g, n) { assert UpToDate(c, g, n); }
  }

  // No vertex is added that an entry started from while it was missing.
  ghost predicate NoneReturns(c: Cache, g: Graph, h: Graph) {
    forall n :: n in c.subgraphs && StartsHere(h, n) ==> StartsHere(g, n)
  }

  ghost predicate CachedAs(c: Cache, g: Graph, m: NestedStart) { m in c.subgraphs && c.subgraphs[m] == NestedSem(g, m) }

  // What the entry depends on is the same as in the graph it was matched in.
  ghost predicate DepIntact(c: Cache, g: Graph, h: Graph, o: Observable) {
    if o.NestedSubgraph? then CachedAs(c, g, o.start) else Same(g, h, o)
  }

  ghost predicate DepsIntact(c: Cache, g: Graph, h: Graph, n: NestedStart) {
    n in c.deps && forall o :: o in c.deps[n] ==> DepIntact(c, g, h, o)
  }

  ghost predicate Intact(c: Cache, g: Graph, h: Graph, n: NestedStart) {
    UpToDate(c, g, n) && DepsIntact(c, g, h, n) && (StartsHere(h, n) ==> StartsHere(g, n))
  }

  // The graph changed from g to h. Below the height, entries are up to date; the others are intact unless pending.
  ghost predicate Refreshing(c: Cache, g: Graph, h: Graph, low: nat, pending: set<NestedStart>) {
    Wired(c) && Scoped(c, h) && UpToDateBelow(c, h, low) &&
    forall n :: n in c.subgraphs ==> Refreshed(c, g, h, low, pending, n)
  }

  ghost predicate Refreshed(c: Cache, g: Graph, h: Graph, low: nat, pending: set<NestedStart>, n: NestedStart) {
    HeightOf(n) < low || n in pending || UpToDate(c, h, n) || Intact(c, g, h, n)
  }

  // Everything that depends on an observable that has changed is pending.
  ghost predicate AllScheduled(c: Cache, g: Graph, h: Graph, pending: set<NestedStart>) {
    forall n, o :: DependsOn(c, n, o) && !o.NestedSubgraph? && !Same(g, h, o) ==> n in pending
  }

  lemma RefreshBegins(c: Cache, g: Graph, h: Graph, pending: set<NestedStart>)
    requires Wired(c) && AllUpToDate(c, g) && AllScheduled(c, g, h, pending)
    requires NoneReturns(c, g, h) && h.vertices <= c.scope.known
    ensures Refreshing(c, g, h, 0, pending)
  {
    forall n | n in c.subgraphs ensures Refreshed(c, g, h, 0, pending, n) {
      assert UpToDate(c, g, n);
      if n !in pending {
        forall o | o in c.deps[n] ensures DepIntact(c, g, h, o) {
          assert DependsOn(c, n, o);
          if o.NestedSubgraph? {
            assert DependsOn(c, n, NestedSubgraph(o.start));
            assert CachedDeeper(c, n, o.start);
            assert UpToDate(c, g, o.start);
          }
        }
      }
    }
  }

  // An intact entry whose nested expressions are up to date is up to date.
  lemma IntactIsUpToDate(c: Cache, g: Graph, h: Graph, n: NestedStart)
    requires Wired(c) && Intact(c, g, h, n) && WellFormed(h) && UpToDateBelow(c, h, HeightOf(n))
    ensures UpToDate(c, h, n)
  {
    var deps := c.deps[n];
    forall o | o in deps ensures Same(g, h, o) {
      assert DepIntact(c, g, h, o);
      if o.NestedSubgraph? {
        assert DependsOn(c, n, NestedSubgraph(o.start));
        assert CachedDeeper(c, n, o.start);
        assert UpToDate(c, h, o.start);
      }
    }
    assert Alike(g, h, deps);
    if StartsHere(g, n) {
      forall k: Graph | Alike(h, k, deps) ensures NestedSem(k, n) == NestedSem(h, n) {
        AgreesTransitive(g, h, k, deps);
        assert Alike(g, k, deps);
      }
    } else {
      MatchesFromAbsent(World(g, true), h, n.plan, n.pos, n.refs);
    }
  }

  // No entries of the height are pending, so the next height can be refreshed.
  lemma {:induction false} Raise(c: Cache, g: Graph, h: Graph, low: nat, steps: nat, pending: set<NestedStart>)
    requires Refreshing(c, g, h, low, pending) && WellFormed(h)
    requires forall n :: n in pending ==> HeightOf(n) >= low + steps
    ensures Refreshing(c, g, h, low + steps, pending)
    decreases steps
  {
    if steps > 0 {
      forall n | n in c.subgraphs && HeightOf(n) < low + 1 ensures UpToDate(c, h, n) {
        assert Refreshed(c, g, h, low, pending, n);
        if HeightOf(n) == low && !UpToDate(c, h, n) { IntactIsUpToDate(c, g, h, n); }
      }
      forall n | n in c.subgraphs ensures Refreshed(c, g, h, low + 1, pending, n) {
        assert Refreshed(c, g, h, low, pending, n);
      }
      Raise(c, g, h, low + 1, steps - 1, pending);
    }
  }

  lemma RefreshEnds(c: Cache, g: Graph, h: Graph, low: nat)
    requires Refreshing(c, g, h, low, {}) && WellFormed(h)
    ensures AllUpToDate(c, h)
  {
    forall n | n in c.subgraphs ensures UpToDate(c, h, n) {
      var steps := if HeightOf(n) < low then 0 else HeightOf(n) + 1 - low;
      Raise(c, g, h, low, steps, {});
    }
  }

  // --------------------------------------------------------------------------
  // Rematching an entry
  // --------------------------------------------------------------------------

  // The entry, with other subgraphs and dependencies; some observables may be unused now.
  ghost predicate EntryReplaced(c: Cache, d: Cache, n: NestedStart, s: set<Body>, obs: set<Observable>) {
    d.subgraphs == c.subgraphs[n := s] && d.deps == c.deps[n := obs] && RelatesInstead(c, d, n, obs)
  }

  ghost predicate RelatesInstead(c: Cache, d: Cache, n: NestedStart, obs: set<Observable>) {
    (forall k, o :: Relates(d.depToStarts, k, o) <==> if k == n then o in obs else Relates(c.depToStarts, k, o)) &&
    (forall o :: o in d.depToStarts ==> d.depToStarts[o] != {}) &&
    c.maybeUnused <= d.maybeUnused && (forall o :: o in d.maybeUnused ==> o.NestedSubgraph?) && c.scope == d.scope &&
    (forall o :: o in c.depToStarts && o !in d.depToStarts && o.NestedSubgraph? ==> o in d.maybeUnused)
  }

  lemma EntryReplacedWired(c: Cache, d: Cache, n: NestedStart, s: set<Body>, obs: set<Observable>)
    requires Wired(c) && n in c.subgraphs && EntryReplaced(c, d, n, s, obs) && AreCached(c, obs, HeightOf(n))
    ensures Wired(d) && forall g :: Scoped(c, g) ==> Scoped(d, g)
  {
    assert c.deps.Keys == c.subgraphs.Keys;
    forall k, o ensures Subscribed(d, k, o) <==> DependsOn(d, k, o) {
      assert Relates(d.depToStarts, k, o) <==> if k == n then o in obs else Relates(c.depToStarts, k, o);
      assert Subscribed(c, k, o) <==> DependsOn(c, k, o);
    }
    forall k, q | DependsOn(d, k, NestedSubgraph(q)) ensures CachedDeeper(d, k, q) {
      if k != n {
        assert DependsOn(c, k, NestedSubgraph(q));
        assert CachedDeeper(c, k, q);
      }
    }
  }

  // Other entries are added while one is rematched.
  lemma GrownRefreshing(c: Cache, d: Cache, g: Graph, h: Graph, low: nat, pending: set<NestedStart>)
    requires Refreshing(c, g, h, low, pending) && Ready(d, h, Limit(low, d.scope)) && Grown(c, d, low)
    ensures Refreshing(d, g, h, low, pending)
  {
    RefreshingIs(c, g, h, low, pending);
    assert c.deps.Keys == c.subgraphs.Keys;
    assert forall k :: k in d.subgraphs && HeightOf(k) < low ==> UpToDate(d, h, k);
    assert forall k :: k in d.subgraphs && k !in c.subgraphs ==> HeightOf(k) < low;
    hide *;
    forall k | k in d.subgraphs ensures Refreshed(d, g, h, low, pending, k) {
      if k in c.subgraphs { GrownRefreshed(c, d, g, h, low, pending, k); }
      else { BelowIsRefreshed(d, g, h, low, pending, k); }
    }
    RefreshingIs(d, g, h, low, pending);
  }

  lemma BelowIsRefreshed(c: Cache, g: Graph, h: Graph, low: nat, pending: set<NestedStart>, k: NestedStart)
    requires HeightOf(k) < low
    ensures Refreshed(c, g, h, low, pending, k)
  {}

  lemma GrownRefreshed(c: Cache, d: Cache, g: Graph, h: Graph, low: nat, pending: set<NestedStart>, k: NestedStart)
    requires Refreshed(c, g, h, low, pending, k) && Grown(c, d, low) && k in c.subgraphs &&
        c.deps.Keys == c.subgraphs.Keys
    ensures Refreshed(d, g, h, low, pending, k)
  {
    if Intact(c, g, h, k) {
      forall o | o in d.deps[k] ensures DepIntact(d, g, h, o) {
        assert DepIntact(c, g, h, o);
      }
    }
  }

  // The entry was rematched; everything that depends on its subgraphs is pending if they changed.
  lemma RefreshedOne(c: Cache, d: Cache, g: Graph, h: Graph, n: NestedStart, s: set<Body>, obs: set<Observable>,
                     pending: set<NestedStart>, next: set<NestedStart>)
    requires n in c.subgraphs && Refreshing(c, g, h, HeightOf(n), pending) && EntryReplaced(c, d, n, s, obs)
    requires AreCached(c, obs, HeightOf(n)) && s == NestedSem(h, n) && (StartsHere(h, n) ==> Settled(h, obs, n))
    requires pending - {n} <= next
    requires s != c.subgraphs[n] ==> forall k :: DependsOn(c, k, NestedSubgraph(n)) ==> k in next || k == n
    ensures Refreshing(d, g, h, HeightOf(n), next)
  {
    RefreshingIs(c, g, h, HeightOf(n), pending);
    EntryReplacedWired(c, d, n, s, obs);
    SameEntries(c, d, h, n, s, obs);
    hide *;
    forall k | k in d.subgraphs && HeightOf(k) < HeightOf(n) ensures UpToDate(d, h, k) {
      OthersUpToDate(c, d, h, n, s, obs, k);
    }
    forall k | k in d.subgraphs ensures Refreshed(d, g, h, HeightOf(n), next, k) {
      if k == n { RefreshedNow(d, g, h, next, n); }
      else { RefreshedOther(c, d, g, h, n, s, obs, pending, next, k); }
    }
    RefreshingIs(d, g, h, HeightOf(n), next);
  }

  lemma RefreshedNow(d: Cache, g: Graph, h: Graph, next: set<NestedStart>, n: NestedStart)
    requires UpToDate(d, h, n)
    ensures Refreshed(d, g, h, HeightOf(n), next, n)
  {}

  lemma RefreshingIs(c: Cache, g: Graph, h: Graph, low: nat, pending: set<NestedStart>)
    ensures Refreshing(c, g, h, low, pending) <==>
      Wired(c) && Scoped(c, h) && (forall k :: k in c.subgraphs && HeightOf(k) < low ==> UpToDate(c, h, k)) &&
      forall k :: k in c.subgraphs ==> Refreshed(c, g, h, low, pending, k)
  {}

  lemma RefreshedOther(c: Cache, d: Cache, g: Graph, h: Graph, n: NestedStart, s: set<Body>, obs: set<Observable>,
                       pending: set<NestedStart>, next: set<NestedStart>, k: NestedStart)
    requires n in c.subgraphs && EntryReplaced(c, d, n, s, obs) && k != n
    requires Refreshed(c, g, h, HeightOf(n), pending, k) && pending - {n} <= next
    requires s != c.subgraphs[n] ==> !DependsOn(c, k, NestedSubgraph(n)) || k in next
    ensures Refreshed(d, g, h, HeightOf(n), next, k)
  {
    hide UpToDate, EntryReplaced, Intact, HeightOf, DependsOn;
    if k !in next {
      if UpToDate(c, h, k) { OthersUpToDate(c, d, h, n, s, obs, k); }
      if Intact(c, g, h, k) { StaysIntact(c, d, g, h, n, s, obs, k); }
    }
  }

  lemma SameEntries(c: Cache, d: Cache, h: Graph, n: NestedStart, s: set<Body>, obs: set<Observable>)
    requires n in c.subgraphs && EntryReplaced(c, d, n, s, obs) && s == NestedSem(h, n)
    requires StartsHere(h, n) ==> Settled(h, obs, n)
    ensures d.subgraphs.Keys == c.subgraphs.Keys && UpToDate(d, h, n)
  {}

  lemma OthersUpToDate(c: Cache, d: Cache, h: Graph, n: NestedStart, s: set<Body>, obs: set<Observable>, k: NestedStart)
    requires EntryReplaced(c, d, n, s, obs) && k != n && UpToDate(c, h, k)
    ensures UpToDate(d, h, k)
  {}

  lemma StaysIntact(c: Cache, d: Cache, g: Graph, h: Graph, n: NestedStart, s: set<Body>, obs: set<Observable>,
      k: NestedStart)
    requires n in c.subgraphs && EntryReplaced(c, d, n, s, obs) && Intact(c, g, h, k) && k != n
    requires s != c.subgraphs[n] ==> !DependsOn(c, k, NestedSubgraph(n))
    ensures Intact(d, g, h, k)
  {
    forall o | o in d.deps[k] ensures DepIntact(d, g, h, o) {
      assert DepIntact(c, g, h, o) && DependsOn(c, k, o);
    }
  }

  // --------------------------------------------------------------------------
  // What is reported
  // --------------------------------------------------------------------------

  // Exactly the entries whose subgraphs differ, among those cached before.
  ghost predicate Reported(c: Cache, d: Cache, h: Graph, changed: set<Observable>) {
    c.subgraphs.Keys <= d.subgraphs.Keys &&
    (forall o :: o in changed ==> o.NestedSubgraph? && CachedAs(d, h, o.start)) &&
    forall n :: n in c.subgraphs && n in d.subgraphs ==>
        (NestedSubgraph(n) in changed <==> d.subgraphs[n] != c.subgraphs[n])
  }

  lemma GrownReported(c: Cache, d: Cache, e: Cache, h: Graph, limit: nat, changed: set<Observable>)
    requires Linked(d) && Reported(c, d, h, changed) && Grown(d, e, limit)
    ensures Reported(c, e, h, changed)
  {
    assert d.deps.Keys == d.subgraphs.Keys;
  }

  lemma ReplacedReported(c: Cache, d: Cache, e: Cache, h: Graph, n: NestedStart, s: set<Body>, obs: set<Observable>,
      changed: set<Observable>)
    requires Reported(c, d, h, changed) && n in d.subgraphs && EntryReplaced(d, e, n, s, obs) && s == NestedSem(h, n)
    ensures Reported(c, e, h, if s != d.subgraphs[n] then changed + {NestedSubgraph(n)} else changed)
  {}

  // --------------------------------------------------------------------------
  // Work to do
  // --------------------------------------------------------------------------

  ghost function PendingIn(byHeight: map<nat, seq<NestedStart>>): set<NestedStart> {
    set h, n | h in byHeight && n in byHeight[h] :: n
  }

  ghost predicate Leveled(byHeight: map<nat, seq<NestedStart>>) {
    forall h :: h in byHeight ==> byHeight[h] != [] && forall n :: n in byHeight[h] ==> HeightOf(n) == h
  }

  function Dependents(depToStarts: map<Observable, set<NestedStart>>, o: Observable): set<NestedStart> {
    if o in depToStarts then depToStarts[o] else {}
  }

  function WithPending(byHeight: map<nat, seq<NestedStart>>, n: NestedStart): map<nat, seq<NestedStart>> {
    byHeight[HeightOf(n) := (if HeightOf(n) in byHeight then byHeight[HeightOf(n)] else []) + [n]]
  }

  lemma WithPendingHas(byHeight: map<nat, seq<NestedStart>>, n: NestedStart)
    requires Leveled(byHeight)
    ensures Leveled(WithPending(byHeight, n)) && PendingIn(WithPending(byHeight, n)) == PendingIn(byHeight) + {n}
  {
    var next := WithPending(byHeight, n);
    assert n in next[HeightOf(n)];
    forall k | k in PendingIn(byHeight) ensures k in PendingIn(next) {
      var h :| h in byHeight && k in byHeight[h];
      assert k in next[h];
    }
    forall k | k in PendingIn(next) ensures k in PendingIn(byHeight) + {n} {
      var h :| h in next && k in next[h];
      if k != n { assert h in byHeight && k in byHeight[h]; }
    }
  }

  lemma WithoutHeight(byHeight: map<nat, seq<NestedStart>>, h: nat)
    requires Leveled(byHeight) && h in byHeight
    ensures Leveled(byHeight - {h}) && PendingIn(byHeight) == PendingIn(byHeight - {h}) + Elems(byHeight[h])
    ensures forall n :: n in PendingIn(byHeight - {h}) ==> HeightOf(n) != h
  {
    forall k | k in PendingIn(byHeight) ensures k in PendingIn(byHeight - {h}) + Elems(byHeight[h]) {
      var i :| i in byHeight && k in byHeight[i];
      if i != h { assert i in byHeight - {h} && k in (byHeight - {h})[i]; } else { assert k in Elems(byHeight[h]); }
    }
  }

  predicate IsLowest(h: nat, byHeight: map<nat, seq<NestedStart>>) {
    h in byHeight && forall k :: k in byHeight ==> h <= k
  }

  lemma {:induction false} LowestHeight(byHeight: map<nat, seq<NestedStart>>)
    requires byHeight.Keys != {}
    ensures exists h :: IsLowest(h, byHeight)
    decreases |byHeight|
  {
    var h :| h in byHeight;
    var rest := byHeight - {h};
    if rest.Keys == {} {
      assert byHeight.Keys == {h};
      assert IsLowest(h, byHeight);
    } else {
      LowestHeight(rest);
      var l :| IsLowest(l, rest);
      var m := if l < h then l else h;
      assert forall k :: k in byHeight ==> k == h || k in rest;
      assert IsLowest(m, byHeight);
    }
  }

  // No entry is below the height.
  ghost predicate AllFrom(byHeight: map<nat, seq<NestedStart>>, low: nat) {
    forall n :: n in PendingIn(byHeight) ==> low <= HeightOf(n)
  }

  lemma LowestPending(byHeight: map<nat, seq<NestedStart>>, low: nat, h: nat)
    requires Leveled(byHeight) && AllFrom(byHeight, low) && IsLowest(h, byHeight)
    ensures Leveled(byHeight - {h}) && PendingIn(byHeight) == PendingIn(byHeight - {h}) + Elems(byHeight[h])
    ensures low <= h && AllFrom(byHeight, h) && AllFrom(byHeight - {h}, h + 1)
    ensures forall n :: n in byHeight[h] ==> HeightOf(n) == h
  {
    WithoutHeight(byHeight, h);
    assert byHeight[h][0] in byHeight[h];
    assert byHeight[h][0] in PendingIn(byHeight);
    forall n | n in PendingIn(byHeight) ensures h <= HeightOf(n) {
      var k :| k in byHeight && n in byHeight[k];
    }
  }

  // A height that no entry is above.
  ghost function Top(keys: set<NestedStart>): (t: nat)
    ensures forall n :: n in keys ==> HeightOf(n) <= t
  {
    if keys == {} then 0
    else
      var n :| n in keys;
      var t := Top(keys - {n});
      if HeightOf(n) > t then HeightOf(n) else t
  }

  // Nothing refers to some entries; they are all marked.
  ghost predicate Marked(c: Cache, used: set<Observable>) {
    forall n :: n in c.subgraphs ==>
        NestedSubgraph(n) in c.depToStarts || NestedSubgraph(n) in used || NestedSubgraph(n) in c.maybeUnused
  }

  lemma GrownMarked(c: Cache, d: Cache, limit: nat, used: set<Observable>)
    requires Linked(c) && Linked(d) && Grown(c, d, limit) && Marked(c, used)
    ensures Marked(d, used)
  {
    forall n | n in d.subgraphs
      ensures NestedSubgraph(n) in d.depToStarts || NestedSubgraph(n) in used || NestedSubgraph(n) in d.maybeUnused
    {
      var o := NestedSubgraph(n);
      if n in c.subgraphs && o in c.depToStarts {
        var k :| k in c.depToStarts[o];
        assert Subscribed(c, k, o);
        assert DependsOn(c, k, o);
        assert c.deps.Keys == c.subgraphs.Keys;
        assert DependsOn(d, k, o);
        assert Subscribed(d, k, o);
      }
    }
  }

  lemma ReplacedMarked(c: Cache, d: Cache, n: NestedStart, s: set<Body>, obs: set<Observable>, used: set<Observable>)
    requires n in c.subgraphs && EntryReplaced(c, d, n, s, obs) && Marked(c, used)
    ensures Marked(d, used)
  {}

  // --------------------------------------------------------------------------
  // Replacing dependencies of an entry
  // --------------------------------------------------------------------------

  // Some of the old dependencies are left, and some of the new ones are added.
  ghost predicate Replacing(c: Cache, d: Cache, n: NestedStart, left: seq<Observable>, added: seq<Observable>) {
    (forall k, o :: Relates(d.depToStarts, k, o) <==>
        if k == n then o in left || o in added else Relates(c.depToStarts, k, o)) &&
    (forall o :: o in d.depToStarts ==> d.depToStarts[o] != {}) &&
    c.maybeUnused <= d.maybeUnused && (forall o :: o in d.maybeUnused ==> o.NestedSubgraph?) && c.scope == d.scope &&
    (forall o :: o in c.depToStarts && o !in d.depToStarts && o.NestedSubgraph? ==> o in d.maybeUnused)
  }

  lemma DepsRelate(c: Cache, n: NestedStart, before: seq<Observable>, after: seq<Observable>)
    requires Wired(c) && n in c.deps && Elems(before) == c.deps[n]
    ensures Replacing(c, c, n, before[0..], after[..0])
  {
    assert before[0..] == before && after[..0] == [];
    forall k, o ensures Relates(c.depToStarts, k, o) <==> if k == n then o in before else Relates(c.depToStarts, k, o) {
      assert Subscribed(c, k, o) <==> DependsOn(c, k, o);
      assert o in before <==> o in Elems(before);
    }
  }

  lemma UnsubscribedRelates(m: map<Observable, set<NestedStart>>, n: NestedStart, x: Observable)
    ensures forall k, o :: Relates(UnsubscribedFrom(m, n, x), k, o) <==> Relates(m, k, o) && !(k == n && o == x)
  {
    var next := UnsubscribedFrom(m, n, x);
    forall k, o ensures Relates(next, k, o) <==> Relates(m, k, o) && !(k == n && o == x) {
      if x in m && o == x {
        assert k in m[x] && k != n <==> k in m[x] - {n};
      }
    }
  }

  lemma UnsubscribedReplacing(c: Cache, d: Cache, e: Cache, n: NestedStart, before: seq<Observable>, i: nat,
      after: seq<Observable>, j: nat)
    requires i < |before| && j <= |after| && Replacing(c, d, n, before[i..], after[..j])
    requires before[i] !in before[i + 1..] && before[i] !in after
    requires e.depToStarts == UnsubscribedFrom(d.depToStarts, n, before[i]) && e.scope == d.scope
    requires e.maybeUnused == d.maybeUnused +
      if before[i] in d.depToStarts && before[i] !in e.depToStarts && before[i].NestedSubgraph? then {before[i]} else {}
    ensures Replacing(c, e, n, before[i + 1..], after[..j])
  {
    var x := before[i];
    assert before[i..] == [x] + before[i + 1..];
    UnsubscribedRelates(d.depToStarts, n, x);
  }

  lemma SubscribedReplacing(c: Cache, d: Cache, e: Cache, n: NestedStart, before: seq<Observable>, i: nat,
      after: seq<Observable>, j: nat)
    requires i <= |before| && j < |after| && Replacing(c, d, n, before[i..], after[..j])
    requires e == d.(depToStarts := SubscribedTo(d.depToStarts, n, after[j]))
    ensures Replacing(c, e, n, before[i..], after[..j + 1])
  {
    assert after[..j + 1] == after[..j] + [after[j]];
    forall k, o ensures Relates(e.depToStarts, k, o) <==> Relates(d.depToStarts, k, o) || (k == n && o == after[j]) {}
  }

  lemma KeptReplacing(c: Cache, d: Cache, n: NestedStart, before: seq<Observable>, i: nat, after: seq<Observable>,
      j: nat)
    requires i < |before| && j < |after| && before[i] == after[j] && Replacing(c, d, n, before[i..], after[..j])
    ensures Replacing(c, d, n, before[i + 1..], after[..j + 1])
  {
    assert before[i..] == [before[i]] + before[i + 1..] && after[..j + 1] == after[..j] + [after[j]];
  }

  lemma ReplacedDeps(c: Cache, d: Cache, n: NestedStart, after: seq<Observable>, obs: set<Observable>)
    requires Replacing(c, d, n, [], after) && Elems(after) == obs
    ensures RelatesInstead(c, d, n, obs)
  {
    forall k, o ensures Relates(d.depToStarts, k, o) <==> if k == n then o in obs else Relates(c.depToStarts, k, o) {
      assert o in after <==> o in Elems(after);
    }
  }

  // --------------------------------------------------------------------------
  // A refresh
  // --------------------------------------------------------------------------

  // The cache before, the graphs before and now, and a height that no entry is above.
  datatype Refresh = Refresh(first: Cache, before: Graph, now: Graph, top: nat)

  ghost predicate StaysMarked(c: Cache, d: Cache) {
    forall used: set<Observable> :: Marked(c, used) ==> Marked(d, used)
  }

  // Entries below the height are up to date; all that have to be rematched are queued, or are among the rest.
  ghost predicate InRefresh(r: Refresh, c: Cache, low: nat, queued: set<NestedStart>, rest: set<NestedStart>,
                            scheduled: set<NestedStart>, changed: set<Observable>) {
    WellFormed(r.now) && Refreshing(c, r.before, r.now, low, queued + rest) && Reported(r.first, c, r.now, changed) &&
    StaysMarked(r.first, c) && Bounded(c, r.top) && queued <= c.subgraphs.Keys && c.scope == r.first.scope &&
    forall n :: n in scheduled ==> n in queued || HeightOf(n) <= low
  }

  ghost predicate Bounded(c: Cache, top: nat) { forall n :: n in c.subgraphs ==> HeightOf(n) <= top }

  lemma StartRefresh(r: Refresh, scheduled: set<NestedStart>)
    requires Wired(r.first) && AllUpToDate(r.first, r.before) && AllScheduled(r.first, r.before, r.now, scheduled)
    requires scheduled <= r.first.subgraphs.Keys && WellFormed(r.now) && Bounded(r.first, r.top)
    requires NoneReturns(r.first, r.before, r.now) && r.now.vertices <= r.first.scope.known
    ensures InRefresh(r, r.first, 0, scheduled, {}, scheduled, {})
  {
    RefreshBegins(r.first, r.before, r.now, scheduled);
    assert scheduled + {} == scheduled;
  }

  lemma ScheduledAll(c: Cache, g: Graph, h: Graph, observed: seq<Observable>, scheduled: set<NestedStart>)
    requires Wired(c)
    requires forall n :: n in scheduled <==> exists o :: o in observed && n in Dependents(c.depToStarts, o)
    requires forall n, o :: DependsOn(c, n, o) && !o.NestedSubgraph? && !Same(g, h, o) ==> o in observed
    ensures AllScheduled(c, g, h, scheduled) && scheduled <= c.subgraphs.Keys
  {
    forall n, o | DependsOn(c, n, o) && !o.NestedSubgraph? && !Same(g, h, o) ensures n in scheduled {
      assert Subscribed(c, n, o);
      assert n in Dependents(c.depToStarts, o);
    }
    forall n | n in scheduled ensures n in c.subgraphs.Keys {
      var o :| o in observed && n in Dependents(c.depToStarts, o);
      assert Subscribed(c, n, o);
      assert DependsOn(c, n, o);
    }
  }

  lemma NotCached(r: Refresh, c: Cache, n: NestedStart, queued: set<NestedStart>, rest: set<NestedStart>,
                  scheduled: set<NestedStart>, changed: set<Observable>)
    requires InRefresh(r, c, HeightOf(n), queued, rest + {n}, scheduled, changed) && n !in c.subgraphs
    ensures InRefresh(r, c, HeightOf(n), queued, rest, scheduled, changed)
  {
    RefreshingWithout(c, r.before, r.now, HeightOf(n), queued + (rest + {n}), queued + rest, n);
  }

  lemma RefreshingWithout(c: Cache, g: Graph, h: Graph, low: nat, pending: set<NestedStart>, next: set<NestedStart>,
      n: NestedStart)
    requires Refreshing(c, g, h, low, pending) && n !in c.subgraphs && pending - {n} <= next
    ensures Refreshing(c, g, h, low, next)
  {
    RefreshingIs(c, g, h, low, pending);
    hide Refreshing, Wired, UpToDate, Intact;
    forall k | k in c.subgraphs ensures Refreshed(c, g, h, low, next, k) {
      assert Refreshed(c, g, h, low, pending, k);
    }
    RefreshingIs(c, g, h, low, next);
  }

  lemma GrownInRefresh(r: Refresh, c: Cache, d: Cache, low: nat, queued: set<NestedStart>, rest: set<NestedStart>,
                       scheduled: set<NestedStart>, changed: set<Observable>)
    requires InRefresh(r, c, low, queued, rest, scheduled, changed) && low <= r.top
    requires Ready(d, r.now, Limit(low, d.scope)) && Grown(c, d, low)
    ensures InRefresh(r, d, low, queued, rest, scheduled, changed)
  {
    GrownRefreshing(c, d, r.before, r.now, low, queued + rest);
    GrownReported(r.first, c, d, r.now, low, changed);
    forall used: set<Observable> | Marked(r.first, used) ensures Marked(d, used) {
      GrownMarked(c, d, low, used);
    }
  }

  lemma ReplacedInRefresh(r: Refresh, c: Cache, d: Cache, n: NestedStart, s: set<Body>, obs: set<Observable>,
                          queued: set<NestedStart>, next: set<NestedStart>, rest: set<NestedStart>,
                          scheduled: set<NestedStart>, all: set<NestedStart>, changed: set<Observable>)
    requires InRefresh(r, c, HeightOf(n), queued, rest + {n}, scheduled, changed) && n in c.subgraphs
    requires EntryReplaced(c, d, n, s, obs) && AreCached(c, obs, HeightOf(n)) && s == NestedSem(r.now, n)
    requires StartsHere(r.now, n) ==> Settled(r.now, obs, n)
    requires var ds := if s == c.subgraphs[n] then {} else Dependents(d.depToStarts, NestedSubgraph(n));
      next == queued + (ds - scheduled) && all == scheduled + ds
    ensures InRefresh(r, d, HeightOf(n), next, rest, all,
        if s == c.subgraphs[n] then changed else changed + {NestedSubgraph(n)})
    ensures forall k :: k in next ==> k in queued || HeightOf(k) > HeightOf(n)
  {
    DependentsAreHigher(c, d, n, s, obs);
    forall k | DependsOn(c, k, NestedSubgraph(n)) && s != c.subgraphs[n] ensures k in next || k == n {
      assert Subscribed(c, k, NestedSubgraph(n));
      assert Relates(c.depToStarts, k, NestedSubgraph(n));
      if k != n { assert Relates(d.depToStarts, k, NestedSubgraph(n)); }
    }
    RefreshedOne(c, d, r.before, r.now, n, s, obs, queued + (rest + {n}), next + rest);
    ReplacedReported(r.first, c, d, r.now, n, s, obs, changed);
    forall used: set<Observable> | Marked(r.first, used) ensures Marked(d, used) {
      ReplacedMarked(c, d, n, s, obs, used);
    }
  }

  lemma DependentsAreHigher(c: Cache, d: Cache, n: NestedStart, s: set<Body>, obs: set<Observable>)
    requires Wired(c) && n in c.subgraphs && EntryReplaced(c, d, n, s, obs) && AreCached(c, obs, HeightOf(n))
    ensures forall k :: k in Dependents(d.depToStarts, NestedSubgraph(n)) ==>
        k in d.subgraphs && HeightOf(k) > HeightOf(n)
  {
    EntryReplacedWired(c, d, n, s, obs);
    forall k | k in Dependents(d.depToStarts, NestedSubgraph(n)) ensures k in d.subgraphs && HeightOf(k) > HeightOf(n) {
      assert Subscribed(d, k, NestedSubgraph(n));
      assert DependsOn(d, k, NestedSubgraph(n));
      assert CachedDeeper(d, k, n);
    }
  }

  lemma RaiseRefresh(r: Refresh, c: Cache, low: nat, to: nat, queued: set<NestedStart>, part: set<NestedStart>,
      rest: set<NestedStart>,
                     scheduled: set<NestedStart>, changed: set<Observable>)
    requires InRefresh(r, c, low, queued, {}, scheduled, changed) && low <= to && queued == part + rest
    requires forall n :: n in queued ==> HeightOf(n) >= to
    requires forall n :: n in rest ==> HeightOf(n) == to
    ensures InRefresh(r, c, to, part, rest, scheduled, changed)
  {
    assert queued + {} == queued;
    Raise(c, r.before, r.now, low, to - low, queued);
  }

  lemma EndRefresh(r: Refresh, c: Cache, low: nat, scheduled: set<NestedStart>, changed: set<Observable>)
    requires InRefresh(r, c, low, {}, {}, scheduled, changed)
    ensures Wired(c) && AllUpToDate(c, r.now) && Reported(r.first, c, r.now, changed) && StaysMarked(r.first, c)
    ensures c.scope == r.first.scope
  {
    var none: set<NestedStart> := {};
    assert none + none == none;
    RefreshEnds(c, r.before, r.now, low);
  }

  lemma PendingBounded(r: Refresh, c: Cache, low: nat, h: nat, byHeight: map<nat, seq<NestedStart>>,
                       scheduled: set<NestedStart>, changed: set<Observable>)
    requires InRefresh(r, c, low, PendingIn(byHeight), {}, scheduled, changed) && Leveled(byHeight) && h in byHeight
    ensures h <= r.top
  {
    var n := byHeight[h][0];
    assert n in byHeight[h];
    assert n in PendingIn(byHeight);
  }

  lemma DepsLeft(c: Cache, n: NestedStart, list: seq<Observable>)
    requires Wired(c) && n in c.deps && Elems(list) == c.deps[n]
    ensures forall d: Cache ::
      d.depToStarts == c.depToStarts && d.maybeUnused == c.maybeUnused && d.scope == c.scope ==>
        Replacing(c, d, n, list[0..], [])
  {
    var none: seq<Observable> := [];
    assert none[..0] == none;
    DepsRelate(c, n, list, none);
  }

  lemma NothingPending(byHeight: map<nat, seq<NestedStart>>)
    requires byHeight.Keys == {}
    ensures PendingIn(byHeight) == {}
  {}

  lemma AlreadyQueued(queued: set<NestedStart>, scheduled: set<NestedStart>)
    ensures queued == queued + ({} - scheduled) && scheduled == scheduled + {}
  {}

  lemma ReplacedIs(c: Cache, d: Cache, n: NestedStart, s: set<Body>, obs: set<Observable>)
    requires d.subgraphs == c.subgraphs[n := s] && d.deps == c.deps[n := obs] && RelatesInstead(c, d, n, obs)
    ensures EntryReplaced(c, d, n, s, obs)
  {}

  lemma CanRematch(r: Refresh, c: Cache, n: NestedStart, queued: set<NestedStart>, rest: set<NestedStart>,
                   scheduled: set<NestedStart>, changed: set<Observable>)
    requires InRefresh(r, c, HeightOf(n), queued, rest, scheduled, changed) && n in c.subgraphs
    ensures EntryOk(n) && Fits(Limit(HeightOf(n) + 1, c.scope), Nested(n), n.pos) && n in c.deps
    ensures Ready(c, r.now, Limit(HeightOf(n), c.scope))
  {
    assert c.deps.Keys == c.subgraphs.Keys;
  }

  lemma StillCached(r: Refresh, c: Cache, d: Cache, n: NestedStart, queued: set<NestedStart>, rest: set<NestedStart>,
                    scheduled: set<NestedStart>, changed: set<Observable>)
    requires InRefresh(r, d, HeightOf(n), queued, rest, scheduled, changed) && n in c.subgraphs &&
        Grown(c, d, HeightOf(n))
    requires n in c.deps
    ensures n in d.subgraphs && n in d.deps && Wired(d) && d.subgraphs[n] == c.subgraphs[n]
  {
    assert d.deps.Keys == d.subgraphs.Keys;
  }

  lemma NothingBelow(byHeight: map<nat, seq<NestedStart>>)
    ensures AllFrom(byHeight, 0)
  {}
}
