/** Eviction from the cache. */
module NestedEviction {
  import opened Base
  import opened Semantics
  import opened Dependencies
  import opened NestedCache
  import opened NestedRefresh

  ghost predicate Referenced(c: Cache, observed: set<Observable>, n: NestedStart) {
    NestedSubgraph(n) in observed || exists k :: DependsOn(c, k, NestedSubgraph(n))
  }

  // The entry was dropped, and what it depended on may be unused now.
  ghost predicate EntryRemoved(c: Cache, d: Cache, n: NestedStart) {
    d.subgraphs == c.subgraphs - {n} && d.deps == c.deps - {n} && RelatesInstead(c, d, n, {})
  }

  lemma EntryRemovedWired(c: Cache, d: Cache, n: NestedStart)
    requires Wired(c) && NestedSubgraph(n) !in c.depToStarts && EntryRemoved(c, d, n)
    ensures Wired(d)
  {
    forall k, o ensures Subscribed(d, k, o) <==> DependsOn(d, k, o) {
      assert Relates(d.depToStarts, k, o) <==> if k == n then false else Relates(c.depToStarts, k, o);
      assert Subscribed(c, k, o) <==> DependsOn(c, k, o);
    }
    forall k, q | DependsOn(d, k, NestedSubgraph(q)) ensures CachedDeeper(d, k, q) {
      assert DependsOn(c, k, NestedSubgraph(q));
      assert Subscribed(c, k, NestedSubgraph(q));
      assert CachedDeeper(c, k, q);
    }
  }

  // What is left of the cache: some of the entries, with what they depend on, and all that is observed.
  ghost predicate Kept(c: Cache, d: Cache, observed: set<Observable>) {
    Wired(d) && d.scope == c.scope && d.subgraphs.Keys <= c.subgraphs.Keys && d.deps.Keys <= c.deps.Keys &&
    (forall n :: n in d.subgraphs && n in c.subgraphs ==> d.subgraphs[n] == c.subgraphs[n]) &&
    (forall n :: n in d.deps && n in c.deps ==> d.deps[n] == c.deps[n]) &&
    forall n :: n in c.subgraphs && NestedSubgraph(n) in observed ==> n in d.subgraphs
  }

  lemma KeptItself(c: Cache, observed: set<Observable>)
    requires Wired(c)
    ensures Kept(c, c, observed)
  {}

  lemma RemovedKept(c: Cache, d: Cache, e: Cache, n: NestedStart, observed: set<Observable>)
    requires Kept(c, d, observed) && NestedSubgraph(n) !in d.depToStarts && NestedSubgraph(n) !in observed &&
        EntryRemoved(d, e, n)
    ensures Kept(c, e, observed)
  {
    EntryRemovedWired(d, e, n);
  }

  // Entries that nothing refers to are marked, or are among the rest of the candidates.
  lemma RemovedMarked(c: Cache, d: Cache, n: NestedStart, observed: set<Observable>, rest: set<Observable>)
    requires NestedSubgraph(n) !in c.depToStarts && EntryRemoved(c, d, n)
    requires Marked(c, observed + rest + {NestedSubgraph(n)})
    ensures Marked(d, observed + rest)
  {
    forall k | k in d.subgraphs
      ensures NestedSubgraph(k) in d.depToStarts || NestedSubgraph(k) in observed + rest ||
          NestedSubgraph(k) in d.maybeUnused
    {
      assert k in c.subgraphs;
    }
  }

  lemma KeptUpToDate(c: Cache, d: Cache, g: Graph, observed: set<Observable>)
    requires Wired(c) && AllUpToDate(c, g) && Kept(c, d, observed)
    ensures AllUpToDate(d, g)
  {
    assert d.deps.Keys == d.subgraphs.Keys;
    forall n | n in d.subgraphs ensures UpToDate(d, g, n) {
      assert UpToDate(c, g, n);
    }
  }

  // The result of eviction: nothing observed is dropped, and nothing that's left is unreferenced.
  ghost predicate Evicted(c: Cache, d: Cache, observed: set<Observable>) {
    Kept(c, d, observed) && forall n :: n in d.subgraphs ==> Referenced(d, observed, n)
  }

  lemma EvictionIsDone(c: Cache, d: Cache, observed: set<Observable>)
    requires Kept(c, d, observed) && Marked(d, observed) && d.maybeUnused == {}
    ensures Evicted(c, d, observed)
    ensures forall n :: n in d.subgraphs ==> NestedSubgraph(n) in observed || NestedSubgraph(n) in d.depToStarts
  {
    forall n | n in d.subgraphs ensures Referenced(d, observed, n) {
      var o := NestedSubgraph(n);
      if o !in observed {
        var k :| k in d.depToStarts[o];
        assert Subscribed(d, k, o);
        assert DependsOn(d, k, o);
      }
    }
  }

  // There is only one such result: the entries reachable from what is observed.
  lemma {:induction false} EvictionKeeps(c: Cache, d: Cache, e: Cache, observed: set<Observable>, n: NestedStart,
      top: nat)
    requires Evicted(c, d, observed) && Kept(c, e, observed) && n in d.subgraphs
    requires forall k :: k in d.subgraphs ==> HeightOf(k) <= top
    ensures n in e.subgraphs
    decreases top + 1 - HeightOf(n)
  {
    assert Referenced(d, observed, n);
    if NestedSubgraph(n) !in observed {
      var k :| DependsOn(d, k, NestedSubgraph(n));
      assert CachedDeeper(d, k, n);
      assert d.deps.Keys == d.subgraphs.Keys && e.deps.Keys == e.subgraphs.Keys;
      EvictionKeeps(c, d, e, observed, k, top);
      assert DependsOn(e, k, NestedSubgraph(n));
      assert CachedDeeper(e, k, n);
    }
  }

  lemma EvictionIsUnique(c: Cache, d: Cache, e: Cache, observed: set<Observable>)
    requires Evicted(c, d, observed) && Evicted(c, e, observed)
    ensures d.subgraphs == e.subgraphs && d.deps == e.deps
  {
    forall n ensures n in d.subgraphs <==> n in e.subgraphs {
      if n in d.subgraphs { EvictionKeeps(c, d, e, observed, n, Top(d.subgraphs.Keys)); }
      if n in e.subgraphs { EvictionKeeps(c, e, d, observed, n, Top(e.subgraphs.Keys)); }
    }
    assert d.deps.Keys == d.subgraphs.Keys && e.deps.Keys == e.subgraphs.Keys;
  }

  ghost predicate NestedOnly(os: seq<Observable>) { forall o :: o in os ==> o.NestedSubgraph? }

  lemma AllNested(os: seq<Observable>, i: nat)
    requires i < |os| && NestedOnly(os)
    ensures os[i].NestedSubgraph?
  {}

  // The marks become candidates for eviction.
  lemma CandidatesTaken(c: Cache, d: Cache, observed: set<Observable>, candidates: seq<Observable>)
    requires Kept(c, d, observed) && Marked(d, observed) && Elems(candidates) == d.maybeUnused
    ensures var e := d.(maybeUnused := {}); Kept(c, e, observed) && Marked(e, observed + Elems(candidates[0..]))
    ensures NestedOnly(candidates)
  {
    assert candidates[0..] == candidates;
    var e := d.(maybeUnused := {});
    assert Linked(d) && Closed(d);
    forall k, o ensures Subscribed(e, k, o) <==> DependsOn(e, k, o) {
      assert Subscribed(d, k, o) <==> DependsOn(d, k, o);
    }
    forall k, q | DependsOn(e, k, NestedSubgraph(q)) ensures CachedDeeper(e, k, q) {
      assert DependsOn(d, k, NestedSubgraph(q));
      assert CachedDeeper(d, k, q);
    }
    forall o | o in candidates ensures o.NestedSubgraph? {
      assert o in Elems(candidates);
    }
  }

  lemma NotEvicted(d: Cache, o: Observable, observed: set<Observable>, rest: set<Observable>)
    requires o.NestedSubgraph? && Marked(d, observed + rest + {o})
    requires o in d.depToStarts || o in observed || o.start !in d.subgraphs
    ensures Marked(d, observed + rest)
  {}

  lemma KeptHasDeps(c: Cache, d: Cache, observed: set<Observable>)
    requires Kept(c, d, observed)
    ensures d.deps.Keys == d.subgraphs.Keys && Wired(d)
  {}

  lemma RemovedIs(c: Cache, d: Cache, n: NestedStart)
    requires d.subgraphs == c.subgraphs - {n} && d.deps == c.deps - {n} && RelatesInstead(c, d, n, {})
    ensures EntryRemoved(c, d, n)
  {}
}
