/** What visits add by matching a repetition, one layer of chains after another. */
module VisitingRepeat {
  import opened Base
  import opened RefsAlgebra
  import opened Plans
  import opened Semantics
  import opened RefTracking
  import opened Dependencies
  import opened Matching
  import opened NestedCache
  import opened MatchingOps
  import opened MatchingRepeat
  import opened Visiting
  import opened VisitingOperands

  // Refs stay set along chains.
  ghost predicate KeepsNames(refs: Refs, r: Refs) { SetNames(refs) <= SetNames(r) }

  lemma ContinuedKeepsNames(w: World, op: Plan, max: nat, k: nat, c: Body, d: Body)
    requires d in Continued(w, op, max, k, c)
    ensures KeepsNames(c.refs, d.refs)
  {
    var q, t :| q in c.content.ends && t in Sem(w, op, q, c.refs) && d == Join(c, t);
    MatchesRespect(w, op, q, c.refs, SetNames(c.refs));
    BoundGrows(op, SetNames(c.refs));
    assert Respects(c.refs, t.refs, Bound(op, SetNames(c.refs)), Changed(op, SetNames(c.refs)));
  }

  lemma {:induction false} LayerKeepsNames(w: World, op: Plan, max: nat, k: nat, top: Body)
    ensures forall c :: c in Layer(w, op, max, k, top) ==> KeepsNames(top.refs, c.refs)
  {
    if k > 0 {
      LayerKeepsNames(w, op, max, k - 1, top);
      forall d | d in Layer(w, op, max, k, top) ensures KeepsNames(top.refs, d.refs) {
        var c :| c in Layer(w, op, max, k - 1, top) && d in Continued(w, op, max, k - 1, c);
        ContinuedKeepsNames(w, op, max, k - 1, c, d);
      }
    }
  }

  // --------------------------------------------------------------------------
  // Continuing one chain
  // --------------------------------------------------------------------------

  ghost function ContinuedAt(w: World, op: Plan, c: Body, ends: set<Position>): set<Body> {
    set q, t | q in ends && t in Sem(w, op, q, c.refs) :: Join(c, t)
  }

  ghost predicate TriedAt(m: Mode, w: World, obs: set<Observable>, op: Plan, origin: Position, q: Position,
      refs: Refs) {
    Suffices(m, w, obs, op, q, refs, q == origin)
  }

  // The chain was continued from some of its ends.
  ghost predicate ChainContinued(m: Mode, w: World, op: Plan, origin: Position, chain: Draft, ends: set<Position>,
                                 es: seq<Draft>, obs: set<Observable>) {
    Bodies(es) == View(m, ContinuedAt(w, op, BodyOf(chain), ends)) &&
    (forall q :: q in ends ==> TriedAt(m, w, obs, op, origin, q, chain.refs)) &&
    forall e :: e in es ==> e.start == chain.start
  }

  ghost predicate ChainVisited(m: Mode, w: World, limit: Limit, op: Plan, origin: Position, chain: Draft,
      ends: set<Position>,
                               es: seq<Draft>, a: Snapshot, b: Snapshot) {
    LoggedAndServed(w, limit, Height(op), origin, a, b) && a.drafts == b.drafts &&
    ChainContinued(m, w, op, origin, chain, ends, es, NewObs(a, b))
  }

  lemma TriedMonotone(m: Mode, w: World, a: set<Observable>, b: set<Observable>, op: Plan, origin: Position,
      q: Position, refs: Refs)
    requires a <= b && TriedAt(m, w, a, op, origin, q, refs)
    ensures TriedAt(m, w, b, op, origin, q, refs)
  {
    SufficesMonotone(m, w, a, b, op, q, refs, q == origin);
  }

  lemma ChainNotContinued(m: Mode, w: World, limit: Limit, op: Plan, origin: Position, chain: Draft, a: Snapshot)
    requires ReadyIn(w, limit, a)
    ensures ChainVisited(m, w, limit, op, origin, chain, {}, [], a, a)
  {
    hide ChainContinued, Served;
    NothingNew(a, origin);
    NothingServed(w, limit, Height(op), a);
    NotContinued(m, w, op, origin, chain);
  }

  lemma NotContinued(m: Mode, w: World, op: Plan, origin: Position, chain: Draft)
    ensures ChainContinued(m, w, op, origin, chain, {}, [], {})
  {
    ViewEmpty(m, {});
    assert ContinuedAt(w, op, BodyOf(chain), {}) == {};
  }

  lemma ContinuedFound(m: Mode, w: World, op: Plan, chain: Draft, ends: set<Position>, q: Position,
                       es: seq<Draft>, ts: seq<Draft>, more: seq<Draft>)
    requires !m.First? && (!m.Normal? ==> StripContent(BodyOf(chain).content) == BodyOf(chain).content)
    requires Bodies(es) == View(m, ContinuedAt(w, op, BodyOf(chain), ends))
    requires Found(m, Sem(w, op, q, chain.refs), ts) && ConcatenatedAll(chain, ts, more)
    ensures Bodies(es + more) == View(m, ContinuedAt(w, op, BodyOf(chain), ends + {q}))
  {
    hide Sem, ContinuedAt;
    var s, c := Sem(w, op, q, chain.refs), BodyOf(chain);
    JoinFound(m, chain, s, ts, more);
    ContinuedFromOneMore(w, op, c, ends, q);
    FoundAppend(m, ContinuedAt(w, op, c, ends), set t | t in s :: Join(c, t), es, more);
  }

  lemma ContinuedFromOneMore(w: World, op: Plan, c: Body, ends: set<Position>, q: Position)
    ensures ContinuedAt(w, op, c, ends + {q}) ==
      ContinuedAt(w, op, c, ends) + set t | t in Sem(w, op, q, c.refs) :: Join(c, t)
  {
    hide Sem;
  }

  lemma ContinuedTried(m: Mode, w: World, op: Plan, origin: Position, refs: Refs, ends: set<Position>, q: Position,
                       a: set<Observable>, b: set<Observable>)
    requires forall r :: r in ends ==> TriedAt(m, w, a, op, origin, r, refs)
    requires TriedAt(m, w, b, op, origin, q, refs)
    ensures forall r :: r in ends + {q} ==> TriedAt(m, w, a + b, op, origin, r, refs)
  {
    forall r | r in ends + {q} ensures TriedAt(m, w, a + b, op, origin, r, refs) {
      if r in ends {
        TriedMonotone(m, w, a, a + b, op, origin, r, refs);
      } else {
        TriedMonotone(m, w, b, a + b, op, origin, q, refs);
      }
    }
  }

  lemma ContinuedStarts(chain: Draft, ts: seq<Draft>, es: seq<Draft>, more: seq<Draft>)
    requires ConcatenatedAll(chain, ts, more) && forall e :: e in es ==> e.start == chain.start
    ensures forall e :: e in es + more ==> e.start == chain.start
  {}

  lemma ContinuedOnce(m: Mode, w: World, limit: Limit, op: Plan, origin: Position, chain: Draft, ends: set<Position>,
      q: Position,
                      es: seq<Draft>, more: seq<Draft>, a: Snapshot, b: Snapshot, t: Snapshot)
    requires ReadyIn(w, limit, a) && !m.First?
    requires !m.Normal? ==> StripContent(BodyOf(chain).content) == BodyOf(chain).content
    requires ChainVisited(m, w, limit, op, origin, chain, ends, es, a, b)
    requires Visited(m, w, limit, Height(op), op, Start(origin, q, chain.refs), WithDrafts(b, []), t)
    requires ConcatenatedAll(chain, t.drafts, more)
    ensures ChainVisited(m, w, limit, op, origin, chain, ends + {q}, es + more, a, WithDrafts(t, b.drafts))
  {
    var b0, c := WithDrafts(b, []), WithDrafts(t, b.drafts);
    assert NewDrafts(b0, t) == t.drafts && NewObs(b, c) == NewObs(b0, t);
    assert LoggedAndServed(w, limit, Height(op), origin, b, c);
    LoggedTransitive(a, b, c, origin);
    ServedTransitive(w, limit, Height(op), Height(op), a, b, c, origin);
    ContinuedFound(m, w, op, chain, ends, q, es, t.drafts, more);
    ContinuedTried(m, w, op, origin, chain.refs, ends, q, NewObs(a, b), NewObs(b, c));
    ContinuedStarts(chain, t.drafts, es, more);
  }

  // --------------------------------------------------------------------------
  // A round: all the chains of the same length
  // --------------------------------------------------------------------------

  // Before the round: the chains are the layer, and chains that ended before were added.
  ghost predicate RoundBegun(mode: Mode, w: World, p: Plan, k: nat, start: Start, chains: seq<Draft>, ds: seq<Draft>,
                             obs: set<Observable>)
    requires p.PRepetition?
  {
    var top := EmptyAt(start.position, start.refs);
    Bodies(chains) == View(AllMatches(mode), Layer(w, p.operand, p.max, k, top)) &&
    Bodies(ds) == View(AllMatches(mode), EndedBefore(w, p.operand, p.min, p.max, k, top)) &&
    StartsOk(start, chains) && StartsOk(start, ds) && (mode.First? ==> ds == []) &&
    LayersTried(AllMatches(mode), w, obs, p.operand, p.max, k, top, start.origin)
  }

  // During the round: some of the chains were continued, or added if they ended.
  ghost predicate RoundUpTo(mode: Mode, w: World, p: Plan, k: nat, start: Start, done: seq<Draft>, ds0: seq<Draft>,
                            continued: seq<Draft>, ds: seq<Draft>, obs: set<Observable>)
    requires p.PRepetition?
  {
    Bodies(continued) == View(AllMatches(mode), Next(w, p.operand, p.max, k, Bodies(done))) &&
    Bodies(ds) == Bodies(ds0) + Ended(w, p.operand, p.min, p.max, k, Bodies(done)) &&
    StartsOk(start, continued) && StartsOk(start, ds) &&
    ChainsTried(AllMatches(mode), w, obs, p.operand, p.max, k, Bodies(done), start.origin)
  }

  lemma NoRounds(mode: Mode, w: World, p: Plan, start: Start, top: Draft)
    requires p.PRepetition? && top == Draft(start.origin, [start.position], [], [], start.refs)
    ensures RoundBegun(mode, w, p, 0, start, [top], [], {})
  {
    var b := EmptyAt(start.position, start.refs);
    assert Elems(top.ends) == {start.position};
    assert BodyOf(top) == b == Strip(b);
    assert Bodies([top]) == {b} by { assert top in [top]; }
    assert Stripped({b}) == {b};
    assert View(AllMatches(mode), {}) == {};
  }

  lemma RoundNotDone(mode: Mode, w: World, p: Plan, k: nat, start: Start, ds: seq<Draft>, obs: set<Observable>)
    requires p.PRepetition? && StartsOk(start, ds)
    ensures RoundUpTo(mode, w, p, k, start, [], ds, [], ds, obs)
  {
    assert Next(w, p.operand, p.max, k, {}) == {};
    ViewEmpty(AllMatches(mode), {});
  }

  lemma NextUnion(w: World, op: Plan, min: nat, max: nat, k: nat, a: set<Body>, c: Body)
    ensures Next(w, op, max, k, a + {c}) == Next(w, op, max, k, a) + Continued(w, op, max, k, c)
    ensures Ended(w, op, min, max, k, a + {c}) ==
      Ended(w, op, min, max, k, a) + if k >= min && Continued(w, op, max, k, c) == {} then {c} else {}
  {
    hide Continued;
  }

  // The next chain: continued, or added if it ended.
  ghost predicate ChainDone(m: Mode, w: World, p: Plan, k: nat, start: Start, chain: Draft, es: seq<Draft>,
                            added: seq<Draft>, obs: set<Observable>)
    requires p.PRepetition?
  {
    (if k < p.max then ChainContinued(m, w, p.operand, start.origin, chain, Elems(chain.ends), es, obs) else
        es == []) &&
    added == if es == [] && k >= p.min then [chain] else []
  }

  lemma ChainDoneMeans(m: Mode, w: World, p: Plan, k: nat, start: Start, chain: Draft, es: seq<Draft>,
                       added: seq<Draft>, obs: set<Observable>)
    requires p.PRepetition? && ChainDone(m, w, p, k, start, chain, es, added, obs)
    ensures Bodies(es) == View(m, Continued(w, p.operand, p.max, k, BodyOf(chain)))
    ensures Bodies(added) == if k >= p.min &&
        Continued(w, p.operand, p.max, k, BodyOf(chain)) == {} then {BodyOf(chain)} else {}
    ensures k < p.max ==> ChainTried(m, w, obs, p.operand, BodyOf(chain), start.origin)
  {
    var c := BodyOf(chain);
    if k < p.max {
      assert Continued(w, p.operand, p.max, k, c) == ContinuedAt(w, p.operand, c, Elems(chain.ends));
      forall q | q in c.content.ends ensures Suffices(m, w, obs, p.operand, q, c.refs, q == start.origin) {
        assert TriedAt(m, w, obs, p.operand, start.origin, q, chain.refs);
      }
    }
    BodiesEmpty(es);
    ViewEmpty(m, Continued(w, p.operand, p.max, k, c));
    assert Bodies([chain]) == {c} by { assert chain in [chain]; }
  }

  lemma OneMoreChain(mode: Mode, w: World, p: Plan, k: nat, start: Start, chains: seq<Draft>, i: nat, ds0: seq<Draft>,
                     continued: seq<Draft>, ds: seq<Draft>, a: set<Observable>,
                     es: seq<Draft>, added: seq<Draft>, b: set<Observable>)
    requires p.PRepetition? && i < |chains| && StartsOk(start, chains)
    requires k == 0 ==> chains == [Draft(start.origin, [start.position], [], [], start.refs)]
    requires RoundUpTo(mode, w, p, k, start, chains[..i], ds0, continued, ds, a)
    requires ChainDone(AllMatches(mode), w, p, k, start, chains[i], es, added, b)
    ensures RoundUpTo(mode, w, p, k, start, chains[..i + 1], ds0, continued + es, ds + added, a + b)
  {
    var m, c := AllMatches(mode), BodyOf(chains[i]);
    ChainDoneMeans(m, w, p, k, start, chains[i], es, added, b);
    hide Continued, ChainTried, ChainsTried, Next, Ended, View;
    assert chains[..i + 1] == chains[..i] + [chains[i]];
    BodiesAppend(chains[..i], [chains[i]]);
    assert Bodies([chains[i]]) == {c} by { assert chains[i] in [chains[i]]; }
    var before := Bodies(chains[..i]);
    NextUnion(w, p.operand, p.min, p.max, k, before, c);
    ViewUnion(m, Next(w, p.operand, p.max, k, before), Continued(w, p.operand, p.max, k, c));
    BodiesAppend(continued, es);
    BodiesAppend(ds, added);
    OneMoreTried(m, w, p.operand, p.max, k, before, c, start.origin, a, b);
    OneMoreStartsOk(start, chains, i, continued, es, ds, added);
  }

  lemma OneMoreTried(m: Mode, w: World, op: Plan, max: nat, k: nat, before: set<Body>, c: Body, origin: Position,
      a: set<Observable>, b: set<Observable>)
    requires ChainsTried(m, w, a, op, max, k, before, origin) && (k < max ==> ChainTried(m, w, b, op, c, origin))
    ensures ChainsTried(m, w, a + b, op, max, k, before + {c}, origin)
  {
    hide ChainTried;
    if k < max {
      forall d | d in before + {c} ensures ChainTried(m, w, a + b, op, d, origin) {
        ChainTriedMonotone(m, w, if d in before then a else b, a + b, op, d, origin);
      }
    }
  }

  lemma OneMoreStartsOk(start: Start, chains: seq<Draft>, i: nat, continued: seq<Draft>, es: seq<Draft>,
      ds: seq<Draft>, added: seq<Draft>)
    requires i < |chains| && StartsOk(start, chains) && StartsOk(start, continued) && StartsOk(start, ds)
    requires (forall e :: e in es ==> e.start == chains[i].start) && forall d :: d in added ==> d == chains[i]
    ensures StartsOk(start, continued + es) && StartsOk(start, ds + added)
  {}

  lemma TriedWhenStripped(m: Mode, w: World, obs: set<Observable>, op: Plan, c: Body, origin: Position)
    ensures ChainTried(m, w, obs, op, Strip(c), origin) <==> ChainTried(m, w, obs, op, c, origin)
  {}

  // All the chains are done: the next round can begin.
  lemma RoundEnds(mode: Mode, w: World, p: Plan, k: nat, start: Start, chains: seq<Draft>, ds0: seq<Draft>,
                  continued: seq<Draft>, ds: seq<Draft>, a: set<Observable>, b: set<Observable>)
    requires p.PRepetition? && chains != []
    requires RoundBegun(mode, w, p, k, start, chains, ds0, a)
    requires RoundUpTo(mode, w, p, k, start, chains, ds0, continued, ds, b)
    requires mode.First? ==> ds == []
    ensures RoundBegun(mode, w, p, k + 1, start, continued, ds, a + b)
  {
    var m, op, top := AllMatches(mode), p.operand, EmptyAt(start.position, start.refs);
    var layer := Layer(w, op, p.max, k, top);
    NextLayerTried(m, w, p, k, start.origin, top, chains, a, b);
    hide ChainsTried, LayersTried, Continued;
    ViewOfNext(m, w, op, p.min, p.max, k, layer);
    ViewUnion(m, EndedBefore(w, op, p.min, p.max, k, top), Ended(w, op, p.min, p.max, k, layer));
  }

  lemma NextLayerTried(m: Mode, w: World, p: Plan, k: nat, origin: Position, top: Body, chains: seq<Draft>,
      a: set<Observable>, b: set<Observable>)
    requires p.PRepetition? && !m.First? && Bodies(chains) == View(m, Layer(w, p.operand, p.max, k, top))
    requires LayersTried(m, w, a, p.operand, p.max, k, top, origin)
    requires ChainsTried(m, w, b, p.operand, p.max, k, Bodies(chains), origin)
    ensures LayersTried(m, w, a + b, p.operand, p.max, k + 1, top, origin)
  {
    hide Layer, ChainTried, View;
    var op, layer := p.operand, Layer(w, p.operand, p.max, k, top);
    LayersTriedMonotone(m, w, a, a + b, op, p.max, k, top, origin);
    if k < p.max {
      forall c | c in layer ensures ChainTried(m, w, a + b, op, c, origin) {
        LayerChainTried(m, w, op, layer, chains, c, origin, a, b);
      }
    }
    forall j: nat | j < k + 1 ensures ChainsTried(m, w, a + b, op, p.max, j, Layer(w, op, p.max, j, top), origin) {}
  }

  lemma LayerChainTried(m: Mode, w: World, op: Plan, layer: set<Body>, chains: seq<Draft>, c: Body, origin: Position,
      a: set<Observable>, b: set<Observable>)
    requires !m.First? && c in layer && Bodies(chains) == View(m, layer)
    requires forall d :: d in chains ==> ChainTried(m, w, b, op, BodyOf(d), origin)
    ensures ChainTried(m, w, a + b, op, c, origin)
  {
    hide ChainTried;
    if m.Normal? {
      assert c in Bodies(chains);
    } else {
      assert Strip(c) in Bodies(chains);
      TriedWhenStripped(m, w, b, op, c, origin);
    }
    ChainTriedMonotone(m, w, b, a + b, op, c, origin);
  }

  // No chains are left.
  lemma RepetitionStops(mode: Mode, w: World, p: Plan, k: nat, start: Start, ds: seq<Draft>, obs: set<Observable>)
    requires p.PRepetition? && WellFormed(w.graph) && k > 0
    requires RoundBegun(mode, w, p, k, start, [], ds, obs)
    ensures Good(mode, w, p, start, ds, obs)
  {
    ViewEmpty(AllMatches(mode), Layer(w, p.operand, p.max, k, EmptyAt(start.position, start.refs)));
    assert Bodies([]) == {};
    RepeatGood(mode, w, p, k, start, ds, obs);
  }

  // A chain ended, and that's enough.
  lemma RepeatEnough(mode: Mode, w: World, p: Plan, k: nat, start: Start, chains: seq<Draft>, chain: Draft,
      ds: seq<Draft>,
                     a: set<Observable>, b: set<Observable>)
    requires p.PRepetition? && WellFormed(w.graph) && mode.First? && chain in chains && ds == [chain]
    requires k == 0 ==> chains == [Draft(start.origin, [start.position], [], [], start.refs)]
    requires RoundBegun(mode, w, p, k, start, chains, [], a)
    requires ChainDone(AllMatches(mode), w, p, k, start, chain, [], ds, b)
    ensures Good(mode, w, p, start, ds, a + b)
  {
    var m, op, top, c := AllMatches(mode), p.operand, EmptyAt(start.position, start.refs), BodyOf(chain);
    var layer := Layer(w, op, p.max, k, top);
    ChainDoneMeans(m, w, p, k, start, chain, [], ds, b);
    assert Bodies([]) == {} && Bodies(ds) == {c};
    assert c in Bodies(chains);
    ViewOfNext(m, w, op, p.min, p.max, k, layer);
    assert c in Ended(w, op, p.min, p.max, k, View(m, layer)) by {
      ViewEmpty(m, Continued(w, op, p.max, k, c));
    }
    var d :| d in Ended(w, op, p.min, p.max, k, layer) && Strip(d) == c;
    LayersTriedMonotone(m, w, a, a + b, op, p.max, k, top, start.origin);
    if k < p.max {
      TriedWhenStripped(m, w, b, op, d, start.origin);
      ChainTriedMonotone(m, w, b, a + b, op, d, start.origin);
    }
    RepeatGood(mode, w, p, k, start, ds, a + b);
  }

  // Chains keep the refs of the start set, so that the operand stays supported.
  lemma ChainsAreSupported(mode: Mode, w: World, p: Plan, k: nat, start: Start, chains: seq<Draft>, ds: seq<Draft>,
                           obs: set<Observable>, chain: Draft)
    requires p.PRepetition? && RoundBegun(mode, w, p, k, start, chains, ds, obs) && chain in chains
    requires Supported(p, SetNames(start.refs))
    ensures Supported(p.operand, SetNames(chain.refs))
    ensures !AllMatches(mode).Normal? ==> StripContent(BodyOf(chain).content) == BodyOf(chain).content
  {
    var layer := Layer(w, p.operand, p.max, k, EmptyAt(start.position, start.refs));
    assert BodyOf(chain) in Bodies(chains);
    var c :| c in layer && c.refs == chain.refs;
    LayerKeepsNames(w, p.operand, p.max, k, EmptyAt(start.position, start.refs));
    SupportedIsMonotone(p.operand, SetNames(start.refs), SetNames(chain.refs));
  }

  // Chains end in the graph, or where they started.
  lemma ChainsFit(mode: Mode, w: World, limit: Limit, p: Plan, k: nat, start: Start, chains: seq<Draft>, ds: seq<Draft>,
      obs: set<Observable>, chain: Draft, cache: Cache)
    requires p.PRepetition? && RoundBegun(mode, w, p, k, start, chains, ds, obs) && chain in chains
    requires WellFormed(w.graph) && FitsIn(w, limit, p, start.position)
    requires w.cached ==> Ready(cache, w.graph, limit)
    ensures forall q :: q in chain.ends ==> FitsIn(w, limit, p.operand, q)
  {
    hide Layer, EndedBefore, LayersTried;
    var top := EmptyAt(start.position, start.refs);
    LayerEnds(w, p.operand, p.max, k, start.position, start.refs);
    assert BodyOf(chain) in Bodies(chains);
    var c :| c in Layer(w, p.operand, p.max, k, top) && c.content.ends == Elems(chain.ends);
    forall q | q in chain.ends ensures FitsIn(w, limit, p.operand, q) {
      assert q in c.content.ends;
      assert EndOk(w.graph, start.position, k == 0 || Stays(p.operand), q);
    }
  }

  // There are chains in the first round only up to the maximum length.
  lemma ChainsRunOut(mode: Mode, w: World, p: Plan, k: nat, start: Start, chains: seq<Draft>, ds: seq<Draft>,
      obs: set<Observable>)
    requires p.PRepetition? && RoundBegun(mode, w, p, k, start, chains, ds, obs) && k > p.max
    ensures chains == []
  {
    NoDeeperLayers(w, p.operand, p.max, k, EmptyAt(start.position, start.refs));
    ViewEmpty(AllMatches(mode), {});
    BodiesEmpty(chains);
  }

  // --------------------------------------------------------------------------
  // Rounds of a visit
  // --------------------------------------------------------------------------

  // A visit of the repetition is about to begin a round.
  ghost predicate AtRound(mode: Mode, w: World, limit: Limit, p: Plan, k: nat, start: Start, chains: seq<Draft>,
      was: Snapshot, now: Snapshot)
    requires p.PRepetition?
  {
    Extends(was, now, start.origin) && Served(w, limit, Height(p), was, now) && ReadyIn(w, limit, was) &&
    RoundBegun(mode, w, p, k, start, chains, NewDrafts(was, now), NewObs(was, now)) &&
    (k == 0 ==> chains == [Draft(start.origin, [start.position], [], [], start.refs)])
  }

  lemma FirstRound(mode: Mode, w: World, limit: Limit, p: Plan, start: Start, was: Snapshot)
    requires p.PRepetition? && ReadyIn(w, limit, was)
    ensures AtRound(mode, w, limit, p, 0, start, [Draft(start.origin, [start.position], [], [], start.refs)], was, was)
  {
    NothingNew(was, start.origin);
    NothingServed(w, limit, Height(p), was);
    NoRounds(mode, w, p, start, Draft(start.origin, [start.position], [], [], start.refs));
  }

  lemma RoundsRunOut(mode: Mode, w: World, limit: Limit, p: Plan, k: nat, start: Start, chains: seq<Draft>,
      was: Snapshot,
      now: Snapshot)
    requires p.PRepetition? && AtRound(mode, w, limit, p, k, start, chains, was, now)
    ensures k > p.max ==> chains == []
  {
    if k > p.max { ChainsRunOut(mode, w, p, k, start, chains, NewDrafts(was, now), NewObs(was, now)); }
  }

  lemma RoundsEnd(mode: Mode, w: World, limit: Limit, p: Plan, k: nat, start: Start, was: Snapshot, now: Snapshot)
    requires p.PRepetition? && WellFormed(w.graph) && AtRound(mode, w, limit, p, k, start, [], was, now)
    ensures Visited(mode, w, limit, Height(p), p, start, was, now)
  {
    RepetitionStops(mode, w, p, k, start, NewDrafts(was, now), NewObs(was, now));
  }

  // Some of the chains of the round are done.
  ghost predicate InRound(mode: Mode, w: World, limit: Limit, p: Plan, k: nat, start: Start, chains: seq<Draft>, i: nat,
                          continued: seq<Draft>, was: Snapshot, begun: Snapshot, now: Snapshot)
    requires p.PRepetition? && i <= |chains|
  {
    AtRound(mode, w, limit, p, k, start, chains, was, begun) &&
    Extends(begun, now, start.origin) && Served(w, limit, Height(p), begun, now) &&
    RoundUpTo(mode, w, p, k, start, chains[..i], NewDrafts(was, begun), continued,
        NewDrafts(was, begun) + NewDrafts(begun, now), NewObs(begun, now))
  }

  lemma EnterRound(mode: Mode, w: World, limit: Limit, p: Plan, k: nat, start: Start, chains: seq<Draft>, was: Snapshot,
      now: Snapshot)
    requires p.PRepetition? && AtRound(mode, w, limit, p, k, start, chains, was, now)
    ensures InRound(mode, w, limit, p, k, start, chains, 0, [], was, now, now)
  {
    NothingNew(now, start.origin);
    NothingServed(w, limit, Height(p), now);
    RoundNotDone(mode, w, p, k, start, NewDrafts(was, now), {});
    assert NewDrafts(was, now) + [] == NewDrafts(was, now);
  }

  // The chain was continued, unless the repetition is as long as allowed.
  ghost predicate ChainTurn(mode: Mode, w: World, limit: Limit, p: Plan, k: nat, start: Start, chain: Draft,
      es: seq<Draft>,
                            a: Snapshot, b: Snapshot)
    requires p.PRepetition?
  {
    if k < p.max then ChainVisited(AllMatches(mode), w, limit, p.operand, start.origin, chain, Elems(chain.ends), es, a,
        b)
    else es == [] && a == b
  }

  lemma TurnIsDone(mode: Mode, w: World, limit: Limit, p: Plan, k: nat, start: Start, chain: Draft, es: seq<Draft>,
                   added: seq<Draft>, a: Snapshot, b: Snapshot)
    requires p.PRepetition? && ReadyIn(w, limit, a) && ChainTurn(mode, w, limit, p, k, start, chain, es, a, b)
    requires added == if es == [] && k >= p.min then [chain] else []
    ensures var c := WithDrafts(b, b.drafts + added);
      Extends(a, c, start.origin) && Served(w, limit, Height(p), a, c) && NewDrafts(a, c) == added &&
      ChainDone(AllMatches(mode), w, p, k, start, chain, es, added, NewObs(a, c))
  {
    var c := WithDrafts(b, b.drafts + added);
    if k < p.max {
      assert Height(p) == Height(p.operand);
      assert NewDrafts(a, c) == added && NewObs(a, c) == NewObs(a, b);
    } else {
      NothingNew(a, start.origin);
      NothingServed(w, limit, Height(p), a);
      assert NewDrafts(a, c) == added && NewObs(a, c) == {};
    }
  }

  lemma InRoundOnce(mode: Mode, w: World, limit: Limit, p: Plan, k: nat, start: Start, chains: seq<Draft>, i: nat,
                    continued: seq<Draft>, es: seq<Draft>, added: seq<Draft>,
                    was: Snapshot, begun: Snapshot, a: Snapshot, b: Snapshot)
    requires p.PRepetition? && i < |chains| && ReadyIn(w, limit, a)
    requires InRound(mode, w, limit, p, k, start, chains, i, continued, was, begun, a)
    requires ChainTurn(mode, w, limit, p, k, start, chains[i], es, a, b)
    requires added == if es == [] && k >= p.min then [chains[i]] else []
    ensures InRound(mode, w, limit, p, k, start, chains, i + 1, continued + es, was, begun,
        WithDrafts(b, b.drafts + added))
  {
    var c := WithDrafts(b, b.drafts + added);
    TurnIsDone(mode, w, limit, p, k, start, chains[i], es, added, a, b);
    ExtendsTransitive(begun, a, c, start.origin);
    ServedTransitive(w, limit, Height(p), Height(p), begun, a, c, start.origin);
    var ds0 := NewDrafts(was, begun);
    OneMoreChain(mode, w, p, k, start, chains, i, ds0, continued, ds0 + NewDrafts(begun, a), NewObs(begun, a), es,
        added, NewObs(a, c));
    assert ds0 + NewDrafts(begun, a) + added == ds0 + NewDrafts(begun, c);
  }

  lemma LeaveRound(mode: Mode, w: World, limit: Limit, p: Plan, k: nat, start: Start, chains: seq<Draft>,
                   continued: seq<Draft>, was: Snapshot, begun: Snapshot, now: Snapshot)
    requires p.PRepetition? && chains != []
    requires InRound(mode, w, limit, p, k, start, chains, |chains|, continued, was, begun, now)
    requires mode.First? ==> was.drafts == now.drafts
    ensures AtRound(mode, w, limit, p, k + 1, start, continued, was, now)
  {
    ExtendsTransitive(was, begun, now, start.origin);
    ServedTransitive(w, limit, Height(p), Height(p), was, begun, now, start.origin);
    assert chains[..|chains|] == chains;
    RoundEnds(mode, w, p, k, start, chains, NewDrafts(was, begun), continued, NewDrafts(was, now), NewObs(was, begun),
        NewObs(begun, now));
  }

  lemma ChainInRoundIsSupported(mode: Mode, w: World, limit: Limit, p: Plan, k: nat, start: Start, chains: seq<Draft>,
      i: nat,
                                continued: seq<Draft>, was: Snapshot, begun: Snapshot, now: Snapshot)
    requires p.PRepetition? && i < |chains| && Supported(p, SetNames(start.refs))
    requires WellFormed(w.graph) && FitsIn(w, limit, p, start.position) && ReadyIn(w, limit, now)
    requires InRound(mode, w, limit, p, k, start, chains, i, continued, was, begun, now)
    ensures Supported(p.operand, SetNames(chains[i].refs))
    ensures forall q :: q in chains[i].ends ==> FitsIn(w, limit, p.operand, q)
    ensures !AllMatches(mode).Normal? ==> StripContent(BodyOf(chains[i]).content) == BodyOf(chains[i]).content
  {
    ChainsAreSupported(mode, w, p, k, start, chains, NewDrafts(was, begun), NewObs(was, begun), chains[i]);
    ChainsFit(mode, w, limit, p, k, start, chains, NewDrafts(was, begun), NewObs(was, begun), chains[i], now.cache);
  }

  // The first chain that ended is enough.
  lemma RoundEnough(mode: Mode, w: World, limit: Limit, p: Plan, k: nat, start: Start, chains: seq<Draft>, i: nat,
                    continued: seq<Draft>, was: Snapshot, begun: Snapshot, a: Snapshot, b: Snapshot)
    requires p.PRepetition? && i < |chains| && mode.First? && WellFormed(w.graph) && ReadyIn(w, limit, a) && k >= p.min
    requires InRound(mode, w, limit, p, k, start, chains, i, continued, was, begun, a) && |was.drafts| == |a.drafts|
    requires ChainTurn(mode, w, limit, p, k, start, chains[i], [], a, b)
    ensures Visited(mode, w, limit, Height(p), p, start, was, WithDrafts(b, b.drafts + [chains[i]]))
  {
    var c, ds := WithDrafts(b, b.drafts + [chains[i]]), [chains[i]];
    TurnIsDone(mode, w, limit, p, k, start, chains[i], [], ds, a, b);
    ExtendsTransitive(was, begun, a, start.origin);
    assert was.drafts == a.drafts;
    ServedTransitive(w, limit, Height(p), Height(p), was, begun, a, start.origin);
    ExtendsTransitive(was, a, c, start.origin);
    ServedTransitive(w, limit, Height(p), Height(p), was, a, c, start.origin);
    assert NewDrafts(was, begun) == [] && NewDrafts(was, c) == ds;
    RepeatEnough(mode, w, p, k, start, chains, chains[i], ds, NewObs(was, begun), NewObs(a, c));
    GoodMonotone(mode, w, p, start, ds, NewObs(was, begun) + NewObs(a, c), NewObs(was, c));
  }
}
