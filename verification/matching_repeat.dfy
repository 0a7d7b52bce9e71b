/** Repetition, layer by layer. */
module MatchingRepeat {
  import opened Base
  import opened RefsAlgebra
  import opened Plans
  import opened Semantics
  import opened RefTracking
  import opened Dependencies
  import opened Matching

  // Chains of k matches that continue the start.
  ghost function Layer(w: World, op: Plan, max: nat, k: nat, top: Body): set<Body> {
    if k == 0 then {top} else Next(w, op, max, k - 1, Layer(w, op, max, k - 1, top))
  }

  ghost function Next(w: World, op: Plan, max: nat, k: nat, chains: set<Body>): set<Body> {
    set c, d | c in chains && d in Continued(w, op, max, k, c) :: d
  }

  // Chains that can't be continued.
  ghost function Ended(w: World, op: Plan, min: nat, max: nat, k: nat, chains: set<Body>): set<Body> {
    if k < min then {} else set c | c in chains && Continued(w, op, max, k, c) == {}
  }

  ghost function EndedBefore(w: World, op: Plan, min: nat, max: nat, k: nat, top: Body): set<Body> {
    if k == 0 then {}
    else EndedBefore(w, op, min, max, k - 1, top) + Ended(w, op, min, max, k - 1, Layer(w, op, max, k - 1, top))
  }

  ghost function RepeatOf(w: World, op: Plan, min: nat, max: nat, k: nat, chains: set<Body>): set<Body> {
    set c, d | c in chains && d in SemRepeat(w, op, min, max, k, c) :: d
  }

  lemma ContinuedOnlyBelow(w: World, op: Plan, max: nat, k: nat, c: Body)
    ensures k >= max ==> Continued(w, op, max, k, c) == {}
  {}

  lemma RepeatOne(w: World, op: Plan, min: nat, max: nat, k: nat, c: Body, d: Body)
    ensures d in SemRepeat(w, op, min, max, k, c) <==>
      if Continued(w, op, max, k, c) == {} then k >= min && d == c
      else exists e :: e in Continued(w, op, max, k, c) && d in SemRepeat(w, op, min, max, k + 1, e)
  {
    hide Sem, Continued;
    ContinuedOnlyBelow(w, op, max, k, c);
    if Continued(w, op, max, k, c) != {} {
      if e :| e in Continued(w, op, max, k, c) && d in SemRepeat(w, op, min, max, k + 1, e) {
        assert d in SemRepeatAfter(w, op, min, max, k, e);
      }
      if d in SemRepeat(w, op, min, max, k, c) {
        var e :| e in Continued(w, op, max, k, c) && d in SemRepeatAfter(w, op, min, max, k, e);
        assert d in SemRepeat(w, op, min, max, k + 1, e);
      }
    }
  }

  lemma LayersUnfold(w: World, op: Plan, min: nat, max: nat, k: nat, chains: set<Body>)
    ensures RepeatOf(w, op, min, max, k, chains) ==
      Ended(w, op, min, max, k, chains) + RepeatOf(w, op, min, max, k + 1, Next(w, op, max, k, chains))
  {
    hide Continued, SemRepeat;
    var n := Next(w, op, max, k, chains);
    assert forall c, d :: c in chains && d in Continued(w, op, max, k, c) ==> d in n;
    forall d | d in RepeatOf(w, op, min, max, k, chains)
      ensures d in Ended(w, op, min, max, k, chains) || d in RepeatOf(w, op, min, max, k + 1, n)
    {
      var c :| c in chains && d in SemRepeat(w, op, min, max, k, c);
      RepeatOne(w, op, min, max, k, c, d);
      if Continued(w, op, max, k, c) == {} {
        assert d in Ended(w, op, min, max, k, chains);
      } else {
        var e :| e in Continued(w, op, max, k, c) && d in SemRepeat(w, op, min, max, k + 1, e);
        assert e in n;
      }
    }
    forall d | d in Ended(w, op, min, max, k, chains) ensures d in RepeatOf(w, op, min, max, k, chains) {
      RepeatOne(w, op, min, max, k, d, d);
      assert d in chains && d in SemRepeat(w, op, min, max, k, d);
    }
    forall d | d in RepeatOf(w, op, min, max, k + 1, n) ensures d in RepeatOf(w, op, min, max, k, chains) {
      var e :| e in n && d in SemRepeat(w, op, min, max, k + 1, e);
      var c :| c in chains && e in Continued(w, op, max, k, c);
      RepeatOne(w, op, min, max, k, c, d);
      assert e in Continued(w, op, max, k, c) && d in SemRepeat(w, op, min, max, k + 1, e);
      assert d in SemRepeat(w, op, min, max, k, c);
    }
  }

  lemma RepeatOfOne(w: World, op: Plan, min: nat, max: nat, k: nat, c: Body)
    ensures RepeatOf(w, op, min, max, k, {c}) == SemRepeat(w, op, min, max, k, c)
  {
    assert c in {c};
  }

  // Going layer by layer finds the maximal chains: the ones that ended, and the ones the layer leads to.
  lemma {:induction false} LayersAreRepeat(w: World, op: Plan, min: nat, max: nat, k: nat, top: Body)
    ensures SemRepeat(w, op, min, max, 0, top) ==
      EndedBefore(w, op, min, max, k, top) + RepeatOf(w, op, min, max, k, Layer(w, op, max, k, top))
  {
    if k == 0 {
      RepeatOfOne(w, op, min, max, 0, top);
    } else {
      LayersAreRepeat(w, op, min, max, k - 1, top);
      LayersStep(w, op, min, max, k, top);
    }
  }

  lemma LayersStep(w: World, op: Plan, min: nat, max: nat, k: nat, top: Body)
    requires k > 0
    ensures EndedBefore(w, op, min, max, k - 1, top) +
        RepeatOf(w, op, min, max, k - 1, Layer(w, op, max, k - 1, top)) ==
      EndedBefore(w, op, min, max, k, top) + RepeatOf(w, op, min, max, k, Layer(w, op, max, k, top))
  {
    var chains := Layer(w, op, max, k - 1, top);
    var a, b := EndedBefore(w, op, min, max, k - 1, top), Ended(w, op, min, max, k - 1, chains);
    var r, c := RepeatOf(w, op, min, max, k - 1, chains), RepeatOf(w, op, min, max, k, Layer(w, op, max, k, top));
    assert r == b + c by { LayersUnfold(w, op, min, max, k - 1, chains); }
    UnionAssociates(a, b, c);
  }

  lemma UnionAssociates<T>(a: set<T>, b: set<T>, c: set<T>)
    ensures a + (b + c) == (a + b) + c
  {}

  // No layer is deeper than the maximum.
  lemma NoDeeperLayers(w: World, op: Plan, max: nat, k: nat, top: Body)
    requires k > max
    ensures Layer(w, op, max, k, top) == {}
  {}

  lemma RepeatIsEnded(w: World, op: Plan, min: nat, max: nat, k: nat, top: Body)
    requires Layer(w, op, max, k, top) == {}
    ensures SemRepeat(w, op, min, max, 0, top) == EndedBefore(w, op, min, max, k, top)
  {
    LayersAreRepeat(w, op, min, max, k, top);
  }

  lemma EndedIsFound(w: World, op: Plan, min: nat, max: nat, k: nat, top: Body)
    ensures Ended(w, op, min, max, k, Layer(w, op, max, k, top)) <= SemRepeat(w, op, min, max, 0, top)
    ensures EndedBefore(w, op, min, max, k, top) <= SemRepeat(w, op, min, max, 0, top)
  {
    LayersAreRepeat(w, op, min, max, k + 1, top);
    LayersAreRepeat(w, op, min, max, k, top);
  }

  // --------------------------------------------------------------------------
  // Stripped chains
  // --------------------------------------------------------------------------

  lemma ContinuedAs(w: World, op: Plan, max: nat, k: nat, c: Body, d: Body, x: Body) returns (y: Body)
    requires Strip(c) == Strip(d) && x in Continued(w, op, max, k, c)
    ensures y in Continued(w, op, max, k, d) && Strip(y) == Strip(x)
  {
    var q, t :| q in c.content.ends && t in Sem(w, op, q, c.refs) && x == Join(c, t);
    assert q in d.content.ends && c.refs == d.refs;
    y := Join(d, t);
  }

  lemma ContinuedStripped(w: World, op: Plan, max: nat, k: nat, c: Body)
    ensures Stripped(Continued(w, op, max, k, Strip(c))) == Stripped(Continued(w, op, max, k, c))
    ensures Continued(w, op, max, k, Strip(c)) == {} <==> Continued(w, op, max, k, c) == {}
  {
    var a, b := Continued(w, op, max, k, Strip(c)), Continued(w, op, max, k, c);
    forall x | x in a ensures exists y :: y in b && Strip(y) == Strip(x) {
      var y := ContinuedAs(w, op, max, k, Strip(c), c, x);
    }
    forall y | y in b ensures exists x :: x in a && Strip(x) == Strip(y) {
      var x := ContinuedAs(w, op, max, k, c, Strip(c), y);
    }
    SameWhenStripped(a, b);
  }

  lemma SameWhenStripped(a: set<Body>, b: set<Body>)
    requires forall x :: x in a ==> exists y :: y in b && Strip(y) == Strip(x)
    requires forall y :: y in b ==> exists x :: x in a && Strip(x) == Strip(y)
    ensures Stripped(a) == Stripped(b) && (a == {} <==> b == {})
  {
    ViewEmpty(RefsOnly, a);
    ViewEmpty(RefsOnly, b);
  }

  lemma NextStripped(w: World, op: Plan, max: nat, k: nat, chains: set<Body>)
    ensures Stripped(Next(w, op, max, k, Stripped(chains))) == Stripped(Next(w, op, max, k, chains))
  {
    forall x | x in Next(w, op, max, k, Stripped(chains)) ensures Strip(x) in Stripped(Next(w, op, max, k, chains)) {
      var c :| c in Stripped(chains) && x in Continued(w, op, max, k, c);
      var b :| b in chains && Strip(b) == c;
      ContinuedStripped(w, op, max, k, b);
      assert Strip(x) in Stripped(Continued(w, op, max, k, b));
      var y :| y in Continued(w, op, max, k, b) && Strip(y) == Strip(x);
      assert y in Next(w, op, max, k, chains);
    }
    forall y | y in Next(w, op, max, k, chains) ensures Strip(y) in Stripped(Next(w, op, max, k, Stripped(chains))) {
      var b :| b in chains && y in Continued(w, op, max, k, b);
      ContinuedStripped(w, op, max, k, b);
      assert Strip(y) in Stripped(Continued(w, op, max, k, Strip(b)));
      var x :| x in Continued(w, op, max, k, Strip(b)) && Strip(x) == Strip(y);
      assert Strip(b) in Stripped(chains);
      assert x in Next(w, op, max, k, Stripped(chains));
    }
  }

  lemma EndedStripped(w: World, op: Plan, min: nat, max: nat, k: nat, chains: set<Body>)
    ensures Ended(w, op, min, max, k, Stripped(chains)) == Stripped(Ended(w, op, min, max, k, chains))
  {
    forall c | c in chains ensures Continued(w, op, max, k, Strip(c)) == {} <==> Continued(w, op, max, k, c) == {} {
      ContinuedStripped(w, op, max, k, c);
    }
    forall x | x in Ended(w, op, min, max, k, Stripped(chains))
      ensures x in Stripped(Ended(w, op, min, max, k, chains))
    {
      var c :| c in chains && Strip(c) == x;
    }
    forall c | c in Ended(w, op, min, max, k, chains) ensures Strip(c) in Ended(w, op, min, max, k, Stripped(chains)) {
      assert Strip(c) in Stripped(chains);
    }
  }

  lemma ViewOfNext(mode: Mode, w: World, op: Plan, min: nat, max: nat, k: nat, chains: set<Body>)
    ensures View(mode, Next(w, op, max, k, View(mode, chains))) == View(mode, Next(w, op, max, k, chains))
    ensures Ended(w, op, min, max, k, View(mode, chains)) == View(mode, Ended(w, op, min, max, k, chains))
  {
    NextStripped(w, op, max, k, chains);
    EndedStripped(w, op, min, max, k, chains);
  }

  // --------------------------------------------------------------------------
  // Dependencies
  // --------------------------------------------------------------------------

  // The operand was matched from all the ends of the chain.
  ghost predicate ChainTried(mode: Mode, w: World, obs: set<Observable>, op: Plan, c: Body, origin: Position) {
    forall q :: q in c.content.ends ==> Suffices(mode, w, obs, op, q, c.refs, q == origin)
  }

  ghost predicate ChainsTried(mode: Mode, w: World, obs: set<Observable>, op: Plan, max: nat, k: nat, chains: set<Body>,
      origin: Position) {
    k < max ==> forall c :: c in chains ==> ChainTried(mode, w, obs, op, c, origin)
  }

  ghost predicate LayersTried(mode: Mode, w: World, obs: set<Observable>, op: Plan, max: nat, n: nat, top: Body,
      origin: Position) {
    forall k: nat :: k < n ==> ChainsTried(mode, w, obs, op, max, k, Layer(w, op, max, k, top), origin)
  }

  lemma ChainTriedMonotone(mode: Mode, w: World, a: set<Observable>, b: set<Observable>, op: Plan, c: Body,
      origin: Position)
    requires a <= b && ChainTried(mode, w, a, op, c, origin)
    ensures ChainTried(mode, w, b, op, c, origin)
  {
    forall q | q in c.content.ends ensures Suffices(mode, w, b, op, q, c.refs, q == origin) {
      SufficesMonotone(mode, w, a, b, op, q, c.refs, q == origin);
    }
  }

  lemma LayersTriedMonotone(mode: Mode, w: World, a: set<Observable>, b: set<Observable>, op: Plan, max: nat, n: nat,
      top: Body, origin: Position)
    requires a <= b && LayersTried(mode, w, a, op, max, n, top, origin)
    ensures LayersTried(mode, w, b, op, max, n, top, origin)
  {
    forall k: nat | k < n ensures ChainsTried(mode, w, b, op, max, k, Layer(w, op, max, k, top), origin) {
      assert ChainsTried(mode, w, a, op, max, k, Layer(w, op, max, k, top), origin);
      if k < max {
        forall c | c in Layer(w, op, max, k, top) ensures ChainTried(mode, w, b, op, c, origin) {
          ChainTriedMonotone(mode, w, a, b, op, c, origin);
        }
      }
    }
  }

  ghost predicate ChainComparable(op: Plan, c: Body, g: Graph, h: Graph, origin: Position) {
    forall q :: q in c.content.ends ==> Comparable(op, q, g, h, q == origin)
  }

  lemma SameContinuations(mode: Mode, w: World, h: Graph, obs: set<Observable>, op: Plan, max: nat, k: nat, c: Body,
      origin: Position)
    requires !mode.First? && Alike(w.graph, h, obs) && (k < max ==> ChainTried(mode, w, obs, op, c, origin))
    requires ChainComparable(op, c, w.graph, h, origin)
    ensures Continued(w, op, max, k, c) == Continued(World(h, w.cached), op, max, k, c)
  {
    if k < max {
      forall q | q in c.content.ends ensures Sem(w, op, q, c.refs) == Sem(World(h, w.cached), op, q, c.refs) {
        assert Suffices(mode, w, obs, op, q, c.refs, q == origin);
      }
    }
  }

  // The chains of a layer end where they can be continued from.
  ghost predicate LayerEndsOk(g: Graph, op: Plan, k: nat, pos: Position, chains: set<Body>) {
    AllEndsOk(g, pos, k == 0 || Stays(op), chains)
  }

  lemma {:induction false} LayerEnds(w: World, op: Plan, max: nat, k: nat, pos: Position, refs: Refs)
    requires WellFormed(w.graph)
    ensures LayerEndsOk(w.graph, op, k, pos, Layer(w, op, max, k, EmptyAt(pos, refs)))
  {
    if k > 0 {
      hide Sem, WellFormed, Continued, EndsOk;
      LayerEnds(w, op, max, k - 1, pos, refs);
      var chains := Layer(w, op, max, k - 1, EmptyAt(pos, refs));
      forall c, d | c in chains && d in Continued(w, op, max, k - 1, c)
        ensures EndsOk(w.graph, pos, Stays(op), d.content)
      {
        ContinuedEnds(w, op, max, k - 1, pos, c, d);
      }
    }
  }

  lemma LayerIsComparable(w: World, h: Graph, op: Plan, max: nat, k: nat, pos: Position, refs: Refs, c: Body,
      origin: Position)
    requires WellFormed(w.graph) && WellFormed(h) && Comparable(op, pos, w.graph, h, pos == origin)
    requires c in Layer(w, op, max, k, EmptyAt(pos, refs)) &&
        c in Layer(World(h, w.cached), op, max, k, EmptyAt(pos, refs))
    ensures ChainComparable(op, c, w.graph, h, origin)
  {
    LayerEnds(w, op, max, k, pos, refs);
    LayerEnds(World(h, w.cached), op, max, k, pos, refs);
    assert EndsOk(w.graph, pos, k == 0 || Stays(op), c.content) && EndsOk(h, pos, k == 0 || Stays(op), c.content);
    forall q | q in c.content.ends ensures Comparable(op, q, w.graph, h, q == origin) {
      assert EndOk(w.graph, pos, k == 0 || Stays(op), q) && EndOk(h, pos, k == 0 || Stays(op), q);
    }
  }

  lemma SameContinuationsOfLayer(mode: Mode, w: World, h: Graph, obs: set<Observable>, op: Plan, max: nat, k: nat,
                                 pos: Position, refs: Refs, origin: Position)
    requires !mode.First? && WellFormed(w.graph) && Alike(w.graph, h, obs) &&
        Comparable(op, pos, w.graph, h, pos == origin)
    requires Layer(w, op, max, k, EmptyAt(pos, refs)) == Layer(World(h, w.cached), op, max, k, EmptyAt(pos, refs))
    requires ChainsTried(mode, w, obs, op, max, k, Layer(w, op, max, k, EmptyAt(pos, refs)), origin)
    ensures forall c :: c in Layer(w, op, max, k, EmptyAt(pos, refs)) ==>
      Continued(w, op, max, k, c) == Continued(World(h, w.cached), op, max, k, c)
  {
    var x := World(h, w.cached);
    forall c | c in Layer(w, op, max, k, EmptyAt(pos, refs))
      ensures Continued(w, op, max, k, c) == Continued(x, op, max, k, c)
    {
      LayerIsComparable(w, h, op, max, k, pos, refs, c, origin);
      SameContinuations(mode, w, h, obs, op, max, k, c, origin);
    }
  }

  lemma SameNext(w: World, x: World, op: Plan, min: nat, max: nat, k: nat, chains: set<Body>)
    requires forall c :: c in chains ==> Continued(w, op, max, k, c) == Continued(x, op, max, k, c)
    ensures Next(w, op, max, k, chains) == Next(x, op, max, k, chains)
    ensures Ended(w, op, min, max, k, chains) == Ended(x, op, min, max, k, chains)
  {}

  lemma {:induction false} SameLayers(mode: Mode, w: World, h: Graph, obs: set<Observable>, op: Plan, max: nat, k: nat,
                                      pos: Position, refs: Refs, origin: Position)
    requires !mode.First? && WellFormed(w.graph) && Alike(w.graph, h, obs) &&
        Comparable(op, pos, w.graph, h, pos == origin)
    requires LayersTried(mode, w, obs, op, max, k, EmptyAt(pos, refs), origin)
    ensures Layer(w, op, max, k, EmptyAt(pos, refs)) == Layer(World(h, w.cached), op, max, k, EmptyAt(pos, refs))
  {
    hide Continued, Next, Alike, Comparable, WellFormed;
    if k > 0 {
      var x, top := World(h, w.cached), EmptyAt(pos, refs);
      SameLayers(mode, w, h, obs, op, max, k - 1, pos, refs, origin);
      assert ChainsTried(mode, w, obs, op, max, k - 1, Layer(w, op, max, k - 1, top), origin);
      SameContinuationsOfLayer(mode, w, h, obs, op, max, k - 1, pos, refs, origin);
      SameNext(w, x, op, 0, max, k - 1, Layer(w, op, max, k - 1, top));
    }
  }

  lemma {:induction false} SameEnded(mode: Mode, w: World, h: Graph, obs: set<Observable>, op: Plan, min: nat, max: nat,
      k: nat,
                                     pos: Position, refs: Refs, origin: Position)
    requires !mode.First? && WellFormed(w.graph) && Alike(w.graph, h, obs) &&
        Comparable(op, pos, w.graph, h, pos == origin)
    requires LayersTried(mode, w, obs, op, max, k, EmptyAt(pos, refs), origin)
    ensures EndedBefore(w, op, min, max, k, EmptyAt(pos, refs)) ==
        EndedBefore(World(h, w.cached), op, min, max, k, EmptyAt(pos, refs))
  {
    hide Continued, Next, Alike, Comparable, WellFormed, Ended, Layer;
    if k > 0 {
      SameEnded(mode, w, h, obs, op, min, max, k - 1, pos, refs, origin);
      SameEndedLayer(mode, w, h, obs, op, min, max, k - 1, pos, refs, origin);
    }
  }

  lemma SameEndedLayer(mode: Mode, w: World, h: Graph, obs: set<Observable>, op: Plan, min: nat, max: nat, k: nat,
                       pos: Position, refs: Refs, origin: Position)
    requires !mode.First? && WellFormed(w.graph) && Alike(w.graph, h, obs) &&
        Comparable(op, pos, w.graph, h, pos == origin)
    requires LayersTried(mode, w, obs, op, max, k + 1, EmptyAt(pos, refs), origin)
    ensures Ended(w, op, min, max, k, Layer(w, op, max, k, EmptyAt(pos, refs))) ==
      Ended(World(h, w.cached), op, min, max, k, Layer(World(h, w.cached), op, max, k, EmptyAt(pos, refs)))
  {
    var x, chains := World(h, w.cached), Layer(w, op, max, k, EmptyAt(pos, refs));
    SameLayers(mode, w, h, obs, op, max, k, pos, refs, origin);
    assert ChainsTried(mode, w, obs, op, max, k, chains, origin);
    SameContinuationsOfLayer(mode, w, h, obs, op, max, k, pos, refs, origin);
    SameNext(w, x, op, min, max, k, chains);
  }

  // --------------------------------------------------------------------------
  // The answer
  // --------------------------------------------------------------------------

  // The drafts are the chains that ended, and either there are no more chains, or they are enough.
  ghost predicate RepeatFound(mode: Mode, w: World, p: Plan, k: nat, top: Body, ds: seq<Draft>)
    requires p.PRepetition?
  {
    if Layer(w, p.operand, p.max, k, top) == {} then
      Bodies(ds) == View(AllMatches(mode), EndedBefore(w, p.operand, p.min, p.max, k, top))
    else
      mode.First? && ds != [] &&
      Bodies(ds) <= View(AllMatches(mode), Ended(w, p.operand, p.min, p.max, k, Layer(w, p.operand, p.max, k, top)))
  }

  ghost predicate SomeEndedTried(mode: Mode, w: World, obs: set<Observable>, p: Plan, k: nat, top: Body,
      origin: Position)
    requires p.PRepetition?
  {
    exists c :: c in Ended(w, p.operand, p.min, p.max, k, Layer(w, p.operand, p.max, k, top)) &&
      (k < p.max ==> ChainTried(mode, w, obs, p.operand, c, origin))
  }

  lemma RepeatSuffices(mode: Mode, w: World, p: Plan, k: nat, pos: Position, refs: Refs, obs: set<Observable>,
      origin: Position)
    requires p.PRepetition? && WellFormed(w.graph)
    requires LayersTried(AllMatches(mode), w, obs, p.operand, p.max, k, EmptyAt(pos, refs), origin)
    requires Layer(w, p.operand, p.max, k, EmptyAt(pos, refs)) == {} ||
      (mode.First? && SomeEndedTried(AllMatches(mode), w, obs, p, k, EmptyAt(pos, refs), origin))
    ensures Suffices(mode, w, obs, p, pos, refs, pos == origin)
  {
    var op, min, max, top := p.operand, p.min, p.max, EmptyAt(pos, refs);
    forall h: Graph | Alike(w.graph, h, obs) && Comparable(p, pos, w.graph, h, pos == origin)
      ensures Unchanged(mode, Sem(w, p, pos, refs), Sem(World(h, w.cached), p, pos, refs))
    {
      var x := World(h, w.cached);
      assert Comparable(op, pos, w.graph, h, pos == origin);
      SameLayers(AllMatches(mode), w, h, obs, op, max, k, pos, refs, origin);
      if Layer(w, op, max, k, top) == {} {
        SameEnded(AllMatches(mode), w, h, obs, op, min, max, k, pos, refs, origin);
        RepeatIsEnded(w, op, min, max, k, top);
        RepeatIsEnded(x, op, min, max, k, top);
      } else {
        var c :| c in Ended(w, op, min, max, k, Layer(w, op, max, k, top)) &&
            (k < max ==> ChainTried(AllMatches(mode), w, obs, op, c, origin));
        LayerIsComparable(w, h, op, max, k, pos, refs, c, origin);
        SameContinuations(AllMatches(mode), w, h, obs, op, max, k, c, origin);
        assert c in Ended(x, op, min, max, k, Layer(x, op, max, k, top));
        EndedIsFound(w, op, min, max, k, top);
        EndedIsFound(x, op, min, max, k, top);
      }
    }
  }

  lemma ViewMonotone(mode: Mode, s: set<Body>, t: set<Body>)
    requires s <= t
    ensures View(mode, s) <= View(mode, t)
  {}

  lemma RepeatGood(mode: Mode, w: World, p: Plan, k: nat, start: Start, ds: seq<Draft>, obs: set<Observable>)
    requires p.PRepetition? && WellFormed(w.graph) && StartsOk(start, ds)
    requires var top := EmptyAt(start.position, start.refs);
      LayersTried(AllMatches(mode), w, obs, p.operand, p.max, k, top, start.origin) &&
      RepeatFound(mode, w, p, k, top, ds) &&
      (Layer(w, p.operand, p.max, k, top) == {} || SomeEndedTried(AllMatches(mode), w, obs, p, k, top, start.origin))
    ensures Good(mode, w, p, start, ds, obs)
  {
    var op, min, max, pos, refs := p.operand, p.min, p.max, start.position, start.refs;
    var top, am := EmptyAt(pos, refs), AllMatches(mode);
    var s := SemRepeat(w, op, min, max, 0, top);
    assert Sem(w, p, pos, refs) == s;
    RepeatSuffices(mode, w, p, k, pos, refs, obs, start.origin);
    EndedIsFound(w, op, min, max, k, top);
    BodiesEmpty(ds);
    if Layer(w, op, max, k, top) == {} {
      RepeatIsEnded(w, op, min, max, k, top);
      FoundAllIsFoundAny(mode, s, ds);
    }
    assert Bodies(ds) <= View(am, s) by {
      ViewMonotone(am, Ended(w, op, min, max, k, Layer(w, op, max, k, top)), s);
      ViewMonotone(am, EndedBefore(w, op, min, max, k, top), s);
    }
    RepeatKeeps(am, w, p, pos, refs, ds);
  }

  lemma RepeatKeeps(am: Mode, w: World, p: Plan, pos: Position, refs: Refs, ds: seq<Draft>)
    requires Bodies(ds) <= View(am, Sem(w, p, pos, refs))
    ensures KeepsRefs(p, refs, ds)
  {
    hide Sem, Changed, Bound, SetNames, Incl;
    MatchesRespect(w, p, pos, refs, SetNames(refs));
    if Changed(p, SetNames(refs)) == {} {
      forall d | d in ds ensures d.refs == refs {
        assert BodyOf(d) in Bodies(ds);
        var b :| b in Sem(w, p, pos, refs) && b.refs == d.refs;
        assert Respects(refs, b.refs, Bound(p, SetNames(refs)), {});
      }
    }
  }
}
