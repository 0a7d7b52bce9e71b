/** When drafts of subgraphs, and dependencies, are a right answer for a plan. */
module Matching {
  import opened Base
  import opened RefsAlgebra
  import opened Plans
  import opened Semantics
  import opened RefTracking
  import opened Dependencies

  // In Normal mode drafts are complete. In RefsOnly mode they lack vertices and edges, and in First mode one is
  // enough.
  datatype Mode = Normal | First | RefsOnly

  function AllMatches(mode: Mode): Mode { if mode.Normal? then Normal else RefsOnly }

  function NoContents(mode: Mode): Mode { if mode.First? then First else RefsOnly }

  datatype Draft = Draft(start: Position, ends: seq<Position>, vertices: seq<VertexID>, edges: seq<Edge>, refs: Refs)

  datatype Start = Start(origin: Position, position: Position, refs: Refs)

  ghost function BodyOf(d: Draft): Body { Body(Content(Elems(d.ends), Elems(d.vertices), Elems(d.edges)), d.refs) }

  // Finalized subgraphs of the drafts.
  ghost function Bodies(ds: seq<Draft>): set<Body> { set d | d in ds :: BodyOf(d) }

  ghost function StripContent(c: Content): Content { Content(c.ends, {}, {}) }

  ghost function Strip(b: Body): Body { Body(StripContent(b.content), b.refs) }

  ghost function Stripped(s: set<Body>): set<Body> { set b | b in s :: Strip(b) }

  ghost function View(mode: Mode, s: set<Body>): set<Body> { if mode.Normal? then s else Stripped(s) }

  ghost predicate Found(mode: Mode, s: set<Body>, ds: seq<Draft>) {
    if mode.First? then ds == [] <==> s == {} else Bodies(ds) == View(mode, s)
  }

  ghost predicate Unchanged(mode: Mode, s: set<Body>, t: set<Body>) {
    if mode.First? then s == {} <==> t == {} else s == t
  }

  // --------------------------------------------------------------------------
  // Sufficient dependencies
  // --------------------------------------------------------------------------

  ghost predicate Alike(g: Graph, h: Graph, obs: set<Observable>) { WellFormed(h) && Agrees(g, h, obs) }

  // The start vertex is there, if the plan tests it. In the other graph it may be missing if the position is the
  // origin of the match, as matching depends on vertices tested there.
  ghost predicate Comparable(p: Plan, pos: Position, g: Graph, h: Graph, atOrigin: bool) {
    Here(p, pos, g) && (atOrigin || Here(p, pos, h))
  }

  // In all graphs that agree on the observables, the plan matches the same.
  ghost predicate Suffices(mode: Mode, w: World, obs: set<Observable>, p: Plan, pos: Position, refs: Refs,
      atOrigin: bool) {
    forall h: Graph :: Alike(w.graph, h, obs) && Comparable(p, pos, w.graph, h, atOrigin) ==>
      Unchanged(mode, Sem(w, p, pos, refs), Sem(World(h, w.cached), p, pos, refs))
  }

  ghost predicate KeepsRefs(p: Plan, refs: Refs, ds: seq<Draft>) {
    Changed(p, SetNames(refs)) == {} ==> forall d :: d in ds ==> d.refs == refs
  }

  ghost predicate StartsOk(start: Start, ds: seq<Draft>) {
    forall d :: d in ds ==> d.start == start.origin || d.start == start.position
  }

  predicate AtOrigin(start: Start) { start.position == start.origin }

  // The drafts and the observables are a right answer for the plan.
  ghost predicate Good(mode: Mode, w: World, p: Plan, start: Start, ds: seq<Draft>, obs: set<Observable>) {
    Found(mode, Sem(w, p, start.position, start.refs), ds) &&
    Suffices(mode, w, obs, p, start.position, start.refs, AtOrigin(start)) &&
    KeepsRefs(p, start.refs, ds) &&
    StartsOk(start, ds)
  }

  lemma AlikeMonotone(g: Graph, h: Graph, a: set<Observable>, b: set<Observable>)
    requires Alike(g, h, b) && a <= b
    ensures Alike(g, h, a)
  {}

  lemma SufficesMonotone(mode: Mode, w: World, a: set<Observable>, b: set<Observable>, p: Plan, pos: Position,
      refs: Refs, o: bool)
    requires a <= b && Suffices(mode, w, a, p, pos, refs, o)
    ensures Suffices(mode, w, b, p, pos, refs, o)
  {
    forall h: Graph | Alike(w.graph, h, b) ensures Alike(w.graph, h, a) { AlikeMonotone(w.graph, h, a, b); }
  }

  lemma GoodMonotone(mode: Mode, w: World, p: Plan, start: Start, ds: seq<Draft>, a: set<Observable>,
      b: set<Observable>)
    requires a <= b && Good(mode, w, p, start, ds, a)
    ensures Good(mode, w, p, start, ds, b)
  {
    SufficesMonotone(mode, w, a, b, p, start.position, start.refs, AtOrigin(start));
  }

  // Everything that is found in the modes that find everything respects the analysis of refs.
  lemma FoundKeepsRefs(mode: Mode, w: World, p: Plan, pos: Position, refs: Refs, ds: seq<Draft>)
    requires !mode.First? && Found(mode, Sem(w, p, pos, refs), ds)
    ensures KeepsRefs(p, refs, ds)
  {
    hide Sem, Bound, Changed, Incl;
    MatchesRespect(w, p, pos, refs, SetNames(refs));
    if Changed(p, SetNames(refs)) == {} {
      forall d | d in ds ensures d.refs == refs {
        assert BodyOf(d) in View(mode, Sem(w, p, pos, refs));
        var b :| b in Sem(w, p, pos, refs) && b.refs == d.refs;
        assert SameOutside(refs, b.refs, {});
      }
    }
  }

  lemma BodiesAppend(a: seq<Draft>, b: seq<Draft>)
    ensures Bodies(a + b) == Bodies(a) + Bodies(b)
  {}

  lemma BodiesEmpty(ds: seq<Draft>)
    ensures Bodies(ds) == {} <==> ds == []
  {
    if ds != [] { assert BodyOf(ds[0]) in Bodies(ds); }
  }

  lemma ViewEmpty(mode: Mode, s: set<Body>)
    ensures View(mode, s) == {} <==> s == {}
  {
    if s != {} {
      var b :| b in s;
      assert Strip(b) in Stripped(s);
    }
  }

  lemma ViewUnion(mode: Mode, s: set<Body>, t: set<Body>)
    ensures View(mode, s + t) == View(mode, s) + View(mode, t)
  {}

  lemma FoundEmpty(mode: Mode, s: set<Body>, ds: seq<Draft>)
    requires Found(mode, s, ds)
    ensures ds == [] <==> s == {}
  {
    BodiesEmpty(ds);
    ViewEmpty(mode, s);
  }

  // Finding everything is more than finding something.
  lemma FoundAllIsFoundAny(mode: Mode, s: set<Body>, ds: seq<Draft>)
    requires Bodies(ds) == View(AllMatches(mode), s)
    ensures Found(mode, s, ds)
  {
    BodiesEmpty(ds);
    ViewEmpty(AllMatches(mode), s);
  }

  lemma FoundAppend(mode: Mode, s: set<Body>, t: set<Body>, a: seq<Draft>, b: seq<Draft>)
    requires Found(mode, s, a) && Found(mode, t, b)
    ensures Found(mode, s + t, a + b)
  {
    BodiesAppend(a, b);
    ViewUnion(mode, s, t);
    FoundEmpty(mode, s, a);
    FoundEmpty(mode, t, b);
  }

  // --------------------------------------------------------------------------
  // Or
  // --------------------------------------------------------------------------

  lemma UnionSnoc(ss: seq<set<Body>>, s: set<Body>)
    ensures Union(ss + [s]) == Union(ss) + s
  {
    assert forall i :: 0 <= i < |ss| ==> (ss + [s])[i] == ss[i];
    assert (ss + [s])[|ss|] == s;
  }

  lemma SemEachSnoc(w: World, ops: seq<Plan>, i: nat, pos: Position, refs: Refs)
    requires i < |ops|
    ensures SemEach(w, ops[..i + 1], pos, refs) == SemEach(w, ops[..i], pos, refs) + [Sem(w, ops[i], pos, refs)]
  {
    var a, b := SemEach(w, ops[..i + 1], pos, refs), SemEach(w, ops[..i], pos, refs) + [Sem(w, ops[i], pos, refs)];
    forall j | 0 <= j <= i ensures a[j] == b[j] {
      SemEachAt(w, ops[..i + 1], pos, refs, j);
      if j < i { SemEachAt(w, ops[..i], pos, refs, j); }
    }
  }

  lemma OrSnoc(w: World, ops: seq<Plan>, i: nat, pos: Position, refs: Refs)
    requires i < |ops|
    ensures Sem(w, POr(ops[..i + 1]), pos, refs) == Sem(w, POr(ops[..i]), pos, refs) + Sem(w, ops[i], pos, refs)
  {
    SemEachSnoc(w, ops, i, pos, refs);
    UnionSnoc(SemEach(w, ops[..i], pos, refs), Sem(w, ops[i], pos, refs));
  }

  lemma ChangedSnoc(ops: seq<Plan>, i: nat, bound: RefNames)
    requires i < |ops|
    ensures ChangedSome(ops[..i + 1], bound) == ChangedSome(ops[..i], bound) + Changed(ops[i], bound)
  {
    if i == 0 {
      assert ops[..1][1..] == [] && ops[..0] == [];
    } else {
      assert ops[..i + 1][1..] == ops[1..][..i] && ops[..i][1..] == ops[1..][..i - 1];
      ChangedSnoc(ops[1..], i - 1, bound);
    }
  }

  lemma OrStepSuffices(mode: Mode, w: World, ops: seq<Plan>, i: nat, pos: Position, refs: Refs,
                       a: set<Observable>, b: set<Observable>, o: bool)
    requires i < |ops|
    requires Suffices(mode, w, a, POr(ops[..i]), pos, refs, o) && Suffices(mode, w, b, ops[i], pos, refs, o)
    ensures Suffices(mode, w, a + b, POr(ops[..i + 1]), pos, refs, o)
  {
    OrSnoc(w, ops, i, pos, refs);
    assert ops[..i + 1] == ops[..i] + [ops[i]];
    forall h: Graph | Alike(w.graph, h, a + b) && Comparable(POr(ops[..i + 1]), pos, w.graph, h, o)
      ensures Unchanged(mode, Sem(w, POr(ops[..i + 1]), pos, refs),
          Sem(World(h, w.cached), POr(ops[..i + 1]), pos, refs))
    {
      AlikeMonotone(w.graph, h, a, a + b);
      AlikeMonotone(w.graph, h, b, a + b);
      OrSnoc(World(h, w.cached), ops, i, pos, refs);
      assert Unchanged(mode, Sem(w, POr(ops[..i]), pos, refs), Sem(World(h, w.cached), POr(ops[..i]), pos, refs));
      assert Unchanged(mode, Sem(w, ops[i], pos, refs), Sem(World(h, w.cached), ops[i], pos, refs));
    }
  }

  lemma OrStep(mode: Mode, w: World, ops: seq<Plan>, i: nat, start: Start,
               ds: seq<Draft>, a: set<Observable>, es: seq<Draft>, b: set<Observable>)
    requires i < |ops|
    requires Good(mode, w, POr(ops[..i]), start, ds, a) && Good(mode, w, ops[i], start, es, b)
    ensures Good(mode, w, POr(ops[..i + 1]), start, ds + es, a + b)
  {
    var pos, refs := start.position, start.refs;
    OrSnoc(w, ops, i, pos, refs);
    FoundAppend(mode, Sem(w, POr(ops[..i]), pos, refs), Sem(w, ops[i], pos, refs), ds, es);
    OrStepSuffices(mode, w, ops, i, pos, refs, a, b, AtOrigin(start));
    ChangedSnoc(ops, i, SetNames(refs));
  }

  lemma OrEmpty(mode: Mode, w: World, start: Start)
    ensures Good(mode, w, POr([]), start, [], {})
  {}

  // Once something is found in First mode, the other operands don't matter.
  lemma OrEnough(w: World, ops: seq<Plan>, i: nat, start: Start, ds: seq<Draft>, a: set<Observable>)
    requires i <= |ops| && ds != [] && Good(First, w, POr(ops[..i]), start, ds, a)
    ensures Good(First, w, POr(ops), start, ds, a)
  {
    var pos, refs := start.position, start.refs;
    forall x: World ensures Sem(x, POr(ops[..i]), pos, refs) <= Sem(x, POr(ops), pos, refs) {
      OrPrefix(x, ops, i, pos, refs);
    }
    assert forall o :: o in ops[..i] ==> o in ops;
    forall h: Graph | Alike(w.graph, h, a) && Comparable(POr(ops), pos, w.graph, h, AtOrigin(start))
      ensures Unchanged(First, Sem(w, POr(ops), pos, refs), Sem(World(h, w.cached), POr(ops), pos, refs))
    {
      assert Unchanged(First, Sem(w, POr(ops[..i]), pos, refs), Sem(World(h, w.cached), POr(ops[..i]), pos, refs));
    }
    ChangedPrefix(ops, i, SetNames(refs));
  }

  lemma OrPrefix(w: World, ops: seq<Plan>, i: nat, pos: Position, refs: Refs)
    requires i <= |ops|
    ensures Sem(w, POr(ops[..i]), pos, refs) <= Sem(w, POr(ops), pos, refs)
  {
    forall j | 0 <= j < i ensures SemEach(w, ops[..i], pos, refs)[j] == SemEach(w, ops, pos, refs)[j] {
      SemEachAt(w, ops, pos, refs, j);
      SemEachAt(w, ops[..i], pos, refs, j);
    }
  }

  lemma ChangedPrefix(ops: seq<Plan>, i: nat, bound: RefNames)
    requires i <= |ops|
    ensures ChangedSome(ops[..i], bound) <= ChangedSome(ops, bound)
    decreases |ops| - i
  {
    if i < |ops| {
      ChangedSnoc(ops, i, bound);
      ChangedPrefix(ops, i + 1, bound);
    } else {
      assert ops[..i] == ops;
    }
  }
}
