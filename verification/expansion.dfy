/** Expanding excluding refs. */
module Expansion {
  import opened Base
  import opened RefsAlgebra
  import opened Arrangement
  import opened Plans
  import opened Semantics
  import opened Dependencies
  import opened Matching

  function NegativeNames(r: set<Literal>): set<RefName> { set l | l in r && l.negative :: l.name }

  function Excluded(r: set<Literal>, x: RefName): set<VertexID> {
    set l | l in r && l.negative && l.name == x :: l.value
  }

  function Candidates(g: Graph, r: set<Literal>, x: RefName): set<VertexID> { g.vertices - Excluded(r, x) }

  // Refs that are set the same, and that set the others to vertices that aren't excluded.
  ghost predicate IsVariant(g: Graph, r: Refs, v: Refs) {
    (forall l :: l in v ==> !l.negative) &&
    (forall l :: l in r && !l.negative ==> l in v) &&
    (forall l :: l in v ==> l in r || (l.name in NegativeNames(r) && l.value in Candidates(g, r, l.name))) &&
    (forall x :: x in NegativeNames(r) ==> IsSet(v, x))
  }

  lemma SetOneLess(r: Refs, x: RefName, w: VertexID)
    requires x in NegativeNames(r)
    ensures NegativeNames(CopyAndSet(r, x, w)) == NegativeNames(r) - {x}
    ensures forall y :: y != x ==> Excluded(CopyAndSet(r, x, w), y) == Excluded(r, y)
  {}

  lemma VariantSets(g: Graph, r: Refs, x: RefName, v: Refs) returns (w: VertexID)
    requires x in NegativeNames(r) && IsVariant(g, r, v)
    ensures w in Candidates(g, r, x) && IsVariant(g, CopyAndSet(r, x, w), v)
  {
    w := ValueOf(v, x);
    var l := Literal(x, false, w);
    assert l in v;
    var m :| m in r && m.negative && m.name == x;
    assert l !in r by { assert l in r ==> l == m; }
    SetOneLess(r, x, w);
    var q := CopyAndSet(r, x, w);
    forall k | k in v ensures k in q || (k.name in NegativeNames(q) && k.value in Candidates(g, q, k.name)) {
      if k.name == x { assert k == l; }
    }
    forall k | k in q && !k.negative ensures k in v {}
  }

  lemma VariantOfSet(g: Graph, r: Refs, x: RefName, w: VertexID, v: Refs)
    requires x in NegativeNames(r) && w in Candidates(g, r, x) && IsVariant(g, CopyAndSet(r, x, w), v)
    ensures IsVariant(g, r, v)
  {
    var q := CopyAndSet(r, x, w);
    SetOneLess(r, x, w);
    assert Literal(x, false, w) in q;
    forall l | l in r && !l.negative ensures l in v {
      var m :| m in r && m.negative && m.name == x;
      assert l.name == x ==> l == m;
      assert l in q;
    }
    forall l | l in v ensures l in r || (l.name in NegativeNames(r) && l.value in Candidates(g, r, l.name)) {
      if l in q && l.name == x { assert l == Literal(x, false, w); }
    }
    forall y | y in NegativeNames(r) ensures IsSet(v, y) {
      if y == x { assert Literal(x, false, w) in v; }
    }
  }

  lemma NothingToSet(g: Graph, r: Refs, v: Refs)
    requires NegativeNames(r) == {}
    ensures IsVariant(g, r, v) <==> v == r
    ensures !HasNegatives(r)
  {
    forall l | l in r ensures !l.negative { assert l.negative ==> l.name in NegativeNames(r); }
  }

  ghost function SomeNegative(r: Refs): (x: RefName)
    requires NegativeNames(r) != {}
    ensures x in NegativeNames(r)
  {
    var x :| x in NegativeNames(r); x
  }

  ghost function VariantsOf(g: Graph, r: Refs): (vs: set<Refs>)
    decreases |NegativeNames(r)|
  {
    if NegativeNames(r) == {} then {r}
    else
      var x := SomeNegative(r);
      SetShrinks(r, x);
      set w, v | w in Candidates(g, r, x) && v in VariantsOf(g, CopyAndSet(r, x, w)) :: v
  }

  lemma SetShrinks(r: Refs, x: RefName)
    requires x in NegativeNames(r)
    ensures forall w: VertexID :: |NegativeNames(CopyAndSet(r, x, w))| < |NegativeNames(r)|
  {
    forall w: VertexID ensures |NegativeNames(CopyAndSet(r, x, w))| < |NegativeNames(r)| {
      SetOneLess(r, x, w);
    }
  }

  lemma {:induction false} VariantsAreAll(g: Graph, r: Refs, v: Refs)
    ensures v in VariantsOf(g, r) <==> IsVariant(g, r, v)
    decreases |NegativeNames(r)|
  {
    if NegativeNames(r) == {} {
      NothingToSet(g, r, v);
    } else {
      var x := SomeNegative(r);
      SetShrinks(r, x);
      if IsVariant(g, r, v) {
        var w := VariantSets(g, r, x, v);
        VariantsAreAll(g, CopyAndSet(r, x, w), v);
      }
      if v in VariantsOf(g, r) {
        var w :| w in Candidates(g, r, x) && v in VariantsOf(g, CopyAndSet(r, x, w));
        VariantsAreAll(g, CopyAndSet(r, x, w), v);
        VariantOfSet(g, r, x, w, v);
      }
    }
  }

  // --------------------------------------------------------------------------
  // Variants and assignments
  // --------------------------------------------------------------------------

  // The assignment satisfies the refs, and gives those that are only excluded some vertices a vertex of the graph.
  ghost predicate IsAnswer(g: Graph, r: Refs, s: Assignment) {
    Sat(r, s) && forall l :: l in r && l.negative ==> s(l.name) in g.vertices
  }

  // All the refs set as the assignment says.
  ghost function SetAs(r: Refs, s: Assignment): Refs { set l | l in r :: Literal(l.name, false, s(l.name)) }

  // So variants are exactly the answers that the refs allow.
  lemma VariantsAreAnswers(g: Graph, r: Refs, v: Refs)
    ensures v in VariantsOf(g, r) <==> exists s: Assignment :: IsAnswer(g, r, s) && v == SetAs(r, s)
    ensures v in VariantsOf(g, r) ==> Incl(v, r)
  {
    VariantsAreAll(g, r, v);
    if IsVariant(g, r, v) {
      VariantIsInside(g, r, v);
      PointIsInside(v, {});
      VariantIsAnswer(g, r, v, Point(v, {}));
    }
    if s: Assignment :| IsAnswer(g, r, s) && v == SetAs(r, s) {
      AnswerIsVariant(g, r, s);
    }
  }

  lemma VariantIsInside(g: Graph, r: Refs, v: Refs)
    requires IsVariant(g, r, v)
    ensures Incl(v, r)
  {
    forall s: Assignment, l | Sat(v, s) && l in r ensures Holds(l, s) {
      if l.negative {
        assert l.name in NegativeNames(r);
        var m := Literal(l.name, false, ValueOf(v, l.name));
        assert m in v && Holds(m, s);
        assert l.value in Excluded(r, l.name);
      }
    }
  }

  lemma VariantIsAnswer(g: Graph, r: Refs, v: Refs, s: Assignment)
    requires IsVariant(g, r, v) && Incl(v, r) && Sat(v, s)
    ensures IsAnswer(g, r, s) && v == SetAs(r, s)
  {
    forall l | l in r ensures Literal(l.name, false, s(l.name)) in v && (l.negative ==> s(l.name) in g.vertices) {
      if l.negative {
        assert l.name in NegativeNames(r);
        var m := Literal(l.name, false, ValueOf(v, l.name));
        assert m in v && Holds(m, s) && m !in r by { assert m in r ==> m == l; }
      } else {
        assert Holds(l, s);
      }
    }
    forall m | m in v ensures exists l :: l in r && m == Literal(l.name, false, s(l.name)) {
      assert Holds(m, s);
      if m !in r {
        var l :| l in r && l.negative && l.name == m.name;
      }
    }
  }

  lemma AnswerIsVariant(g: Graph, r: Refs, s: Assignment)
    requires IsAnswer(g, r, s)
    ensures IsVariant(g, r, SetAs(r, s))
  {
    var v := SetAs(r, s);
    forall l | l in r && !l.negative ensures l in v {
      assert Holds(l, s) && l == Literal(l.name, false, s(l.name));
    }
    forall m | m in v ensures m in r || (m.name in NegativeNames(r) && m.value in Candidates(g, r, m.name)) {
      var l :| l in r && m == Literal(l.name, false, s(l.name));
      assert Holds(l, s);
      if l.negative {
        forall k | k in r && k.negative && k.name == l.name ensures k.value != m.value { assert Holds(k, s); }
      } else {
        assert m == l;
      }
    }
    forall x | x in NegativeNames(r) ensures IsSet(v, x) {
      var l :| l in r && l.negative && l.name == x;
      assert Literal(l.name, false, s(l.name)) in v;
    }
  }

  ghost function Expanded(g: Graph, s: set<Body>): set<Body> {
    set b, v | b in s && v in VariantsOf(g, b.refs) :: Body(b.content, v)
  }

  // One of the subgraphs, with its refs set to an answer that they allow.
  ghost predicate SetsSome(g: Graph, s: set<Body>, b: Body) {
    exists x, a: Assignment :: x in s && x.content == b.content && IsAnswer(g, x.refs, a) && b.refs == SetAs(x.refs, a)
  }

  lemma ExpandedAreAnswers(g: Graph, s: set<Body>, b: Body)
    ensures b in Expanded(g, s) <==> SetsSome(g, s, b)
  {
    hide VariantsOf, IsAnswer, SetAs;
    forall x | x in s
      ensures b.refs in VariantsOf(g, x.refs) <==>
          exists a: Assignment :: IsAnswer(g, x.refs, a) && b.refs == SetAs(x.refs, a)
    {
      VariantsAreAnswers(g, x.refs, b.refs);
    }
    if b in Expanded(g, s) {
      var x, v :| x in s && v in VariantsOf(g, x.refs) && b == Body(x.content, v);
      var a: Assignment :| IsAnswer(g, x.refs, a) && b.refs == SetAs(x.refs, a);
      assert x.content == b.content;
    }
    if SetsSome(g, s, b) {
      var x, a: Assignment :| x in s && x.content == b.content && IsAnswer(g, x.refs, a) && b.refs == SetAs(x.refs, a);
      assert b.refs in VariantsOf(g, x.refs) && b == Body(x.content, b.refs);
    }
  }

  lemma ExpandedUnion(g: Graph, s: set<Body>, t: set<Body>)
    ensures Expanded(g, s + t) == Expanded(g, s) + Expanded(g, t)
  {}

  // --------------------------------------------------------------------------
  // Dependencies
  // --------------------------------------------------------------------------

  // If any vertices are tried, it's observed that there are more of them, or that those used are removed.
  ghost predicate UsesObserved(g: Graph, s: set<Body>, obs: set<Observable>) {
    forall b :: b in s && HasNegatives(b.refs) ==>
      NewVertex in obs && forall v, l :: IsVariant(g, b.refs, v) && l in v && l !in b.refs ==>
          ParticularVertex(l.value) in obs
  }

  lemma SameVariants(g: Graph, h: Graph, b: Body, s: set<Body>, obs: set<Observable>)
    requires UsesObserved(g, s, obs) && b in s && Agrees(g, h, obs)
    ensures VariantsOf(g, b.refs) == VariantsOf(h, b.refs)
  {
    if HasNegatives(b.refs) {
      assert Same(g, h, NewVertex);
      forall v: Refs ensures IsVariant(g, b.refs, v) <==> IsVariant(h, b.refs, v) {
        if IsVariant(g, b.refs, v) {
          forall l | l in v && l !in b.refs ensures l.value in h.vertices {
            assert Same(g, h, ParticularVertex(l.value));
          }
        }
      }
      forall v: Refs ensures v in VariantsOf(g, b.refs) <==> v in VariantsOf(h, b.refs) {
        VariantsAreAll(g, b.refs, v);
        VariantsAreAll(h, b.refs, v);
      }
    } else {
      assert NegativeNames(b.refs) == {};
    }
  }

  lemma SameExpanded(g: Graph, h: Graph, s: set<Body>, obs: set<Observable>)
    requires UsesObserved(g, s, obs) && Agrees(g, h, obs)
    ensures Expanded(g, s) == Expanded(h, s)
  {
    forall b | b in s ensures VariantsOf(g, b.refs) == VariantsOf(h, b.refs) { SameVariants(g, h, b, s, obs); }
  }

  // --------------------------------------------------------------------------
  // Results of whole queries
  // --------------------------------------------------------------------------

  ghost function ResultAt(g: Graph, p: Plan, sp: Position): set<Body> {
    Expanded(g, Sem(World(g, true), p, sp, {}))
  }

  // In all graphs that agree on the observables, the results are the same, even where the start vertex is missing.
  ghost predicate Covered(g: Graph, p: Plan, obs: set<Observable>, sp: Position) {
    Here(p, sp, g) ==> forall h: Graph :: Alike(g, h, obs) ==> ResultAt(h, p, sp) == ResultAt(g, p, sp)
  }

  lemma CoveredMonotone(g: Graph, p: Plan, a: set<Observable>, b: set<Observable>, sp: Position)
    requires a <= b && Covered(g, p, a, sp)
    ensures Covered(g, p, b, sp)
  {
    forall h: Graph | Alike(g, h, b) ensures Alike(g, h, a) { AlikeMonotone(g, h, a, b); }
  }

  lemma ResultIsCovered(g: Graph, p: Plan, obs: set<Observable>, sp: Position)
    requires Suffices(Normal, World(g, true), obs, p, sp, {}, true)
    requires UsesObserved(g, Sem(World(g, true), p, sp, {}), obs)
    ensures Covered(g, p, obs, sp)
  {
    var w := World(g, true);
    forall h: Graph | Alike(g, h, obs) && Here(p, sp, g) ensures ResultAt(h, p, sp) == ResultAt(g, p, sp) {
      assert Alike(w.graph, h, obs) && Comparable(p, sp, g, h, true);
      assert Sem(World(h, w.cached), p, sp, {}) == Sem(w, p, sp, {});
      SameExpanded(g, h, Sem(w, p, sp, {}), obs);
    }
  }

  // --------------------------------------------------------------------------
  // Expanding
  // --------------------------------------------------------------------------

  ghost predicate IsVariantOfSome(g: Graph, rs: seq<Refs>, v: Refs) { exists r :: r in rs && IsVariant(g, r, v) }

  // Sets the ref to every candidate in each of the refs.
  method SetEach(g: Graph, rs: seq<Refs>, x: RefName, excluded: set<VertexID>)
      returns (next: seq<Refs>, used: set<VertexID>)
    ensures forall q :: q in next <==> exists r, w :: r in rs && w in g.vertices - excluded && q == CopyAndSet(r, x, w)
    ensures forall q, l :: q in next && l in q && l.name == x ==> l.value in used
    ensures used <= g.vertices
  {
    next, used := [], {};
    var vs := Listed(g.vertices);
    assert forall w :: w in g.vertices <==> w in vs by { assert forall w :: w in vs <==> w in Elems(vs); }
    for i := 0 to |rs|
      invariant forall q :: q in next <==>
          exists r, w :: r in rs[..i] && w in g.vertices - excluded && q == CopyAndSet(r, x, w)
      invariant forall q, l :: q in next && l in q && l.name == x ==> l.value in used
      invariant used <= g.vertices
    {
      assert rs[..i + 1] == rs[..i] + [rs[i]];
      ghost var before := next;
      for j := 0 to |vs|
        invariant forall q :: q in next <==>
            q in before || exists w :: w in vs[..j] && w !in excluded && q == CopyAndSet(rs[i], x, w)
        invariant forall q, l :: q in next && l in q && l.name == x ==> l.value in used
        invariant used <= g.vertices
      {
        assert vs[..j + 1] == vs[..j] + [vs[j]];
        if vs[j] !in excluded {
          next := next + [CopyAndSet(rs[i], x, vs[j])];
          used := used + {vs[j]};
        }
      }
      assert vs[..|vs|] == vs;
    }
    assert rs[..|rs|] == rs;
  }

  // The names that are left are still excluded the same; the others are set to used vertices.
  ghost predicate SetUpTo(g: Graph, r: Refs, names: seq<RefName>, i: nat, rs: seq<Refs>, used: set<VertexID>)
    requires i <= |names|
  {
    (forall q :: q in rs ==> NegativeNames(q) == Elems(names[i..])) &&
    (forall q, y :: q in rs && y in names[i..] ==> Excluded(q, y) == Excluded(r, y)) &&
    (forall q, l :: q in rs && l in q && !l.negative ==> l in r || l.value in used)
  }

  // The refs with the name set to each of the candidates.
  ghost predicate EachSet(g: Graph, r: Refs, x: RefName, rs: seq<Refs>, next: seq<Refs>) {
    forall q :: q in next <==> exists p, w :: p in rs && w in g.vertices - Excluded(r, x) && q == CopyAndSet(p, x, w)
  }

  lemma SetOneMore(g: Graph, r: Refs, names: seq<RefName>, i: nat, rs: seq<Refs>, used: set<VertexID>,
                   next: seq<Refs>, more: set<VertexID>)
    requires i < |names| && NoDuplicates(names) && SetUpTo(g, r, names, i, rs, used) &&
        EachSet(g, r, names[i], rs, next)
    requires forall q, l :: q in next && l in q && l.name == names[i] ==> l.value in more
    ensures SetUpTo(g, r, names, i + 1, next, used + more)
  {
    var x := names[i];
    assert names[i..] == [x] + names[i + 1..] && x in names[i..];
    assert Elems(names[i..]) == {x} + Elems(names[i + 1..]);
    NoDuplicatesAfter(names, i);
    forall q | q in next
      ensures NegativeNames(q) == Elems(names[i + 1..]) &&
          (forall y :: y in names[i + 1..] ==> Excluded(q, y) == Excluded(r, y)) &&
        (forall l :: l in q && !l.negative ==> l in r || l.value in used + more)
    {
      var p, w :| p in rs && w in g.vertices - Excluded(r, x) && q == CopyAndSet(p, x, w);
      assert x in NegativeNames(p);
      SetOneLess(p, x, w);
    }
  }

  lemma SameVariantsWhenSet(g: Graph, r: Refs, x: RefName, rs: seq<Refs>, next: seq<Refs>)
    requires EachSet(g, r, x, rs, next) && forall p :: p in rs ==>
        x in NegativeNames(p) && Excluded(p, x) == Excluded(r, x)
    ensures forall v: Refs :: IsVariantOfSome(g, rs, v) <==> IsVariantOfSome(g, next, v)
  {
    hide IsVariant;
    forall v: Refs ensures IsVariantOfSome(g, rs, v) <==> IsVariantOfSome(g, next, v) {
      if IsVariantOfSome(g, rs, v) {
        var p :| p in rs && IsVariant(g, p, v);
        var w := VariantSets(g, p, x, v);
        assert CopyAndSet(p, x, w) in next;
      }
      if IsVariantOfSome(g, next, v) {
        var q :| q in next && IsVariant(g, q, v);
        var p, w :| p in rs && w in g.vertices - Excluded(r, x) && q == CopyAndSet(p, x, w);
        VariantOfSet(g, p, x, w, v);
      }
    }
  }

  // All the variants of the refs, and the vertices tried.
  method Variants(g: Graph, r: Refs) returns (vs: seq<Refs>, used: set<VertexID>)
    ensures Elems(vs) == VariantsOf(g, r)
    ensures forall v, l :: v in vs && l in v ==> l in r || l.value in used
  {
    vs, used := [r], {};
    var names := Listed(NegativeNames(r));
    assert names[0..] == names;
    assert forall v: Refs :: IsVariantOfSome(g, [r], v) <==> IsVariant(g, r, v) by { assert r in [r]; }
    for i := 0 to |names|
      invariant SetUpTo(g, r, names, i, vs, used)
      invariant forall v: Refs :: IsVariantOfSome(g, vs, v) <==> IsVariant(g, r, v)
    {
      ghost var rs, before := vs, used;
      var more;
      vs, more := SetEach(g, vs, names[i], Excluded(r, names[i]));
      used := used + more;
      assert names[i] in names[i..];
      SetOneMore(g, r, names, i, rs, before, vs, more);
      SameVariantsWhenSet(g, r, names[i], rs, vs);
    }
    forall v: Refs ensures v in vs <==> v in VariantsOf(g, r) {
      VariantsAreAll(g, r, v);
      forall q | q in vs ensures IsVariant(g, q, v) <==> v == q { NothingToSet(g, q, v); }
    }
    forall v, l | v in vs && l in v ensures l in r || l.value in used {
      assert NegativeNames(v) == {};
      assert l.negative ==> l.name in NegativeNames(v);
    }
  }

  ghost function ObsOfUsed(used: set<VertexID>): set<Observable> {
    {NewVertex} + set v | v in used :: ParticularVertex(v)
  }

  ghost predicate ExpandedAll(g: Graph, ds: seq<Draft>, es: seq<Draft>, used: set<VertexID>, any: bool) {
    Bodies(es) == Expanded(g, Bodies(ds)) &&
    (any <==> exists d :: d in ds && HasNegatives(d.refs)) &&
    (forall e :: e in es ==> exists d :: d in ds && d.start == e.start) &&
    forall d, v, l :: d in ds && v in VariantsOf(g, d.refs) && l in v ==> l in d.refs || l.value in used
  }

  // Replaces drafts whose refs are only excluded some vertices.
  method ExpandNegatives(g: Graph, ds: seq<Draft>) returns (es: seq<Draft>, used: set<VertexID>, any: bool)
    ensures ExpandedAll(g, ds, es, used, any)
    ensures forall b :: b in Bodies(es) <==> SetsSome(g, Bodies(ds), b)
  {
    es, used, any := [], {}, false;
    assert Expanded(g, Bodies(ds[..0])) == {};
    for i := 0 to |ds|
      invariant ExpandedAll(g, ds[..i], es, used, any)
    {
      var added: seq<Draft>;
      ghost var before := es;
      if !HasNegatives(ds[i].refs) {
        added := [ds[i]];
        PositiveStays(g, ds[i]);
        ExpandedOneMore(g, ds, i, es, added, used, {}, any);
        es := es + added;
      } else {
        var vs, more := Variants(g, ds[i].refs);
        added := WithEachRefs(ds[i], vs);
        ExpandedOneMore(g, ds, i, es, added, used, more, any);
        es, used, any := es + added, used + more, true;
      }
    }
    assert ds[..|ds|] == ds;
    forall b ensures b in Bodies(es) <==> SetsSome(g, Bodies(ds), b) { ExpandedAreAnswers(g, Bodies(ds), b); }
  }

  ghost function WithVariants(c: Content, vs: set<Refs>): set<Body> { set v | v in vs :: Body(c, v) }

  lemma PositiveStays(g: Graph, d: Draft)
    requires !HasNegatives(d.refs)
    ensures VariantsOf(g, d.refs) == {d.refs}
    ensures Bodies([d]) == WithVariants(BodyOf(d).content, {d.refs})
  {
    assert NegativeNames(d.refs) == {};
    assert Bodies([d]) == {BodyOf(d)} by { assert d in [d]; }
  }

  lemma ExpandedOneMore(g: Graph, ds: seq<Draft>, i: nat, es: seq<Draft>, added: seq<Draft>, used: set<VertexID>,
                        more: set<VertexID>, any: bool)
    requires i < |ds| && ExpandedAll(g, ds[..i], es, used, any)
    requires Bodies(added) == WithVariants(BodyOf(ds[i]).content, VariantsOf(g, ds[i].refs))
    requires forall e :: e in added ==> e.start == ds[i].start
    requires forall v, l :: v in VariantsOf(g, ds[i].refs) && l in v ==> l in ds[i].refs || l.value in more
    ensures ExpandedAll(g, ds[..i + 1], es + added, used + more, any || HasNegatives(ds[i].refs))
  {
    hide VariantsOf, HasNegatives;
    var d := ds[i];
    assert ds[..i + 1] == ds[..i] + [d];
    BodiesAppend(ds[..i], [d]);
    BodiesAppend(es, added);
    ExpandedUnion(g, Bodies(ds[..i]), Bodies([d]));
    assert Bodies([d]) == {BodyOf(d)} by { assert d in [d]; }
    assert Expanded(g, {BodyOf(d)}) == WithVariants(BodyOf(d).content, VariantsOf(g, d.refs));
  }

  method WithEachRefs(d: Draft, vs: seq<Refs>) returns (es: seq<Draft>)
    ensures Bodies(es) == WithVariants(BodyOf(d).content, Elems(vs))
    ensures forall e :: e in es ==> e.start == d.start
  {
    es := [];
    for i := 0 to |vs|
      invariant Bodies(es) == WithVariants(BodyOf(d).content, Elems(vs[..i]))
      invariant forall e :: e in es ==> e.start == d.start
    {
      var e := d.(refs := vs[i]);
      ElemsPrefix(vs, i);
      BodiesAppend(es, [e]);
      assert Bodies([e]) == {BodyOf(e)} by { assert e in [e]; }
      es := es + [e];
    }
    ElemsWhole(vs);
  }

  lemma UsedAreObserved(g: Graph, s: set<Body>, ds: seq<Draft>, es: seq<Draft>, used: set<VertexID>, any: bool,
      obs: set<Observable>)
    requires ExpandedAll(g, ds, es, used, any) && Bodies(ds) == s && (any ==> ObsOfUsed(used) <= obs)
    ensures UsesObserved(g, s, obs)
  {
    forall b | b in s && HasNegatives(b.refs)
      ensures NewVertex in obs
      ensures forall v, l :: IsVariant(g, b.refs, v) && l in v && l !in b.refs ==> ParticularVertex(l.value) in obs
    {
      var d :| d in ds && BodyOf(d) == b;
      forall v, l | IsVariant(g, b.refs, v) && l in v && l !in b.refs ensures ParticularVertex(l.value) in obs {
        VariantsAreAll(g, b.refs, v);
        assert l.value in used;
      }
    }
  }
}
