/** Refs that a plan doesn't mention pass through it, and come out unchanged. */
module Framing {
  // So its nested expressions may be matched for the refs they mention only, and shared by all starts that agree on
  // these.

  import opened Base
  import opened RefsAlgebra
  import opened RefsUnions
  import opened Arrangement
  import opened Plans
  import opened Semantics
  import opened RefTracking
  import opened Mentions
  import opened Unfolding

  // --------------------------------------------------------------------------
  // Refs with more literals
  // --------------------------------------------------------------------------

  // The refs together with refs of other names.
  ghost function With(r: Refs, x: Refs): Refs {
    if Names(r) !! Names(x) then
      ApartAreReduced(r, x);
      r + x
    else r
  }

  lemma NotNamed(r: Refs, l: Literal)
    requires l.name !in Names(r)
    ensures l !in r
  {}

  lemma ApartAreReduced(r: Refs, x: Refs)
    requires Names(r) !! Names(x)
    ensures Reduced(r + x)
  {
    forall l, m | l in r && m in x ensures l.name != m.name { assert l.name in Names(r) && m.name in Names(x); }
  }

  ghost function AllWith(rs: set<Refs>, x: Refs): set<Refs> { set r | r in rs :: With(r, x) }

  ghost function Framed(s: set<Body>, x: Refs): set<Body> { set b | b in s :: Body(b.content, With(b.refs, x)) }

  ghost predicate AllNamedIn(rs: set<Refs>, names: RefNames) { forall r :: r in rs ==> Names(r) <= names }

  lemma WithMeaning(r: Refs, x: Refs, names: RefNames, s: Assignment)
    requires Names(r) <= names && Names(x) !! names
    ensures With(r, x) == r + x && (Sat(With(r, x), s) <==> Sat(r, s) && Sat(x, s))
  {
    assert Names(r) !! Names(x);
  }

  lemma WithIsInjective(q: Refs, r: Refs, x: Refs, names: RefNames)
    requires Names(q) <= names && Names(r) <= names && Names(x) !! names && With(q, x) == With(r, x)
    ensures q == r
  {
    WithMeaning(q, x, names, Point(q, {}));
    WithMeaning(r, x, names, Point(r, {}));
    forall l | l in q + r ensures l in q && l in r {
      assert l.name in names && l.name !in Names(x);
      assert l in q + x && l in r + x;
    }
  }

  lemma SetNamesWith(refs: Refs, x: Refs, y: RefName)
    requires Names(refs) !! Names(x) && y !in Names(x)
    ensures IsSet(With(refs, x), y) <==> IsSet(refs, y)
  {
    forall v ensures Literal(y, false, v) !in x { NotNamed(x, Literal(y, false, v)); }
  }

  lemma BindRefWith(refs: Refs, x: Refs, names: RefNames, y: RefName, v: VertexID)
    requires Names(refs) <= names && Names(x) !! names && y in names
    ensures BindRef(With(refs, x), y, v).Some? <==> BindRef(refs, y, v).Some?
    ensures BindRef(refs, y, v).Some? ==>
      BindRef(With(refs, x), y, v).value == With(BindRef(refs, y, v).value, x) &&
          Names(BindRef(refs, y, v).value) <= names
  {
    assert Names(refs) !! Names(x);
    SetNamesWith(refs, x, y);
    forall neg: bool ensures Literal(y, neg, v) in With(refs, x) <==> Literal(y, neg, v) in refs {
      NotNamed(x, Literal(y, neg, v));
    }
    if BindingOf(refs, y, v).Possible? {
      var r := CopyAndSet(refs, y, v);
      assert Names(r) <= names && Names(r) !! Names(x);
      forall l | l in x ensures l.name != y { assert l.name in Names(x); }
      assert CopyAndSet(refs + x, y, v) == r + x;
    }
  }

  // --------------------------------------------------------------------------
  // Regions with more literals
  // --------------------------------------------------------------------------

  ghost function RegionWith(g: Region, x: Refs): Region { Region(AllWith(g.must, x), AllWith(g.mustNot, x)) }

  ghost predicate RegionNamed(g: Region, names: RefNames) { AllNamedIn(g.must, names) && AllNamedIn(g.mustNot, names) }

  lemma InsideWith(g: Region, x: Refs, names: RefNames, s: Assignment)
    requires RegionNamed(g, names) && Names(x) !! names && g.must != {}
    ensures Inside(s, RegionWith(g, x)) <==> Inside(s, g) && Sat(x, s)
  {
    forall r | r in g.must + g.mustNot ensures Sat(With(r, x), s) <==> Sat(r, s) && Sat(x, s) {
      WithMeaning(r, x, names, s);
    }
    hide Sat, With;
    var q :| q in g.must;
    assert With(q, x) in AllWith(g.must, x);
    if Inside(s, RegionWith(g, x)) {
      forall r | r in g.must ensures Sat(r, s) { assert With(r, x) in AllWith(g.must, x); }
      forall r | r in g.mustNot ensures !Sat(r, s) { assert With(r, x) in AllWith(g.mustNot, x); }
    }
  }

  lemma TermsNamed(g: Region, names: RefNames)
    requires RegionNamed(g, names) && g.must != {}
    ensures AllNamedIn(Terms(g), names)
  {
    forall r | r in g.must + g.mustNot ensures SameOutside({}, r, names) {
      forall l: Literal | l.name !in names ensures l !in r { NotNamed(r, l); }
    }
    forall t | t in Terms(g) ensures Names(t) <= names {
      TermsAreSameOutside(g, {}, names, t);
    }
  }

  // The literals of other names than those of x.
  ghost function Rest(c: Refs, x: Refs): Refs { set l | l in c && l.name !in Names(x) }

  lemma RestWithin(c: Refs, g: Region, x: Refs, names: RefNames)
    requires RegionNamed(g, names) && Names(x) !! names && g.must != {} && Within(c, RegionWith(g, x))
    ensures Within(Rest(c, x), g)
  {
    PointIsInside(c, {});
    var inside := Point(c, {});
    forall s: Assignment | Sat(Rest(c, x), s) ensures Inside(s, g) {
      var u := MixedPoint(inside, s, Names(x));
      forall l | l in c ensures Holds(l, u) {
        if l.name in Names(x) { assert Holds(l, inside); } else { assert l in Rest(c, x); }
      }
      assert Inside(u, RegionWith(g, x));
      InsideWith(g, x, names, u);
      forall r | r in g.must + g.mustNot ensures Sat(r, u) <==> Sat(r, s) {
        forall l | l in r ensures Holds(l, u) <==> Holds(l, s) { assert l.name in Names(r); }
      }
    }
  }

  lemma DominatedWith(c: Refs, t: Refs, g: Region, x: Refs, names: RefNames)
    requires RegionNamed(g, names) && Names(x) !! names && g.must != {} && Within(c, RegionWith(g, x))
    requires Implies(Rest(c, x), t) && Names(t) <= names
    ensures Implies(c, With(t, x))
  {
    forall s: Assignment | Sat(c, s) ensures Sat(x, s) { InsideWith(g, x, names, s); }
    ImpliesIsInclusion(c, x);
    WithMeaning(t, x, names, Point(t, {}));
    forall l | l in t + x ensures ImpliesLiteral(c, l) {
      if l in t {
        var m :| m in Rest(c, x) && Entails(m, l);
      }
    }
  }

  lemma ImpliesWith(t: Refs, u: Refs, x: Refs, names: RefNames)
    requires Names(t) <= names && Names(u) <= names && Names(x) !! names && Implies(With(t, x), With(u, x))
    ensures Implies(t, u)
  {
    WithMeaning(t, x, names, Point(t, {}));
    WithMeaning(u, x, names, Point(u, {}));
    forall l | l in u ensures ImpliesLiteral(t, l) {
      assert l in With(u, x) && l.name in names;
      var m :| m in t + x && Entails(m, l);
      NotNamed(x, m);
    }
  }

  lemma DominatingWith(g: Region, x: Refs, names: RefNames)
    requires RegionNamed(g, names) && Names(x) !! names && g.must != {} && AllNamedIn(Terms(g), names)
    ensures Dominating(AllWith(Terms(g), x), RegionWith(g, x))
  {
    hide Sat, With, Within, Implies;
    forall c: Refs | Within(c, RegionWith(g, x)) ensures ImpliesSome(c, AllWith(Terms(g), x)) {
      RestWithin(c, g, x, names);
      var t :| t in Terms(g) && Implies(Rest(c, x), t);
      DominatedWith(c, t, g, x, names);
      assert With(t, x) in AllWith(Terms(g), x);
    }
  }

  // The terms of the region get the same literals.
  lemma TermsWith(g: Region, x: Refs, names: RefNames)
    requires RegionNamed(g, names) && Names(x) !! names && g.must != {}
    ensures Terms(RegionWith(g, x)) == AllWith(Terms(g), x)
  {
    hide Sat, With, Inside, Implies, Dominating, Covering, Within;
    var ts, h := Terms(g), RegionWith(g, x);
    TermsNamed(g, names);
    forall s: Assignment ensures Inside(s, h) <==> Inside(s, g) && Sat(x, s) { InsideWith(g, x, names, s); }
    forall t, s: Assignment | t in ts ensures Sat(With(t, x), s) <==> Sat(t, s) && Sat(x, s) {
      WithMeaning(t, x, names, s);
    }
    var us := AllWith(ts, x);
    WithinWith(ts, g, h, x);
    CoveringWith(ts, g, h, x);
    DominatingWith(g, x, names);
    forall a, b | a in us && b in us && Implies(a, b) ensures a == b {
      var t, u :| t in ts && u in ts && a == With(t, x) && b == With(u, x);
      ImpliesWith(t, u, x, names);
    }
    assert Exact(us, h);
    TermsOf(us, h);
  }

  lemma WithinWith(ts: set<Refs>, g: Region, h: Region, x: Refs)
    requires AllWithin(ts, g) && forall s: Assignment :: Inside(s, h) <==> Inside(s, g) && Sat(x, s)
    requires forall t, s: Assignment :: t in ts ==> (Sat(With(t, x), s) <==> Sat(t, s) && Sat(x, s))
    ensures AllWithin(AllWith(ts, x), h)
  {
    hide Sat, With, Inside;
    forall u, s: Assignment | u in AllWith(ts, x) && Sat(u, s) ensures Inside(s, h) {
      var t :| t in ts && u == With(t, x);
      assert Within(t, g) && Sat(With(t, x), s);
      assert Sat(t, s) && Sat(x, s);
      assert Inside(s, g);
    }
  }

  lemma CoveringWith(ts: set<Refs>, g: Region, h: Region, x: Refs)
    requires Covering(ts, g) && forall s: Assignment :: Inside(s, h) <==> Inside(s, g) && Sat(x, s)
    requires forall t, s: Assignment :: t in ts ==> (Sat(With(t, x), s) <==> Sat(t, s) && Sat(x, s))
    ensures Covering(AllWith(ts, x), h)
  {
    hide Sat, With, Inside;
    forall s: Assignment | Inside(s, h) ensures CoveredBy(s, AllWith(ts, x)) {
      assert CoveredBy(s, ts);
      var t :| t in ts && Sat(t, s);
      assert With(t, x) in AllWith(ts, x);
    }
  }

  lemma CellTermsWith(m: set<Refs>, all: set<Refs>, x: Refs, names: RefNames)
    requires AllNamedIn(all, names) && Names(x) !! names && m <= all && m != {}
    ensures CellTerms(AllWith(m, x), AllWith(all, x)) == AllWith(CellTerms(m, all), x)
  {
    forall q, r | q in all && r in all && With(q, x) == With(r, x) ensures q == r { WithIsInjective(q, r, x, names); }
    assert AllWith(all, x) - AllWith(m, x) == AllWith(all - m, x);
    TermsWith(CellRegion(m, all), x, names);
  }

  // --------------------------------------------------------------------------
  // Joined operands
  // --------------------------------------------------------------------------

  ghost function EachFramed(ss: seq<set<Body>>, x: Refs): (fs: seq<set<Body>>)
    ensures |fs| == |ss|
  {
    seq(|ss|, i requires 0 <= i < |ss| => Framed(ss[i], x))
  }

  ghost function FramedBody(b: Body, x: Refs): Body { Body(b.content, With(b.refs, x)) }

  lemma FramedParts(b: Body, x: Refs)
    ensures FramedBody(b, x).refs == With(b.refs, x) && FramedBody(b, x).content == b.content
  {}

  lemma InFramed(s: set<Body>, b: Body, x: Refs)
    requires b in s
    ensures FramedBody(b, x) in Framed(s, x)
  {}

  lemma UnionFramed(ss: seq<set<Body>>, x: Refs)
    ensures Union(EachFramed(ss, x)) == Framed(Union(ss), x)
  {
    hide With;
    var fs := EachFramed(ss, x);
    forall b | b in Union(fs) ensures b in Framed(Union(ss), x) {
      var i :| 0 <= i < |fs| && b in fs[i];
      var c :| c in ss[i] && b == FramedBody(c, x);
      assert c in Union(ss);
    }
    forall b | b in Framed(Union(ss), x) ensures b in Union(fs) {
      var c :| c in Union(ss) && b == FramedBody(c, x);
      var i :| 0 <= i < |ss| && c in ss[i];
      InFramed(ss[i], c, x);
      assert b in fs[i];
    }
  }

  lemma RefsOfFramed(s: set<Body>, x: Refs)
    ensures RefsOf(Framed(s, x)) == AllWith(RefsOf(s), x)
  {
    hide With;
    forall r | r in AllWith(RefsOf(s), x) ensures r in RefsOf(Framed(s, x)) {
      var q :| q in RefsOf(s) && r == With(q, x);
      var b :| b in s && b.refs == q;
      assert FramedBody(b, x) in Framed(s, x);
    }
    forall r | r in RefsOf(Framed(s, x)) ensures r in AllWith(RefsOf(s), x) {
      var f :| f in Framed(s, x) && f.refs == r;
      var b :| b in s && f == FramedBody(b, x);
      assert b.refs in RefsOf(s);
    }
  }

  lemma WithIn(r: Refs, m: set<Refs>, x: Refs, names: RefNames)
    requires Names(r) <= names && AllNamedIn(m, names) && Names(x) !! names
    ensures With(r, x) in AllWith(m, x) <==> r in m
  {
    if With(r, x) in AllWith(m, x) {
      var q :| q in m && With(r, x) == With(q, x);
      WithIsInjective(q, r, x, names);
    }
  }

  lemma MemberWith(s: set<Body>, m: set<Refs>, x: Refs, names: RefNames)
    requires AllNamed(s, names) && AllNamedIn(m, names) && Names(x) !! names
    ensures HasMember(Framed(s, x), AllWith(m, x)) <==> HasMember(s, m)
  {
    forall b | b in s ensures With(b.refs, x) in AllWith(m, x) <==> b.refs in m { WithIn(b.refs, m, x, names); }
    hide With;
    if HasMember(s, m) {
      var b :| b in s && b.refs in m;
      assert FramedBody(b, x) in Framed(s, x);
    }
    if HasMember(Framed(s, x), AllWith(m, x)) {
      var f :| f in Framed(s, x) && f.refs in AllWith(m, x);
      var b :| b in s && f == FramedBody(b, x);
    }
  }

  lemma CoversWith(ss: seq<set<Body>>, m: set<Refs>, x: Refs, names: RefNames)
    requires AllNamed(Union(ss), names) && AllNamedIn(m, names) && Names(x) !! names
    ensures CoversAll(EachFramed(ss, x), AllWith(m, x)) <==> CoversAll(ss, m)
  {
    var fs := EachFramed(ss, x);
    forall i | 0 <= i < |ss| ensures HasMember(fs[i], AllWith(m, x)) <==> HasMember(ss[i], m) {
      forall b | b in ss[i] ensures Names(b.refs) <= names { assert b in Union(ss); }
      MemberWith(ss[i], m, x, names);
    }
    hide HasMember, AllNamed;
    if CoversAll(ss, m) {
      forall i | 0 <= i < |fs| ensures HasMember(fs[i], AllWith(m, x)) { assert HasMember(ss[i], m); }
    }
    if CoversAll(fs, AllWith(m, x)) {
      forall i | 0 <= i < |ss| ensures HasMember(ss[i], m) { assert HasMember(fs[i], AllWith(m, x)); }
    }
  }

  lemma JoinCellWith(ss: seq<set<Body>>, m: set<Refs>, x: Refs, names: RefNames)
    requires AllNamed(Union(ss), names) && m <= RefsOf(Union(ss)) && Names(x) !! names
    ensures JoinCell(EachFramed(ss, x), AllWith(m, x)) <==> JoinCell(ss, m)
  {
    RefsNamed(Union(ss), names);
    UnionFramed(ss, x);
    RefsOfFramed(Union(ss), x);
    CoversWith(ss, m, x, names);
    if m != {} {
      var r :| r in m;
      assert With(r, x) in AllWith(m, x);
    }
    hide CoversAll, With, RefsOf, Union, Framed, AllNamed;
  }

  lemma RefsNamed(s: set<Body>, names: RefNames)
    requires AllNamed(s, names)
    ensures AllNamedIn(RefsOf(s), names)
  {}

  // What members of framed refs are framed from.
  lemma UnframedMembers(all: set<Refs>, x: Refs, n: set<Refs>) returns (m: set<Refs>)
    requires n <= AllWith(all, x)
    ensures m <= all && n == AllWith(m, x)
  {
    m := set r | r in all && With(r, x) in n;
    forall q | q in n ensures q in AllWith(m, x) {
      var r :| r in all && q == With(r, x);
      assert r in m;
    }
  }

  ghost function WithTerms(s: set<Body>, m: set<Refs>, ts: set<Refs>): set<Body> {
    set t, b | t in ts && b in s && b.refs in m :: Body(b.content, t)
  }

  lemma InWithTerms(s: set<Body>, m: set<Refs>, ts: set<Refs>, b: Body, t: Refs)
    requires t in ts && b in s && b.refs in m
    ensures Body(b.content, t) in WithTerms(s, m, ts)
  {}

  lemma FromWithTerms(s: set<Body>, m: set<Refs>, ts: set<Refs>, y: Body) returns (t: Refs, b: Body)
    requires y in WithTerms(s, m, ts)
    ensures t in ts && b in s && b.refs in m && y == Body(b.content, t)
  {
    t, b :| t in ts && b in s && b.refs in m && y == Body(b.content, t);
  }

  lemma WithTermsFramed(s: set<Body>, m: set<Refs>, ts: set<Refs>, x: Refs, names: RefNames)
    requires AllNamed(s, names) && AllNamedIn(m, names) && Names(x) !! names
    ensures WithTerms(Framed(s, x), AllWith(m, x), AllWith(ts, x)) == Framed(WithTerms(s, m, ts), x)
  {
    forall b | b in s ensures With(b.refs, x) in AllWith(m, x) <==> b.refs in m { WithIn(b.refs, m, x, names); }
    hide With, WithTerms;
    forall y | y in WithTerms(Framed(s, x), AllWith(m, x), AllWith(ts, x)) ensures y in Framed(WithTerms(s, m, ts), x) {
      var u, f := FromWithTerms(Framed(s, x), AllWith(m, x), AllWith(ts, x), y);
      var t :| t in ts && u == With(t, x);
      var b :| b in s && f == FramedBody(b, x);
      FramedParts(b, x);
      InWithTerms(s, m, ts, b, t);
      InFramed(WithTerms(s, m, ts), Body(b.content, t), x);
      FramedParts(Body(b.content, t), x);
    }
    forall y | y in Framed(WithTerms(s, m, ts), x) ensures y in WithTerms(Framed(s, x), AllWith(m, x), AllWith(ts, x)) {
      var c :| c in WithTerms(s, m, ts) && y == FramedBody(c, x);
      var t, b := FromWithTerms(s, m, ts, c);
      FramedParts(b, x);
      FramedParts(c, x);
      InFramed(s, b, x);
      InWithTerms(Framed(s, x), AllWith(m, x), AllWith(ts, x), FramedBody(b, x), With(t, x));
    }
  }

  lemma ContentsWith(s: set<Body>, m: set<Refs>, x: Refs, names: RefNames)
    requires AllNamed(s, names) && AllNamedIn(m, names) && Names(x) !! names
    ensures ContentsIn(Framed(s, x), AllWith(m, x)) == ContentsIn(s, m)
  {
    forall b | b in s ensures With(b.refs, x) in AllWith(m, x) <==> b.refs in m { WithIn(b.refs, m, x, names); }
    hide With;
    forall c | c in ContentsIn(s, m) ensures c in ContentsIn(Framed(s, x), AllWith(m, x)) {
      var b :| b in s && b.refs in m && b.content == c;
      assert FramedBody(b, x) in Framed(s, x);
    }
    forall c | c in ContentsIn(Framed(s, x), AllWith(m, x)) ensures c in ContentsIn(s, m) {
      var f :| f in Framed(s, x) && f.refs in AllWith(m, x) && f.content == c;
      var b :| b in s && f == FramedBody(b, x);
    }
  }

  ghost function CellOf(s: set<Body>, m: set<Refs>, merge: bool): set<Body> {
    if merge then MergedCell(s, m) else InCell(s, m)
  }

  lemma CellFramed(s: set<Body>, m: set<Refs>, merge: bool, x: Refs, names: RefNames)
    requires AllNamed(s, names) && Names(x) !! names && m <= RefsOf(s) && m != {}
    ensures CellOf(Framed(s, x), AllWith(m, x), merge) == Framed(CellOf(s, m, merge), x)
  {
    RefsNamed(s, names);
    RefsOfFramed(s, x);
    var ts := CellTerms(m, RefsOf(s));
    CellTermsWith(m, RefsOf(s), x, names);
    assert AllNamedIn(m, names);
    hide CellTerms, AllNamed, AllNamedIn, RefsOf;
    if merge {
      ContentsWith(s, m, x, names);
      MergedFramed(Merged(ContentsIn(s, m)), ts, x);
    } else {
      WithTermsFramed(s, m, ts, x, names);
      assert InCell(s, m) == WithTerms(s, m, ts);
      assert InCell(Framed(s, x), AllWith(m, x)) == WithTerms(Framed(s, x), AllWith(m, x), AllWith(ts, x));
    }
  }

  ghost function SameContent(c: Content, ts: set<Refs>): set<Body> { set t | t in ts :: Body(c, t) }

  lemma MergedFramed(c: Content, ts: set<Refs>, x: Refs)
    ensures SameContent(c, AllWith(ts, x)) == Framed(SameContent(c, ts), x)
  {
    hide With;
    forall y | y in SameContent(c, AllWith(ts, x)) ensures y in Framed(SameContent(c, ts), x) {
      var t :| t in ts && y == Body(c, With(t, x));
      assert Body(c, t) in SameContent(c, ts);
    }
    forall y | y in Framed(SameContent(c, ts), x) ensures y in SameContent(c, AllWith(ts, x)) {
      var b :| b in SameContent(c, ts) && y == FramedBody(b, x);
      assert With(b.refs, x) in AllWith(ts, x);
    }
  }

  ghost function FramedJoinOf(ss: seq<set<Body>>, merge: bool): set<Body> { if merge then AllOf(ss) else AndOf(ss) }

  lemma FromFramedJoin(ss: seq<set<Body>>, merge: bool, y: Body) returns (m: set<Refs>)
    requires y in FramedJoinOf(ss, merge)
    ensures JoinCell(ss, m) && y in CellOf(Union(ss), m, merge)
  {
    hide InCell, MergedCell, JoinCell;
    if merge {
      m :| m <= RefsOf(Union(ss)) && JoinCell(ss, m) && y in MergedCell(Union(ss), m);
    } else {
      m :| m <= RefsOf(Union(ss)) && JoinCell(ss, m) && y in InCell(Union(ss), m);
    }
  }

  lemma InFramedJoin(ss: seq<set<Body>>, merge: bool, m: set<Refs>, y: Body)
    requires JoinCell(ss, m) && y in CellOf(Union(ss), m, merge)
    ensures y in FramedJoinOf(ss, merge)
  {
    assert m <= RefsOf(Union(ss));
    hide InCell, MergedCell, JoinCell, RefsOf, Union;
  }

  lemma JoinFramed(ss: seq<set<Body>>, merge: bool, x: Refs, names: RefNames)
    requires AllNamed(Union(ss), names) && Names(x) !! names
    ensures FramedJoinOf(EachFramed(ss, x), merge) == Framed(FramedJoinOf(ss, merge), x)
  {
    var fs := EachFramed(ss, x);
    UnionFramed(ss, x);
    RefsOfFramed(Union(ss), x);
    hide With, AllNamed, RefsOf, Union, CellOf, FramedJoinOf, CoversAll, EachFramed;
    forall y | y in FramedJoinOf(fs, merge) ensures y in Framed(FramedJoinOf(ss, merge), x) {
      var n := FromFramedJoin(fs, merge, y);
      var m := UnframedMembers(RefsOf(Union(ss)), x, n);
      JoinCellWith(ss, m, x, names);
      CellFramed(Union(ss), m, merge, x, names);
      var b :| b in CellOf(Union(ss), m, merge) && y == FramedBody(b, x);
      InFramedJoin(ss, merge, m, b);
      InFramed(FramedJoinOf(ss, merge), b, x);
    }
    forall y | y in Framed(FramedJoinOf(ss, merge), x) ensures y in FramedJoinOf(fs, merge) {
      var b :| b in FramedJoinOf(ss, merge) && y == FramedBody(b, x);
      var m := FromFramedJoin(ss, merge, b);
      JoinCellWith(ss, m, x, names);
      CellFramed(Union(ss), m, merge, x, names);
      InFramed(CellOf(Union(ss), m, merge), b, x);
      assert y in CellOf(Union(fs), AllWith(m, x), merge);
      InFramedJoin(fs, merge, AllWith(m, x), y);
    }
  }

  // --------------------------------------------------------------------------
  // Steps, concatenations and repetitions
  // --------------------------------------------------------------------------

  // The refs have names of the first set, and the others have other names.
  ghost predicate ApartFromRefs(r: Refs, x: Refs, names: RefNames) { Names(r) <= names && Names(x) !! names }

  lemma JoinWith(h: Body, j: Body, t: Body, x: Refs)
    requires h.content == j.content
    ensures Join(j, FramedBody(t, x)) == FramedBody(Join(h, t), x)
  {}

  lemma AfterFramed(h: Body, s: set<Body>, x: Refs)
    ensures After(FramedBody(h, x), Framed(s, x)) == Framed(After(h, s), x)
  {
    hide With;
    FramedParts(h, x);
    forall y | y in After(FramedBody(h, x), Framed(s, x)) ensures y in Framed(After(h, s), x) {
      var f :| f in Framed(s, x) && y == Join(FramedBody(h, x), f);
      var t :| t in s && f == FramedBody(t, x);
      JoinWith(h, FramedBody(h, x), t, x);
      InFramed(After(h, s), Join(h, t), x);
    }
    forall y | y in Framed(After(h, s), x) ensures y in After(FramedBody(h, x), Framed(s, x)) {
      var j :| j in After(h, s) && y == FramedBody(j, x);
      var t :| t in s && j == Join(h, t);
      JoinWith(h, FramedBody(h, x), t, x);
      InFramed(s, t, x);
    }
  }

  lemma {:induction false} StepsFramed(g: Graph, steps: seq<Step>, pos: Position, refs: Refs, x: Refs, names: RefNames)
    requires BoundBySteps(steps) <= names && ApartFromRefs(refs, x, names)
    ensures SemSteps(g, steps, pos, With(refs, x)) == Framed(SemSteps(g, steps, pos, refs), x)
    decreases |steps|
  {
    if steps == [] {
      assert SemSteps(g, steps, pos, refs) == {EmptyAt(pos, refs)};
    } else {
      match steps[0]
      case VertexStep(m) =>
        if m.Ref().Some? { BindRefWith(refs, x, names, m.Ref().value, pos.v); }
        var matched := VertexMatch(g, m, pos, refs);
        assert VertexMatch(g, m, pos, With(refs, x)) == if matched.Some? then Some(With(matched.value, x)) else None;
        if matched.Some? {
          StepsFramed(g, steps[1..], pos.WithKind(ORBIT), matched.value, x, names);
          AfterFramed(Body(Content({}, {pos.v}, {}), refs), SemSteps(g, steps[1..], pos.WithKind(ORBIT), matched.value),
              x);
        }
      case EdgeStep(m) =>
        forall hop | hop in Hops(g, m, pos)
          ensures SemSteps(g, steps[1..], Position(hop.to, CORE), With(refs, x)) ==
            Framed(SemSteps(g, steps[1..], Position(hop.to, CORE), refs), x)
        {
          StepsFramed(g, steps[1..], Position(hop.to, CORE), refs, x, names);
        }
        HopsFramed(g, steps, pos, refs, x);
    }
  }

  ghost function AfterFramedHops(g: Graph, m: MatchEdge, rest: seq<Step>, pos: Position, refs: Refs): set<Body> {
    set hop, t | hop in Hops(g, m, pos) &&
        t in SemSteps(g, rest, Position(hop.to, CORE), refs) :: Join(HopBody(hop, refs), t)
  }

  lemma HopsFramed(g: Graph, steps: seq<Step>, pos: Position, refs: Refs, x: Refs)
    requires steps != [] && steps[0].EdgeStep?
    requires forall hop :: hop in Hops(g, steps[0].edge, pos) ==>
      SemSteps(g, steps[1..], Position(hop.to, CORE), With(refs, x)) ==
          Framed(SemSteps(g, steps[1..], Position(hop.to, CORE), refs), x)
    ensures SemSteps(g, steps, pos, With(refs, x)) == Framed(SemSteps(g, steps, pos, refs), x)
  {
    var m, rest := steps[0].edge, steps[1..];
    var a, b := AfterFramedHops(g, m, rest, pos, With(refs, x)), AfterFramedHops(g, m, rest, pos, refs);
    assert SemSteps(g, steps, pos, With(refs, x)) == a && SemSteps(g, steps, pos, refs) == b;
    hide SemSteps, Hops, With, AfterFramedHops;
    forall y | y in a ensures y in Framed(b, x) {
      var hop, f := FromHops(g, m, rest, pos, With(refs, x), y);
      var t :| t in SemSteps(g, rest, Position(hop.to, CORE), refs) && f == FramedBody(t, x);
      JoinWith(HopBody(hop, refs), HopBody(hop, With(refs, x)), t, x);
      InHops(g, m, rest, pos, refs, hop, t);
      InFramed(b, Join(HopBody(hop, refs), t), x);
    }
    forall y | y in Framed(b, x) ensures y in a {
      var j :| j in b && y == FramedBody(j, x);
      var hop, t := FromHops(g, m, rest, pos, refs, j);
      JoinWith(HopBody(hop, refs), HopBody(hop, With(refs, x)), t, x);
      InFramed(SemSteps(g, rest, Position(hop.to, CORE), refs), t, x);
      InHops(g, m, rest, pos, With(refs, x), hop, FramedBody(t, x));
    }
  }

  lemma FromHops(g: Graph, m: MatchEdge, rest: seq<Step>, pos: Position, refs: Refs, y: Body)
      returns (hop: Hop, t: Body)
    requires y in AfterFramedHops(g, m, rest, pos, refs)
    ensures hop in Hops(g, m, pos) && t in SemSteps(g, rest, Position(hop.to, CORE), refs) &&
        y == Join(HopBody(hop, refs), t)
  {
    hop, t :| hop in Hops(g, m, pos) && t in SemSteps(g, rest, Position(hop.to, CORE), refs) &&
        y == Join(HopBody(hop, refs), t);
  }

  lemma InHops(g: Graph, m: MatchEdge, rest: seq<Step>, pos: Position, refs: Refs, hop: Hop, t: Body)
    requires hop in Hops(g, m, pos) && t in SemSteps(g, rest, Position(hop.to, CORE), refs)
    ensures Join(HopBody(hop, refs), t) in AfterFramedHops(g, m, rest, pos, refs)
  {}

  lemma ThenFramed(w: World, s: set<Body>, ops: seq<Plan>, x: Refs)
    requires forall h, q :: h in s && q in h.content.ends ==>
      SemConcat(w, ops, q, With(h.refs, x)) == Framed(SemConcat(w, ops, q, h.refs), x)
    ensures ConcatThen(w, Framed(s, x), ops) == Framed(ConcatThen(w, s, ops), x)
  {
    hide SemConcat, With;
    var a, b := ConcatThen(w, Framed(s, x), ops), ConcatThen(w, s, ops);
    forall y | y in a ensures y in Framed(b, x) {
      var f, q, u :| f in Framed(s, x) && q in f.content.ends && u in SemConcat(w, ops, q, f.refs) && y == Join(f, u);
      var h :| h in s && f == FramedBody(h, x);
      FramedParts(h, x);
      var t :| t in SemConcat(w, ops, q, h.refs) && u == FramedBody(t, x);
      JoinWith(h, f, t, x);
      InFramed(b, Join(h, t), x);
    }
    forall y | y in Framed(b, x) ensures y in a {
      var j :| j in b && y == FramedBody(j, x);
      var h, q, t :| h in s && q in h.content.ends && t in SemConcat(w, ops, q, h.refs) && j == Join(h, t);
      FramedParts(h, x);
      JoinWith(h, FramedBody(h, x), t, x);
      InFramed(s, h, x);
      InFramed(SemConcat(w, ops, q, h.refs), t, x);
    }
  }

  lemma LinksFramed(w: World, op: Plan, chain: Body, x: Refs)
    requires forall q :: q in chain.content.ends ==>
        Sem(w, op, q, With(chain.refs, x)) == Framed(Sem(w, op, q, chain.refs), x)
    ensures LinksFrom(w, op, FramedBody(chain, x)) == Framed(LinksFrom(w, op, chain), x)
  {
    hide Sem, With;
    FramedParts(chain, x);
    var a, b := LinksFrom(w, op, FramedBody(chain, x)), LinksFrom(w, op, chain);
    forall y | y in a ensures y in Framed(b, x) {
      var q, u :| q in chain.content.ends && u in Sem(w, op, q, With(chain.refs, x)) &&
          y == Join(FramedBody(chain, x), u);
      var t :| t in Sem(w, op, q, chain.refs) && u == FramedBody(t, x);
      JoinWith(chain, FramedBody(chain, x), t, x);
      InFramed(b, Join(chain, t), x);
    }
    forall y | y in Framed(b, x) ensures y in a {
      var j :| j in b && y == FramedBody(j, x);
      var q, t :| q in chain.content.ends && t in Sem(w, op, q, chain.refs) && j == Join(chain, t);
      JoinWith(chain, FramedBody(chain, x), t, x);
      InFramed(Sem(w, op, q, chain.refs), t, x);
    }
  }

  lemma ChainsFramed(w: World, op: Plan, min: nat, max: nat, k: nat, cs: set<Body>, x: Refs)
    requires forall c :: c in cs ==>
        SemRepeat(w, op, min, max, k, FramedBody(c, x)) == Framed(SemRepeat(w, op, min, max, k, c), x)
    ensures ChainsFrom(w, op, min, max, k, Framed(cs, x)) == Framed(ChainsFrom(w, op, min, max, k, cs), x)
  {
    hide SemRepeat, With;
    var a, b := ChainsFrom(w, op, min, max, k, Framed(cs, x)), ChainsFrom(w, op, min, max, k, cs);
    forall y | y in a ensures y in Framed(b, x) {
      var f :| f in Framed(cs, x) && y in SemRepeat(w, op, min, max, k, f);
      var c :| c in cs && f == FramedBody(c, x);
      var d :| d in SemRepeat(w, op, min, max, k, c) && y == FramedBody(d, x);
      assert d in b;
      InFramed(b, d, x);
    }
    forall y | y in Framed(b, x) ensures y in a {
      var d :| d in b && y == FramedBody(d, x);
      var c :| c in cs && d in SemRepeat(w, op, min, max, k, c);
      InFramed(cs, c, x);
      InFramed(SemRepeat(w, op, min, max, k, c), d, x);
    }
  }

  // --------------------------------------------------------------------------
  // Nested expressions and negations
  // --------------------------------------------------------------------------

  lemma RestrictWith(r: Refs, x: Refs, names: RefNames, some: RefNames)
    requires ApartFromRefs(r, x, names)
    ensures Restrict(With(r, x), some) == With(Restrict(r, some), Restrict(x, some))
    ensures ApartFromRefs(Restrict(r, some), Restrict(x, some), names)
  {
    WithMeaning(r, x, names, Point(r, {}));
    assert Names(Restrict(r, some)) <= names && Names(Restrict(x, some)) !! names;
    WithMeaning(Restrict(r, some), Restrict(x, some), names, Point(r, {}));
  }

  lemma MeetWith(r: Refs, q: Refs, x: Refs, y: Refs, names: RefNames)
    requires ApartFromRefs(r, x, names) && Names(q) <= names && y <= x
    ensures Meet(With(r, x), With(q, y)).Some? <==> Meet(r, q).Some?
    ensures Meet(r, q).Some? ==>
        Meet(With(r, x), With(q, y)).value == With(Meet(r, q).value, x) &&
        Names(Meet(r, q).value) <= names
  {
    assert Names(y) <= Names(x);
    WithMeaning(r, x, names, Point(r, {}));
    WithMeaning(q, y, names, Point(r, {}));
    forall l, m | l in r + x + q + y && m in r + x + q + y && l.name == m.name
      ensures (l in r + q && m in r + q) || (l in x && m in x)
    {
      if l.name in names {
        NotNamed(x, l);
        NotNamed(x, m);
      } else {
        NotNamed(r, l);
        NotNamed(r, m);
        NotNamed(q, l);
        NotNamed(q, m);
      }
    }
    assert Consistent(r + x + (q + y)) <==> Consistent(r + q);
    if Meet(r, q).Some? {
      var a, b := Meet(With(r, x), With(q, y)).value, Meet(r, q).value;
      assert Names(b) <= names;
      forall s: Assignment ensures Sat(a, s) <==> Sat(With(b, x), s) {
        MeetIsIntersection(With(r, x), With(q, y));
        MeetIsIntersection(r, q);
        WithMeaning(r, x, names, s);
        WithMeaning(q, y, names, s);
        WithMeaning(b, x, names, s);
      }
      RefsAreCanonical(a, With(b, x));
    }
  }

  ghost function MetBody(refs: Refs, b: Body): Option<Body> {
    var r := Meet(refs, b.refs);
    if r.Some? then Some(Body(b.content, r.value)) else None
  }

  lemma FromCacheIsMet(refs: Refs, s: set<Body>)
    ensures FromCache(refs, s) == set b | b in s && MetBody(refs, b).Some? :: MetBody(refs, b).value
  {
    hide Meet;
  }

  lemma MetFramed(refs: Refs, b: Body, x: Refs, y: Refs, names: RefNames)
    requires ApartFromRefs(refs, x, names) && Names(b.refs) <= names && y <= x
    ensures MetBody(With(refs, x), FramedBody(b, y)) ==
        if MetBody(refs, b).Some? then Some(FramedBody(MetBody(refs, b).value, x)) else None
  {
    MeetWith(refs, b.refs, x, y, names);
    FramedParts(b, y);
    hide With, Meet;
  }

  lemma CacheFramed(refs: Refs, s: set<Body>, x: Refs, y: Refs, names: RefNames)
    requires ApartFromRefs(refs, x, names) && AllNamed(s, names) && y <= x
    ensures FromCache(With(refs, x), Framed(s, y)) == Framed(FromCache(refs, s), x)
  {
    forall b | b in s
      ensures MetBody(With(refs, x), FramedBody(b, y)) ==
          if MetBody(refs, b).Some? then Some(FramedBody(MetBody(refs, b).value, x)) else None
    {
      MetFramed(refs, b, x, y, names);
    }
    FromCacheIsMet(With(refs, x), Framed(s, y));
    FromCacheIsMet(refs, s);
    hide With, Meet, AllNamed, MetBody, FromCache;
    var a, c := FromCache(With(refs, x), Framed(s, y)), FromCache(refs, s);
    forall z | z in a ensures z in Framed(c, x) {
      var f :| f in Framed(s, y) && MetBody(With(refs, x), f).Some? && z == MetBody(With(refs, x), f).value;
      var b :| b in s && f == FramedBody(b, y);
      InFramed(c, MetBody(refs, b).value, x);
    }
    forall z | z in Framed(c, x) ensures z in a {
      var d :| d in c && z == FramedBody(d, x);
      var b :| b in s && MetBody(refs, b).Some? && d == MetBody(refs, b).value;
      InFramed(s, b, y);
    }
  }

  lemma UnlessInside(refs: Refs, s: set<Body>, shared: RefNames, x: Refs, names: RefNames, v: Assignment)
    requires ApartFromRefs(refs, x, names) && AllNamed(s, names)
    ensures Inside(v, UnlessRegion(With(refs, x), Framed(s, x), shared)) <==>
        Inside(v, UnlessRegion(refs, s, shared)) && Sat(x, v)
  {
    WithMeaning(refs, x, names, v);
    if Sat(With(refs, x), v) {
      forall b | b in s ensures Sat(Restrict(With(b.refs, x), shared), v) <==> Sat(Restrict(b.refs, shared), v) {
        RestrictWith(b.refs, x, names, shared);
        assert Names(Restrict(b.refs, shared)) <= names && Names(Restrict(x, shared)) !! names;
        WithMeaning(Restrict(b.refs, shared), Restrict(x, shared), names, v);
      }
    }
    hide With, Sat, Restrict, AllNamed;
    UnlessExpands(refs, s, shared, v);
    UnlessExpands(With(refs, x), Framed(s, x), shared, v);
    if Sat(With(refs, x), v) {
      if f :| f in Framed(s, x) && Sat(Restrict(f.refs, shared), v) {
        var b :| b in s && f == FramedBody(b, x);
        FramedParts(b, x);
      }
      if b :| b in s && Sat(Restrict(b.refs, shared), v) {
        InFramed(s, b, x);
        FramedParts(b, x);
      }
    }
  }

  lemma UnlessExpands(refs: Refs, s: set<Body>, shared: RefNames, v: Assignment)
    ensures Inside(v, UnlessRegion(refs, s, shared)) <==>
        Sat(refs, v) && forall b :: b in s ==> !Sat(Restrict(b.refs, shared), v)
  {
    hide Sat, Restrict;
    var g := UnlessRegion(refs, s, shared);
    if Inside(v, g) {
      forall b | b in s ensures !Sat(Restrict(b.refs, shared), v) { assert Restrict(b.refs, shared) in g.mustNot; }
    }
  }

  lemma UnlessTermsWith(refs: Refs, s: set<Body>, shared: RefNames, x: Refs, names: RefNames)
    requires ApartFromRefs(refs, x, names) && AllNamed(s, names)
    ensures Terms(UnlessRegion(With(refs, x), Framed(s, x), shared)) == AllWith(Terms(UnlessRegion(refs, s, shared)), x)
  {
    var g := UnlessRegion(refs, s, shared);
    forall r | r in g.mustNot ensures Names(r) <= names {
      var b :| b in s && r == Restrict(b.refs, shared);
    }
    assert RegionNamed(g, names);
    hide With, Sat, Inside, AllNamed, RegionNamed;
    forall v: Assignment
      ensures Inside(v, UnlessRegion(With(refs, x), Framed(s, x), shared)) <==> Inside(v, RegionWith(g, x))
    {
      UnlessInside(refs, s, shared, x, names, v);
      InsideWith(g, x, names, v);
    }
    TermsOfSameRegion(UnlessRegion(With(refs, x), Framed(s, x), shared), RegionWith(g, x));
    TermsWith(g, x, names);
  }

  // --------------------------------------------------------------------------
  // Plans
  // --------------------------------------------------------------------------

  lemma ContentsFramed(s: set<Body>, x: Refs)
    ensures ContentsOf(Framed(s, x)) == ContentsOf(s)
    ensures Framed(s, x) == {} <==> s == {}
  {
    hide With;
    forall b | b in s ensures FramedBody(b, x) in Framed(s, x) && FramedBody(b, x).content == b.content {
      InFramed(s, b, x);
      FramedParts(b, x);
    }
    forall f | f in Framed(s, x) ensures exists b :: b in s && b.content == f.content {
      var b :| b in s && f == FramedBody(b, x);
      FramedParts(b, x);
    }
  }

  lemma EmptiesFramed(pos: Position, rs: set<Refs>, x: Refs)
    ensures EmptiesAt(pos, AllWith(rs, x)) == Framed(EmptiesAt(pos, rs), x)
  {
    MergedFramed(Content({pos}, {}, {}), rs, x);
    assert EmptiesAt(pos, AllWith(rs, x)) == SameContent(Content({pos}, {}, {}), AllWith(rs, x));
    assert EmptiesAt(pos, rs) == SameContent(Content({pos}, {}, {}), rs);
  }

  lemma SkippedFramed(s: set<Body>, x: Refs)
    ensures SkippedOf(Framed(s, x)) == Framed(SkippedOf(s), x)
  {
    hide With;
    forall y | y in SkippedOf(Framed(s, x)) ensures y in Framed(SkippedOf(s), x) {
      var f :| f in Framed(s, x) && y == Body(Content(f.content.ends, {}, {}), f.refs);
      var b :| b in s && f == FramedBody(b, x);
      FramedParts(b, x);
      InFramed(SkippedOf(s), Body(Content(b.content.ends, {}, {}), b.refs), x);
    }
    forall y | y in Framed(SkippedOf(s), x) ensures y in SkippedOf(Framed(s, x)) {
      var c :| c in SkippedOf(s) && y == FramedBody(c, x);
      var b :| b in s && c == Body(Content(b.content.ends, {}, {}), b.refs);
      FramedParts(b, x);
      FramedParts(c, x);
      InFramed(s, b, x);
    }
  }

  lemma OneFramed(b: Body, x: Refs)
    ensures Framed({b}, x) == {FramedBody(b, x)} && Framed({}, x) == {}
  {}

  lemma AppliedFramed(p: Plan, s: set<Body>, pos: Position, refs: Refs, x: Refs, names: RefNames)
    requires IsUnary(p) && ApartFromRefs(refs, x, names) && AllNamed(s, names)
    ensures Applied(p, Framed(s, x), pos, With(refs, x)) == Framed(Applied(p, s, pos, refs), x)
  {
    ContentsFramed(s, x);
    OneFramed(EmptyAt(pos, refs), x);
    FramedParts(EmptyAt(pos, refs), x);
    hide With, AllNamed, Framed, EmptiesAt, AllOf, FramedBody, SkippedOf, ContentsOf, UnlessRegion;
    match p
    case PAllWithoutSetRef(_) =>
      var all := Body(Merged(ContentsOf(s)), refs);
      OneFramed(all, x);
      FramedParts(all, x);
    case PAll(_) => AllFramed(s, x, names);
    case PIfWithoutSetRef(_) =>
    case PIf(_) =>
      RefsOfFramed(s, x);
      EmptiesFramed(pos, RefsOf(s), x);
    case PUnlessWithoutSetNonLocalRef(_, shared) =>
    case PUnless(_, shared) =>
      UnlessTermsWith(refs, s, shared, x, names);
      EmptiesFramed(pos, Terms(UnlessRegion(refs, s, shared)), x);
    case PSkip(_) => SkippedFramed(s, x);
    case PMaybe(_) =>
  }

  lemma AllFramed(s: set<Body>, x: Refs, names: RefNames)
    requires AllNamed(s, names) && Names(x) !! names
    ensures AllOf([Framed(s, x)]) == Framed(AllOf([s]), x)
  {
    hide With, AllNamed, AllOf, AndOf, Framed;
    OneOperandFramed(s);
    JoinFramed([s], true, x, names);
    assert EachFramed([s], x) == [Framed(s, x)];
  }

  lemma OneOperandFramed(s: set<Body>)
    ensures Union([s]) == s
  {
    forall b | b in s ensures b in Union([s]) { assert b in [s][0]; }
  }

  // Literals of refs that the plan doesn't mention just pass through it.
  lemma {:induction false} MatchesFramed(w: World, p: Plan, pos: Position, refs: Refs, x: Refs, names: RefNames)
    requires Mentioned(p) <= names && ApartFromRefs(refs, x, names)
    ensures Sem(w, p, pos, With(refs, x)) == Framed(Sem(w, p, pos, refs), x)
    decreases p, 0, 0
  {
    hide With, SemSteps, Framed, AndOf, AllOf, Applied;
    match p
    case PVertex(m) =>
      VertexSteps(m);
      StepsFramed(w.graph, [VertexStep(m)], pos, refs, x, names);
    case PEdge(m) =>
      assert BoundBySteps([EdgeStep(m)]) == {} + BoundBySteps([]);
      StepsFramed(w.graph, [EdgeStep(m)], pos, refs, x, names);
    case PNoop => OneFramed(EmptyAt(pos, refs), x);
    case PPath(path) =>
      if path.Alternates() {
        StepsFramed(w.graph, path.Items(), pos, refs, x, names);
      } else {
        NoneFramed(x);
      }
    case PPathToVertex(prefix, e, m) =>
      if prefix.Alternates() {
        StepsFramed(w.graph, PathToVertexSteps(prefix, e, m), pos, refs, x, names);
      } else {
        NoneFramed(x);
      }
    case PConcatenation(ops) => ConcatFramed(w, ops, pos, refs, x, names);
    case POr(ops) =>
      EachIsFramed(w, ops, pos, refs, x, names);
      UnionFramed(SemEach(w, ops, pos, refs), x);
    case PAndWithoutSetRef(ops) =>
      EachIsFramed(w, ops, pos, refs, x, names);
      UnionFramed(SemEach(w, ops, pos, refs), x);
      SomeEmptyFramed(SemEach(w, ops, pos, refs), x);
      NoneFramed(x);
    case PAnd(ops) =>
      EachIsFramed(w, ops, pos, refs, x, names);
      OperandsNamed(w, ops, pos, refs, names);
      JoinFramed(SemEach(w, ops, pos, refs), false, x, names);
    case PAllAnd(ops) =>
      EachIsFramed(w, ops, pos, refs, x, names);
      OperandsNamed(w, ops, pos, refs, names);
      JoinFramed(SemEach(w, ops, pos, refs), true, x, names);
    case PNested(some, plan) =>
      if w.cached {
        RestrictWith(refs, x, names, some);
        MatchesFramed(w, plan, pos, Restrict(refs, some), Restrict(x, some), names);
        MatchesMention(w, plan, pos, Restrict(refs, some), names);
        CacheFramed(refs, Sem(w, plan, pos, Restrict(refs, some)), x, Restrict(x, some), names);
      } else {
        MatchesFramed(w, plan, pos, refs, x, names);
      }
    case PRepetition(op, min, max) =>
      FramedParts(EmptyAt(pos, refs), x);
      RepeatFramed(w, op, min, max, 0, EmptyAt(pos, refs), x, names);
    case _ =>
      MatchesFramed(w, p.operand, pos, refs, x, names);
      MatchesMention(w, p.operand, pos, refs, names);
      AppliedFramed(p, Sem(w, p.operand, pos, refs), pos, refs, x, names);
      UnaryUnfold(w, p, pos, refs);
      UnaryUnfold(w, p, pos, With(refs, x));
  }

  lemma VertexSteps(m: MatchVertex)
    ensures BoundBySteps([VertexStep(m)]) == VertexRefs(m)
  {
    assert BoundBySteps([VertexStep(m)]) == VertexRefs(m) + BoundBySteps([]);
  }

  lemma NoneFramed(x: Refs)
    ensures Framed({}, x) == {}
  {}

  lemma SomeEmptyFramed(ss: seq<set<Body>>, x: Refs)
    ensures {} in EachFramed(ss, x) <==> {} in ss
  {
    forall i | 0 <= i < |ss| ensures Framed(ss[i], x) == {} <==> ss[i] == {} { ContentsFramed(ss[i], x); }
    hide Framed;
    if {} in ss {
      var i :| 0 <= i < |ss| && ss[i] == {};
      assert EachFramed(ss, x)[i] == {};
    }
    if {} in EachFramed(ss, x) {
      var i :| 0 <= i < |ss| && EachFramed(ss, x)[i] == {};
      assert ss[i] == {};
    }
  }

  lemma OperandsNamed(w: World, ops: seq<Plan>, pos: Position, refs: Refs, names: RefNames)
    requires MentionedInAny(ops) <= names && Names(refs) <= names
    ensures AllNamed(Union(SemEach(w, ops, pos, refs)), names)
  {
    forall i, b | 0 <= i < |ops| && b in SemEach(w, ops, pos, refs)[i] ensures Names(b.refs) <= names {
      SemEachAt(w, ops, pos, refs, i);
      assert ops[i] in ops;
      MatchesMention(w, ops[i], pos, refs, names);
    }
  }

  lemma {:induction false} EachIsFramed(w: World, ops: seq<Plan>, pos: Position, refs: Refs, x: Refs, names: RefNames)
    requires MentionedInAny(ops) <= names && ApartFromRefs(refs, x, names)
    ensures SemEach(w, ops, pos, With(refs, x)) == EachFramed(SemEach(w, ops, pos, refs), x)
    decreases ops, 0, 0
  {
    hide With, Framed;
    forall i | 0 <= i < |ops|
      ensures SemEach(w, ops, pos, With(refs, x))[i] == Framed(SemEach(w, ops, pos, refs)[i], x)
    {
      SemEachAt(w, ops, pos, refs, i);
      SemEachAt(w, ops, pos, With(refs, x), i);
      assert ops[i] in ops;
      MatchesFramed(w, ops[i], pos, refs, x, names);
    }
  }

  lemma {:induction false} ConcatFramed(w: World, ops: seq<Plan>, pos: Position, refs: Refs, x: Refs, names: RefNames)
    requires MentionedInAny(ops) <= names && ApartFromRefs(refs, x, names)
    ensures SemConcat(w, ops, pos, With(refs, x)) == Framed(SemConcat(w, ops, pos, refs), x)
    decreases ops, 0, 0
  {
    if ops == [] {
      assert SemConcat(w, ops, pos, refs) == {EmptyAt(pos, refs)};
    } else {
      assert Mentioned(ops[0]) <= names && MentionedInAny(ops[1..]) <= names;
      hide With, Framed, Sem, SemConcat, ConcatThen, Mentioned, MentionedInAny;
      MatchesFramed(w, ops[0], pos, refs, x, names);
      ConcatUnfold(w, ops, pos, refs);
      ConcatUnfold(w, ops, pos, With(refs, x));
      if |ops| > 1 {
        var s := Sem(w, ops[0], pos, refs);
        MatchesMention(w, ops[0], pos, refs, names);
        forall h, q | h in s && q in h.content.ends
          ensures SemConcat(w, ops[1..], q, With(h.refs, x)) == Framed(SemConcat(w, ops[1..], q, h.refs), x)
        {
          ConcatFramed(w, ops[1..], q, h.refs, x, names);
        }
        ThenFramed(w, s, ops[1..], x);
      }
    }
  }

  lemma {:induction false} RepeatFramed(w: World, op: Plan, min: nat, max: nat, k: nat, chain: Body, x: Refs,
      names: RefNames)
    requires Mentioned(op) <= names && ApartFromRefs(chain.refs, x, names)
    ensures SemRepeat(w, op, min, max, k, FramedBody(chain, x)) == Framed(SemRepeat(w, op, min, max, k, chain), x)
    decreases op, 1, max - k
  {
    if k >= max {
      RepeatEnds(w, op, min, max, k, chain);
      RepeatEnds(w, op, min, max, k, FramedBody(chain, x));
      OneFramed(chain, x);
    } else {
      hide With, Framed, SemRepeat, Continued, FramedBody;
      FramedParts(chain, x);
      var cs := LinksFrom(w, op, chain);
      forall q | q in chain.content.ends
        ensures Sem(w, op, q, With(chain.refs, x)) == Framed(Sem(w, op, q, chain.refs), x)
      {
        MatchesFramed(w, op, q, chain.refs, x, names);
      }
      LinksFramed(w, op, chain, x);
      ContinuedUnfold(w, op, max, k, chain);
      ContinuedUnfold(w, op, max, k, FramedBody(chain, x));
      ContentsFramed(cs, x);
      if cs == {} {
        RepeatEnds(w, op, min, max, k, chain);
        RepeatEnds(w, op, min, max, k, FramedBody(chain, x));
        OneFramed(chain, x);
      } else {
        forall c | c in cs
          ensures SemRepeat(w, op, min, max, k + 1, FramedBody(c, x)) == Framed(SemRepeat(w, op, min, max, k + 1, c), x)
        {
          LinksNamed(w, op, chain, names, c);
          RepeatFramed(w, op, min, max, k + 1, c, x, names);
        }
        ChainsFramed(w, op, min, max, k + 1, cs, x);
        RepeatUnfold(w, op, min, max, k, chain);
        RepeatUnfold(w, op, min, max, k, FramedBody(chain, x));
      }
    }
  }

  lemma RepeatEnds(w: World, op: Plan, min: nat, max: nat, k: nat, chain: Body)
    requires Continued(w, op, max, k, chain) == {}
    ensures SemRepeat(w, op, min, max, k, chain) == if k >= min then {chain} else {}
  {}

  lemma LinksNamed(w: World, op: Plan, chain: Body, names: RefNames, c: Body)
    requires Mentioned(op) <= names && Names(chain.refs) <= names && c in LinksFrom(w, op, chain)
    ensures Names(c.refs) <= names
  {
    var q, t :| q in chain.content.ends && t in Sem(w, op, q, chain.refs) && c == Join(chain, t);
    MatchesMention(w, op, q, chain.refs, names);
  }
}
