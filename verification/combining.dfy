/** Joining the subgraphs of operands by the cells of their refs. */
module Combining {
  import opened Base
  import opened RefsAlgebra
  import opened RefsUnions
  import opened Arrangement
  import opened Semantics
  import opened Matching

  // The subgraphs of each operand.
  ghost function OperandBodies(ds: seq<Draft>, idx: seq<nat>, i: nat): set<Body>
    requires |idx| == |ds|
  {
    set j | 0 <= j < |ds| && idx[j] == i :: BodyOf(ds[j])
  }

  ghost function Operands(ds: seq<Draft>, idx: seq<nat>, n: nat): seq<set<Body>>
    requires |idx| == |ds|
  {
    seq(n, i requires 0 <= i < n => OperandBodies(ds, idx, i))
  }

  ghost predicate Indexed(ds: seq<Draft>, idx: seq<nat>, n: nat) {
    |idx| == |ds| && forall j :: 0 <= j < |idx| ==> idx[j] < n
  }

  lemma UnionOfOperands(ds: seq<Draft>, idx: seq<nat>, n: nat)
    requires Indexed(ds, idx, n)
    ensures Union(Operands(ds, idx, n)) == Bodies(ds)
  {
    forall b | b in Bodies(ds) ensures b in Union(Operands(ds, idx, n)) {
      var d :| d in ds && BodyOf(d) == b;
      var j :| 0 <= j < |ds| && ds[j] == d;
      assert b in Operands(ds, idx, n)[idx[j]];
    }
    forall b | b in Union(Operands(ds, idx, n)) ensures b in Bodies(ds) {
      var i :| 0 <= i < n && b in Operands(ds, idx, n)[i];
      var j :| 0 <= j < |ds| && idx[j] == i && BodyOf(ds[j]) == b;
      assert ds[j] in ds;
    }
  }

  // --------------------------------------------------------------------------
  // Grouping
  // --------------------------------------------------------------------------

  // The indices of the drafts with the refs.
  ghost predicate GroupOf(ds: seq<Draft>, r: Refs, group: seq<nat>) {
    (forall k: nat :: k in group ==> k < |ds| && ds[k].refs == r) &&
    (forall k: nat :: 0 <= k < |ds| && ds[k].refs == r ==> k in group)
  }

  ghost predicate Grouped(ds: seq<Draft>, distinct: seq<Refs>, groups: seq<seq<nat>>) {
    NoDuplicates(distinct) && |groups| == |distinct| && Elems(distinct) == RefsOf(Bodies(ds)) &&
    forall r :: 0 <= r < |groups| ==> GroupOf(ds, distinct[r], groups[r])
  }

  method GroupByRefs(ds: seq<Draft>) returns (distinct: seq<Refs>, groups: seq<seq<nat>>)
    ensures Grouped(ds, distinct, groups)
  {
    var byRefs: map<Refs, seq<nat>> := map[];
    for j := 0 to |ds|
      invariant byRefs.Keys == set k | 0 <= k < j :: ds[k].refs
      invariant forall r :: r in byRefs ==> GroupOf(ds[..j], r, byRefs[r])
    {
      var r := ds[j].refs;
      var group := if r in byRefs then byRefs[r] else [];
      assert GroupOf(ds[..j], r, group);
      assert forall k: nat :: k in group + [j] <==> k in group || k == j;
      assert GroupOf(ds[..j + 1], r, group + [j]);
      forall q | q in byRefs && q != r ensures GroupOf(ds[..j + 1], q, byRefs[q]) {}
      byRefs := byRefs[r := group + [j]];
    }
    assert ds[..|ds|] == ds;
    distinct := [];
    groups := [];
    var rest := byRefs.Keys;
    while rest != {}
      invariant rest <= byRefs.Keys && NoDuplicates(distinct) && |groups| == |distinct|
      invariant Elems(distinct) == byRefs.Keys - rest
      invariant forall r :: 0 <= r < |groups| ==> GroupOf(ds, distinct[r], groups[r])
    {
      var r :| r in rest;
      ElemsSnoc(distinct, r);
      assert r !in Elems(distinct);
      distinct := distinct + [r];
      groups := groups + [byRefs[r]];
      rest := rest - {r};
    }
    forall r ensures r in byRefs.Keys <==> r in RefsOf(Bodies(ds)) {
      if r in byRefs.Keys {
        var k :| 0 <= k < |ds| && ds[k].refs == r;
        assert ds[k] in ds && BodyOf(ds[k]) in Bodies(ds);
      }
      if r in RefsOf(Bodies(ds)) {
        var d :| d in ds && d.refs == r;
        var k :| 0 <= k < |ds| && ds[k] == d;
      }
    }
  }

  // --------------------------------------------------------------------------
  // Cells
  // --------------------------------------------------------------------------

  // The drafts of all the members of the cell.
  method MembersOf(ds: seq<Draft>, distinct: seq<Refs>, groups: seq<seq<nat>>, members: seq<nat>)
      returns (result: seq<nat>)
    requires Grouped(ds, distinct, groups) && forall r :: r in members ==> r < |distinct|
    ensures forall k: nat :: k in result <==> k < |ds| && ds[k].refs in MemberSet(members, distinct)
  {
    result := [];
    for r := 0 to |members|
      invariant forall k: nat :: k in result <==> k < |ds| && ds[k].refs in MemberSet(members[..r], distinct)
    {
      assert members[r] in members;
      assert GroupOf(ds, distinct[members[r]], groups[members[r]]);
      assert members[..r + 1] == members[..r] + [members[r]];
      MemberSetAppend(members[..r], distinct, members[r]);
      result := result + groups[members[r]];
    }
    assert members[..|members|] == members;
  }

  ghost predicate HasOperand(chosen: seq<nat>, idx: seq<nat>, i: nat) {
    exists k: nat :: k in chosen && k < |idx| && idx[k] == i
  }

  ghost predicate HasOperands(chosen: seq<nat>, idx: seq<nat>, n: nat) {
    forall i: nat :: i < n ==> HasOperand(chosen, idx, i)
  }

  method CoversAllOperands(result: seq<nat>, idx: seq<nat>, n: nat) returns (covers: bool)
    requires forall k: nat :: k in result ==> k < |idx| && idx[k] < n
    ensures covers <==> HasOperands(result, idx, n)
  {
    var operands: set<nat> := {};
    for j := 0 to |result|
      invariant operands == set k: nat | k in result[..j] && k < |idx| :: idx[k]
    {
      assert result[j] in result;
      assert result[..j + 1] == result[..j] + [result[j]];
      operands := operands + {idx[result[j]]};
    }
    assert result[..|result|] == result;
    covers := forall i :: 0 <= i < n ==> i in operands;
    forall i: nat | i < n ensures i in operands <==> HasOperand(result, idx, i) {}
  }

  lemma CoversMeaning(ds: seq<Draft>, idx: seq<nat>, n: nat, result: seq<nat>, m: set<Refs>)
    requires Indexed(ds, idx, n)
    requires forall k: nat :: k in result <==> k < |ds| && ds[k].refs in m
    ensures CoversAll(Operands(ds, idx, n), m) <==> HasOperands(result, idx, n)
  {
    forall i: nat | i < n ensures HasMember(Operands(ds, idx, n)[i], m) <==> HasOperand(result, idx, i) {
      if HasMember(Operands(ds, idx, n)[i], m) {
        var b :| b in OperandBodies(ds, idx, i) && b.refs in m;
        var j :| 0 <= j < |ds| && idx[j] == i && BodyOf(ds[j]) == b;
        assert j in result;
      }
      if HasOperand(result, idx, i) {
        var k: nat :| k in result && k < |idx| && idx[k] == i;
        assert BodyOf(ds[k]) in OperandBodies(ds, idx, i);
      }
    }
  }

  ghost predicate SameStarts(ds: seq<Draft>, result: seq<Draft>) {
    forall d :: d in result ==> exists e :: e in ds && e.start == d.start
  }

  ghost function Copies(ds: seq<Draft>, chosen: seq<nat>, t: Refs): set<Body> {
    set k: nat | k in chosen && k < |ds| :: Body(BodyOf(ds[k]).content, t)
  }

  // The chosen subgraphs, with other refs.
  method CopyWithRefs(ds: seq<Draft>, chosen: seq<nat>, refs: Refs) returns (result: seq<Draft>)
    requires forall k: nat :: k in chosen ==> k < |ds|
    ensures Bodies(result) == Copies(ds, chosen, refs)
    ensures SameStarts(ds, result)
  {
    result := [];
    for j := 0 to |chosen|
      invariant Bodies(result) == Copies(ds, chosen[..j], refs)
      invariant SameStarts(ds, result)
    {
      assert chosen[j] in chosen;
      var sg := ds[chosen[j]].(refs := refs);
      assert ds[chosen[j]] in ds;
      assert chosen[..j + 1] == chosen[..j] + [chosen[j]];
      assert Copies(ds, chosen[..j + 1], refs) == Copies(ds, chosen[..j], refs) + {BodyOf(sg)};
      BodiesAppend(result, [sg]);
      assert Bodies([sg]) == {BodyOf(sg)} by { assert sg in [sg]; }
      result := result + [sg];
    }
    assert chosen[..|chosen|] == chosen;
  }

  // Subgraphs of the members, with each term of the cell.
  method CopyToCell(ds: seq<Draft>, terms: seq<Refs>, chosen: seq<nat>) returns (result: seq<Draft>)
    requires forall k: nat :: k in chosen ==> k < |ds|
    ensures Bodies(result) == set t, b | t in terms && b in Copies(ds, chosen, t) :: b
    ensures SameStarts(ds, result)
  {
    result := [];
    for i := 0 to |terms|
      invariant Bodies(result) == set t, b | t in terms[..i] && b in Copies(ds, chosen, t) :: b
      invariant SameStarts(ds, result)
    {
      var copies := CopyWithRefs(ds, chosen, terms[i]);
      BodiesAppend(result, copies);
      assert terms[..i + 1] == terms[..i] + [terms[i]];
      result := result + copies;
    }
    assert terms[..|terms|] == terms;
  }

  ghost function Chosen(ds: seq<Draft>, chosen: seq<nat>): set<Content> {
    set k: nat | k in chosen && k < |ds| :: BodyOf(ds[k]).content
  }

  method Merge(ds: seq<Draft>, chosen: seq<nat>, refs: Refs) returns (d: Draft)
    requires chosen != [] && forall k: nat :: k in chosen ==> k < |ds|
    ensures BodyOf(d) == Body(Merged(Chosen(ds, chosen)), refs)
    ensures exists e :: e in ds && e.start == d.start
  {
    assert chosen[0] in chosen;
    d := Draft(ds[chosen[0]].start, [], [], [], refs);
    for j := 0 to |chosen|
      invariant BodyOf(d) == Body(Merged(Chosen(ds, chosen[..j])), refs)
      invariant d.start == ds[chosen[0]].start
    {
      assert chosen[j] in chosen;
      var sg := ds[chosen[j]];
      ElemsAppend(d.ends, sg.ends);
      ElemsAppend(d.vertices, sg.vertices);
      ElemsAppend(d.edges, sg.edges);
      assert chosen[..j + 1] == chosen[..j] + [chosen[j]];
      MergeOneMore(Chosen(ds, chosen[..j]), BodyOf(sg).content);
      assert Chosen(ds, chosen[..j + 1]) == Chosen(ds, chosen[..j]) + {BodyOf(sg).content};
      d := d.(ends := d.ends + sg.ends, vertices := d.vertices + sg.vertices, edges := d.edges + sg.edges);
    }
    assert chosen[..|chosen|] == chosen;
  }

  lemma MergeOneMore(cs: set<Content>, c: Content)
    ensures var a, b := Merged(cs), Merged(cs + {c});
      b.ends == a.ends + c.ends && b.vertices == a.vertices + c.vertices && b.edges == a.edges + c.edges
  {}

  method MergeToCell(ds: seq<Draft>, terms: seq<Refs>, chosen: seq<nat>) returns (result: seq<Draft>)
    requires chosen != [] && forall k: nat :: k in chosen ==> k < |ds|
    ensures Bodies(result) == set t | t in terms :: Body(Merged(Chosen(ds, chosen)), t)
    ensures SameStarts(ds, result)
    ensures forall d :: d in result ==> d.refs in terms
  {
    result := [];
    for i := 0 to |terms|
      invariant Bodies(result) == set t | t in terms[..i] :: Body(Merged(Chosen(ds, chosen)), t)
      invariant SameStarts(ds, result)
      invariant forall d :: d in result ==> d.refs in terms
    {
      var d := Merge(ds, chosen, terms[i]);
      BodiesAppend(result, [d]);
      assert Bodies([d]) == {BodyOf(d)} by { assert d in [d]; }
      assert terms[..i + 1] == terms[..i] + [terms[i]];
      result := result + [d];
    }
    assert terms[..|terms|] == terms;
  }

  lemma CopiedIsInCell(ds: seq<Draft>, terms: seq<Refs>, chosen: seq<nat>, m: set<Refs>)
    requires forall k: nat :: k in chosen <==> k < |ds| && ds[k].refs in m
    requires Elems(terms) == CellTerms(m, RefsOf(Bodies(ds)))
    ensures (set t, b | t in terms && b in Copies(ds, chosen, t) :: b) == InCell(Bodies(ds), m)
    ensures (set t | t in terms :: Body(Merged(Chosen(ds, chosen)), t)) == MergedCell(Bodies(ds), m)
  {
    var s := Bodies(ds);
    forall t: Refs ensures t in terms <==> t in CellTerms(m, RefsOf(s)) { assert t in terms <==> t in Elems(terms); }
    forall t: Refs, b | t in CellTerms(m, RefsOf(s)) && b in s && b.refs in m
      ensures Body(b.content, t) in Copies(ds, chosen, t)
    {
      var d :| d in ds && BodyOf(d) == b;
      var k: nat :| k < |ds| && ds[k] == d;
      assert k in chosen;
    }
    forall k: nat | k in chosen ensures BodyOf(ds[k]) in s && ds[k].refs in m { assert ds[k] in ds; }
    ChosenAreContents(ds, chosen, m);
  }

  lemma ChosenAreContents(ds: seq<Draft>, chosen: seq<nat>, m: set<Refs>)
    requires forall k: nat :: k in chosen <==> k < |ds| && ds[k].refs in m
    ensures Chosen(ds, chosen) == ContentsIn(Bodies(ds), m)
  {
    forall c | c in ContentsIn(Bodies(ds), m) ensures c in Chosen(ds, chosen) {
      var b :| b in Bodies(ds) && b.refs in m && b.content == c;
      var d :| d in ds && BodyOf(d) == b;
      var k :| 0 <= k < |ds| && ds[k] == d;
      assert k in chosen;
    }
    forall k: nat | k in chosen ensures BodyOf(ds[k]).content in ContentsIn(Bodies(ds), m) {
      assert ds[k] in ds && BodyOf(ds[k]) in Bodies(ds);
    }
  }

  // --------------------------------------------------------------------------
  // Joins
  // --------------------------------------------------------------------------

  ghost function Flat<A, B>(cells: set<A>, f: A -> set<B>): set<B> { set m, x | m in cells && x in f(m) :: x }

  lemma FlatUnion<A, B>(a: set<A>, b: set<A>, f: A -> set<B>)
    ensures Flat(a + b, f) == Flat(a, f) + Flat(b, f)
  {}

  lemma FlatOne<A, B>(m: A, f: A -> set<B>)
    ensures Flat({m}, f) == f(m)
  {
    forall x | x in f(m) ensures x in Flat({m}, f) { assert m in {m}; }
  }

  // Subgraphs of the joined parts of the refspace that were looked at so far.
  ghost function JoinedSoFar(ss: seq<set<Body>>, cells: set<set<Refs>>, merge: bool): set<Body> {
    Flat(cells, (m: set<Refs>) => JoinedCell(ss, m, merge))
  }

  ghost function JoinedCell(ss: seq<set<Body>>, m: set<Refs>, merge: bool): set<Body> {
    if JoinCell(ss, m) then CellBodies(ss, m, merge) else {}
  }

  ghost function CellBodies(ss: seq<set<Body>>, m: set<Refs>, merge: bool): set<Body> {
    if merge then MergedCell(Union(ss), m) else InCell(Union(ss), m)
  }

  lemma CellHasTerms(ss: seq<set<Body>>, m: set<Refs>, merge: bool)
    requires JoinCell(ss, m) && CellBodies(ss, m, merge) != {}
    ensures m in NonemptyCells(RefsOf(Union(ss)))
  {
    assert CellTerms(m, RefsOf(Union(ss))) != {};
  }

  ghost function JoinOf(ss: seq<set<Body>>, merge: bool): set<Body> { if merge then AllOf(ss) else AndOf(ss) }

  lemma InJoin(ss: seq<set<Body>>, m: set<Refs>, merge: bool, x: Body)
    requires x in JoinedCell(ss, m, merge)
    ensures x in JoinOf(ss, merge) && m in NonemptyCells(RefsOf(Union(ss)))
  {
    CellHasTerms(ss, m, merge);
    assert m <= RefsOf(Union(ss));
  }

  lemma FromJoin(ss: seq<set<Body>>, merge: bool, x: Body) returns (m: set<Refs>)
    requires x in JoinOf(ss, merge)
    ensures x in JoinedCell(ss, m, merge)
  {
    hide InCell, MergedCell, JoinCell, RefsOf, Union;
    if merge {
      m :| m <= RefsOf(Union(ss)) && JoinCell(ss, m) && x in MergedCell(Union(ss), m);
    } else {
      m :| m <= RefsOf(Union(ss)) && JoinCell(ss, m) && x in InCell(Union(ss), m);
    }
  }

  lemma AllCellsJoined(ss: seq<set<Body>>, merge: bool)
    ensures JoinedSoFar(ss, NonemptyCells(RefsOf(Union(ss))), merge) == JoinOf(ss, merge)
  {
    hide NonemptyCells, RefsOf, Union, JoinedCell, JoinOf;
    var cells := NonemptyCells(RefsOf(Union(ss)));
    var f := (m: set<Refs>) => JoinedCell(ss, m, merge);
    forall x | x in Flat(cells, f) ensures x in JoinOf(ss, merge) {
      var m :| m in cells && x in f(m);
      InJoin(ss, m, merge, x);
    }
    forall x | x in JoinOf(ss, merge) ensures x in Flat(cells, f) {
      var m := FromJoin(ss, merge, x);
      InJoin(ss, m, merge, x);
      assert x in f(m);
    }
  }

  lemma OneCellJoined(ss: seq<set<Body>>, m: set<Refs>, merge: bool)
    ensures JoinedSoFar(ss, {m}, merge) == if JoinCell(ss, m) then CellBodies(ss, m, merge) else {}
  {
    FlatOne(m, (c: set<Refs>) => JoinedCell(ss, c, merge));
  }

  lemma JoinedUnion(ss: seq<set<Body>>, a: set<set<Refs>>, b: set<set<Refs>>, merge: bool)
    ensures JoinedSoFar(ss, a + b, merge) == JoinedSoFar(ss, a, merge) + JoinedSoFar(ss, b, merge)
  {
    FlatUnion(a, b, (c: set<Refs>) => JoinedCell(ss, c, merge));
  }

  lemma OneRefsCell(r: Refs)
    ensures CellTerms({r}, {r}) == {r}
  {
    SingletonIsExact(r, CellRegion({r}, {r}));
    TermsOf({r}, CellRegion({r}, {r}));
  }

  lemma OneRefsInCell(s: set<Body>, r: Refs)
    requires RefsOf(s) == {r}
    ensures InCell(s, {r}) == s
    ensures MergedCell(s, {r}) == {Body(Merged(set b | b in s :: b.content), r)}
  {
    OneRefsCell(r);
    forall b | b in s ensures b.refs == r && b == Body(b.content, r) { assert b.refs in RefsOf(s); }
    assert ContentsIn(s, {r}) == set b | b in s :: b.content;
  }

  lemma SubsetOfOne<T>(m: set<T>, x: T)
    ensures m <= {x} && m != {} <==> m == {x}
  {}

  lemma OnlyRefsCell(ss: seq<set<Body>>, r: Refs)
    requires RefsOf(Union(ss)) == {r} && CoversAll(ss, {r})
    ensures forall m: set<Refs> :: JoinCell(ss, m) <==> m == {r}
  {
    forall m: set<Refs> ensures JoinCell(ss, m) <==> m == {r} { SubsetOfOne(m, r); }
  }

  // If all the subgraphs have the same refs, they are all compatible.
  lemma OneRefsJoin(ss: seq<set<Body>>, r: Refs, merge: bool)
    requires RefsOf(Union(ss)) == {r} && CoversAll(ss, {r})
    ensures JoinOf(ss, merge) == CellBodies(ss, {r}, merge)
  {
    OnlyRefsCell(ss, r);
    forall x | x in JoinOf(ss, merge) ensures x in CellBodies(ss, {r}, merge) {
      var m := FromJoin(ss, merge, x);
      assert JoinCell(ss, m);
    }
    forall x | x in CellBodies(ss, {r}, merge) ensures x in JoinOf(ss, merge) {
      assert JoinCell(ss, {r});
      InJoin(ss, {r}, merge, x);
    }
  }

  // One cell more.
  method JoinCellOf(ds: seq<Draft>, idx: seq<nat>, n: nat, distinct: seq<Refs>, groups: seq<seq<nat>>, cell: RefsCell,
      merge: bool)
    returns (result: seq<Draft>)
    requires Indexed(ds, idx, n) && Grouped(ds, distinct, groups) && CellOk(cell, distinct, |distinct|)
    requires MemberSet(cell.members, distinct) != {}
    ensures Bodies(result) == JoinedSoFar(Operands(ds, idx, n), {MemberSet(cell.members, distinct)}, merge)
    ensures SameStarts(ds, result)
  {
    ghost var ss, m := Operands(ds, idx, n), MemberSet(cell.members, distinct);
    UnionOfOperands(ds, idx, n);
    ElemsWhole(distinct);
    MemberSetOfPrefix(cell.members, distinct, |distinct|);
    var chosen := MembersOf(ds, distinct, groups, cell.members);
    var covers := CoversAllOperands(chosen, idx, n);
    CoversMeaning(ds, idx, n, chosen, m);
    assert JoinCell(ss, m) <==> covers;
    OneCellJoined(ss, m, merge);
    if !covers {
      return [];
    }
    CopiedIsInCell(ds, cell.terms, chosen, m);
    if merge {
      SomeChosen(ds, chosen, m);
      result := MergeToCell(ds, cell.terms, chosen);
    } else {
      result := CopyToCell(ds, cell.terms, chosen);
    }
  }

  lemma SomeChosen(ds: seq<Draft>, chosen: seq<nat>, m: set<Refs>)
    requires forall k: nat :: k in chosen <==> k < |ds| && ds[k].refs in m
    requires m != {} && m <= RefsOf(Bodies(ds))
    ensures chosen != []
  {
    var r :| r in m;
    var d :| d in ds && d.refs == r;
    var k: nat :| k < |ds| && ds[k] == d;
    assert k in chosen;
  }

  lemma OneMoreCell(ss: seq<set<Body>>, cells: seq<RefsCell>, distinct: seq<Refs>, k: nat, merge: bool)
    requires k < |cells|
    ensures JoinedSoFar(ss, MemberSets(cells[..k + 1], distinct), merge) ==
      JoinedSoFar(ss, MemberSets(cells[..k], distinct), merge) +
      JoinedSoFar(ss, {MemberSet(cells[k].members, distinct)}, merge)
  {
    assert cells[..k + 1] == cells[..k] + [cells[k]];
    MemberSetsAppend(cells[..k], [cells[k]], distinct);
    assert MemberSets([cells[k]], distinct) == {MemberSet(cells[k].members, distinct)} by {
      assert cells[k] in [cells[k]];
    }
    JoinedUnion(ss, MemberSets(cells[..k], distinct), {MemberSet(cells[k].members, distinct)}, merge);
  }

  method JoinByCells(ds: seq<Draft>, idx: seq<nat>, n: nat, distinct: seq<Refs>, groups: seq<seq<nat>>, merge: bool)
    returns (result: seq<Draft>)
    requires Indexed(ds, idx, n) && Grouped(ds, distinct, groups)
    ensures Bodies(result) == JoinOf(Operands(ds, idx, n), merge)
    ensures SameStarts(ds, result)
  {
    ghost var ss := Operands(ds, idx, n);
    UnionOfOperands(ds, idx, n);
    var cells := Arrange(distinct);
    ElemsWhole(distinct);
    result := [];
    for k := 0 to |cells|
      invariant Bodies(result) == JoinedSoFar(ss, MemberSets(cells[..k], distinct), merge)
      invariant SameStarts(ds, result)
    {
      assert cells[k] in cells;
      assert MemberSet(cells[k].members, distinct) in MemberSets(cells, distinct);
      var more := JoinCellOf(ds, idx, n, distinct, groups, cells[k], merge);
      BodiesAppend(result, more);
      OneMoreCell(ss, cells, distinct, k, merge);
      result := result + more;
    }
    assert cells[..|cells|] == cells;
    AllCellsJoined(ss, merge);
  }

  ghost predicate EachMatched(idx: seq<nat>, n: nat) { forall i: nat :: i < n ==> i in idx }

  lemma EachIsCovered(ds: seq<Draft>, idx: seq<nat>, n: nat, r: Refs)
    requires Indexed(ds, idx, n) && EachMatched(idx, n) && forall d :: d in ds ==> d.refs == r
    ensures CoversAll(Operands(ds, idx, n), {r})
  {
    forall i: nat | i < n ensures HasMember(Operands(ds, idx, n)[i], {r}) {
      assert i in idx;
      var j: nat :| j < |idx| && idx[j] == i;
      assert BodyOf(ds[j]) in OperandBodies(ds, idx, i);
      assert ds[j] in ds;
    }
  }

  lemma OnlyRefs(ds: seq<Draft>, distinct: seq<Refs>)
    requires |distinct| == 1 && Elems(distinct) == RefsOf(Bodies(ds))
    ensures RefsOf(Bodies(ds)) == {distinct[0]} && (forall d :: d in ds ==> d.refs == distinct[0]) && ds != []
  {
    assert Elems(distinct) == {distinct[0]} by { assert distinct == [distinct[0]]; }
    assert distinct[0] in RefsOf(Bodies(ds));
    forall d | d in ds ensures d.refs == distinct[0] {
      assert BodyOf(d) in Bodies(ds) && d.refs in RefsOf(Bodies(ds));
    }
  }

  // Joined cell by cell: a cell counts if every operand has a subgraph there, and each operand has one somewhere.
  method JoinAnd(ds: seq<Draft>, idx: seq<nat>, n: nat) returns (result: seq<Draft>)
    requires Indexed(ds, idx, n) && EachMatched(idx, n)
    ensures Bodies(result) == AndOf(Operands(ds, idx, n))
    ensures SameStarts(ds, result)
  {
    var distinct, groups := GroupByRefs(ds);
    if |distinct| == 1 {
      OnlyRefs(ds, distinct);
      UnionOfOperands(ds, idx, n);
      EachIsCovered(ds, idx, n, distinct[0]);
      OneRefsJoin(Operands(ds, idx, n), distinct[0], false);
      OneRefsInCell(Bodies(ds), distinct[0]);
      return ds;
    }
    result := JoinByCells(ds, idx, n, distinct, groups, false);
  }

  method MergeEverything(ds: seq<Draft>, refs: Refs) returns (result: Draft)
    requires ds != []
    ensures BodyOf(result) == Body(Merged(set b | b in Bodies(ds) :: b.content), refs)
    ensures exists e :: e in ds && e.start == result.start
  {
    var chosen: seq<nat> := seq(|ds|, i => i);
    forall k: nat | k < |ds| ensures k in chosen { assert chosen[k] == k; }
    result := Merge(ds, chosen, refs);
    ChosenAreContents(ds, chosen, RefsOf(Bodies(ds)));
    assert ContentsIn(Bodies(ds), RefsOf(Bodies(ds))) == set b | b in Bodies(ds) :: b.content;
  }

  ghost predicate AllHave(ds: seq<Draft>, r: Refs) { forall d :: d in ds ==> d.refs == r }

  // The same, but the subgraphs of each part are merged.
  method JoinAll(ds: seq<Draft>, idx: seq<nat>, n: nat) returns (result: seq<Draft>)
    requires Indexed(ds, idx, n) && EachMatched(idx, n)
    ensures Bodies(result) == AllOf(Operands(ds, idx, n))
    ensures SameStarts(ds, result)
    ensures forall r: Refs :: AllHave(ds, r) ==> AllHave(result, r)
  {
    var distinct, groups := GroupByRefs(ds);
    if |distinct| == 1 {
      OnlyRefs(ds, distinct);
      UnionOfOperands(ds, idx, n);
      EachIsCovered(ds, idx, n, distinct[0]);
      OneRefsJoin(Operands(ds, idx, n), distinct[0], true);
      OneRefsInCell(Bodies(ds), distinct[0]);
      var merged := MergeEverything(ds, distinct[0]);
      result := [merged];
      assert Bodies(result) == {BodyOf(merged)} by { assert merged in [merged]; }
      assert ds[0] in ds;
      return;
    }
    result := JoinByCells(ds, idx, n, distinct, groups, true);
    forall r: Refs | AllHave(ds, r) ensures result == [] {
      NotTheSameRefs(ds, distinct, r);
      assert Bodies(ds) == {};
      UnionOfOperands(ds, idx, n);
      assert RefsOf(Union(Operands(ds, idx, n))) == {};
      assert AllOf(Operands(ds, idx, n)) == {};
      BodiesEmpty(result);
    }
  }

  lemma NotTheSameRefs(ds: seq<Draft>, distinct: seq<Refs>, r: Refs)
    requires NoDuplicates(distinct) && Elems(distinct) == RefsOf(Bodies(ds)) && |distinct| != 1
    requires AllHave(ds, r)
    ensures ds == []
  {
    if ds != [] {
      assert ds[0] in ds && BodyOf(ds[0]) in Bodies(ds);
      forall q | q in Elems(distinct) ensures q == r {
        var b :| b in Bodies(ds) && b.refs == q;
      }
      OneElement(distinct, r);
    }
  }

  lemma OneElement<T>(s: seq<T>, x: T)
    requires NoDuplicates(s) && Elems(s) == {x}
    ensures |s| == 1
  {
    DistinctCount(s);
  }

  lemma {:induction false} DistinctCount<T>(s: seq<T>)
    requires NoDuplicates(s)
    ensures |Elems(s)| == |s|
  {
    if s != [] {
      var last := |s| - 1;
      DistinctCount(s[..last]);
      ElemsPrefix(s, last);
      assert s[..last + 1] == s;
      assert s[last] !in Elems(s[..last]);
    } else {
      assert Elems(s) == {};
    }
  }
}
