/** Arranging refs into cells. */
module Arrangement {
  import opened Base
  import opened RefsAlgebra
  import opened RefsUnions

  // --------------------------------------------------------------------------
  // Subtraction
  // --------------------------------------------------------------------------

  method DistinctRefs(refs: seq<Refs>) returns (result: seq<Refs>)
    ensures NoDuplicates(result) && Elems(result) == Elems(refs)
  {
    result := [];
    for i := 0 to |refs|
      invariant NoDuplicates(result) && Elems(result) == Elems(refs[..i])
    {
      ElemsPrefix(refs, i);
      if refs[i] !in result {
        ElemsSnoc(result, refs[i]);
        result := result + [refs[i]];
      }
    }
    assert refs[..|refs|] == refs;
  }

  // Whether refs[i] is inside other refs of the list.
  method IsContained(refs: seq<Refs>, i: nat) returns (contained: bool)
    requires i < |refs| && NoDuplicates(refs)
    ensures contained <==> refs[i] !in Simplified(Elems(refs))
  {
    contained := false;
    var j := 0;
    while j < |refs| && !contained
      invariant 0 <= j <= |refs|
      invariant contained ==> exists k :: 0 <= k < |refs| && k != i && Implies(refs[i], refs[k])
      invariant !contained ==> forall k :: 0 <= k < j && Implies(refs[i], refs[k]) ==> k == i
    {
      contained := i != j && Implies(refs[i], refs[j]);
      j := j + 1;
    }
    if contained {
      var k :| 0 <= k < |refs| && k != i && Implies(refs[i], refs[k]);
      assert refs[k] in Elems(refs) && refs[k] != refs[i];
    }
  }

  method SimplifyUnion(refs: seq<Refs>) returns (result: seq<Refs>)
    ensures NoDuplicates(result) && Elems(result) == Simplified(Elems(refs))
  {
    var distinct := DistinctRefs(refs);
    if |distinct| <= 1 {
      return distinct;
    }
    result := [];
    for i := 0 to |distinct|
      invariant NoDuplicates(result)
      invariant Elems(result) == set t | t in Elems(distinct[..i]) && t in Simplified(Elems(refs))
    {
      var contained := IsContained(distinct, i);
      ElemsPrefix(distinct, i);
      if !contained {
        assert distinct[i] !in Elems(distinct[..i]);
        assert distinct[i] !in Elems(result);
        ElemsSnoc(result, distinct[i]);
        result := result + [distinct[i]];
      }
    }
    assert distinct[..|distinct|] == distinct;
  }

  method SubtractRefs(self: Refs, other: Refs) returns (result: seq<Refs>)
    ensures NoDuplicates(result) && Elems(result) == Subtract(self, other)
  {
    if Meet(self, other).None? {
      return [self];
    }
    var terms: seq<Refs> := [];
    var rest: set<Literal> := other;
    while rest != {}
      invariant rest <= other
      invariant Elems(terms) ==
        set l | l in other && l !in rest && Meet(self, Exclusion(l)).Some? :: Meet(self, Exclusion(l)).value
    {
      var l :| l in rest;
      var term := Meet(self, Exclusion(l));
      if term.Some? {
        ElemsAppend(terms, [term.value]);
        terms := terms + [term.value];
      }
      rest := rest - {l};
    }
    assert Elems(terms) == Differences(self, other);
    result := SimplifyUnion(terms);
  }

  method SubtractRefsFromUnion(terms: seq<Refs>, refs: Refs) returns (result: seq<Refs>)
    ensures NoDuplicates(result) && Elems(result) == SubtractFromUnion(Elems(terms), refs)
  {
    var all: seq<Refs> := [];
    for i := 0 to |terms|
      invariant Elems(all) == SubtractedFromEach(Elems(terms[..i]), refs)
    {
      var rest := SubtractRefs(terms[i], refs);
      assert terms[..i + 1] == terms[..i] + [terms[i]];
      ElemsAppend(all, rest);
      all := all + rest;
    }
    assert terms[..|terms|] == terms;
    result := SimplifyUnion(all);
  }

  method IntersectEach(terms: seq<Refs>, refs: Refs) returns (result: seq<Refs>)
    ensures Elems(result) == MetBy(Elems(terms), refs)
  {
    result := [];
    for i := 0 to |terms|
      invariant Elems(result) == MetBy(Elems(terms[..i]), refs)
    {
      assert terms[..i + 1] == terms[..i] + [terms[i]];
      var intersection := Meet(terms[i], refs);
      if intersection.Some? {
        ElemsAppend(result, [intersection.value]);
        result := result + [intersection.value];
      }
    }
    assert terms[..|terms|] == terms;
  }

  // --------------------------------------------------------------------------
  // Cells
  // --------------------------------------------------------------------------

  datatype RefsCell = RefsCell(terms: seq<Refs>, members: seq<nat>)

  ghost function MemberSet(members: seq<nat>, refs: seq<Refs>): set<Refs> {
    set k | k in members && k < |refs| :: refs[k]
  }

  // The points covered by exactly the members, among all the refs arranged.
  ghost function CellRegion(members: set<Refs>, all: set<Refs>): Region { Region(members, all - members) }

  ghost function CellTerms(members: set<Refs>, all: set<Refs>): set<Refs> { Terms(CellRegion(members, all)) }

  ghost predicate HasPoints(members: set<Refs>, all: set<Refs>) { CellTerms(members, all) != {} }

  ghost function NonemptyCells(all: set<Refs>): set<set<Refs>> {
    set m: set<Refs> | m <= all && m != {} && HasPoints(m, all)
  }

  ghost predicate Increasing(members: seq<nat>, bound: nat) {
    (forall i, j :: 0 <= i < j < |members| ==> members[i] < members[j]) && (forall k :: k in members ==> k < bound)
  }

  ghost predicate CellOk(cell: RefsCell, refs: seq<Refs>, i: nat)
    requires i <= |refs|
  {
    Increasing(cell.members, i) &&
    Elems(cell.terms) == CellTerms(MemberSet(cell.members, refs), Elems(refs[..i]))
  }

  ghost function MemberSets(cells: seq<RefsCell>, refs: seq<Refs>): set<set<Refs>> {
    set c | c in cells :: MemberSet(c.members, refs)
  }

  ghost predicate DistinctCells(cells: seq<RefsCell>, refs: seq<Refs>) {
    forall a, b :: 0 <= a < b < |cells| ==> MemberSet(cells[a].members, refs) != MemberSet(cells[b].members, refs)
  }

  // The cells arrange the first i refs: one for each set of refs that are all that cover some point.
  ghost predicate Arranges(cells: seq<RefsCell>, refs: seq<Refs>, i: nat)
    requires i <= |refs|
  {
    (forall c :: c in cells ==> CellOk(c, refs, i)) &&
    DistinctCells(cells, refs) &&
    MemberSets(cells, refs) == NonemptyCells(Elems(refs[..i]))
  }

  lemma HasPointsMeaning(m: set<Refs>, all: set<Refs>)
    ensures HasPoints(m, all) <==> exists s: Assignment :: Inside(s, CellRegion(m, all))
  {
    if HasPoints(m, all) {
      var t :| t in CellTerms(m, all);
      PointIsInside(t, {});
      assert Within(t, CellRegion(m, all));
    }
  }

  // Points of a cell stay points of a cell when refs are added or forgotten.
  lemma ForgettingRefs(m: set<Refs>, all: set<Refs>, r: Refs)
    requires m <= all + {r} && r !in all && HasPoints(m, all + {r})
    ensures HasPoints(m - {r}, all)
  {
    HasPointsMeaning(m, all + {r});
    var s: Assignment :| Inside(s, CellRegion(m, all + {r}));
    assert Inside(s, CellRegion(m - {r}, all));
    HasPointsMeaning(m - {r}, all);
  }

  lemma InsideTerms(m: set<Refs>, all: set<Refs>, r: Refs)
    requires m <= all && r !in all
    ensures CellTerms(m + {r}, all + {r}) == Simplified(MetBy(CellTerms(m, all), r))
  {
    var g := CellRegion(m, all);
    MetByIsAdequate(CellTerms(m, all), g, r);
    SimplifiedIsExact(MetBy(CellTerms(m, all), r), Region(g.must + {r}, g.mustNot));
    assert CellRegion(m + {r}, all + {r}) == Region(g.must + {r}, g.mustNot);
    TermsOf(Simplified(MetBy(CellTerms(m, all), r)), CellRegion(m + {r}, all + {r}));
  }

  lemma OutsideTerms(m: set<Refs>, all: set<Refs>, r: Refs)
    requires m <= all && r !in all
    ensures CellTerms(m, all + {r}) == SubtractFromUnion(CellTerms(m, all), r)
  {
    var g := CellRegion(m, all);
    SubtractFromUnionIsDifference(CellTerms(m, all), g, r);
    assert CellRegion(m, all + {r}) == Region(g.must, g.mustNot + {r});
    TermsOf(SubtractFromUnion(CellTerms(m, all), r), CellRegion(m, all + {r}));
  }

  lemma SomeTermMet(ts: set<Refs>, r: Refs, s: Assignment)
    requires CoveredBy(s, ts) && Sat(r, s)
    ensures MetBy(ts, r) != {}
  {
    var t :| t in ts && Sat(t, s);
    MeetIsIntersection(t, r);
    assert Meet(t, r).value in MetBy(ts, r);
  }

  // A cell that doesn't intersect the refs is outside of it already.
  lemma UntouchedTerms(m: set<Refs>, all: set<Refs>, r: Refs)
    requires m <= all && r !in all && MetBy(CellTerms(m, all), r) == {}
    ensures CellTerms(m, all + {r}) == CellTerms(m, all) && !HasPoints(m + {r}, all + {r})
  {
    InsideTerms(m, all, r);
    var g, h := CellRegion(m, all), CellRegion(m, all + {r});
    assert h == Region(m, all - m + {r});
    forall s: Assignment ensures Inside(s, g) <==> Inside(s, h) {
      if Inside(s, g) && Sat(r, s) {
        SomeTermMet(CellTerms(m, all), r, s);
      }
    }
    TermsOfSameRegion(g, h);
  }

  // --------------------------------------------------------------------------
  // Arrangement
  // --------------------------------------------------------------------------

  lemma MemberSetOfPrefix(members: seq<nat>, refs: seq<Refs>, i: nat)
    requires i <= |refs| && forall k :: k in members ==> k < i
    ensures MemberSet(members, refs) <= Elems(refs[..i])
  {
    forall k | k in members ensures refs[k] in refs[..i] { assert refs[..i][k] == refs[k]; }
  }

  lemma MemberSetAppend(members: seq<nat>, refs: seq<Refs>, i: nat)
    requires i < |refs|
    ensures MemberSet(members + [i], refs) == MemberSet(members, refs) + {refs[i]}
  {
    forall r | r in MemberSet(members, refs) + {refs[i]} ensures r in MemberSet(members + [i], refs) {
      if r == refs[i] { assert i in members + [i]; }
      else {
        var k :| k in members && k < |refs| && refs[k] == r;
        assert k in members + [i];
      }
    }
  }

  // The cells that refs split a cell into: the part inside of them and the part outside of them.
  ghost function Halves(m: set<Refs>, all: set<Refs>, r: Refs): set<set<Refs>> {
    (if HasPoints(m + {r}, all + {r}) then {m + {r}} else {}) + (if HasPoints(m, all + {r}) then {m} else {})
  }

  lemma HalvesAreNonempty(m: set<Refs>, all: set<Refs>, r: Refs)
    requires m in NonemptyCells(all) && r !in all
    ensures Halves(m, all, r) == set n | n in NonemptyCells(all + {r}) && n - {r} == m
  {
    forall n | n in NonemptyCells(all + {r}) && n - {r} == m ensures n in Halves(m, all, r) {
      assert n == m || n == m + {r};
    }
  }

  lemma SimplifiedOfNonempty(ts: set<Refs>)
    ensures Simplified(ts) == {} <==> ts == {}
  {
    if ts != {} {
      var t :| t in ts;
      SimplifiedDominates(ts, t);
    }
  }

  lemma IncreasingAppend(members: seq<nat>, i: nat)
    requires Increasing(members, i)
    ensures Increasing(members + [i], i + 1)
  {
    forall a | 0 <= a < |members| ensures members[a] < i { assert members[a] in members; }
  }

  lemma CellInside(cell: RefsCell, refs: seq<Refs>, i: nat, terms: seq<Refs>)
    requires i < |refs| && NoDuplicates(refs) && CellOk(cell, refs, i)
    requires Elems(terms) == Simplified(MetBy(Elems(cell.terms), refs[i]))
    ensures CellOk(RefsCell(terms, cell.members + [i]), refs, i + 1)
    ensures MemberSet(cell.members + [i], refs) == MemberSet(cell.members, refs) + {refs[i]}
  {
    ElemsPrefix(refs, i);
    MemberSetOfPrefix(cell.members, refs, i);
    MemberSetAppend(cell.members, refs, i);
    IncreasingAppend(cell.members, i);
    InsideTerms(MemberSet(cell.members, refs), Elems(refs[..i]), refs[i]);
  }

  lemma CellOutside(cell: RefsCell, refs: seq<Refs>, i: nat, terms: seq<Refs>)
    requires i < |refs| && NoDuplicates(refs) && CellOk(cell, refs, i)
    requires Elems(terms) == SubtractFromUnion(Elems(cell.terms), refs[i])
    ensures CellOk(RefsCell(terms, cell.members), refs, i + 1)
  {
    ElemsPrefix(refs, i);
    MemberSetOfPrefix(cell.members, refs, i);
    OutsideTerms(MemberSet(cell.members, refs), Elems(refs[..i]), refs[i]);
  }

  lemma CellUntouched(cell: RefsCell, refs: seq<Refs>, i: nat)
    requires i < |refs| && NoDuplicates(refs) && CellOk(cell, refs, i)
    requires MetBy(Elems(cell.terms), refs[i]) == {}
    ensures CellOk(cell, refs, i + 1)
    ensures !HasPoints(MemberSet(cell.members, refs) + {refs[i]}, Elems(refs[..i + 1]))
  {
    ElemsPrefix(refs, i);
    MemberSetOfPrefix(cell.members, refs, i);
    UntouchedTerms(MemberSet(cell.members, refs), Elems(refs[..i]), refs[i]);
  }

  ghost predicate SplitsInto(cell: RefsCell, refs: seq<Refs>, i: nat, parts: seq<RefsCell>)
    requires i < |refs|
  {
    (forall c :: c in parts ==> CellOk(c, refs, i + 1)) &&
    |parts| <= 2 &&
    (|parts| == 2 ==> MemberSet(parts[0].members, refs) != MemberSet(parts[1].members, refs)) &&
    MemberSets(parts, refs) == Halves(MemberSet(cell.members, refs), Elems(refs[..i]), refs[i])
  }

  lemma CellHasPoints(cell: RefsCell, refs: seq<Refs>, i: nat)
    requires i <= |refs| && CellOk(cell, refs, i)
    ensures HasPoints(MemberSet(cell.members, refs), Elems(refs[..i])) <==> cell.terms != []
  {
    ElemsEmpty(cell.terms);
  }

  lemma SplitInTwo(cell: RefsCell, refs: seq<Refs>, i: nat, inside: RefsCell, outside: RefsCell, parts: seq<RefsCell>)
    requires i < |refs| && NoDuplicates(refs) && CellOk(cell, refs, i)
    requires CellOk(inside, refs, i + 1) && MemberSet(inside.members, refs) == MemberSet(cell.members, refs) + {refs[i]}
    requires CellOk(outside, refs, i + 1) && MemberSet(outside.members, refs) == MemberSet(cell.members, refs)
    requires parts == (if inside.terms != [] then [inside] else []) + (if outside.terms != [] then [outside] else [])
    ensures SplitsInto(cell, refs, i, parts)
  {
    ElemsPrefix(refs, i);
    CellHasPoints(inside, refs, i + 1);
    CellHasPoints(outside, refs, i + 1);
    MemberSetOfPrefix(cell.members, refs, i);
    assert refs[i] !in MemberSet(outside.members, refs);
  }

  method SplitCell(cell: RefsCell, refs: seq<Refs>, i: nat) returns (parts: seq<RefsCell>)
    requires i < |refs| && NoDuplicates(refs)
    requires CellOk(cell, refs, i) && cell.terms != []
    ensures SplitsInto(cell, refs, i, parts)
  {
    var met := IntersectEach(cell.terms, refs[i]);
    ElemsEmpty(met);
    SimplifiedOfNonempty(Elems(met));
    if met == [] {
      parts := [cell];
      CellUntouched(cell, refs, i);
      CellInside(cell, refs, i, []);
      assert [] + [cell] == parts;
      SplitInTwo(cell, refs, i, RefsCell([], cell.members + [i]), cell, parts);
    } else {
      var insideTerms := SimplifyUnion(met);
      ElemsEmpty(insideTerms);
      CellInside(cell, refs, i, insideTerms);
      var inside := RefsCell(insideTerms, cell.members + [i]);
      var outsideTerms := SubtractRefsFromUnion(cell.terms, refs[i]);
      CellOutside(cell, refs, i, outsideTerms);
      var outside := RefsCell(outsideTerms, cell.members);
      parts := [inside];
      if outside.terms != [] {
        parts := parts + [outside];
      }
      SplitInTwo(cell, refs, i, inside, outside, parts);
    }
  }

  // The part of refs[i] outside all the previous ones.
  method FreshTerms(refs: seq<Refs>, i: nat) returns (own: seq<Refs>)
    requires i < |refs| && NoDuplicates(refs)
    ensures Elems(own) == CellTerms({refs[i]}, Elems(refs[..i + 1]))
  {
    own := [refs[i]];
    ghost var r := refs[i];
    SingletonIsExact(r, Region({r}, {}));
    assert Elems(own) == {r};
    var j := 0;
    while j < i && own != []
      invariant 0 <= j <= i
      invariant Exact(Elems(own), Region({r}, Elems(refs[..j])))
    {
      SubtractFromUnionIsDifference(Elems(own), Region({r}, Elems(refs[..j])), refs[j]);
      ElemsPrefix(refs, j);
      own := SubtractRefsFromUnion(own, refs[j]);
      j := j + 1;
    }
    ElemsPrefix(refs, i);
    assert Elems(refs[..i + 1]) - {r} == Elems(refs[..i]);
    if j < i {
      EmptyStaysEmpty(r, Elems(refs[..j]), Elems(refs[..i]));
    }
    TermsOf(Elems(own), CellRegion({r}, Elems(refs[..i + 1])));
  }

  lemma EmptyStaysEmpty(r: Refs, a: set<Refs>, b: set<Refs>)
    requires Exact({}, Region({r}, a)) && a <= b
    ensures Exact({}, Region({r}, b))
  {
    forall s: Assignment ensures !Inside(s, Region({r}, b)) {
      if Inside(s, Region({r}, b)) { assert Inside(s, Region({r}, a)); }
    }
    forall c: Refs ensures !Within(c, Region({r}, b)) {
      PointIsInside(c, {});
      assert !Inside(Point(c, {}), Region({r}, b));
    }
  }

  // --------------------------------------------------------------------------
  // The whole arrangement
  // --------------------------------------------------------------------------

  // Cells of refs[..i + 1] that come from splitting the given cells of refs[..i].
  ghost predicate SplitFrom(next: seq<RefsCell>, cells: seq<RefsCell>, refs: seq<Refs>, i: nat)
    requires i < |refs|
  {
    (forall c :: c in next ==> CellOk(c, refs, i + 1)) &&
    DistinctCells(next, refs) &&
    MemberSets(next, refs) ==
      set n | n in NonemptyCells(Elems(refs[..i + 1])) && n - {refs[i]} in MemberSets(cells, refs)
  }

  lemma MemberSetsAppend(a: seq<RefsCell>, b: seq<RefsCell>, refs: seq<Refs>)
    ensures MemberSets(a + b, refs) == MemberSets(a, refs) + MemberSets(b, refs)
  {}

  lemma DistinctAppend(a: seq<RefsCell>, b: seq<RefsCell>, refs: seq<Refs>)
    requires DistinctCells(a, refs) && DistinctCells(b, refs) && MemberSets(a, refs) !! MemberSets(b, refs)
    ensures DistinctCells(a + b, refs)
  {
    forall i, j | 0 <= i < |a| && 0 <= j < |b|
      ensures MemberSet(a[i].members, refs) != MemberSet(b[j].members, refs)
    {
      assert a[i] in a && b[j] in b;
      assert MemberSet(a[i].members, refs) in MemberSets(a, refs);
      assert MemberSet(b[j].members, refs) in MemberSets(b, refs);
    }
  }

  lemma SplitOneMore(next: seq<RefsCell>, cells: seq<RefsCell>, refs: seq<Refs>, i: nat, k: nat, parts: seq<RefsCell>)
    requires i < |refs| && k < |cells| && NoDuplicates(refs)
    requires Arranges(cells, refs, i) && SplitFrom(next, cells[..k], refs, i)
    requires SplitsInto(cells[k], refs, i, parts)
    ensures SplitFrom(next + parts, cells[..k + 1], refs, i)
  {
    var m, r := MemberSet(cells[k].members, refs), refs[i];
    ElemsPrefix(refs, i);
    assert cells[k] in cells;
    HalvesAreNonempty(m, Elems(refs[..i]), r);
    assert cells[..k + 1] == cells[..k] + [cells[k]];
    MemberSetsAppend(cells[..k], [cells[k]], refs);
    assert MemberSets([cells[k]], refs) == {m} by { assert cells[k] in [cells[k]]; }
    MemberSetsAppend(next, parts, refs);
    assert m !in MemberSets(cells[..k], refs);
    DistinctAppend(next, parts, refs);
  }

  method SplitCells(cells: seq<RefsCell>, refs: seq<Refs>, i: nat) returns (next: seq<RefsCell>)
    requires i < |refs| && NoDuplicates(refs) && Arranges(cells, refs, i)
    ensures SplitFrom(next, cells, refs, i)
  {
    next := [];
    for k := 0 to |cells|
      invariant SplitFrom(next, cells[..k], refs, i)
    {
      assert cells[k] in cells && MemberSet(cells[k].members, refs) in MemberSets(cells, refs);
      CellHasPoints(cells[k], refs, i);
      var parts := SplitCell(cells[k], refs, i);
      SplitOneMore(next, cells, refs, i, k, parts);
      next := next + parts;
    }
    assert cells[..|cells|] == cells;
  }

  lemma ArrangedOneMore(cells: seq<RefsCell>, next: seq<RefsCell>, refs: seq<Refs>, i: nat, own: seq<Refs>)
    requires i < |refs| && NoDuplicates(refs)
    requires Arranges(cells, refs, i) && SplitFrom(next, cells, refs, i)
    requires Elems(own) == CellTerms({refs[i]}, Elems(refs[..i + 1]))
    ensures Arranges(if own == [] then next else next + [RefsCell(own, [i])], refs, i + 1)
  {
    var r, all := refs[i], Elems(refs[..i]);
    var cell := RefsCell(own, [i]);
    ElemsPrefix(refs, i);
    ElemsEmpty(own);
    assert MemberSet([i], refs) == {r} by { assert i in [i]; }
    forall n | n in NonemptyCells(all + {r}) && n != {r} ensures n - {r} in MemberSets(cells, refs) {
      ForgettingRefs(n, all, r);
    }
    assert {r} - {r} !in NonemptyCells(all);
    assert {r} !in MemberSets(next, refs);
    forall a | 0 <= a < |next| ensures MemberSet(next[a].members, refs) != {r} {
      assert next[a] in next && MemberSet(next[a].members, refs) in MemberSets(next, refs);
    }
    assert MemberSets(next + [cell], refs) == MemberSets(next, refs) + {{r}} by {
      assert MemberSets([cell], refs) == {{r}} by { assert cell in [cell]; }
      assert MemberSets(next + [cell], refs) == MemberSets(next, refs) + MemberSets([cell], refs);
    }
  }

  method ArrangeBySplitting(refs: seq<Refs>) returns (cells: seq<RefsCell>)
    requires NoDuplicates(refs)
    ensures Arranges(cells, refs, |refs|)
  {
    cells := [];
    for i := 0 to |refs|
      invariant Arranges(cells, refs, i)
    {
      var next := SplitCells(cells, refs, i);
      var own := FreshTerms(refs, i);
      ArrangedOneMore(cells, next, refs, i, own);
      if own != [] {
        next := next + [RefsCell(own, [i])];
      }
      cells := next;
    }
  }

  predicate HasNegatives(r: Refs) { exists l :: l in r && l.negative }

  function PositiveNames(r: Refs): set<RefName> { set l | l in r && !l.negative :: l.name }

  // Distinct refs that set the same names and exclude nothing don't intersect.
  lemma SameNamesAreDisjoint(a: Refs, b: Refs, s: Assignment)
    requires !HasNegatives(a) && !HasNegatives(b) && PositiveNames(a) == PositiveNames(b)
    requires Sat(a, s) && Sat(b, s)
    ensures a == b
  {
    SameNamesIncluded(a, b, s);
    SameNamesIncluded(b, a, s);
  }

  lemma SameNamesIncluded(a: Refs, b: Refs, s: Assignment)
    requires !HasNegatives(a) && !HasNegatives(b) && PositiveNames(a) == PositiveNames(b)
    requires Sat(a, s) && Sat(b, s)
    ensures a <= b
  {
    forall l | l in a ensures l in b {
      assert l.name in PositiveNames(b);
      var m :| m in b && m.name == l.name;
      assert Holds(l, s) && Holds(m, s);
      assert m == l;
    }
  }

  ghost predicate PairwiseDisjoint(refs: seq<Refs>) {
    forall i, j, s: Assignment :: 0 <= i < |refs| && 0 <= j < |refs| && Sat(refs[i], s) && Sat(refs[j], s) ==> i == j
  }

  lemma DisjointCell(refs: seq<Refs>, i: nat, n: nat)
    requires i < n <= |refs| && NoDuplicates(refs) && PairwiseDisjoint(refs)
    ensures CellTerms({refs[i]}, Elems(refs[..n])) == {refs[i]}
  {
    var r, g := refs[i], CellRegion({refs[i]}, Elems(refs[..n]));
    forall s: Assignment ensures Inside(s, g) <==> Sat(r, s) {
      assert r in g.must;
      forall q | q in g.mustNot && Sat(r, s) ensures !Sat(q, s) {
        var j :| 0 <= j < n && refs[j] == q;
      }
    }
    SingletonIsExact(r, g);
    TermsOf({r}, g);
  }

  lemma DisjointCellsAreSingletons(refs: seq<Refs>, m: set<Refs>, n: nat)
    requires n <= |refs| && NoDuplicates(refs) && PairwiseDisjoint(refs)
    requires m in NonemptyCells(Elems(refs[..n]))
    ensures exists i :: 0 <= i < n && m == {refs[i]}
  {
    HasPointsMeaning(m, Elems(refs[..n]));
    var s: Assignment :| Inside(s, CellRegion(m, Elems(refs[..n])));
    var r :| r in m;
    var i :| 0 <= i < n && refs[i] == r;
    forall q | q in m ensures q == r {
      var j :| 0 <= j < n && refs[j] == q;
      assert Sat(refs[i], s) && Sat(refs[j], s);
    }
    assert m == {refs[i]};
  }

  lemma DisjointArranged(refs: seq<Refs>, cells: seq<RefsCell>, n: nat)
    requires n < |refs| && NoDuplicates(refs) && PairwiseDisjoint(refs)
    requires |cells| == n && forall i :: 0 <= i < n ==> cells[i] == RefsCell([refs[i]], [i])
    ensures Arranges(cells + [RefsCell([refs[n]], [n])], refs, n + 1)
  {
    var all := cells + [RefsCell([refs[n]], [n])];
    var refsSoFar := Elems(refs[..n + 1]);
    forall i | 0 <= i <= n
      ensures CellOk(all[i], refs, n + 1) && MemberSet(all[i].members, refs) == {refs[i]}
      ensures {refs[i]} in NonemptyCells(refsSoFar)
    {
      DisjointCell(refs, i, n + 1);
      assert i in [i] && refs[i] in [refs[i]];
      assert MemberSet([i], refs) == {refs[i]};
      assert Elems([refs[i]]) == {refs[i]};
      assert refs[..n + 1][i] == refs[i];
    }
    forall m | m in NonemptyCells(refsSoFar) ensures m in MemberSets(all, refs) {
      DisjointCellsAreSingletons(refs, m, n + 1);
      var i :| 0 <= i < n + 1 && m == {refs[i]};
      assert all[i] in all;
    }
  }

  // Every way to lie in some of the refs but not in the others, unless it is empty or outside of all.
  method Arrange(refs: seq<Refs>) returns (cells: seq<RefsCell>)
    requires NoDuplicates(refs)
    ensures Arranges(cells, refs, |refs|)
  {
    var disjoint := forall r :: r in refs ==> !HasNegatives(r) && PositiveNames(r) == PositiveNames(refs[0]);
    if disjoint {
      assert PairwiseDisjoint(refs) by {
        forall i, j, s: Assignment | 0 <= i < |refs| && 0 <= j < |refs| && Sat(refs[i], s) && Sat(refs[j], s)
          ensures i == j
        {
          assert refs[i] in refs && refs[j] in refs;
          SameNamesAreDisjoint(refs[i], refs[j], s);
        }
      }
      cells := [];
      for i := 0 to |refs|
        invariant |cells| == i && forall k :: 0 <= k < i ==> cells[k] == RefsCell([refs[k]], [k])
        invariant Arranges(cells, refs, i)
      {
        DisjointArranged(refs, cells, i);
        cells := cells + [RefsCell([refs[i]], [i])];
      }
      return;
    }
    cells := ArrangeBySplitting(refs);
  }

  ghost function CoveringRefs(refs: seq<Refs>, s: Assignment): set<Refs> { set r | r in refs && Sat(r, s) }

  // The arrangement is an exact partition: a point is in a cell exactly when the refs covering the
  // point are exactly the members of the cell, and every covered point is in one, and only one, cell.
  lemma ArrangementIsPartition(refs: seq<Refs>, cells: seq<RefsCell>, s: Assignment)
    requires NoDuplicates(refs) && Arranges(cells, refs, |refs|)
    ensures forall k :: 0 <= k < |cells| ==>
      (CoveredBy(s, Elems(cells[k].terms)) <==> MemberSet(cells[k].members, refs) == CoveringRefs(refs, s))
    ensures CoveringRefs(refs, s) != {} <==> exists k :: 0 <= k < |cells| && CoveredBy(s, Elems(cells[k].terms))
    ensures forall j, k :: 0 <= j < k < |cells| ==>
      !(CoveredBy(s, Elems(cells[j].terms)) && CoveredBy(s, Elems(cells[k].terms)))
  {
    ElemsWhole(refs);
    var all := Elems(refs);
    var cover := CoveringRefs(refs, s);
    forall k | 0 <= k < |cells|
      ensures CoveredBy(s, Elems(cells[k].terms)) <==> MemberSet(cells[k].members, refs) == cover
      ensures MemberSet(cells[k].members, refs) != {}
    {
      var m := MemberSet(cells[k].members, refs);
      assert cells[k] in cells && m in MemberSets(cells, refs);
      InCellIffMembersCover(m, all, s);
    }
    if cover != {} {
      InCellIffMembersCover(cover, all, s);
      assert cover in NonemptyCells(all);
      var c :| c in cells && MemberSet(c.members, refs) == cover;
      var k :| 0 <= k < |cells| && cells[k] == c;
      assert CoveredBy(s, Elems(cells[k].terms));
    }
  }

  lemma InCellIffMembersCover(m: set<Refs>, all: set<Refs>, s: Assignment)
    requires m <= all
    ensures CoveredBy(s, CellTerms(m, all)) <==> m == set r | r in all && Sat(r, s)
  {
    var g := CellRegion(m, all);
    if CoveredBy(s, CellTerms(m, all)) {
      var t :| t in CellTerms(m, all) && Sat(t, s);
      assert Within(t, g);
    }
    if m == set r | r in all && Sat(r, s) {
      assert Inside(s, g);
    }
  }
}
