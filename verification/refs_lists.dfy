/** Refs as sorted vectors of literals. */
module RefsLists {
  import opened Base
  import opened RefsAlgebra
  import opened Semantics

  predicate VertexLess(v: VertexID, w: VertexID) {
    v.typeName < w.typeName || (v.typeName == w.typeName && v.value < w.value)
  }

  // Ordered by name; positive literals go first.
  predicate LiteralLess(l: Literal, m: Literal) {
    l.name < m.name ||
    (l.name == m.name && ((!l.negative && m.negative) || (l.negative == m.negative && VertexLess(l.value, m.value))))
  }

  ghost predicate Ascending(s: seq<Literal>) { forall i, j :: 0 <= i < j < |s| ==> !LiteralLess(s[j], s[i]) }

  ghost predicate Strictly(s: seq<Literal>) { forall i, j :: 0 <= i < j < |s| ==> LiteralLess(s[i], s[j]) }

  // A stored vector lists refs.
  ghost predicate Lists(s: seq<Literal>, r: set<Literal>) { Strictly(s) && Elems(s) == r }

  // Vectors are equal exactly when the refs are.
  lemma {:induction false} ListingIsUnique(s: seq<Literal>, t: seq<Literal>, r: set<Literal>)
    requires Lists(s, r) && Lists(t, r)
    ensures s == t
    decreases |s|
  {
    ElemsEmpty(s);
    ElemsEmpty(t);
    if s != [] {
      assert s[0] in Elems(t) && t[0] in Elems(s);
      FirstIsLeast(s, t[0]);
      FirstIsLeast(t, s[0]);
      assert Elems(s[1..]) == r - {s[0]} by { RestOfListing(s); }
      assert Elems(t[1..]) == r - {t[0]} by { RestOfListing(t); }
      ListingIsUnique(s[1..], t[1..], r - {s[0]});
      assert s == [s[0]] + s[1..] && t == [t[0]] + t[1..];
    }
  }

  lemma FirstIsLeast(s: seq<Literal>, l: Literal)
    requires Strictly(s) && l in s
    ensures l == s[0] || LiteralLess(s[0], l)
  {
    var i :| 0 <= i < |s| && s[i] == l;
  }

  lemma RestOfListing(s: seq<Literal>)
    requires s != [] && Strictly(s)
    ensures Elems(s[1..]) == Elems(s) - {s[0]} && Strictly(s[1..])
  {
    ElemsSuffix(s, 0);
    assert s[0..] == s;
    forall l | l in s[1..] ensures l != s[0] {
      var i :| 1 <= i < |s| && s[i] == l;
      assert LiteralLess(s[0], s[i]);
    }
  }

  // --------------------------------------------------------------------------
  // Normalizing
  // --------------------------------------------------------------------------

  ghost predicate NamedBelow(s: set<Literal>, x: RefName) { forall l :: l in s ==> l.name < x }

  ghost predicate AllNamedSo(s: set<Literal>, x: RefName) { forall l :: l in s ==> l.name == x }

  lemma GroupsAreIndependent(a: set<Literal>, b: set<Literal>, x: RefName)
    requires NamedBelow(a, x) && AllNamedSo(b, x)
    ensures Consistent(a + b) <==> Consistent(a) && Consistent(b)
    ensures Reduce(a + b) == Reduce(a) + Reduce(b)
  {
    forall l | l in a + b ensures l in Reduce(a + b) <==> l in Reduce(a) + Reduce(b) {
      if l in a {
        forall m | m in a + b && m.name == l.name ensures m in a {}
      } else {
        forall m | m in a + b && m.name == l.name ensures m in b {}
      }
    }
  }

  lemma StrictlyAppend(s: seq<Literal>, t: seq<Literal>, x: RefName)
    requires Strictly(s) && Strictly(t) && NamedBelow(Elems(s), x) && AllNamedSo(Elems(t), x)
    ensures Strictly(s + t)
  {
    forall l, m | l in s && m in t ensures LiteralLess(l, m) { assert l in Elems(s) && m in Elems(t); }
    StrictlyJoin(s, t);
  }

  // The literals of one ref.
  ghost predicate IsGroup(s: seq<Literal>, x: RefName) { s != [] && Ascending(s) && AllNamedSo(Elems(s), x) }

  lemma PositiveGroup(s: seq<Literal>, x: RefName)
    requires IsGroup(s, x) && !s[0].negative
    ensures Consistent(Elems(s)) <==>
        forall l :: l in s ==> if l.negative then l.value != s[0].value else l.value == s[0].value
    ensures Consistent(Elems(s)) ==> Reduce(Elems(s)) == {s[0]}
  {
    assert s[0] in Elems(s);
    forall l | l in s ensures l.name == x { assert l in Elems(s); }
    if Consistent(Elems(s)) {
      forall l | l in s ensures if l.negative then l.value != s[0].value else l.value == s[0].value {
        assert !Conflicting(s[0], l);
      }
    }
    if forall l :: l in s ==> if l.negative then l.value != s[0].value else l.value == s[0].value {
      forall l, m | l in Elems(s) && m in Elems(s) ensures !Conflicting(l, m) {}
    }
  }

  lemma NegativeGroup(s: seq<Literal>, x: RefName)
    requires IsGroup(s, x) && s[0].negative
    ensures forall l :: l in s ==> l.negative
    ensures Consistent(Elems(s)) && Reduce(Elems(s)) == Elems(s)
  {
    assert s[0] in Elems(s);
    forall l | l in s ensures l.negative && l.name == x {
      var i :| 0 <= i < |s| && s[i] == l;
      assert l in Elems(s);
      if i > 0 { assert !LiteralLess(s[i], s[0]); }
    }
  }

  method GroupEnd(ls: seq<Literal>, i: nat) returns (end: nat)
    requires i < |ls| && Ascending(ls)
    ensures i < end <= |ls| && (end < |ls| ==> ls[end].name != ls[i].name)
    ensures IsGroup(ls[i..end], ls[i].name)
  {
    end := i + 1;
    while end < |ls| && ls[end].name == ls[i].name
      invariant i < end <= |ls| && forall k :: i <= k < end ==> ls[k].name == ls[i].name
    {
      end := end + 1;
    }
    var s := ls[i..end];
    forall a, b | 0 <= a < b < |s| ensures !LiteralLess(s[b], s[a]) { assert !LiteralLess(ls[i + b], ls[i + a]); }
  }

  // The literals of a name whose first one is positive have a common value.
  method Agree(s: seq<Literal>) returns (ok: bool)
    requires s != [] && !s[0].negative
    ensures ok <==> forall l :: l in s ==> if l.negative then l.value != s[0].value else l.value == s[0].value
  {
    for j := 0 to |s|
      invariant forall k :: 0 <= k < j ==> if s[k].negative then s[k].value != s[0].value else s[k].value == s[0].value
    {
      if if !s[j].negative then s[j].value != s[0].value else s[j].value == s[0].value {
        return false;
      }
    }
    ok := true;
  }

  lemma VerticesAreOrdered(v: VertexID, w: VertexID)
    ensures VertexLess(v, w) || VertexLess(w, v) || v == w
  {}

  method WithoutDuplicates(s: seq<Literal>, x: RefName) returns (t: seq<Literal>)
    requires IsGroup(s, x) && forall l :: l in s ==> l.negative
    ensures Strictly(t) && Elems(t) == Elems(s)
  {
    t := [];
    for j := 0 to |s|
      invariant Elems(t) == Elems(s[..j]) && Strictly(t) && (t == [] <==> j == 0) && (j > 0 ==> t[|t| - 1] == s[j - 1])
    {
      ElemsPrefix(s, j);
      if j == 0 || s[j].value != s[j - 1].value {
        if j > 0 {
          assert s[j] in Elems(s) && s[j - 1] in Elems(s) && !LiteralLess(s[j], s[j - 1]);
          VerticesAreOrdered(s[j - 1].value, s[j].value);
          assert LiteralLess(s[j - 1], s[j]);
        }
        StrictlySnoc(t, s[j]);
        t := t + [s[j]];
      } else {
        assert s[j] in Elems(s) && s[j - 1] in Elems(s);
        assert s[j] == s[j - 1];
      }
    }
    ElemsWhole(s);
  }

  lemma StrictlySnoc(t: seq<Literal>, l: Literal)
    requires Strictly(t) && (t != [] ==> LiteralLess(t[|t| - 1], l))
    ensures Strictly(t + [l]) && Elems(t + [l]) == Elems(t) + {l}
  {
    ElemsSnoc(t, l);
    forall i | 0 <= i < |t| ensures LiteralLess(t[i], l) {
      if i < |t| - 1 { assert LiteralLess(t[i], t[|t| - 1]); }
    }
  }

  lemma BelowNextGroup(ls: seq<Literal>, i: nat)
    requires i < |ls| && Ascending(ls) && (i > 0 ==> ls[i - 1].name != ls[i].name)
    ensures NamedBelow(Elems(ls[..i]), ls[i].name)
  {
    forall l | l in ls[..i] ensures l.name < ls[i].name {
      var k :| 0 <= k < i && ls[k] == l;
      assert !LiteralLess(ls[i], ls[k]) && !LiteralLess(ls[i], ls[i - 1]);
      if k < i - 1 { assert !LiteralLess(ls[i - 1], ls[k]); }
    }
  }

  // The literals up to the index were normalized.
  ghost predicate NormalizedUpTo(ls: seq<Literal>, i: nat, result: seq<Literal>) {
    i <= |ls| && (0 < i < |ls| ==> ls[i - 1].name != ls[i].name) && Consistent(Elems(ls[..i])) &&
        Lists(result, Reduce(Elems(ls[..i])))
  }

  lemma ReducedNames(s: set<Literal>, x: RefName)
    ensures NamedBelow(s, x) ==> NamedBelow(Reduce(s), x)
    ensures AllNamedSo(s, x) ==> AllNamedSo(Reduce(s), x)
  {}

  lemma OneMoreGroup(ls: seq<Literal>, i: nat, end: nat, result: seq<Literal>, kept: seq<Literal>)
    requires Ascending(ls) && NormalizedUpTo(ls, i, result) && i < end <= |ls| && IsGroup(ls[i..end], ls[i].name)
    requires end < |ls| ==> ls[end].name != ls[i].name
    requires Consistent(Elems(ls[i..end])) && Lists(kept, Reduce(Elems(ls[i..end])))
    ensures NormalizedUpTo(ls, end, result + kept)
  {
    var x, group := ls[i].name, ls[i..end];
    hide Consistent, Ascending, LiteralLess, Reduce, Strictly, NamedBelow, AllNamedSo;
    GroupsTogether(ls, i, end);
    BelowNextGroup(ls, i);
    ReducedNames(Elems(ls[..i]), x);
    ReducedNames(Elems(group), x);
    StrictlyAppend(result, kept, x);
    ElemsAppend(result, kept);
    if end < |ls| { LastOfGroup(group, x); }
  }

  lemma LastOfGroup(group: seq<Literal>, x: RefName)
    requires IsGroup(group, x)
    ensures group[|group| - 1].name == x
  {
    assert group[|group| - 1] in Elems(group);
  }

  lemma GroupsTogether(ls: seq<Literal>, i: nat, end: nat)
    requires Ascending(ls) && i < end <= |ls| && (0 < i ==> ls[i - 1].name != ls[i].name) &&
        IsGroup(ls[i..end], ls[i].name)
    ensures Consistent(Elems(ls[..end])) <==> Consistent(Elems(ls[..i])) && Consistent(Elems(ls[i..end]))
    ensures Reduce(Elems(ls[..end])) == Reduce(Elems(ls[..i])) + Reduce(Elems(ls[i..end]))
  {
    hide Consistent, Reduce, Ascending;
    BelowNextGroup(ls, i);
    assert ls[..end] == ls[..i] + ls[i..end];
    ElemsAppend(ls[..i], ls[i..end]);
    GroupsAreIndependent(Elems(ls[..i]), Elems(ls[i..end]), ls[i].name);
  }

  // Of sorted literals, one group of the same ref after another: fails if the literals contradict each other,
  // and drops what follows from a positive one.
  method Normalize(ls: seq<Literal>) returns (r: Option<seq<Literal>>)
    requires Ascending(ls)
    ensures r.None? <==> Normalized(Elems(ls)).None?
    ensures r.Some? ==> Normalized(Elems(ls)).Some? && Lists(r.value, Normalized(Elems(ls)).value)
  {
    var result: seq<Literal> := [];
    var i := 0;
    assert Elems(ls[..0]) == {};
    while i < |ls|
      invariant NormalizedUpTo(ls, i, result)
    {
      hide Consistent, Reduce;
      var end := GroupEnd(ls, i);
      var group := ls[i..end];
      var kept: seq<Literal>;
      if !group[0].negative {
        PositiveGroup(group, ls[i].name);
        var ok := Agree(group);
        if !ok {
          GroupsTogether(ls, i, end);
          InconsistentWhole(ls, end);
          return None;
        }
        kept := [group[0]];
      } else {
        NegativeGroup(group, ls[i].name);
        kept := WithoutDuplicates(group, ls[i].name);
      }
      OneMoreGroup(ls, i, end, result, kept);
      result := result + kept;
      i := end;
    }
    assert ls[..i] == ls;
    r := Some(result);
  }

  lemma InconsistentWhole(ls: seq<Literal>, end: nat)
    requires end <= |ls| && !Consistent(Elems(ls[..end]))
    ensures !Consistent(Elems(ls))
  {
    var l, m :| l in Elems(ls[..end]) && m in Elems(ls[..end]) && Conflicting(l, m);
    assert l in Elems(ls) && m in Elems(ls);
  }

  // --------------------------------------------------------------------------
  // Setting and restricting
  // --------------------------------------------------------------------------

  // Replaces what the refs say about one name.
  method CopyAndSetListed(s: seq<Literal>, ghost r: Refs, x: RefName, v: VertexID) returns (t: seq<Literal>)
    requires Lists(s, r)
    ensures Lists(t, CopyAndSet(r, x, v))
  {
    t := [];
    var i := 0;
    while i < |s| && s[i].name < x
      invariant i <= |s| && t == s[..i] && NamedBelow(Elems(t), x)
    {
      ElemsPrefix(s, i);
      assert s[..i + 1] == s[..i] + [s[i]];
      t := t + [s[i]];
      i := i + 1;
    }
    ghost var below := i;
    t := t + [Literal(x, false, v)];
    while i < |s| && s[i].name == x
      invariant below <= i <= |s| && forall k :: below <= k < i ==> s[k].name == x
    {
      i := i + 1;
    }
    t := t + s[i..];
    Replaced(s, r, below, i, x, v);
  }

  lemma Replaced(s: seq<Literal>, r: Refs, a: nat, b: nat, x: RefName, v: VertexID)
    requires Lists(s, r) && a <= b <= |s| && NamedBelow(Elems(s[..a]), x)
    requires (forall k :: a <= k < b ==> s[k].name == x) && (a < |s| ==> s[a].name >= x) && (b < |s| ==> s[b].name != x)
    ensures Lists(s[..a] + [Literal(x, false, v)] + s[b..], CopyAndSet(r, x, v))
  {
    var l, before, after := Literal(x, false, v), s[..a], s[b..];
    LaterNames(s, a, b, x);
    assert forall m :: m in before ==> m in Elems(before);
    hide Elems, NamedBelow;
    StrictlyJoin(before, [l]);
    StrictlyJoin(before + [l], after);
    ReplacedElems(s, r, a, b, x, v);
  }

  lemma LaterNames(s: seq<Literal>, a: nat, b: nat, x: RefName)
    requires Strictly(s) && a <= b <= |s| && NamedBelow(Elems(s[..a]), x)
    requires (forall k :: a <= k < b ==> s[k].name == x) && (a < |s| ==> s[a].name >= x) && (b < |s| ==> s[b].name != x)
    ensures forall m :: m in s[..a] ==> m.name < x
    ensures forall m :: m in s[b..] ==> m.name > x
  {
    forall m | m in s[..a] ensures m.name < x { assert m in Elems(s[..a]); }
    forall k | b <= k < |s| ensures s[k].name > x {
      if a < k { assert LiteralLess(s[a], s[k]); }
      if b < k { assert LiteralLess(s[b], s[k]); }
      if a < b { assert LiteralLess(s[a], s[b]); }
    }
  }

  lemma ReplacedElems(s: seq<Literal>, r: Refs, a: nat, b: nat, x: RefName, v: VertexID)
    requires Elems(s) == r && a <= b <= |s| && forall k :: a <= k < b ==> s[k].name == x
    requires forall m :: (m in s[..a] || m in s[b..]) ==> m.name != x
    ensures Elems(s[..a] + [Literal(x, false, v)] + s[b..]) == CopyAndSet(r, x, v)
  {
    var l, before, after := Literal(x, false, v), s[..a], s[b..];
    assert s == before + s[a..b] + after;
    forall m ensures m in r && m.name != x <==> m in before || m in after {
      assert m in r <==> m in Elems(s);
      assert m in s <==> m in before || m in s[a..b] || m in after;
    }
    ElemsAppend(before + [l], after);
    ElemsSnoc(before, l);
  }

  lemma StrictlyJoin(s: seq<Literal>, t: seq<Literal>)
    requires Strictly(s) && Strictly(t) && forall l, m :: l in s && m in t ==> LiteralLess(l, m)
    ensures Strictly(s + t)
  {
    forall i, j | 0 <= i < j < |s + t| ensures LiteralLess((s + t)[i], (s + t)[j]) {
      if i < |s| <= j { assert s[i] in s && t[j - |s|] in t; }
    }
  }

  // Keeps the literals of some of the names.
  method RestrictListed(s: seq<Literal>, names: set<RefName>) returns (t: seq<Literal>)
    requires Strictly(s)
    ensures Lists(t, set l | l in Elems(s) && l.name in names)
  {
    t := [];
    for i := 0 to |s|
      invariant Strictly(t) && Elems(t) == set l | l in Elems(s[..i]) && l.name in names
      invariant forall l :: l in t ==> l in s[..i]
    {
      ElemsPrefix(s, i);
      if s[i].name in names {
        if t != [] {
          assert t[|t| - 1] in s[..i];
          var k :| 0 <= k < i && s[k] == t[|t| - 1];
          assert LiteralLess(s[k], s[i]);
        }
        StrictlySnoc(t, s[i]);
        t := t + [s[i]];
      }
    }
    ElemsWhole(s);
  }
}
