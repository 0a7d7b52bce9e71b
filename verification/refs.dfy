/** Regions of ref values. */
module RefsAlgebra {
  // A sorted vector of literals is represented by the set of its literals, which it is a canonical listing of (see
  // RefsLists). Vertex values are unbounded, so every reduced set of literals is satisfiable.

  import opened Base

  datatype Literal = Literal(name: RefName, negative: bool, value: VertexID)

  function Negated(l: Literal): Literal { Literal(l.name, !l.negative, l.value) }

  // A positive literal is the only one of its name.
  predicate Reduced(r: set<Literal>) {
    forall l, m :: l in r && m in r && l.name == m.name && !l.negative ==> m == l
  }

  type Refs = r: set<Literal> | Reduced(r) witness {}

  predicate Conflicting(l: Literal, m: Literal) {
    l.name == m.name && !l.negative && (if m.negative then l.value == m.value else l.value != m.value)
  }

  predicate Consistent(r: set<Literal>) {
    forall l, m :: l in r && m in r ==> !Conflicting(l, m)
  }

  // Exclusions that follow from a positive literal are dropped.
  function Reduce(r: set<Literal>): set<Literal> {
    set l | l in r && (l.negative ==> forall m :: m in r && m.name == l.name ==> m.negative)
  }

  function Normalized(r: set<Literal>): Option<Refs> {
    if Consistent(r) then Some(Reduce(r)) else None
  }

  function Meet(a: Refs, b: Refs): Option<Refs> { Normalized(a + b) }

  function Exclusion(l: Literal): Refs { {Negated(l)} }

  // --------------------------------------------------------------------------
  // Assignments and regions
  // --------------------------------------------------------------------------

  type Assignment = RefName -> VertexID

  ghost predicate Holds(l: Literal, s: Assignment) { l.negative != (s(l.name) == l.value) }

  ghost predicate Sat(r: set<Literal>, s: Assignment) { forall l :: l in r ==> Holds(l, s) }

  ghost predicate Incl(a: set<Literal>, b: set<Literal>) { forall s: Assignment :: Sat(a, s) ==> Sat(b, s) }

  ghost function Above(vs: set<VertexID>): (n: int)
    ensures forall v :: v in vs ==> v.value < n
  {
    if vs == {} then 0
    else
      var v :| v in vs;
      var n := Above(vs - {v});
      if v.value < n then n else v.value + 1
  }

  ghost function Fresh(vs: set<VertexID>): (v: VertexID)
    ensures v !in vs
  {
    VertexID(0, Above(vs))
  }

  ghost function Values(r: set<Literal>): set<VertexID> { set l | l in r :: l.value }

  ghost predicate IsSet(r: set<Literal>, x: RefName) { exists v :: Literal(x, false, v) in r }

  ghost function ValueOf(r: set<Literal>, x: RefName): (v: VertexID)
    requires IsSet(r, x)
    ensures Literal(x, false, v) in r
  {
    var v :| Literal(x, false, v) in r; v
  }

  // A point of the region, giving the refs that aren't set a value outside of `avoid`.
  ghost function Point(r: set<Literal>, avoid: set<VertexID>): Assignment {
    x => if IsSet(r, x) then ValueOf(r, x) else Fresh(Values(r) + avoid)
  }

  function Override(s: Assignment, x: RefName, v: VertexID): Assignment {
    y => if y == x then v else s(y)
  }

  lemma PointIsInside(r: Refs, avoid: set<VertexID>)
    ensures Sat(r, Point(r, avoid))
  {
    forall l | l in r ensures Holds(l, Point(r, avoid)) {
      if IsSet(r, l.name) {
        assert Literal(l.name, false, ValueOf(r, l.name)) in r;
      } else {
        assert l.value in Values(r);
      }
    }
  }

  // `normalized` keeps the region, and fails exactly when it is empty.
  lemma NormalizedIsExact(r: set<Literal>)
    ensures Normalized(r).None? <==> forall s: Assignment :: !Sat(r, s)
    ensures Normalized(r).Some? ==> forall s: Assignment :: Sat(Normalized(r).value, s) <==> Sat(r, s)
  {
    if Consistent(r) {
      forall s: Assignment | Sat(Reduce(r), s) ensures Sat(r, s) {
        forall l | l in r ensures Holds(l, s) {
          if l !in Reduce(r) {
            var m :| m in r && m.name == l.name && !m.negative;
            assert m in Reduce(r) && Holds(m, s) && !Conflicting(m, l);
          }
        }
      }
      PointIsInside(Reduce(r), {});
    } else {
      var l, m :| l in r && m in r && Conflicting(l, m);
      forall s: Assignment ensures !Sat(r, s) {
        assert Sat(r, s) ==> Holds(l, s) && Holds(m, s);
      }
    }
  }

  lemma MeetIsIntersection(a: Refs, b: Refs)
    ensures Meet(a, b).None? <==> forall s: Assignment :: !(Sat(a, s) && Sat(b, s))
    ensures Meet(a, b).Some? ==> forall s: Assignment :: Sat(Meet(a, b).value, s) <==> Sat(a, s) && Sat(b, s)
  {
    NormalizedIsExact(a + b);
    forall s: Assignment ensures Sat(a + b, s) <==> Sat(a, s) && Sat(b, s) {}
  }

  // --------------------------------------------------------------------------
  // Implication
  // --------------------------------------------------------------------------

  predicate Entails(m: Literal, l: Literal) {
    m.name == l.name &&
    if !l.negative then !m.negative && m.value == l.value
    else if !m.negative then m.value != l.value
    else m.value == l.value
  }

  predicate ImpliesLiteral(a: set<Literal>, l: Literal) { exists m :: m in a && Entails(m, l) }

  predicate Implies(a: set<Literal>, b: set<Literal>) { forall l :: l in b ==> ImpliesLiteral(a, l) }

  lemma ImpliesLiteralIsExact(a: Refs, l: Literal)
    ensures ImpliesLiteral(a, l) <==> forall s: Assignment :: Sat(a, s) ==> Holds(l, s)
  {
    if !ImpliesLiteral(a, l) {
      var s := Point(a, {l.value});
      PointIsInside(a, {l.value});
      if l.negative && !IsSet(a, l.name) {
        var s' := Override(s, l.name, l.value);
        forall m | m in a ensures Holds(m, s') {
          assert Holds(m, s) && !Entails(m, l);
        }
        assert Sat(a, s') && !Holds(l, s');
      } else if IsSet(a, l.name) {
        assert !Entails(Literal(l.name, false, ValueOf(a, l.name)), l);
        assert !Holds(l, s);
      } else {
        assert !Holds(l, s);
      }
    } else {
      var m :| m in a && Entails(m, l);
      forall s: Assignment | Sat(a, s) ensures Holds(l, s) {
        assert Holds(m, s);
      }
    }
  }

  // `implies` decides inclusion of regions.
  lemma ImpliesIsInclusion(a: Refs, b: Refs)
    ensures Implies(a, b) <==> Incl(a, b)
  {
    forall l ensures ImpliesLiteral(a, l) <==> forall s: Assignment :: Sat(a, s) ==> Holds(l, s) {
      ImpliesLiteralIsExact(a, l);
    }
    if Incl(a, b) {
      forall l | l in b ensures ImpliesLiteral(a, l) {
        forall s: Assignment | Sat(a, s) ensures Holds(l, s) { assert Sat(b, s); }
      }
    } else {
      var s: Assignment :| Sat(a, s) && !Sat(b, s);
      var l :| l in b && !Holds(l, s);
      assert !ImpliesLiteral(a, l);
    }
  }

  // Refs are canonical: equal regions have equal literals.
  lemma RefsAreCanonical(a: Refs, b: Refs)
    requires Incl(a, b) && Incl(b, a)
    ensures a == b
  {
    ImpliesIsInclusion(a, b);
    ImpliesIsInclusion(b, a);
    ImpliedBothWays(a, b);
    ImpliedBothWays(b, a);
  }

  lemma ImpliedBothWays(a: Refs, b: Refs)
    requires Implies(a, b) && Implies(b, a)
    ensures a <= b
  {
    forall l | l in a ensures l in b {
      EntailedInBoth(a, b, l);
    }
  }

  lemma EntailedInBoth(a: Refs, b: Refs, l: Literal)
    requires l in a && ImpliesLiteral(b, l) && Implies(a, b)
    ensures l in b
  {
    var m :| m in b && Entails(m, l);
    assert ImpliesLiteral(a, m);
    assert m == l;
  }

  // A region inside the complement of `b` contradicts one particular literal of `b`.
  lemma DisjointFromOneLiteral(c: Refs, b: Refs)
    requires forall s: Assignment :: Sat(c, s) ==> !Sat(b, s)
    ensures exists l :: l in b && ImpliesLiteral(c, Negated(l))
  {
    MeetIsIntersection(c, b);
    assert !Consistent(c + b);
    var l, m :| l in c + b && m in c + b && Conflicting(l, m);
    if l in c && m in b {
      assert Entails(l, Negated(m));
    } else {
      assert l in b && m in c;
      assert Entails(m, Negated(l));
    }
  }
}
