/** Identifiers and graph entities shared by all the other modules. */
module Base {

  datatype Option<+T> = None | Some(value: T)

  // Interned names: only equality and an arbitrary total order matter.
  type RefName = int
  type TypeName = int
  type Label = int

  // A stored vertex is identified by its type and value, and keeps its identity when removed.
  datatype VertexID = VertexID(typeName: TypeName, value: int)

  datatype Edge = Edge(from: VertexID, lab: Label, to: VertexID) {
    function Reverse(): Edge { Edge(to, lab, from) }
  }

  datatype Kind = CORE | ORBIT

  datatype Position = Position(v: VertexID, kind: Kind) {
    function WithKind(k: Kind): Position { Position(v, k) }
  }

  // The elements of a list.
  ghost function Elems<T>(s: seq<T>): set<T> { set x | x in s }

  ghost predicate NoDuplicates<T>(s: seq<T>) {
    forall i, j :: 0 <= i < j < |s| ==> s[i] != s[j]
  }

  lemma ElemsAppend<T>(s: seq<T>, t: seq<T>)
    ensures Elems(s + t) == Elems(s) + Elems(t)
  {}

  lemma ElemsSnoc<T>(s: seq<T>, x: T)
    ensures Elems(s + [x]) == Elems(s) + {x}
    ensures NoDuplicates(s) && x !in s ==> NoDuplicates(s + [x])
  {}

  lemma ElemsPrefix<T>(s: seq<T>, i: nat)
    requires i < |s|
    ensures Elems(s[..i + 1]) == Elems(s[..i]) + {s[i]}
    ensures NoDuplicates(s) ==> s[i] !in s[..i]
  {
    assert s[..i + 1] == s[..i] + [s[i]];
    ElemsSnoc(s[..i], s[i]);
  }

  lemma ElemsSuffix<T>(s: seq<T>, i: nat)
    requires i < |s|
    ensures Elems(s[i..]) == Elems(s[i + 1..]) + {s[i]}
  {
    assert s[i..] == [s[i]] + s[i + 1..];
  }

  lemma ElemsWhole<T>(s: seq<T>)
    ensures Elems(s[..|s|]) == Elems(s) && s[..|s|] == s
  {}

  lemma ElemsEmpty<T>(s: seq<T>)
    ensures Elems(s) == {} <==> s == []
  {
    if s != [] { assert s[0] in Elems(s); }
  }

  lemma NoDuplicatesAfter<T>(s: seq<T>, i: nat)
    requires i < |s| && NoDuplicates(s)
    ensures s[i] !in s[i + 1..]
  {
    var rest := s[i + 1..];
    forall x | x in rest ensures x != s[i] {
      var j :| i + 1 <= j < |s| && s[j] == x;
    }
  }

  // The elements of a set, in some order.
  method Listed<T(==)>(s: set<T>) returns (q: seq<T>)
    ensures Elems(q) == s && NoDuplicates(q)
  {
    q := [];
    var rest := s;
    while rest != {}
      invariant rest <= s && Elems(q) == s - rest && NoDuplicates(q)
    {
      var x :| x in rest;
      ElemsSnoc(q, x);
      assert x !in Elems(q);
      q := q + [x];
      rest := rest - {x};
    }
  }
}
