/** Sorted lists without duplicates, and walking two of them at once. */
module SortedLists {
  import opened Base

  ghost predicate StrictOrder<T(!new)>(less: (T, T) -> bool) {
    (forall a :: !less(a, a)) &&
    (forall a, b, c :: less(a, b) && less(b, c) ==> less(a, c)) &&
    (forall a, b :: a != b ==> less(a, b) || less(b, a))
  }

  ghost predicate Sorted<T>(less: (T, T) -> bool, s: seq<T>) {
    forall i, j :: 0 <= i < j < |s| ==> less(s[i], s[j])
  }

  // Everything in one list is before everything in the other.
  ghost predicate Before<T>(less: (T, T) -> bool, a: seq<T>, b: seq<T>) {
    forall x, y :: x in a && y in b ==> less(x, y)
  }

  method Insert<T(==, !new)>(less: (T, T) -> bool, s: seq<T>, x: T) returns (r: seq<T>)
    requires StrictOrder(less) && Sorted(less, s) && x !in s
    ensures Sorted(less, r) && Elems(r) == Elems(s) + {x}
  {
    var i := 0;
    while i < |s| && less(s[i], x)
      invariant i <= |s| && forall j :: 0 <= j < i ==> less(s[j], x)
    {
      i := i + 1;
    }
    r := s[..i] + [x] + s[i..];
    assert s == s[..i] + s[i..];
    forall j | i <= j < |s| ensures less(x, s[j]) {
      assert s[i] in s && (less(s[i], x) || less(x, s[i]));
    }
  }

  method SortedList<T(==, !new)>(less: (T, T) -> bool, items: set<T>) returns (s: seq<T>)
    requires StrictOrder(less)
    ensures Sorted(less, s) && Elems(s) == items
  {
    s := [];
    var rest := items;
    while rest != {}
      invariant rest <= items && Sorted(less, s) && Elems(s) == items - rest
    {
      var x :| x in rest;
      assert x !in Elems(s);
      s := Insert(less, s, x);
      rest := rest - {x};
    }
  }

  // Two walked lists: what was passed in one is before what is left of the other.
  ghost predicate Walked2<T>(less: (T, T) -> bool, a: seq<T>, i: nat, b: seq<T>, j: nat) {
    i <= |a| && j <= |b| && Before(less, a[..i], b[j..]) && Before(less, b[..j], a[i..])
  }

  lemma WalkStarts<T>(less: (T, T) -> bool, a: seq<T>, b: seq<T>)
    ensures Walked2(less, a, 0, b, 0)
  {}

  // Passing an element of the first list, that the second one doesn't have.
  lemma WalkFirst<T(!new)>(less: (T, T) -> bool, a: seq<T>, i: nat, b: seq<T>, j: nat)
    requires StrictOrder(less) && Sorted(less, a) && Sorted(less, b) && Walked2(less, a, i, b, j)
    requires i < |a| && (j == |b| || less(a[i], b[j]))
    ensures Walked2(less, a, i + 1, b, j) && a[i] !in b && a[i] !in a[i + 1..]
  {
    assert a[..i + 1] == a[..i] + [a[i]] && a[i..] == [a[i]] + a[i + 1..];
    assert b == b[..j] + b[j..] && a[i] in a[i..];
    forall y | y in b[j..] ensures less(a[i], y) {
      var k :| j <= k < |b| && b[k] == y;
    }
    var rest := a[i + 1..];
    forall y | y in rest ensures less(a[i], y) {
      var k :| i + 1 <= k < |a| && a[k] == y;
    }
  }

  // Passing an element of both lists.
  lemma WalkBoth<T(!new)>(less: (T, T) -> bool, a: seq<T>, i: nat, b: seq<T>, j: nat)
    requires StrictOrder(less) && Sorted(less, a) && Sorted(less, b) && Walked2(less, a, i, b, j)
    requires i < |a| && j < |b| && a[i] == b[j]
    ensures Walked2(less, a, i + 1, b, j + 1) && a[i] !in a[i + 1..] && b[j] !in b[j + 1..]
  {
    assert a[..i + 1] == a[..i] + [a[i]] && b[..j + 1] == b[..j] + [b[j]];
    assert a[i..] == [a[i]] + a[i + 1..] && b[j..] == [b[j]] + b[j + 1..];
    var restA, restB := a[i + 1..], b[j + 1..];
    forall y | y in restA ensures less(a[i], y) {
      var k :| i + 1 <= k < |a| && a[k] == y;
    }
    forall y | y in restB ensures less(b[j], y) {
      var k :| j + 1 <= k < |b| && b[k] == y;
    }
    assert a[i] in a[i..] && b[j] in b[j..];
  }

  // Items of a sorted list that aren't in another sorted list.
  method SortedDifference<T(==, !new)>(less: (T, T) -> bool, from: seq<T>, except: seq<T>) returns (d: set<T>)
    requires StrictOrder(less) && Sorted(less, from) && Sorted(less, except)
    ensures d == Elems(from) - Elems(except)
  {
    d := {};
    var j := 0;
    for i := 0 to |from|
      invariant j <= |except| && forall k, l :: 0 <= k < j && i <= l < |from| ==> less(except[k], from[l])
      invariant d == Elems(from[..i]) - Elems(except)
    {
      ElemsPrefix(from, i);
      while j < |except| && less(except[j], from[i])
        invariant j <= |except| && forall k, l :: 0 <= k < j && i <= l < |from| ==> less(except[k], from[l])
        invariant d == Elems(from[..i]) - Elems(except)
      {
        forall l | i <= l < |from| ensures less(except[j], from[l]) {
          if l > i { assert less(from[i], from[l]); }
        }
        j := j + 1;
      }
      if j == |except| || less(from[i], except[j]) {
        assert from[i] !in except by {
          forall k | 0 <= k < |except| ensures except[k] != from[i] {
            if k > j { assert less(except[j], except[k]); }
          }
        }
        d := d + {from[i]};
      } else {
        assert from[i] == except[j];
      }
    }
    ElemsWhole(from);
  }
}
