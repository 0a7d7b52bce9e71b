/** The index of dependencies, and what enters and leaves it. */
module Subscriptions {
  import opened Base
  import opened Dependencies
  import opened Visiting
  import opened IncrementalState

  type Index = map<Observable, set<ObservableStart>>

  // While the index is updated: `added` is what nothing depended on before, `removed` what nothing
  // depends on anymore, though it's still in the index.
  ghost predicate Tracking(before: set<Observable>, m: Index, added: seq<Observable>, removed: set<Observable>) {
    removed <= before <= m.Keys && (forall d :: d in m ==> (m[d] == {} <==> d in removed)) &&
    Elems(added) == m.Keys - before && NoDuplicates(added)
  }

  // In the end: exactly the dependencies that entered and that left the index.
  ghost predicate ExactDelta(before: set<Observable>, now: set<Observable>, added: set<Observable>,
      removed: set<Observable>) {
    added == now - before && removed == before - now
  }

  function Positions(m: Index, d: Observable): set<ObservableStart> { if d in m then m[d] else {} }

  lemma TrackSubscribed(before: set<Observable>, m: Index, added: seq<Observable>, removed: set<Observable>,
      s: ObservableStart, d: Observable)
    requires Tracking(before, m, added, removed)
    ensures var positions := Positions(m, d);
      var report := positions == {} && d !in removed;
      Tracking(before, m[d := positions + {s}], if report then added + [d] else added,
          if positions == {} then removed - {d} else removed)
  {
    var positions := Positions(m, d);
    var report := positions == {} && d !in removed;
    if report {
      assert d !in m;
      assert d !in Elems(added);
      ElemsSnoc(added, d);
    }
  }

  lemma TrackUnsubscribed(before: set<Observable>, m: Index, added: seq<Observable>, removed: set<Observable>,
      s: ObservableStart, d: Observable)
    requires Tracking(before, m, added, removed) && d in before
    ensures Tracking(before, m[d := m[d] - {s}], added, if m[d] - {s} == {} then removed + {d} else removed)
  {}

  lemma TrackEnds(before: set<Observable>, m: Index, added: seq<Observable>, removed: set<Observable>)
    requires Tracking(before, m, added, removed)
    ensures ExactDelta(before, (m - removed).Keys, Elems(added), removed)
    ensures forall d :: d in m - removed ==> (m - removed)[d] != {}
    ensures forall s, d :: Knows(m - removed, s, d) <==> Knows(m, s, d)
  {}

  // --------------------------------------------------------------------------
  // Replacing the dependencies of one start
  // --------------------------------------------------------------------------

  // The start depends on exactly the observables; the others are as before.
  ghost predicate KnowsInstead(m: Index, next: Index, s: ObservableStart, deps: set<Observable>) {
    forall k, d :: Knows(next, k, d) <==> if k == s then d in deps else Knows(m, k, d)
  }

  ghost predicate KnowsOf(m: Index, s: ObservableStart, deps: set<Observable>) {
    forall d :: Knows(m, s, d) <==> d in deps
  }

  // Some of the old dependencies are left, and some of the new ones are added.
  ghost predicate Resubscribing(m: Index, next: Index, s: ObservableStart, left: seq<Observable>,
      done: seq<Observable>) {
    forall k, d :: Knows(next, k, d) <==> if k == s then d in left || d in done else Knows(m, k, d)
  }

  lemma ResubscribeBegins(m: Index, s: ObservableStart, before: seq<Observable>, after: seq<Observable>)
    requires KnowsOf(m, s, Elems(before))
    ensures Resubscribing(m, m, s, before[0..], after[..0])
  {
    assert before[0..] == before && after[..0] == [];
    forall k, d ensures Knows(m, k, d) <==> if k == s then d in before else Knows(m, k, d) {
      assert d in before <==> d in Elems(before);
    }
  }

  lemma UnsubscribedStep(m: Index, a: Index, b: Index, s: ObservableStart, before: seq<Observable>, i: nat,
      after: seq<Observable>, j: nat)
    requires i < |before| && j <= |after| && Resubscribing(m, a, s, before[i..], after[..j])
    requires before[i] !in before[i + 1..] && before[i] !in after
    requires forall k, d :: Knows(b, k, d) <==> Knows(a, k, d) && !(k == s && d == before[i])
    ensures Resubscribing(m, b, s, before[i + 1..], after[..j])
  {
    assert before[i..] == [before[i]] + before[i + 1..];
  }

  lemma SubscribedStep(m: Index, a: Index, b: Index, s: ObservableStart, before: seq<Observable>, i: nat,
      after: seq<Observable>, j: nat)
    requires i <= |before| && j < |after| && Resubscribing(m, a, s, before[i..], after[..j])
    requires forall k, d :: Knows(b, k, d) <==> Knows(a, k, d) || (k == s && d == after[j])
    ensures Resubscribing(m, b, s, before[i..], after[..j + 1])
  {
    assert after[..j + 1] == after[..j] + [after[j]];
  }

  lemma BothStep(m: Index, a: Index, s: ObservableStart, before: seq<Observable>, i: nat, after: seq<Observable>,
      j: nat)
    requires i < |before| && j < |after| && before[i] == after[j] && Resubscribing(m, a, s, before[i..], after[..j])
    ensures Resubscribing(m, a, s, before[i + 1..], after[..j + 1])
  {
    assert before[i..] == [before[i]] + before[i + 1..] && after[..j + 1] == after[..j] + [after[j]];
  }

  lemma ResubscribeEnds(m: Index, a: Index, s: ObservableStart, before: seq<Observable>, after: seq<Observable>,
      deps: set<Observable>)
    requires Resubscribing(m, a, s, before[|before|..], after[..|after|]) && Elems(after) == deps
    ensures KnowsInstead(m, a, s, deps)
  {
    assert before[|before|..] == [] && after[..|after|] == after;
    forall k, d ensures Knows(a, k, d) <==> if k == s then d in deps else Knows(m, k, d) {
      assert d in after <==> d in Elems(after);
    }
  }

  // --------------------------------------------------------------------------
  // The index of a pattern
  // --------------------------------------------------------------------------

  ghost predicate IndexOf(m: Index, own: map<ObservableStart, set<Observable>>, starts: set<Dep>) {
    forall s, d :: Knows(m, s, d) <==> if s.AtPosition? then s in own && d in own[s] else Dep(d, s) in starts
  }

  lemma OwnReplaced(m: Index, next: Index, own: map<ObservableStart, set<Observable>>, starts: set<Dep>,
      s: ObservableStart, deps: set<Observable>)
    requires IndexOf(m, own, starts) && s.AtPosition? && KnowsInstead(m, next, s, deps)
    ensures IndexOf(next, own[s := deps], starts)
    ensures deps == {} ==> IndexOf(next, own - {s}, starts)
  {}

  lemma OwnIsKnown(m: Index, own: map<ObservableStart, set<Observable>>, starts: set<Dep>, s: ObservableStart)
    requires IndexOf(m, own, starts) && s.AtPosition?
    ensures KnowsOf(m, s, if s in own then own[s] else {})
  {}
}
