/** Logs of changes of a set. */
module UndoLog {
  import opened Base

  datatype Change<T> = Change(item: T, added: bool)

  function Done<T>(s: set<T>, c: Change<T>): set<T> { if c.added then s + {c.item} else s - {c.item} }

  function Undone<T>(s: set<T>, c: Change<T>): set<T> { if c.added then s - {c.item} else s + {c.item} }

  // The change did change something.
  predicate Actual<T(==)>(s: set<T>, c: Change<T>) { c.added <==> c.item !in s }

  // The set after the changes.
  ghost function Replayed<T>(s: set<T>, log: seq<Change<T>>): set<T> {
    if log == [] then s else Done(Replayed(s, log[..|log| - 1]), log[|log| - 1])
  }

  // All changes in the log are actual.
  ghost predicate ValidLog<T>(s: set<T>, log: seq<Change<T>>) {
    log == [] || (ValidLog(s, log[..|log| - 1]) && Actual(Replayed(s, log[..|log| - 1]), log[|log| - 1]))
  }

  lemma LogSnoc<T>(s: set<T>, log: seq<Change<T>>, c: Change<T>)
    requires ValidLog(s, log) && Actual(Replayed(s, log), c)
    ensures ValidLog(s, log + [c]) && Replayed(s, log + [c]) == Done(Replayed(s, log), c)
  {
    assert (log + [c])[..|log|] == log;
  }

  lemma LogLast<T>(s: set<T>, log: seq<Change<T>>, i: nat)
    requires i < |log| && ValidLog(s, log[..i + 1])
    ensures ValidLog(s, log[..i]) && Actual(Replayed(s, log[..i]), log[i])
    ensures Replayed(s, log[..i + 1]) == Done(Replayed(s, log[..i]), log[i])
    ensures Replayed(s, log[..i]) == Undone(Replayed(s, log[..i + 1]), log[i])
  {
    assert log[..i + 1][..i] == log[..i];
  }

  lemma {:induction false} LogPrefix<T>(s: set<T>, log: seq<Change<T>>, i: nat)
    requires i <= |log| && ValidLog(s, log)
    ensures ValidLog(s, log[..i])
    decreases |log| - i
  {
    if i < |log| {
      LogPrefix(s, log, i + 1);
      LogLast(s, log, i);
    } else {
      assert log[..i] == log;
    }
  }

  // The rest of the log is a log of changes since the prefix.
  lemma {:induction false} LogSplit<T>(s: set<T>, log: seq<Change<T>>, i: nat)
    requires i <= |log| && ValidLog(s, log)
    ensures ValidLog(s, log[..i]) && ValidLog(Replayed(s, log[..i]), log[i..])
    ensures Replayed(Replayed(s, log[..i]), log[i..]) == Replayed(s, log)
    decreases |log|
  {
    LogPrefix(s, log, i);
    if i == |log| {
      assert log[..i] == log && log[i..] == [];
    } else {
      var n := |log| - 1;
      var init := log[..n];
      assert log[..n + 1] == log;
      LogLast(s, log, n);
      LogSplit(s, init, i);
      assert init[..i] == log[..i];
      assert log[i..] == init[i..] + [log[n]];
      LogSnoc(Replayed(s, log[..i]), init[i..], log[n]);
    }
  }

  // --------------------------------------------------------------------------
  // Net changes
  // --------------------------------------------------------------------------

  // Whether the first and the last change of an item added it.
  datatype FirstAndLast = FirstAndLast(first: bool, last: bool)

  // The first and last changes of the items say whether they were there before, and whether they are now.
  ghost predicate Summarizes<T(!new)>(s: set<T>, now: set<T>, m: map<T, FirstAndLast>) {
    forall x :: if x in m then (m[x].first <==> x !in s) && (m[x].last <==> x in now) else (x in s <==> x in now)
  }

  // An item that is in the set can only be removed next, and the other way around.
  method Summarize<T(==, !new)>(log: seq<Change<T>>, from: nat, ghost s: set<T>) returns (m: map<T, FirstAndLast>)
    requires from <= |log| && ValidLog(s, log[from..])
    ensures Summarizes(s, Replayed(s, log[from..]), m)
  {
    m := map[];
    ghost var changes := log[from..];
    assert changes[..0] == [];
    for i := from to |log|
      invariant Summarizes(s, Replayed(s, changes[..i - from]), m)
    {
      LogPrefix(s, changes, i - from + 1);
      LogLast(s, changes, i - from);
      assert changes[i - from] == log[i];
      var c := log[i];
      m := m[c.item := FirstAndLast(if c.item in m then m[c.item].first else c.added, c.added)];
    }
    assert changes[..|log| - from] == changes;
  }

  // Items that were added, or removed, on the whole.
  method NetChanges<T(==, !new)>(log: seq<Change<T>>, from: nat, added: bool, ghost s: set<T>) returns (items: set<T>)
    requires from <= |log| && ValidLog(s, log[from..])
    ensures items == if added then Replayed(s, log[from..]) - s else s - Replayed(s, log[from..])
  {
    var m := Summarize(log, from, s);
    items := {};
    var list := Listed(m.Keys);
    assert forall x :: x in list <==> x in m by { assert forall x :: x in list <==> x in Elems(list); }
    for i := 0 to |list|
      invariant items == set x | x in list[..i] && m[x] == FirstAndLast(added, added)
    {
      assert list[..i + 1] == list[..i] + [list[i]];
      if m[list[i]].first == added && m[list[i]].last == added {
        items := items + {list[i]};
      }
    }
    assert list[..|list|] == list;
  }

  // Items of which there are changes in the log alternate between being added and removed.
  lemma {:induction false} ChangesAlternate<T>(s: set<T>, log: seq<Change<T>>, i: nat, j: nat)
    requires ValidLog(s, log) && i < j < |log| && log[i].item == log[j].item
    requires forall k :: i < k < j ==> log[k].item != log[i].item
    ensures log[i].added != log[j].added
  {
    LogPrefix(s, log, i + 1);
    LogLast(s, log, i);
    NotTouched(s, log, i + 1, j, log[i].item);
    LogPrefix(s, log, j + 1);
    LogLast(s, log, j);
  }

  lemma {:induction false} NotTouched<T>(s: set<T>, log: seq<Change<T>>, i: nat, j: nat, x: T)
    requires ValidLog(s, log) && i <= j <= |log| && forall k :: i <= k < j ==> log[k].item != x
    ensures x in Replayed(s, log[..i]) <==> x in Replayed(s, log[..j])
    decreases j - i
  {
    if i < j {
      LogPrefix(s, log, j);
      LogLast(s, log, j - 1);
      NotTouched(s, log, i, j - 1, x);
    }
  }
}
