/** Events of an incremental matcher. */
module SubgraphEvents {
  import opened Base
  import opened RefsAlgebra
  import opened Semantics
  import opened Queries
  import opened SortedLists

  datatype SubgraphChanges = SubgraphChanges(added: set<Subgraph>, changed: set<(Subgraph, Subgraph)>,
      removed: set<Subgraph>)

  const NO_CHANGES := SubgraphChanges({}, {}, {})

  function BodiesAt(m: map<Position, set<Body>>, sp: Position): set<Body> { if sp in m then m[sp] else {} }

  function WithRefs(s: set<Body>, r: Refs): set<Body> { set b | b in s && b.refs == r }

  // What the events of one position are.
  ghost predicate EventsAt(sp: Position, last: set<Body>, curr: set<Body>, ch: SubgraphChanges) {
    (forall s :: s in ch.added <==> s.start == sp && AddedAt(last, curr, s.body)) &&
    (forall s :: s in ch.removed <==> s.start == sp && AddedAt(curr, last, s.body)) &&
    (forall x, y :: (x, y) in ch.changed <==> x.start == y.start == sp && ChangedAt(last, curr, x.body, y.body))
  }

  // The events of all the positions.
  ghost predicate EventsOf(sps: set<Position>, last: map<Position, set<Body>>, curr: map<Position, set<Body>>,
      ch: SubgraphChanges) {
    (forall s :: s in ch.added <==>
        s.start in sps && AddedAt(BodiesAt(last, s.start), BodiesAt(curr, s.start), s.body)) &&
    (forall s :: s in ch.removed <==>
        s.start in sps && AddedAt(BodiesAt(curr, s.start), BodiesAt(last, s.start), s.body)) &&
    (forall x, y :: (x, y) in ch.changed <==>
        x.start == y.start && x.start in sps &&
        ChangedAt(BodiesAt(last, x.start), BodiesAt(curr, x.start), x.body, y.body))
  }

  // The only one with its refs.
  ghost predicate OnlyOne(s: set<Body>, b: Body) { b in s && forall y :: y in s && y.refs == b.refs ==> y == b }

  // The only subgraph with the refs became another one.
  ghost predicate ChangedAt(last: set<Body>, curr: set<Body>, x: Body, y: Body) {
    OnlyOne(last, x) && OnlyOne(curr, y) && x.refs == y.refs && x != y
  }

  ghost predicate AddedAt(last: set<Body>, curr: set<Body>, b: Body) {
    b in curr && b !in last && forall x :: !ChangedAt(last, curr, x, b)
  }

  lemma OneOf(s: set<Body>, x: Body, y: Body)
    requires |s| == 1 && x in s && y in s
    ensures x == y
  {
    assert |s - {x}| == 0;
    assert s - {x} == {};
  }

  // --------------------------------------------------------------------------
  // Replay
  // --------------------------------------------------------------------------

  function AllSubgraphs(m: map<Position, set<Body>>): set<Subgraph> {
    set sp, b | sp in m && b in m[sp] :: Subgraph(sp, b)
  }

  function ChangedFrom(ch: SubgraphChanges): set<Subgraph> { set c | c in ch.changed :: c.0 }

  function ChangedTo(ch: SubgraphChanges): set<Subgraph> { set c | c in ch.changed :: c.1 }

  function Replay(s: set<Subgraph>, ch: SubgraphChanges): set<Subgraph> {
    (s - ch.removed - ChangedFrom(ch)) + ch.added + ChangedTo(ch)
  }

  // Added subgraphs weren't there, removed ones are gone, and changed ones are replaced.
  ghost predicate Truthful(before: set<Subgraph>, now: set<Subgraph>, ch: SubgraphChanges) {
    ch.added + ChangedTo(ch) == now - before && ch.removed + ChangedFrom(ch) == before - now &&
    ch.added !! ChangedTo(ch) && ch.removed !! ChangedFrom(ch) &&
    forall c :: c in ch.changed ==> c.0.start == c.1.start && c.0.body.refs == c.1.body.refs
  }

  lemma InAll(m: map<Position, set<Body>>, s: Subgraph)
    ensures s in AllSubgraphs(m) <==> s.body in BodiesAt(m, s.start)
  {}

  // The only subgraph of its start with its refs.
  ghost predicate Alone(s: set<Subgraph>, x: Subgraph) {
    x in s && forall y :: y in s && y.start == x.start && y.body.refs == x.body.refs ==> y == x
  }

  // Of one start, the only subgraph with certain refs is another one now.
  ghost predicate Became(before: set<Subgraph>, now: set<Subgraph>, x: Subgraph, y: Subgraph) {
    Alone(before, x) && Alone(now, y) && x.start == y.start && x.body.refs == y.body.refs && x != y
  }

  // What became another one was changed; all else that came was added, and all else that went was removed.
  ghost predicate ExactEvents(before: set<Subgraph>, now: set<Subgraph>, ch: SubgraphChanges) {
    (forall x, y :: (x, y) in ch.changed <==> Became(before, now, x, y)) &&
    (forall s :: s in ch.added <==> s in now && s !in before && forall x :: !Became(before, now, x, s)) &&
    (forall s :: s in ch.removed <==> s in before && s !in now && forall y :: !Became(before, now, s, y))
  }

  lemma BecameElse(before: set<Subgraph>, now: set<Subgraph>, x: Subgraph, y: Subgraph)
    requires Became(before, now, x, y)
    ensures x in before && x !in now && y in now && y !in before
  {}

  // Applying the events to the subgraphs before gives exactly the subgraphs now.
  lemma EventsAreTruthful(before: set<Subgraph>, now: set<Subgraph>, ch: SubgraphChanges)
    requires ExactEvents(before, now, ch)
    ensures Truthful(before, now, ch) && Replay(before, ch) == now
  {
    forall c | c in ch.changed
      ensures Became(before, now, c.0, c.1)
      ensures c.0 in before && c.0 !in now && c.1 in now && c.1 !in before
    {
      assert (c.0, c.1) in ch.changed;
      BecameElse(before, now, c.0, c.1);
    }
    hide Became;
    forall s ensures s in ch.added + ChangedTo(ch) <==> s in now - before {
      if s in now && s !in before && s !in ch.added {
        var x :| Became(before, now, x, s);
        assert (x, s) in ch.changed;
      }
    }
    forall s ensures s in ch.removed + ChangedFrom(ch) <==> s in before - now {
      if s in before && s !in now && s !in ch.removed {
        var y :| Became(before, now, s, y);
        assert (s, y) in ch.changed;
      }
    }
  }

  lemma BecameAt(last: map<Position, set<Body>>, curr: map<Position, set<Body>>, x: Subgraph, y: Subgraph)
    ensures Became(AllSubgraphs(last), AllSubgraphs(curr), x, y) <==>
      x.start == y.start && ChangedAt(BodiesAt(last, x.start), BodiesAt(curr, x.start), x.body, y.body)
  {
    AloneAt(last, x);
    AloneAt(curr, y);
  }

  lemma AloneAt(m: map<Position, set<Body>>, x: Subgraph)
    ensures Alone(AllSubgraphs(m), x) <==> OnlyOne(BodiesAt(m, x.start), x.body)
  {
    InAll(m, x);
    if Alone(AllSubgraphs(m), x) {
      forall b | b in BodiesAt(m, x.start) && b.refs == x.body.refs ensures b == x.body {
        InAll(m, Subgraph(x.start, b));
      }
    }
    if OnlyOne(BodiesAt(m, x.start), x.body) {
      forall y | y in AllSubgraphs(m) && y.start == x.start && y.body.refs == x.body.refs ensures y == x {
        InAll(m, y);
      }
    }
  }

  // The events of the positions that have changed are all the events.
  lemma EventsAreExact(sps: set<Position>, last: map<Position, set<Body>>, curr: map<Position, set<Body>>,
      ch: SubgraphChanges)
    requires EventsOf(sps, last, curr, ch)
    requires forall sp :: sp !in sps ==> BodiesAt(last, sp) == BodiesAt(curr, sp)
    ensures ExactEvents(AllSubgraphs(last), AllSubgraphs(curr), ch)
  {
    var before, now := AllSubgraphs(last), AllSubgraphs(curr);
    forall x, y ensures (x, y) in ch.changed <==> Became(before, now, x, y) { BecameAt(last, curr, x, y); }
    forall s ensures s in ch.added <==> s in now && s !in before && forall x :: !Became(before, now, x, s) {
      AddedExactly(sps, last, curr, ch, s);
    }
    forall s ensures s in ch.removed <==> s in before && s !in now && forall y :: !Became(before, now, s, y) {
      RemovedExactly(sps, last, curr, ch, s);
    }
  }

  lemma AddedExactly(sps: set<Position>, last: map<Position, set<Body>>, curr: map<Position, set<Body>>,
      ch: SubgraphChanges, s: Subgraph)
    requires EventsOf(sps, last, curr, ch) && (s.start !in sps ==> BodiesAt(last, s.start) == BodiesAt(curr, s.start))
    ensures s in ch.added <==> (s in AllSubgraphs(curr) && s !in AllSubgraphs(last) &&
      forall x :: !Became(AllSubgraphs(last), AllSubgraphs(curr), x, s))
  {
    hide ChangedAt, Became;
    InAll(last, s);
    InAll(curr, s);
    forall b
      ensures Became(AllSubgraphs(last), AllSubgraphs(curr), Subgraph(s.start, b), s) <==>
          ChangedAt(BodiesAt(last, s.start), BodiesAt(curr, s.start), b, s.body)
    {
      BecameAt(last, curr, Subgraph(s.start, b), s);
    }
    if x :| Became(AllSubgraphs(last), AllSubgraphs(curr), x, s) {
      BecameAt(last, curr, x, s);
      assert x == Subgraph(s.start, x.body);
    }
  }

  lemma RemovedExactly(sps: set<Position>, last: map<Position, set<Body>>, curr: map<Position, set<Body>>,
      ch: SubgraphChanges, s: Subgraph)
    requires EventsOf(sps, last, curr, ch) && (s.start !in sps ==> BodiesAt(last, s.start) == BodiesAt(curr, s.start))
    ensures s in ch.removed <==> (s in AllSubgraphs(last) && s !in AllSubgraphs(curr) &&
      forall y :: !Became(AllSubgraphs(last), AllSubgraphs(curr), s, y))
  {
    var l, c := BodiesAt(last, s.start), BodiesAt(curr, s.start);
    assert forall x :: ChangedAt(c, l, x, s.body) <==> ChangedAt(l, c, s.body, x);
    hide ChangedAt, Became;
    InAll(last, s);
    InAll(curr, s);
    forall b
      ensures Became(AllSubgraphs(last), AllSubgraphs(curr), s, Subgraph(s.start, b)) <==> ChangedAt(l, c, s.body, b)
    {
      BecameAt(last, curr, s, Subgraph(s.start, b));
    }
    if y :| Became(AllSubgraphs(last), AllSubgraphs(curr), s, y) {
      BecameAt(last, curr, s, y);
      assert y == Subgraph(s.start, y.body);
    }
  }

  // --------------------------------------------------------------------------
  // Finding the events
  // --------------------------------------------------------------------------

  ghost predicate EventsForRefs(sp: Position, last: set<Body>, curr: set<Body>, rs: set<Refs>, ch: SubgraphChanges) {
    (forall s :: s in ch.added <==> s.start == sp && s.body.refs in rs && AddedAt(last, curr, s.body)) &&
    (forall s :: s in ch.removed <==> s.start == sp && s.body.refs in rs && AddedAt(curr, last, s.body)) &&
    (forall x, y :: (x, y) in ch.changed <==>
        x.start == y.start == sp && x.body.refs in rs && ChangedAt(last, curr, x.body, y.body))
  }

  function StartingAt(sp: Position, s: set<Body>): set<Subgraph> { set b | b in s :: Subgraph(sp, b) }

  // The events of the subgraphs of a position with the same refs.
  method FindEventsForRefs(less: (Body, Body) -> bool, sp: Position, last: set<Body>, curr: set<Body>, r: Refs)
      returns (ch: SubgraphChanges)
    requires StrictOrder(less)
    ensures EventsForRefs(sp, last, curr, {r}, ch)
  {
    var l, c := WithRefs(last, r), WithRefs(curr, r);
    hide AddedAt, ChangedAt, OnlyOne;
    if |l| == 1 && |c| == 1 {
      var x :| x in l;
      var y :| y in c;
      forall b | b in l ensures b == x { OneOf(l, b, x); }
      forall b | b in c ensures b == y { OneOf(c, b, y); }
      PairedEvents(last, curr, r, x, y);
      return SubgraphChanges({}, if x != y then {(Subgraph(sp, x), Subgraph(sp, y))} else {}, {});
    }
    UnpairedEvents(last, curr, r);
    var lasts := SortedList(less, l);
    var currs := SortedList(less, c);
    var removed := SortedDifference(less, lasts, currs);
    var added := SortedDifference(less, currs, lasts);
    ch := SubgraphChanges(StartingAt(sp, added), {}, StartingAt(sp, removed));
  }

  lemma OnlyOneIsSingle(s: set<Body>, b: Body)
    ensures OnlyOne(s, b) <==> b in s && |WithRefs(s, b.refs)| == 1
  {
    var all := WithRefs(s, b.refs);
    if OnlyOne(s, b) {
      assert all == {b};
    }
    if b in s && |all| == 1 {
      forall y | y in s && y.refs == b.refs ensures y == b { OneOf(all, y, b); }
    }
  }

  // Where there is one subgraph with the refs before and after, nothing is added or removed.
  lemma PairedEvents(last: set<Body>, curr: set<Body>, r: Refs, x: Body, y: Body)
    requires WithRefs(last, r) == {x} && WithRefs(curr, r) == {y}
    ensures forall b: Body :: b.refs == r ==> !AddedAt(last, curr, b) && !AddedAt(curr, last, b)
    ensures forall p: Body, q: Body :: p.refs == r ==> (ChangedAt(last, curr, p, q) <==> p == x && q == y && x != y)
  {
    assert x in {x} && y in {y};
    assert OnlyOne(last, x) && OnlyOne(curr, y) by {
      forall b | b in last && b.refs == r ensures b == x { assert b in WithRefs(last, r); }
      forall b | b in curr && b.refs == r ensures b == y { assert b in WithRefs(curr, r); }
    }
    assert x != y ==> ChangedAt(last, curr, x, y) && ChangedAt(curr, last, y, x);
  }

  // Elsewhere nothing is changed.
  lemma UnpairedEvents(last: set<Body>, curr: set<Body>, r: Refs)
    requires !(|WithRefs(last, r)| == 1 && |WithRefs(curr, r)| == 1)
    ensures forall b: Body :: b.refs == r ==> (AddedAt(last, curr, b) <==> b in curr && b !in last)
    ensures forall b: Body :: b.refs == r ==> (AddedAt(curr, last, b) <==> b in last && b !in curr)
    ensures forall p: Body, q: Body :: p.refs == r ==> !ChangedAt(last, curr, p, q)
  {
    forall p: Body, q: Body | p.refs == q.refs == r
      ensures !(OnlyOne(last, p) && OnlyOne(curr, q)) && !(OnlyOne(curr, p) && OnlyOne(last, q))
    {
      OnlyOneIsSingle(last, p);
      OnlyOneIsSingle(curr, q);
      OnlyOneIsSingle(curr, p);
      OnlyOneIsSingle(last, q);
    }
    hide OnlyOne;
  }

  function Together(a: SubgraphChanges, b: SubgraphChanges): SubgraphChanges {
    SubgraphChanges(a.added + b.added, a.changed + b.changed, a.removed + b.removed)
  }

  method FindEventsAt(less: (Body, Body) -> bool, sp: Position, last: set<Body>, curr: set<Body>)
      returns (ch: SubgraphChanges)
    requires StrictOrder(less)
    ensures EventsAt(sp, last, curr, ch)
  {
    ch := NO_CHANGES;
    if last == curr {
      forall x, y ensures !ChangedAt(last, curr, x, y) {}
      return;
    }
    var rs := Listed((set b | b in last :: b.refs) + (set b | b in curr :: b.refs));
    for i := 0 to |rs|
      invariant EventsForRefs(sp, last, curr, Elems(rs[..i]), ch)
    {
      ElemsPrefix(rs, i);
      var more := FindEventsForRefs(less, sp, last, curr, rs[i]);
      ch := Together(ch, more);
    }
    ElemsWhole(rs);
    assert forall b :: b in last || b in curr ==> b.refs in Elems(rs);
  }

  lemma EventsOneMore(sps: set<Position>, sp: Position, last: map<Position, set<Body>>, curr: map<Position, set<Body>>,
                      a: SubgraphChanges, b: SubgraphChanges)
    requires EventsOf(sps, last, curr, a) && EventsAt(sp, BodiesAt(last, sp), BodiesAt(curr, sp), b)
    ensures EventsOf(sps + {sp}, last, curr, Together(a, b))
  {
    hide AddedAt, ChangedAt;
  }

  method FindSubgraphChanges(less: (Body, Body) -> bool, sps: seq<Position>, last: map<Position, set<Body>>,
                             curr: map<Position, set<Body>>) returns (ch: SubgraphChanges)
    requires StrictOrder(less)
    ensures EventsOf(Elems(sps), last, curr, ch)
  {
    ch := NO_CHANGES;
    assert Elems(sps[..0]) == {};
    for i := 0 to |sps|
      invariant EventsOf(Elems(sps[..i]), last, curr, ch)
    {
      ElemsPrefix(sps, i);
      var more := FindEventsAt(less, sps[i], BodiesAt(last, sps[i]), BodiesAt(curr, sps[i]));
      EventsOneMore(Elems(sps[..i]), sps[i], last, curr, ch, more);
      ch := Together(ch, more);
    }
    ElemsWhole(sps);
  }
}
