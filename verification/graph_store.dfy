/** The transactional graph, with its three levels. */
module GraphStores {
  import opened Base
  import opened Plans
  import opened Semantics
  import opened Visiting
  import opened Observing
  import opened UndoLog
  import opened EdgeIndex

  // --------------------------------------------------------------------------
  // Vertices
  // --------------------------------------------------------------------------

  class VerticesContainer {
    var flags: map<VertexID, bool>  // stored vertices, and whether they're present
    var present: set<VertexID>
    var byType: map<TypeName, set<VertexID>>
    var log: seq<Change<VertexID>>
    var applied: nat
    ghost var committed: set<VertexID>

    constructor ()
      ensures Valid() && present == {} && Applied() == {} && committed == {} && flags == map[]
    {
      flags, present, byType, log, applied, committed := map[], {}, map[], [], 0, {};
    }

    ghost predicate Indexed()
      reads this
    {
      (forall v :: v in present <==> v in flags && flags[v]) &&
      forall v :: v in present <==> v.typeName in byType && v in byType[v.typeName]
    }

    ghost predicate Typed()
      reads this
    {
      forall t, v :: t in byType && v in byType[t] ==> v.typeName == t
    }

    ghost predicate Valid()
      reads this
    {
      Indexed() && Typed() && applied <= |log| && ValidLog(committed, log) && Replayed(committed, log) == present &&
      committed <= flags.Keys && Applied() <= flags.Keys && forall c :: c in log ==> c.item in flags
    }

    ghost function Applied(): set<VertexID>
      reads this
    {
      if applied <= |log| then Replayed(committed, log[..applied]) else {}
    }

    method SetPresent(v: VertexID, isPresent: bool)
      requires v in flags && Indexed() && Typed()
      modifies this`flags, this`present, this`byType
      ensures Indexed() && Typed() && present == (if isPresent then old(present) + {v} else old(present) - {v}) &&
          flags.Keys == old(flags.Keys)
    {
      flags := flags[v := isPresent];
      if isPresent {
        present := present + {v};
        byType := byType[v.typeName := (if v.typeName in byType then byType[v.typeName] else {}) + {v}];
      } else {
        present := present - {v};
        if v.typeName in byType {
          byType := byType[v.typeName := byType[v.typeName] - {v}];
        }
      }
    }

    method AddVertex(v: VertexID)
      requires Valid()
      modifies this
      ensures Valid() && present == old(present) + {v} && Applied() == old(Applied()) && committed == old(committed)
      ensures flags.Keys == old(flags.Keys) + {v}
    {
      if v !in flags {
        flags := flags[v := false];
      }
      if flags[v] {
        return;
      }
      LogSnoc(committed, log, Change(v, true));
      SetPresent(v, true);
      assert (log + [Change(v, true)])[..applied] == log[..applied];
      log := log + [Change(v, true)];
    }

    method DiscardVertex(v: VertexID)
      requires Valid()
      modifies this
      ensures Valid() && present == old(present) - {v} && Applied() == old(Applied()) && committed == old(committed)
      ensures flags.Keys == old(flags.Keys)
    {
      if v !in flags || !flags[v] {
        return;
      }
      LogSnoc(committed, log, Change(v, false));
      SetPresent(v, false);
      assert (log + [Change(v, false)])[..applied] == log[..applied];
      log := log + [Change(v, false)];
    }

    predicate HasUnappliedChanges()
      reads this
    {
      applied < |log|
    }

    method JustChanged(added: bool) returns (s: set<VertexID>)
      requires Valid()
      ensures s == if added then present - Applied() else Applied() - present
    {
      LogSplit(committed, log, applied);
      s := NetChanges(log, applied, added, Applied());
    }

    method Apply()
      requires Valid()
      modifies this`applied
      ensures Valid() && Applied() == present
    {
      applied := |log|;
      assert log[..|log|] == log;
      PresentIsKnown();
    }

    lemma PresentIsKnown()
      requires Indexed()
      ensures present <= flags.Keys
    {}

    method Commit()
      requires Valid()
      modifies this
      ensures Valid() && present == old(present) && Applied() == old(Applied()) && committed == old(Applied()) &&
          flags == old(flags)
    {
      LogSplit(committed, log, applied);
      committed := Applied();
      log := log[applied..];
      applied := 0;
      assert log[..0] == [];
    }

    method Rollback()
      requires Valid()
      modifies this
      ensures Valid() && present == committed == Applied() == old(committed) && flags.Keys == old(flags.Keys)
    {
      var i := |log|;
      assert log[..i] == log;
      while i > 0
        invariant i <= |log| && log == old(log) && committed == old(committed) && flags.Keys == old(flags.Keys)
        invariant Indexed() && Typed() && ValidLog(committed, log[..i]) && present == Replayed(committed, log[..i])
        invariant forall k :: 0 <= k < |log| ==> log[k].item in flags
      {
        i := i - 1;
        LogLast(committed, log, i);
        SetPresent(log[i].item, !log[i].added);
      }
      assert log[..0] == [];
      log, applied := [], 0;
    }

    method IterPresentByTypeName(t: TypeName) returns (s: set<VertexID>)
      requires Valid()
      ensures s == set v | v in present && v.typeName == t
    {
      s := if t in byType then byType[t] else {};
    }
  }

  // --------------------------------------------------------------------------
  // Edges
  // --------------------------------------------------------------------------

  class EdgesContainer {
    const forward: Trunk
    const inverse: Trunk
    var log: seq<Change<Edge>>
    var applied: nat
    ghost var committed: set<Edge>

    constructor ()
      ensures Valid() && Present() == {} && Applied() == {} && committed == {} && fresh(forward) && fresh(inverse)
    {
      forward := new Trunk(false);
      inverse := new Trunk(true);
      log, applied, committed := [], 0, {};
    }

    // The two indexes hold the same edges, and the log only has actual changes.
    ghost predicate Valid()
      reads this, forward, inverse
    {
      Separate() && forward.edges == inverse.edges && applied <= |log| && ValidLog(committed, log) &&
          Replayed(committed, log) == forward.edges
    }

    ghost predicate Separate()
      reads this, forward, inverse
    {
      forward != inverse && !forward.isInverse && inverse.isInverse && forward.Valid() && inverse.Valid()
    }

    ghost function Present(): set<Edge>
      reads forward
    {
      forward.edges
    }

    ghost function Applied(): set<Edge>
      reads this
    {
      if applied <= |log| then Replayed(committed, log[..applied]) else {}
    }

    // Nothing but the present edges has changed.
    twostate predicate OnlyPresent()
      reads this
    {
      Applied() == old(Applied()) && committed == old(committed)
    }

    method Insert(e: Edge) returns (added: bool)
      requires Separate() && forward.edges == inverse.edges
      modifies forward, inverse
      ensures Separate() && forward.edges == inverse.edges == old(forward.edges) + {e} &&
          (added <==> e !in old(forward.edges))
    {
      added := forward.Add(e.from, e.lab, e.to);
      if !added {
        assert e in forward.edges && old(forward.edges) + {e} == old(forward.edges);
        return;
      }
      var also := inverse.Add(e.to, e.lab, e.from);
    }

    method Erase(e: Edge) returns (removed: bool)
      requires Separate() && forward.edges == inverse.edges
      modifies forward, inverse
      ensures Separate() && forward.edges == inverse.edges == old(forward.edges) - {e} &&
          (removed <==> e in old(forward.edges))
    {
      removed := forward.Remove(e.from, e.lab, e.to);
      if !removed {
        assert old(forward.edges) - {e} == old(forward.edges);
        return;
      }
      var also := inverse.Remove(e.to, e.lab, e.from);
    }

    method Record(c: Change<Edge>)
      requires applied <= |log| && ValidLog(committed, log) && Actual(Replayed(committed, log), c)
      modifies this`log
      ensures applied <= |log| && ValidLog(committed, log) &&
          Replayed(committed, log) == Done(old(Replayed(committed, log)), c)
      ensures Applied() == old(Applied())
    {
      LogSnoc(committed, log, c);
      assert (log + [c])[..applied] == log[..applied];
      log := log + [c];
    }

    method AddEdge(e: Edge)
      requires Valid()
      modifies this`log, forward, inverse
      ensures Valid() && Present() == old(Present()) + {e} && OnlyPresent()
    {
      var added := Insert(e);
      if added {
        Record(Change(e, true));
      }
    }

    method RemoveEdge(e: Edge)
      requires Valid()
      modifies this`log, forward, inverse
      ensures Valid() && Present() == old(Present()) - {e} && OnlyPresent()
    {
      var removed := Erase(e);
      if removed {
        Record(Change(e, false));
      }
    }

    // Removes edges that one trunk has dropped from the other one, and records that.
    method Follow(es: seq<Edge>, first: Trunk, second: Trunk)
      requires Separate() && applied <= |log| && ValidLog(committed, log) && {first, second} == {forward, inverse} &&
          first != second
      requires NoDuplicates(es) && first.edges !! Elems(es) && second.edges == first.edges + Elems(es)
      requires Replayed(committed, log) == second.edges
      modifies this`log, second
      ensures Valid() && first.edges == old(first.edges) && OnlyPresent()
    {
      assert es[0..] == es;
      for i := 0 to |es|
        invariant Separate() && applied <= |log| && ValidLog(committed, log) && Replayed(committed, log) == second.edges
        invariant first.edges == old(first.edges) && second.edges == first.edges + Elems(es[i..])
        invariant OnlyPresent()
      {
        ElemsSuffix(es, i);
        NoDuplicatesAfter(es, i);
        var e := es[i];
        assert e in Elems(es) && e !in Elems(es[i + 1..]);
        var removed := second.Remove(second.Source(e), e.lab, second.Target(e));
        Record(Change(e, false));
      }
      assert Elems(es[|es|..]) == {};
    }

    method RemoveEdgesFromViaLabel(from: VertexID, l: Label)
      requires Valid()
      modifies this`log, forward, inverse
      ensures Valid() && (forall e :: e in Present() <==> e in old(Present()) && !(e.from == from && e.lab == l)) &&
          OnlyPresent()
    {
      ghost var was := forward.edges;
      var removed := forward.RemoveAllViaLabel(from, l);
      var es := Listed((set to | to in removed :: Edge(from, l, to)));
      assert forall e :: e in Elems(es) <==> e in was && e.from == from && e.lab == l by {
        forall e | e in was && e.from == from && e.lab == l ensures e in Elems(es) {
          assert e == Edge(from, l, e.to) && e.to in removed;
        }
        forall e | e in Elems(es) ensures e in was && e.from == from && e.lab == l {
          var to :| to in removed && e == Edge(from, l, to);
        }
      }
      Follow(es, forward, inverse);
    }

    method RemoveEdgesOfVertex(v: VertexID)
      requires Valid()
      modifies this`log, forward, inverse
      ensures Valid() && (forall e :: e in Present() <==> e in old(Present()) && e.from != v && e.to != v) &&
          OnlyPresent()
    {
      ghost var was := forward.edges;
      var outgoing := forward.RemoveAll(v);
      var es := Listed((set p | p in outgoing :: Edge(v, p.0, p.1)));
      assert forall e :: e in Elems(es) <==> e in was && e.from == v by {
        forall e | e in was && e.from == v ensures e in Elems(es) { assert (e.lab, e.to) in outgoing; }
        forall e | e in Elems(es) ensures e in was && e.from == v {
          var p :| p in outgoing && e == Edge(v, p.0, p.1);
        }
      }
      Follow(es, forward, inverse);
      // What is left in the other index has no loops: these went with the branch of the vertex.
      ghost var rest := inverse.edges;
      var incoming := inverse.RemoveAll(v);
      var fs := Listed((set p | p in incoming :: Edge(p.1, p.0, v)));
      assert forall e :: e in Elems(fs) <==> e in rest && e.to == v by {
        forall e | e in rest && e.to == v ensures e in Elems(fs) { assert (e.lab, e.from) in incoming; }
        forall e | e in Elems(fs) ensures e in rest && e.to == v {
          var p :| p in incoming && e == Edge(p.1, p.0, v);
        }
      }
      Follow(fs, inverse, forward);
    }

    predicate HasUnappliedChanges()
      reads this
    {
      applied < |log|
    }

    method JustChanged(added: bool) returns (s: set<Edge>)
      requires Valid()
      ensures s == if added then Present() - Applied() else Applied() - Present()
    {
      LogSplit(committed, log, applied);
      s := NetChanges(log, applied, added, Applied());
    }

    method Apply()
      requires Valid()
      modifies this`applied
      ensures Valid() && Applied() == Present()
    {
      applied := |log|;
      assert log[..|log|] == log;
    }

    method Commit()
      requires Valid()
      modifies this
      ensures Valid() && Applied() == old(Applied()) && committed == old(Applied())
    {
      LogSplit(committed, log, applied);
      committed := Applied();
      log := log[applied..];
      applied := 0;
      assert log[..0] == [];
    }

    method Rollback()
      requires Valid()
      modifies this, forward, inverse
      ensures Valid() && Present() == committed == Applied() == old(committed)
    {
      var i := |log|;
      assert log[..i] == log;
      while i > 0
        invariant i <= |log| && log == old(log) && committed == old(committed)
        invariant Separate() && forward.edges == inverse.edges
        invariant ValidLog(committed, log[..i]) && forward.edges == Replayed(committed, log[..i])
      {
        i := i - 1;
        LogLast(committed, log, i);
        var changed;
        if log[i].added {
          changed := Erase(log[i].item);
        } else {
          changed := Insert(log[i].item);
        }
      }
      assert log[..0] == [];
      log, applied := [], 0;
    }

    // --------------------------------------------------------------------------
    // Queries: exactly the present edges that the matcher asks for.
    // --------------------------------------------------------------------------

    method FromVertex(v: VertexID, labels: Labels) returns (s: set<Edge>)
      requires Valid()
      ensures s == Outgoing(Graph({}, Present()), v, labels)
      ensures forall e :: e in s <==> e in Present() && e.from == v && (labels.None? || e.lab in labels.value)
    {
      if labels.None? {
        s := forward.IterBranch(v);
      } else {
        s := forward.IterBranchViaLabels(v, labels.value);
      }
    }

    method ToVertex(v: VertexID, labels: Labels) returns (s: set<Edge>)
      requires Valid()
      ensures s == Incoming(Graph({}, Present()), v, labels)
      ensures forall e :: e in s <==> e in Present() && e.to == v && (labels.None? || e.lab in labels.value)
    {
      if labels.None? {
        s := inverse.IterBranch(v);
      } else {
        s := inverse.IterBranchViaLabels(v, labels.value);
      }
    }

    // The edges with any of the labels, from wherever they go.
    method ViaLabels(labels: Labels) returns (s: set<Edge>)
      requires Valid()
      ensures s == set e | e in Present() && (labels.None? || e.lab in labels.value)
    {
      if labels.None? {
        s := forward.IterPresent();
      } else {
        s := forward.IterPresentViaLabels(labels.value);
      }
    }

    // An empty list of labels stands for any label here.
    method Between(from: VertexID, to: VertexID, labels: seq<Label>) returns (s: set<Edge>)
      requires Valid()
      ensures s == set e | e in Present() && e.from == from && e.to == to && (labels == [] || e.lab in labels)
    {
      s := forward.IterBetween(from, to, labels);
    }
  }

  // --------------------------------------------------------------------------
  // The graph
  // --------------------------------------------------------------------------

  datatype Update =
    | AddVertex(from: VertexID)
    | RemoveVertex(from: VertexID)
    | AddEdge(from: VertexID, lab: Label, to: VertexID)
    | RemoveEdge(from: VertexID, lab: Label, to: VertexID)
    | RemoveEdgesToAll(from: VertexID, lab: Label)

  // Updates in terms of sets.
  ghost function Updated(g: Graph, u: Update): Graph {
    match u
    case AddVertex(v) => Graph(g.vertices + {v}, g.edges)
    case RemoveVertex(v) => Graph(g.vertices - {v}, set e | e in g.edges && e.from != v && e.to != v)
    case AddEdge(v, l, w) =>
      if v in g.vertices && w in g.vertices then Graph(g.vertices, g.edges + {Edge(v, l, w)}) else g
    case RemoveEdge(v, l, w) => Graph(g.vertices, g.edges - {Edge(v, l, w)})
    case RemoveEdgesToAll(v, l) => Graph(g.vertices, set e | e in g.edges && !(e.from == v && e.lab == l))
  }

  ghost function UpdatedAll(g: Graph, us: seq<Update>): Graph {
    if us == [] then g else Updated(UpdatedAll(g, us[..|us| - 1]), us[|us| - 1])
  }

  // The update says that the edge must go, or one of its ends.
  ghost predicate Takes(u: Update, e: Edge) {
    u == RemoveEdge(e.from, e.lab, e.to) || u == RemoveEdgesToAll(e.from, e.lab) ||
    u == RemoveVertex(e.from) || u == RemoveVertex(e.to)
  }

  // The vertex was added, and wasn't removed later.
  ghost predicate AddedAt(us: seq<Update>, v: VertexID, i: nat)
    requires i < |us|
  {
    us[i] == AddVertex(v) && RemoveVertex(v) !in us[i + 1..]
  }

  // It was there or was added, and wasn't removed later.
  ghost predicate VertexStays(vs: set<VertexID>, us: seq<Update>, v: VertexID) {
    (v in vs && RemoveVertex(v) !in us) ||
    exists i :: 0 <= i < |us| && AddedAt(us, v, i)
  }

  // The edge was added when both ends were there, and nothing took it later.
  ghost predicate AddedFor(g: Graph, us: seq<Update>, e: Edge, i: nat)
    requires i < |us|
  {
    us[i] == AddEdge(e.from, e.lab, e.to) &&
    VertexStays(g.vertices, us[..i], e.from) && VertexStays(g.vertices, us[..i], e.to) &&
    forall u :: u in us[i + 1..] ==> !Takes(u, e)
  }

  // It was there, or was added while both ends were; and it wasn't taken later.
  ghost predicate EdgeStays(g: Graph, us: seq<Update>, e: Edge) {
    (e in g.edges && forall u :: u in us ==> !Takes(u, e)) ||
    exists i :: 0 <= i < |us| && AddedFor(g, us, e, i)
  }

  lemma VertexStaysAfter(vs: set<VertexID>, us: seq<Update>, u: Update, v: VertexID)
    ensures VertexStays(vs, us + [u], v) <==> u == AddVertex(v) || (VertexStays(vs, us, v) && u != RemoveVertex(v))
  {
    var n, all := |us|, us + [u];
    assert u in all && all[n] == u && all[n + 1..] == [];
    assert RemoveVertex(v) !in all <==> RemoveVertex(v) !in us && u != RemoveVertex(v);
    forall i | 0 <= i < n ensures AddedAt(all, v, i) <==> AddedAt(us, v, i) && u != RemoveVertex(v) {
      assert all[i + 1..] == us[i + 1..] + [u] && all[i] == us[i];
    }
    assert AddedAt(all, v, n) <==> u == AddVertex(v);
    hide AddedAt;
  }

  // After a batch, exactly these vertices are there.
  lemma {:induction false} VerticesStay(g: Graph, us: seq<Update>, v: VertexID)
    ensures v in UpdatedAll(g, us).vertices <==> VertexStays(g.vertices, us, v)
    decreases |us|
  {
    hide VertexStays;
    if us == [] {
      assert VertexStays(g.vertices, [], v) <==> v in g.vertices by { NothingUpdated(g, v); }
    } else {
      var n := |us| - 1;
      VerticesStay(g, us[..n], v);
      VertexStaysAfter(g.vertices, us[..n], us[n], v);
      UpdatedMeans(UpdatedAll(g, us[..n]), us[n]);
      hide Updated;
      assert us == us[..n] + [us[n]];
    }
  }

  lemma NothingUpdated(g: Graph, v: VertexID)
    ensures VertexStays(g.vertices, [], v) <==> v in g.vertices
  {}

  lemma EdgeStaysAfter(g: Graph, us: seq<Update>, u: Update, e: Edge)
    ensures EdgeStays(g, us + [u], e) <==>
      (EdgeStays(g, us, e) && !Takes(u, e)) || (u == AddEdge(e.from, e.lab, e.to) &&
          VertexStays(g.vertices, us, e.from) && VertexStays(g.vertices, us, e.to))
  {
    hide VertexStays, Takes;
    var n, all := |us|, us + [u];
    assert u in all && all[..n] == us && all[n] == u && all[n + 1..] == [];
    forall i | 0 <= i < n ensures AddedFor(g, all, e, i) <==> AddedFor(g, us, e, i) && !Takes(u, e) {
      assert all[i + 1..] == us[i + 1..] + [u] && all[i] == us[i] && all[..i] == us[..i];
    }
    assert (forall x :: x in all ==> !Takes(x, e)) <==> (forall x :: x in us ==> !Takes(x, e)) && !Takes(u, e);
    assert AddedFor(g, all, e, n) <==> (u == AddEdge(e.from, e.lab, e.to) &&
        VertexStays(g.vertices, us, e.from) && VertexStays(g.vertices, us, e.to));
    hide AddedFor;
  }

  // After a batch, exactly these edges are there.
  lemma {:induction false} EdgesStay(g: Graph, us: seq<Update>, e: Edge)
    ensures e in UpdatedAll(g, us).edges <==> EdgeStays(g, us, e)
    decreases |us|
  {
    if us != [] {
      var n := |us| - 1;
      EdgesStay(g, us[..n], e);
      VerticesStay(g, us[..n], e.from);
      VerticesStay(g, us[..n], e.to);
      EdgeStaysAfter(g, us[..n], us[n], e);
      UpdatedMeans(UpdatedAll(g, us[..n]), us[n]);
      hide Updated, EdgeStays, VertexStays, Takes;
      assert us == us[..n] + [us[n]];
    }
  }

  // What each update changes.
  lemma UpdatedMeans(g: Graph, u: Update)
    ensures forall v :: v in Updated(g, u).vertices <==> u == AddVertex(v) || (v in g.vertices && u != RemoveVertex(v))
    ensures forall e :: e in Updated(g, u).edges <==>
      (e in g.edges && !Takes(u, e)) ||
      (u == AddEdge(e.from, e.lab, e.to) && e.from in g.vertices && e.to in g.vertices)
  {
    var h := Updated(g, u);
    match u
    case AddVertex(v) =>
    case RemoveVertex(v) =>
      assert forall w :: w in h.vertices <==> w in g.vertices && w != v;
    case AddEdge(v, l, w) =>
      assert forall e: Edge :: u == AddEdge(e.from, e.lab, e.to) <==> e == Edge(v, l, w);
    case RemoveEdge(v, l, w) =>
      assert forall e :: Takes(u, e) <==> e == Edge(v, l, w);
    case RemoveEdgesToAll(v, l) =>
  }

  lemma UpdatedIsWellFormed(g: Graph, u: Update)
    requires WellFormed(g)
    ensures WellFormed(Updated(g, u))
  {}

  // The state now, at the last apply, and at the last commit.
  datatype Levels = Levels(present: Graph, applied: Graph, committed: Graph)

  ghost predicate LevelsOk(s: Levels) { WellFormed(s.present) && WellFormed(s.applied) && WellFormed(s.committed) }

  const EMPTY := Graph({}, {})

  class GraphStore {
    const vertices: VerticesContainer
    const edges: EdgesContainer

    constructor ()
      ensures Valid() && Now() == Levels(EMPTY, EMPTY, EMPTY) && Known() == {} && fresh(Repr())
    {
      vertices := new VerticesContainer();
      edges := new EdgesContainer();
    }

    ghost function Repr(): set<object> { {this, vertices, edges, edges.forward, edges.inverse} }

    ghost function Now(): Levels
      reads vertices, edges, edges.forward
    {
      Levels(Graph(vertices.present, edges.Present()), Graph(vertices.Applied(), edges.Applied()),
             Graph(vertices.committed, edges.committed))
    }

    // Every vertex the graph has ever had.
    function Known(): set<VertexID>
      reads vertices
    {
      vertices.flags.Keys
    }

    ghost predicate Valid()
      reads Repr()
    {
      vertices.Valid() && edges.Valid() && LevelsOk(Now())
    }

    method UpdateOne(u: Update)
      requires Valid()
      modifies Repr()
      ensures Valid() && Now() == old(Now()).(present := Updated(old(Now().present), u)) && old(Known()) <= Known()
      ensures forall v :: v in Now().present.vertices <==>
          u == AddVertex(v) || (v in old(Now().present.vertices) && u != RemoveVertex(v))
      ensures forall e :: e in Now().present.edges <==>
          (e in old(Now().present.edges) && !Takes(u, e)) || (u == AddEdge(e.from, e.lab, e.to) &&
              e.from in old(Now().present.vertices) && e.to in old(Now().present.vertices))
    {
      UpdatedIsWellFormed(Now().present, u);
      UpdatedMeans(Now().present, u);
      hide Takes;
      match u
      case AddVertex(v) => vertices.AddVertex(v);
      case RemoveVertex(v) => RemoveVertexOf(v);
      case AddEdge(v, l, w) => AddEdgeOf(v, l, w);
      case RemoveEdge(v, l, w) =>
        UnknownHasNoEdges(v, w);
        if v !in vertices.flags || w !in vertices.flags {
          return;
        }
        edges.RemoveEdge(Edge(v, l, w));
      case RemoveEdgesToAll(v, l) =>
        UnknownHasNoEdges(v, v);
        if v !in vertices.flags {
          assert Updated(Now().present, u) == Now().present;
          return;
        }
        edges.RemoveEdgesFromViaLabel(v, l);
        assert edges.Present() == Updated(old(Now().present), u).edges;
    }

    lemma UnknownHasNoEdges(v: VertexID, w: VertexID)
      requires Valid()
      ensures v !in vertices.flags ==> forall e :: e in edges.Present() ==> e.from != v && e.to != v
      ensures w !in vertices.flags ==> forall e :: e in edges.Present() ==> e.from != w && e.to != w
    {}

    method RemoveVertexOf(v: VertexID)
      requires Valid()
      modifies Repr()
      ensures Valid() && Now() == old(Now()).(present := Updated(old(Now().present), RemoveVertex(v))) &&
          old(Known()) <= Known()
    {
      UpdatedIsWellFormed(Now().present, RemoveVertex(v));
      if v !in vertices.flags {
        UnknownHasNoEdges(v, v);
        assert Updated(Now().present, RemoveVertex(v)) == Now().present;
        return;
      }
      edges.RemoveEdgesOfVertex(v);
      vertices.DiscardVertex(v);
      assert edges.Present() == Updated(old(Now().present), RemoveVertex(v)).edges;
    }

    // Being known says nothing about being present.
    method AddEdgeOf(v: VertexID, l: Label, w: VertexID)
      requires Valid()
      modifies Repr()
      ensures Valid() && Now() == old(Now()).(present := Updated(old(Now().present), AddEdge(v, l, w))) &&
          old(Known()) <= Known()
    {
      UpdatedIsWellFormed(Now().present, AddEdge(v, l, w));
      if v !in vertices.flags || w !in vertices.flags {
        return;
      }
      if !vertices.flags[v] || !vertices.flags[w] {
        return;
      }
      edges.AddEdge(Edge(v, l, w));
    }

    method Update(us: seq<Update>)
      requires Valid()
      modifies Repr()
      ensures Valid() && Now() == old(Now()).(present := UpdatedAll(old(Now().present), us)) && old(Known()) <= Known()
      ensures forall v :: v in Now().present.vertices <==> VertexStays(old(Now().present.vertices), us, v)
      ensures forall e :: e in Now().present.edges <==> EdgeStays(old(Now().present), us, e)
    {
      hide VertexStays, EdgeStays, Takes;
      ghost var was := Now();
      for i := 0 to |us|
        invariant Valid() && Now() == was.(present := UpdatedAll(was.present, us[..i])) && old(Known()) <= Known()
      {
        UpdateOne(us[i]);
        assert us[..i + 1][..i] == us[..i];
      }
      assert us[..|us|] == us;
      forall v ensures v in Now().present.vertices <==> VertexStays(was.present.vertices, us, v) {
        VerticesStay(was.present, us, v);
      }
      forall e ensures e in Now().present.edges <==> EdgeStays(was.present, us, e) {
        EdgesStay(was.present, us, e);
      }
    }

    // What has changed since the last apply.
    method Apply() returns (changes: GraphChanges)
      requires Valid()
      modifies vertices, edges
      ensures Valid() && Now() == old(Now()).(applied := old(Now().present)) && Known() == old(Known())
      ensures changes == Difference(old(Now().applied), old(Now().present))
      ensures changes.addedVertices == old(Now().present.vertices) - old(Now().applied.vertices)
      ensures changes.removedVertices == old(Now().applied.vertices) - old(Now().present.vertices)
      ensures changes.addedEdges == old(Now().present.edges) - old(Now().applied.edges)
      ensures changes.removedEdges == old(Now().applied.edges) - old(Now().present.edges)
    {
      if !vertices.HasUnappliedChanges() && !edges.HasUnappliedChanges() {
        assert vertices.log[..vertices.applied] == vertices.log && edges.log[..edges.applied] == edges.log;
        return GraphChanges({}, {}, {}, {});
      }
      var av := vertices.JustChanged(true);
      var rv := vertices.JustChanged(false);
      var ae := edges.JustChanged(true);
      var re := edges.JustChanged(false);
      changes := GraphChanges(av, rv, ae, re);
      vertices.Apply();
      edges.Apply();
    }

    method Commit()
      requires Valid()
      modifies vertices, edges
      ensures Valid() && Now() == old(Now()).(committed := old(Now().applied)) && Known() == old(Known())
    {
      vertices.Commit();
      edges.Commit();
    }

    method Rollback()
      requires Valid()
      modifies Repr()
      ensures Valid() && Now() == Levels(old(Now().committed), old(Now().committed), old(Now().committed)) &&
          Known() == old(Known())
    {
      vertices.Rollback();
      edges.Rollback();
    }

    // The present graph, as the matcher sees it.
    method Snapshot() returns (query: Query)
      requires Valid()
      ensures query == Query(Now().present, Known()) && QueryOk(query)
    {
      var es := edges.forward.IterPresent();
      query := Query(Graph(vertices.present, es), vertices.flags.Keys);
      vertices.PresentIsKnown();
    }
  }
}
