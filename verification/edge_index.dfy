/** Edges by the vertex they go from, or to, and by label. */
module EdgeIndex {
  import opened Base

  // Targets of the edges with a label from a vertex: one, or any number of them.
  datatype Leaf = UniLeaf(to: Option<VertexID>) | MultiLeaf(targets: set<VertexID>) {
    ghost function Targets(): set<VertexID> {
      match this
      case UniLeaf(to) => if to.Some? then {to.value} else {}
      case MultiLeaf(targets) => targets
    }

    predicate IsEmpty()
      ensures IsEmpty() <==> Targets() == {}
    {
      match this
      case UniLeaf(to) => to.None?
      case MultiLeaf(targets) => targets == {}
    }

    predicate Contains(v: VertexID)
      ensures Contains(v) <==> v in Targets()
    {
      match this
      case UniLeaf(to) => to == Some(v)
      case MultiLeaf(targets) => v in targets
    }

    function Add(v: VertexID): (r: (Leaf, bool))
      ensures r.0.Targets() == Targets() + {v} && (r.1 <==> v !in Targets())
    {
      match this
      case UniLeaf(to) =>
        if to == Some(v) then (this, false)
        else if to.None? then (UniLeaf(Some(v)), true)
        else (MultiLeaf({to.value, v}), true)
      case MultiLeaf(targets) => (MultiLeaf(targets + {v}), v !in targets)
    }

    function Remove(v: VertexID): (r: (Leaf, bool))
      ensures r.0.Targets() == Targets() - {v} && (r.1 <==> v in Targets())
    {
      match this
      case UniLeaf(to) => if to != Some(v) then (this, false) else (UniLeaf(None), true)
      case MultiLeaf(targets) => (MultiLeaf(targets - {v}), v in targets)
    }

    function All(): (s: set<VertexID>)
      ensures s == Targets()
    {
      match this
      case UniLeaf(to) => if to.Some? then {to.value} else {}
      case MultiLeaf(targets) => targets
    }
  }

  datatype Branch = Branch(leaves: map<Label, Leaf>) {
    ghost predicate Has(l: Label, v: VertexID) { l in leaves && v in leaves[l].Targets() }

    // No empty leaves remain.
    ghost predicate Tidy() { forall l :: l in leaves ==> !leaves[l].IsEmpty() }

    function Add(l: Label, v: VertexID): (r: (Branch, bool))
      requires Tidy()
      ensures r.0.Tidy() && r.0.leaves != map[] && (r.1 <==> !Has(l, v))
      ensures forall k, u :: r.0.Has(k, u) <==> Has(k, u) || (k == l && u == v)
    {
      var leaf := if l in leaves then leaves[l] else UniLeaf(None);
      var next := leaf.Add(v);
      assert l in leaves[l := next.0];
      (Branch(leaves[l := next.0]), next.1)
    }

    function Remove(l: Label, v: VertexID): (r: (Branch, bool))
      requires Tidy()
      ensures r.0.Tidy() && (r.1 <==> Has(l, v))
      ensures forall k, u :: r.0.Has(k, u) <==> Has(k, u) && !(k == l && u == v)
    {
      if l !in leaves then (this, false)
      else
        var next := leaves[l].Remove(v);
        assert forall u :: u in leaves[l].Targets() && u != v ==> u in next.0.Targets();
        (if next.0.IsEmpty() then Branch(leaves - {l}) else Branch(leaves[l := next.0]), next.1)
    }

    function RemoveLabel(l: Label): (r: (Branch, set<VertexID>))
      requires Tidy()
      ensures r.0.Tidy() && (forall u :: u in r.1 <==> Has(l, u))
      ensures forall k, u :: r.0.Has(k, u) <==> Has(k, u) && k != l
    {
      if l !in leaves then (this, {}) else (Branch(leaves - {l}), leaves[l].All())
    }

    function All(): (s: set<(Label, VertexID)>)
      ensures forall l, v :: (l, v) in s <==> Has(l, v)
    {
      set l, v | l in leaves && v in leaves[l].All() :: (l, v)
    }
  }

  ghost predicate HasEdge(branches: map<VertexID, Branch>, isInverse: bool, e: Edge) {
    var from, to := if isInverse then e.to else e.from, if isInverse then e.from else e.to;
    from in branches && branches[from].Has(e.lab, to)
  }

  function EdgeAt(isInverse: bool, from: VertexID, l: Label, to: VertexID): Edge {
    if isInverse then Edge(to, l, from) else Edge(from, l, to)
  }

  class Trunk {
    const isInverse: bool
    var branches: map<VertexID, Branch>
    ghost var edges: set<Edge>

    constructor (isInverse: bool)
      ensures Valid() && edges == {} && this.isInverse == isInverse
    {
      this.isInverse := isInverse;
      branches, edges := map[], {};
    }

    // No empty branches or leaves remain.
    ghost predicate Valid()
      reads this
    {
      (forall v :: v in branches ==> branches[v].Tidy() && branches[v].leaves != map[]) &&
      forall e :: e in edges <==> HasEdge(branches, isInverse, e)
    }

    method Add(from: VertexID, l: Label, to: VertexID) returns (added: bool)
      requires Valid()
      modifies this
      ensures Valid() && edges == old(edges) + {EdgeAt(isInverse, from, l, to)}
      ensures added <==> EdgeAt(isInverse, from, l, to) !in old(edges)
    {
      var branch := if from in branches then branches[from] else Branch(map[]);
      var next := branch.Add(l, to);
      branches := branches[from := next.0];
      edges := edges + {EdgeAt(isInverse, from, l, to)};
      added := next.1;
    }

    method Remove(from: VertexID, l: Label, to: VertexID) returns (removed: bool)
      requires Valid()
      modifies this
      ensures Valid() && edges == old(edges) - {EdgeAt(isInverse, from, l, to)}
      ensures removed <==> EdgeAt(isInverse, from, l, to) in old(edges)
    {
      if from !in branches {
        return false;
      }
      var next := branches[from].Remove(l, to);
      SetBranch(from, next.0);
      edges := edges - {EdgeAt(isInverse, from, l, to)};
      removed := next.1;
    }

    // Empty branches are erased.
    method SetBranch(from: VertexID, branch: Branch)
      requires from in branches && branch.Tidy()
      modifies this`branches
      ensures forall v :: v != from ==>
          (v in branches <==> v in old(branches)) && (v in branches ==> branches[v] == old(branches[v]))
      ensures forall l, u :: from in branches && branches[from].Has(l, u) <==> branch.Has(l, u)
      ensures from in branches ==> branches[from].Tidy() && branches[from].leaves != map[]
    {
      if branch.leaves == map[] {
        branches := branches - {from};
      } else {
        branches := branches[from := branch];
      }
    }

    method RemoveAllViaLabel(from: VertexID, l: Label) returns (removed: set<VertexID>)
      requires Valid()
      modifies this
      ensures Valid() && forall e :: e in edges <==> e in old(edges) && !(Source(e) == from && e.lab == l)
      ensures forall u :: u in removed <==> EdgeAt(isInverse, from, l, u) in old(edges)
    {
      if from !in branches {
        return {};
      }
      ghost var was := edges;
      var next := branches[from].RemoveLabel(l);
      SetBranch(from, next.0);
      edges := set e | e in edges && !(Source(e) == from && e.lab == l);
      removed := next.1;
    }

    method RemoveAll(from: VertexID) returns (removed: set<(Label, VertexID)>)
      requires Valid()
      modifies this
      ensures Valid() && forall e :: e in edges <==> e in old(edges) && Source(e) != from
      ensures forall l, u :: (l, u) in removed <==> EdgeAt(isInverse, from, l, u) in old(edges)
    {
      if from !in branches {
        return {};
      }
      removed := branches[from].All();
      branches := branches - {from};
      edges := set e | e in edges && Source(e) != from;
    }

    function Source(e: Edge): VertexID { if isInverse then e.to else e.from }

    function Target(e: Edge): VertexID { if isInverse then e.from else e.to }

    // --------------------------------------------------------------------------
    // Queries
    // --------------------------------------------------------------------------

    method IterBranch(from: VertexID) returns (s: set<Edge>)
      requires Valid()
      ensures s == set e | e in edges && Source(e) == from
    {
      if from !in branches {
        return {};
      }
      var all := branches[from].All();
      s := set p | p in all :: EdgeAt(isInverse, from, p.0, p.1);
      forall e ensures e in s <==> e in edges && Source(e) == from {
        if e in edges && Source(e) == from {
          assert (e.lab, Target(e)) in all;
        }
      }
    }

    method IterBranchViaLabels(from: VertexID, labels: seq<Label>) returns (s: set<Edge>)
      requires Valid()
      ensures s == set e | e in edges && Source(e) == from && e.lab in labels
    {
      s := {};
      if from !in branches {
        return;
      }
      var branch := branches[from];
      for i := 0 to |labels|
        invariant s == set e | e in edges && Source(e) == from && e.lab in labels[..i]
      {
        assert labels[..i + 1] == labels[..i] + [labels[i]];
        if labels[i] in branch.leaves {
          var targets := branch.leaves[labels[i]].All();
          var more := set u | u in targets :: EdgeAt(isInverse, from, labels[i], u);
          forall e ensures e in more <==> e in edges && Source(e) == from && e.lab == labels[i] {
            if e in edges && Source(e) == from && e.lab == labels[i] { assert Target(e) in targets; }
          }
          s := s + more;
        }
      }
      assert labels[..|labels|] == labels;
    }

    // The edges that lead from one vertex to the other. An empty list doesn't restrict their labels.
    method IterBetween(from: VertexID, to: VertexID, labels: seq<Label>) returns (s: set<Edge>)
      requires Valid()
      ensures s == set e | e in edges && Source(e) == from && Target(e) == to && (labels == [] || e.lab in labels)
    {
      s := {};
      if from !in branches {
        return;
      }
      var branch := branches[from];
      var list := labels;
      if labels == [] {
        list := Listed(branch.leaves.Keys);
        assert forall l :: l in list <==> l in branch.leaves by { assert forall l :: l in list <==> l in Elems(list); }
      }
      for i := 0 to |list|
        invariant s == set e | e in edges && Source(e) == from && Target(e) == to && e.lab in list[..i]
      {
        assert list[..i + 1] == list[..i] + [list[i]];
        if list[i] in branch.leaves && branch.leaves[list[i]].Contains(to) {
          s := s + {EdgeAt(isInverse, from, list[i], to)};
        }
      }
      assert list[..|list|] == list;
    }

    method IterPresent() returns (s: set<Edge>)
      requires Valid()
      ensures s == edges
    {
      s := {};
      var list := Listed(branches.Keys);
      assert forall v :: v in list <==> v in branches by { assert forall v :: v in list <==> v in Elems(list); }
      for i := 0 to |list|
        invariant s == set e | e in edges && Source(e) in list[..i]
      {
        assert list[..i + 1] == list[..i] + [list[i]];
        var more := IterBranch(list[i]);
        s := s + more;
      }
      assert list[..|list|] == list;
    }

    method IterPresentViaLabels(labels: seq<Label>) returns (s: set<Edge>)
      requires Valid()
      ensures s == set e | e in edges && e.lab in labels
    {
      s := {};
      var list := Listed(branches.Keys);
      assert forall v :: v in list <==> v in branches by { assert forall v :: v in list <==> v in Elems(list); }
      for i := 0 to |list|
        invariant s == set e | e in edges && Source(e) in list[..i] && e.lab in labels
      {
        assert list[..i + 1] == list[..i] + [list[i]];
        var more := IterBranchViaLabels(list[i], labels);
        s := s + more;
      }
      assert list[..|list|] == list;
    }
  }
}
