/** What plans mean. */
module Semantics {
  // Sorted and deduplicated lists are represented by sets. All subgraphs of one match share the start position, so it
  // is left out here.

  import opened Base
  import opened RefsAlgebra
  import opened RefsUnions
  import opened Arrangement
  import opened Plans

  datatype Graph = Graph(vertices: set<VertexID>, edges: set<Edge>)

  ghost predicate WellFormed(g: Graph) {
    forall e :: e in g.edges ==> e.from in g.vertices && e.to in g.vertices
  }

  datatype Content = Content(ends: set<Position>, vertices: set<VertexID>, edges: set<Edge>)

  datatype Body = Body(content: Content, refs: Refs)

  // The graph, and whether nested expressions are looked up in the registry or matched in place.
  datatype World = World(graph: Graph, cached: bool)

  // --------------------------------------------------------------------------
  // Vertices and edges
  // --------------------------------------------------------------------------

  datatype Binding = Possible | AlreadySet | Impossible

  ghost function BindingOf(refs: Refs, x: RefName, v: VertexID): Binding {
    if Literal(x, false, v) in refs then AlreadySet
    else if IsSet(refs, x) || Literal(x, true, v) in refs then Impossible
    else Possible
  }

  function CopyAndSet(refs: Refs, x: RefName, v: VertexID): Refs {
    (set l | l in refs && l.name != x) + {Literal(x, false, v)}
  }

  ghost function BindRef(refs: Refs, x: RefName, v: VertexID): Option<Refs> {
    match BindingOf(refs, x, v)
    case Impossible => None
    case Possible => Some(CopyAndSet(refs, x, v))
    case AlreadySet => Some(refs)
  }

  predicate TypeMatches(m: MatchVertex, v: VertexID) { m.typeName.Some? ==> v.typeName == m.typeName.value }

  predicate PlaceholderMatches(m: MatchVertex, v: VertexID) { m.placeholder.Some? ==> v == m.placeholder.value }

  // Refs extended by the match of a vertex, or nothing.
  ghost function VertexMatch(g: Graph, m: MatchVertex, pos: Position, refs: Refs): Option<Refs> {
    if !pos.kind.CORE? || pos.v !in g.vertices || !PlaceholderMatches(m, pos.v) || !TypeMatches(m, pos.v) then None
    else if m.Ref().None? then Some(refs)
    else BindRef(refs, m.Ref().value, pos.v)
  }

  // One edge, or two of them for bidirectional edges, leading to a vertex.
  datatype Hop = Hop(edges: set<Edge>, to: VertexID)

  predicate HasLabel(labels: Labels, l: Label) { labels.None? || l in labels.value }

  function Outgoing(g: Graph, v: VertexID, labels: Labels): set<Edge> {
    set e | e in g.edges && e.from == v && HasLabel(labels, e.lab)
  }

  function Incoming(g: Graph, v: VertexID, labels: Labels): set<Edge> {
    set e | e in g.edges && e.to == v && HasLabel(labels, e.lab)
  }

  ghost function HopsFrom(g: Graph, m: MatchEdge, v: VertexID): set<Hop> {
    var outgoing, incoming := Outgoing(g, v, m.forward), Incoming(g, v, m.backward);
    match m.direction
    case Forward => set e | e in outgoing :: Hop({e}, e.to)
    case Backward => set e | e in incoming :: Hop({e}, e.from)
    case AnyDirection => (set e | e in outgoing :: Hop({e}, e.to)) + (set e | e in incoming :: Hop({e}, e.from))
    case Both => set e, f | e in outgoing && f in incoming && f.from == e.to :: Hop({e, f}, e.to)
    case BothSymmetric => set e | e in outgoing && e.Reverse() in incoming :: Hop({e, e.Reverse()}, e.to)
  }

  ghost function Hops(g: Graph, m: MatchEdge, pos: Position): set<Hop> {
    if pos.kind.ORBIT? then HopsFrom(g, m, pos.v) else {}
  }

  // --------------------------------------------------------------------------
  // Combining subgraphs
  // --------------------------------------------------------------------------

  function EmptyAt(pos: Position, refs: Refs): Body { Body(Content({pos}, {}, {}), refs) }

  function JoinContents(c: Content, d: Content): Content {
    Content(d.ends, c.vertices + d.vertices, c.edges + d.edges)
  }

  function Join(h: Body, t: Body): Body { Body(JoinContents(h.content, t.content), t.refs) }

  ghost function Merged(cs: set<Content>): Content {
    Content(set c, p | c in cs && p in c.ends :: p,
            set c, v | c in cs && v in c.vertices :: v,
            set c, e | c in cs && e in c.edges :: e)
  }

  ghost function Union(ss: seq<set<Body>>): set<Body> { set i, b | 0 <= i < |ss| && b in ss[i] :: b }

  ghost function RefsOf(s: set<Body>): set<Refs> { set b | b in s :: b.refs }

  ghost function ContentsIn(s: set<Body>, m: set<Refs>): set<Content> { set b | b in s && b.refs in m :: b.content }

  ghost predicate HasMember(s: set<Body>, m: set<Refs>) { exists b :: b in s && b.refs in m }

  // Every operand has a subgraph with refs among the members.
  ghost predicate CoversAll(ss: seq<set<Body>>, m: set<Refs>) { forall i :: 0 <= i < |ss| ==> HasMember(ss[i], m) }

  // The sets of refs that cover some part of the refspace in which all operands match.
  ghost predicate JoinCell(ss: seq<set<Body>>, m: set<Refs>) {
    m <= RefsOf(Union(ss)) && m != {} && CoversAll(ss, m)
  }

  // Copies of the members' subgraphs to each term of their cell.
  ghost function InCell(s: set<Body>, m: set<Refs>): set<Body> {
    set t, b | t in CellTerms(m, RefsOf(s)) && b in s && b.refs in m :: Body(b.content, t)
  }

  ghost function MergedCell(s: set<Body>, m: set<Refs>): set<Body> {
    set t | t in CellTerms(m, RefsOf(s)) :: Body(Merged(ContentsIn(s, m)), t)
  }

  ghost function AndOf(ss: seq<set<Body>>): set<Body> {
    set m: set<Refs>, x | m <= RefsOf(Union(ss)) && JoinCell(ss, m) && x in InCell(Union(ss), m) :: x
  }

  ghost function AllOf(ss: seq<set<Body>>): set<Body> {
    set m: set<Refs>, x | m <= RefsOf(Union(ss)) && JoinCell(ss, m) && x in MergedCell(Union(ss), m) :: x
  }

  function Restrict(refs: Refs, names: set<RefName>): Refs { set l | l in refs && l.name in names }

  // The start region except the regions where the operand matches, projected to shared refs.
  ghost function UnlessRegion(refs: Refs, s: set<Body>, shared: set<RefName>): Region {
    Region({refs}, set b | b in s :: Restrict(b.refs, shared))
  }

  // --------------------------------------------------------------------------
  // Meaning of plans
  // --------------------------------------------------------------------------

  ghost function SemSteps(g: Graph, steps: seq<Step>, pos: Position, refs: Refs): set<Body>
    decreases |steps|
  {
    if steps == [] then {EmptyAt(pos, refs)}
    else match steps[0]
      case VertexStep(m) =>
        var matched := VertexMatch(g, m, pos, refs);
        if matched.None? then {}
        else
          var h := Body(Content({}, {pos.v}, {}), refs);
          set t | t in SemSteps(g, steps[1..], pos.WithKind(ORBIT), matched.value) :: Join(h, t)
      case EdgeStep(m) =>
        set hop, t | hop in Hops(g, m, pos) && t in SemSteps(g, steps[1..], Position(hop.to, CORE), refs) ::
          Join(Body(Content({}, {}, hop.edges), refs), t)
  }

  ghost function Sem(w: World, p: Plan, pos: Position, refs: Refs): set<Body>
    decreases p, 0, 0
  {
    match p
    case PVertex(m) => SemSteps(w.graph, [VertexStep(m)], pos, refs)
    case PEdge(m) => SemSteps(w.graph, [EdgeStep(m)], pos, refs)
    case PNoop => {EmptyAt(pos, refs)}
    case PPath(path) => if path.Alternates() then SemSteps(w.graph, path.Items(), pos, refs) else {}
    case PPathToVertex(prefix, e, v) =>
      if prefix.Alternates() then SemSteps(w.graph, prefix.Items() + [EdgeStep(e), VertexStep(v)], pos, refs) else {}
    case PConcatenation(ops) => SemConcat(w, ops, pos, refs)
    case POr(ops) => Union(SemEach(w, ops, pos, refs))
    case PAndWithoutSetRef(ops) =>
      var ss := SemEach(w, ops, pos, refs);
      if {} in ss then {} else Union(ss)
    case PAnd(ops) => AndOf(SemEach(w, ops, pos, refs))
    case PAllAnd(ops) => AllOf(SemEach(w, ops, pos, refs))
    case PAllWithoutSetRef(op) =>
      var s := Sem(w, op, pos, refs);
      if s == {} then {} else {Body(Merged(set b | b in s :: b.content), refs)}
    case PAll(op) => AllOf([Sem(w, op, pos, refs)])
    case PIfWithoutSetRef(op) => if Sem(w, op, pos, refs) == {} then {} else {EmptyAt(pos, refs)}
    case PIf(op) => set b | b in Sem(w, op, pos, refs) :: EmptyAt(pos, b.refs)
    case PUnlessWithoutSetNonLocalRef(op, _) => if Sem(w, op, pos, refs) == {} then {EmptyAt(pos, refs)} else {}
    case PUnless(op, shared) =>
      set t | t in Terms(UnlessRegion(refs, Sem(w, op, pos, refs), shared)) :: EmptyAt(pos, t)
    case PSkip(op) => set b | b in Sem(w, op, pos, refs) :: Body(Content(b.content.ends, {}, {}), b.refs)
    case PMaybe(op) =>
      var s := Sem(w, op, pos, refs);
      if s == {} then {EmptyAt(pos, refs)} else s
    case PNested(names, plan) =>
      if w.cached then FromCache(refs, Sem(w, plan, pos, Restrict(refs, names))) else Sem(w, plan, pos, refs)
    case PRepetition(op, min, max) => SemRepeat(w, op, min, max, 0, EmptyAt(pos, refs))
  }

  // Subgraphs matched with some of the refs only, within the region of all the refs.
  ghost function FromCache(refs: Refs, s: set<Body>): set<Body> {
    set b | b in s && Meet(refs, b.refs).Some? :: Body(b.content, Meet(refs, b.refs).value)
  }

  ghost function SemEach(w: World, ops: seq<Plan>, pos: Position, refs: Refs): (ss: seq<set<Body>>)
    ensures |ss| == |ops|
    decreases ops, 0, 0
  {
    if ops == [] then [] else [Sem(w, ops[0], pos, refs)] + SemEach(w, ops[1..], pos, refs)
  }

  ghost function SemConcat(w: World, ops: seq<Plan>, pos: Position, refs: Refs): set<Body>
    decreases ops, 0, 0
  {
    if ops == [] then {EmptyAt(pos, refs)}
    else if |ops| == 1 then Sem(w, ops[0], pos, refs)
    else
      set h, q, t |
        h in Sem(w, ops[0], pos, refs) && q in h.content.ends && t in SemConcat(w, ops[1..], q, h.refs) ::
        Join(h, t)
  }

  // Maximal chains of operand matches that begin with the given chain of k matches.
  ghost function SemRepeat(w: World, op: Plan, min: nat, max: nat, k: nat, chain: Body): set<Body>
    decreases op, 1, max - k, 1
  {
    if Continued(w, op, max, k, chain) == {} then (if k >= min then {chain} else {})
    else set c, d | c in Continued(w, op, max, k, chain) && d in SemRepeatAfter(w, op, min, max, k, c) :: d
  }

  ghost function SemRepeatAfter(w: World, op: Plan, min: nat, max: nat, k: nat, chain: Body): set<Body>
    requires k < max
    decreases op, 1, max - k, 0
  {
    SemRepeat(w, op, min, max, k + 1, chain)
  }

  ghost function Continued(w: World, op: Plan, max: nat, k: nat, chain: Body): set<Body>
    decreases op, 0, 1
  {
    if k >= max then {}
    else set q, t | q in chain.content.ends && t in Sem(w, op, q, chain.refs) :: Join(chain, t)
  }

  lemma SemEachAt(w: World, ops: seq<Plan>, pos: Position, refs: Refs, i: nat)
    requires i < |ops|
    ensures SemEach(w, ops, pos, refs)[i] == Sem(w, ops[i], pos, refs)
  {
    if i > 0 { SemEachAt(w, ops[1..], pos, refs, i - 1); }
  }
}
