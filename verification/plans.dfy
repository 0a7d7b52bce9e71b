/** Match plans, as the planner produces them. */
module Plans {
  import opened Base

  datatype Direction = Forward | Backward | Both | BothSymmetric | AnyDirection

  datatype MatchVertex = MatchVertex(
    typeName: Option<TypeName>,
    setRef: Option<RefName>,
    matchRef: Option<RefName>,
    placeholder: Option<VertexID>)  // the value of the placeholder
  {
    function Ref(): Option<RefName> { if setRef.Some? then setRef else matchRef }
  }

  // None stands for any label.
  type Labels = Option<seq<Label>>

  datatype MatchEdge = MatchEdge(direction: Direction, forward: Labels, backward: Labels)

  datatype Step = VertexStep(vertex: MatchVertex) | EdgeStep(edge: MatchEdge)

  // Alternating vertices and edges; starts with a vertex at a core, with an edge at an orbit.
  datatype MatchPath = MatchPath(start: Kind, edges: seq<MatchEdge>, vertices: seq<MatchVertex>) {
    function Length(): nat { |edges| + |vertices| }

    predicate Alternates() {
      if start.CORE? then |vertices| == (Length() + 1) / 2 else |edges| == (Length() + 1) / 2
    }

    function Item(i: nat): Step
      requires Alternates() && i < Length()
    {
      if (i % 2 == 0) == start.CORE? then VertexStep(vertices[i / 2]) else EdgeStep(edges[i / 2])
    }

    function Items(): seq<Step>
      requires Alternates()
    {
      seq(Length(), i requires 0 <= i < Length() => Item(i))
    }
  }

  const MAX_LENGTH := 5

  datatype Plan =
    | PVertex(vertex: MatchVertex)
    | PEdge(edge: MatchEdge)
    | PNoop
    | PPath(path: MatchPath)
    | PPathToVertex(prefix: MatchPath, edge: MatchEdge, vertex: MatchVertex)
    | PConcatenation(operands: seq<Plan>)
    | POr(operands: seq<Plan>)
    | PAndWithoutSetRef(operands: seq<Plan>)
    | PAnd(operands: seq<Plan>)
    | PAllAnd(operands: seq<Plan>)
    | PAllWithoutSetRef(operand: Plan)
    | PAll(operand: Plan)
    | PIfWithoutSetRef(operand: Plan)
    | PIf(operand: Plan)
    | PUnlessWithoutSetNonLocalRef(operand: Plan, shared: set<RefName>)
    | PUnless(operand: Plan, shared: set<RefName>)
    | PSkip(operand: Plan)
    | PMaybe(operand: Plan)
    | PNested(names: set<RefName>, plan: Plan)
    | PRepetition(operand: Plan, min: nat, max: nat)

  ghost predicate ValidLabels(labels: Labels) { labels.Some? ==> labels.value != [] }

  ghost predicate ValidEdge(e: MatchEdge) { ValidLabels(e.forward) && ValidLabels(e.backward) }

  ghost predicate ValidPath(p: MatchPath) {
    p.Alternates() && forall e :: e in p.edges ==> ValidEdge(e)
  }

  predicate IsKnown(v: MatchVertex) { v.placeholder.Some? || v.matchRef.Some? }

  // What the matcher expects of a plan: supported path lengths, listed labels, operands to concatenate.
  ghost predicate Valid(p: Plan) {
    match p
    case PVertex(_) => true
    case PEdge(e) => ValidEdge(e)
    case PNoop => true
    case PPath(path) => ValidPath(path) && 2 <= path.Length() <= MAX_LENGTH
    case PPathToVertex(prefix, e, v) => ValidPath(prefix) && prefix.Length() + 2 <= MAX_LENGTH &&
      (prefix.Length() > 0 ==> prefix.Item(prefix.Length() - 1).VertexStep?) && ValidEdge(e) && IsKnown(v) &&
      (v.placeholder.None? ==> v.setRef.None?)
    case PConcatenation(ops) => ops != [] && forall o :: o in ops ==> Valid(o)
    case POr(ops) => forall o :: o in ops ==> Valid(o)
    case PAndWithoutSetRef(ops) => forall o :: o in ops ==> Valid(o)
    case PAnd(ops) => forall o :: o in ops ==> Valid(o)
    case PAllAnd(ops) => forall o :: o in ops ==> Valid(o)
    case PNested(_, plan) => Valid(plan)
    case _ => Valid(p.operand)
  }
}
