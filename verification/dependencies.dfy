/** What matches depend on, and graphs that look the same through it. */
module Dependencies {
  import opened Base
  import opened RefsAlgebra
  import opened Plans
  import opened Semantics
  import opened RefTracking

  // A nested expression to be matched from a position with the refs it mentions. The expression
  // stands for its id in the registry.
  datatype NestedStart = NestedStart(names: RefNames, plan: Plan, pos: Position, refs: Refs)

  datatype Observable =
    | NewVertex
    | NewVertexOfType(typeName: TypeName)
    | ParticularVertex(v: VertexID)
    | NewEdge
    | NewEdgeWithLabel(lab: Label)
    | EdgeFrom(v: VertexID)
    | EdgeFromWithLabel(v: VertexID, lab: Label)
    | EdgeTo(v: VertexID)
    | EdgeToWithLabel(v: VertexID, lab: Label)
    | ParticularEdge(edge: Edge)
    | NestedSubgraph(start: NestedStart)

  ghost function NestedSem(g: Graph, n: NestedStart): set<Body> {
    Sem(World(g, true), n.plan, n.pos, n.refs)
  }

  ghost predicate SameEdge(g: Graph, h: Graph, e: Edge) { e in g.edges <==> e in h.edges }

  // Nothing to observe happened between the graphs.
  ghost predicate Same(g: Graph, h: Graph, o: Observable) {
    match o
    case NewVertex => h.vertices <= g.vertices
    case NewVertexOfType(t) => forall v :: v in h.vertices && v.typeName == t ==> v in g.vertices
    case ParticularVertex(v) => v in g.vertices <==> v in h.vertices
    case NewEdge => h.edges <= g.edges
    case NewEdgeWithLabel(l) => forall e :: e in h.edges && e.lab == l ==> e in g.edges
    case EdgeFrom(v) => forall e: Edge :: e.from == v ==> SameEdge(g, h, e)
    case EdgeFromWithLabel(v, l) => forall e: Edge :: e.from == v && e.lab == l ==> SameEdge(g, h, e)
    case EdgeTo(v) => forall e: Edge :: e.to == v ==> SameEdge(g, h, e)
    case EdgeToWithLabel(v, l) => forall e: Edge :: e.to == v && e.lab == l ==> SameEdge(g, h, e)
    case ParticularEdge(e) => SameEdge(g, h, e)
    case NestedSubgraph(n) => NestedSem(g, n) == NestedSem(h, n)
  }

  ghost predicate Agrees(g: Graph, h: Graph, deps: set<Observable>) {
    forall o :: o in deps ==> Same(g, h, o)
  }

  lemma AgreesTransitive(g: Graph, h: Graph, k: Graph, deps: set<Observable>)
    requires Agrees(g, h, deps) && Agrees(h, k, deps)
    ensures Agrees(g, k, deps)
  {
    forall o | o in deps ensures Same(g, k, o) {
      assert Same(g, h, o) && Same(h, k, o);
    }
  }

  // --------------------------------------------------------------------------
  // Where plans look at the graph from
  // --------------------------------------------------------------------------

  // The plan may match ending at its start vertex, without following an edge.
  ghost predicate Stays(p: Plan)
    decreases p
  {
    match p
    case PEdge(_) => false
    case PPath(path) => path.edges == []
    case PPathToVertex(_, _, _) => false
    case PConcatenation(ops) => forall o :: o in ops ==> Stays(o)
    case POr(ops) => exists o :: o in ops && Stays(o)
    case PAndWithoutSetRef(ops) => exists o :: o in ops && Stays(o)
    case PAnd(ops) => exists o :: o in ops && Stays(o)
    case PAllAnd(ops) => exists o :: o in ops && Stays(o)
    case PAllWithoutSetRef(op) => Stays(op)
    case PAll(op) => Stays(op)
    case PSkip(op) => Stays(op)
    case PNested(_, plan) => Stays(plan)
    case PRepetition(op, min, _) => min == 0 || Stays(op)
    case _ => true
  }

  // The plan may test its start vertex itself, and not just the edges of it.
  ghost predicate Peeks(p: Plan)
    decreases p, 0
  {
    match p
    case PVertex(_) => true
    case PEdge(_) => false
    case PNoop => false
    case PPath(path) => path.start.CORE?
    case PPathToVertex(prefix, _, _) => prefix.Length() > 0 && prefix.start.CORE?
    case PConcatenation(ops) => PeeksConcat(ops)
    case POr(ops) => exists o :: o in ops && Peeks(o)
    case PAndWithoutSetRef(ops) => exists o :: o in ops && Peeks(o)
    case PAnd(ops) => exists o :: o in ops && Peeks(o)
    case PAllAnd(ops) => exists o :: o in ops && Peeks(o)
    case PNested(_, plan) => Peeks(plan)
    case _ => Peeks(p.operand)
  }

  ghost predicate PeeksConcat(ops: seq<Plan>)
    decreases ops, 0
  {
    ops != [] && (Peeks(ops[0]) || (Stays(ops[0]) && PeeksConcat(ops[1..])))
  }

  // Matching the plan from the position only looks at vertices that are there.
  ghost predicate Here(p: Plan, pos: Position, g: Graph) {
    pos.kind.ORBIT? || !Peeks(p) || pos.v in g.vertices
  }

  // An end of a match: it's in the graph, unless it's at the start vertex, which may be absent.
  ghost predicate EndOk(g: Graph, pos: Position, stays: bool, q: Position) {
    q.v in g.vertices || (stays && q.v == pos.v && (pos.kind.ORBIT? ==> q.kind.ORBIT?))
  }

  ghost predicate EndsOk(g: Graph, pos: Position, stays: bool, c: Content) {
    forall q :: q in c.ends ==> EndOk(g, pos, stays, q)
  }

  ghost predicate AllEndsOk(g: Graph, pos: Position, stays: bool, s: set<Body>) {
    forall b :: b in s ==> EndsOk(g, pos, stays, b.content)
  }

  lemma HopsStayInside(g: Graph, m: MatchEdge, pos: Position)
    requires WellFormed(g)
    ensures forall hop :: hop in Hops(g, m, pos) ==> hop.to in g.vertices
  {}

  ghost predicate HasEdgeStep(steps: seq<Step>) { exists s :: s in steps && s.EdgeStep? }

  lemma {:induction false} StepsEndOk(g: Graph, steps: seq<Step>, pos: Position, refs: Refs)
    requires WellFormed(g)
    ensures AllEndsOk(g, pos, !HasEdgeStep(steps), SemSteps(g, steps, pos, refs))
    decreases |steps|
  {
    if steps != [] {
      assert forall s :: s in steps[1..] ==> s in steps;
      assert steps[0] in steps;
      match steps[0]
      case VertexStep(m) =>
        var matched := VertexMatch(g, m, pos, refs);
        if matched.Some? {
          StepsEndOk(g, steps[1..], pos.WithKind(ORBIT), matched.value);
        }
      case EdgeStep(m) =>
        HopsStayInside(g, m, pos);
        forall hop | hop in Hops(g, m, pos)
          ensures AllEndsOk(g, pos, false, SemSteps(g, steps[1..], Position(hop.to, CORE), refs))
        {
          StepsEndOk(g, steps[1..], Position(hop.to, CORE), refs);
        }
    }
  }

  lemma MergedEndsOk(g: Graph, pos: Position, stays: bool, s: set<Body>, cs: set<Content>)
    requires AllEndsOk(g, pos, stays, s) && cs <= set b | b in s :: b.content
    ensures EndsOk(g, pos, stays, Merged(cs))
  {}

  lemma OperandsEndOk(g: Graph, pos: Position, stays: bool, ss: seq<set<Body>>)
    requires forall i :: 0 <= i < |ss| ==> AllEndsOk(g, pos, stays, ss[i])
    ensures AllEndsOk(g, pos, stays, Union(ss))
    ensures AllEndsOk(g, pos, stays, AndOf(ss))
    ensures AllEndsOk(g, pos, stays, AllOf(ss))
  {
    forall m: set<Refs> ensures EndsOk(g, pos, stays, Merged(ContentsIn(Union(ss), m))) {
      MergedEndsOk(g, pos, stays, Union(ss), ContentsIn(Union(ss), m));
    }
  }

  lemma {:induction false} EachEndsOk(w: World, ops: seq<Plan>, pos: Position, refs: Refs, stays: bool)
    requires WellFormed(w.graph) && forall o :: o in ops ==> (Stays(o) ==> stays)
    ensures AllEndsOk(w.graph, pos, stays, Union(SemEach(w, ops, pos, refs)))
    ensures AllEndsOk(w.graph, pos, stays, AndOf(SemEach(w, ops, pos, refs)))
    ensures AllEndsOk(w.graph, pos, stays, AllOf(SemEach(w, ops, pos, refs)))
    decreases ops, 0, 0
  {
    var ss := SemEach(w, ops, pos, refs);
    forall i | 0 <= i < |ops| ensures AllEndsOk(w.graph, pos, stays, ss[i]) {
      SemEachAt(w, ops, pos, refs, i);
      assert ops[i] in ops;
      EndsAreHere(w, ops[i], pos, refs);
    }
    OperandsEndOk(w.graph, pos, stays, ss);
  }

  // Matches end at vertices of the graph, or where they started.
  lemma {:induction false} EndsAreHere(w: World, p: Plan, pos: Position, refs: Refs)
    requires WellFormed(w.graph)
    ensures AllEndsOk(w.graph, pos, Stays(p), Sem(w, p, pos, refs))
    decreases p, 0, 0
  {
    hide WellFormed, SemSteps, AndOf, Merged, Meet;
    match p
    case PVertex(m) => StepsEndOk(w.graph, [VertexStep(m)], pos, refs);
    case PEdge(m) =>
      StepsEndOk(w.graph, [EdgeStep(m)], pos, refs);
      assert EdgeStep(m) in [EdgeStep(m)];
    case PPath(path) =>
      if path.Alternates() {
        StepsEndOk(w.graph, path.Items(), pos, refs);
        PathHasEdge(path);
      }
    case PPathToVertex(prefix, e, v) =>
      if prefix.Alternates() {
        var steps := prefix.Items() + [EdgeStep(e), VertexStep(v)];
        assert steps[|prefix.Items()|] == EdgeStep(e);
        StepsEndOk(w.graph, steps, pos, refs);
      }
    case PConcatenation(ops) => ConcatEndsOk(w, ops, pos, refs);
    case POr(ops) => EachEndsOk(w, ops, pos, refs, Stays(p));
    case PAndWithoutSetRef(ops) => EachEndsOk(w, ops, pos, refs, Stays(p));
    case PAnd(ops) => EachEndsOk(w, ops, pos, refs, Stays(p));
    case PAllAnd(ops) => EachEndsOk(w, ops, pos, refs, Stays(p));
    case PAllWithoutSetRef(op) =>
      EndsAreHere(w, op, pos, refs);
      var s := Sem(w, op, pos, refs);
      MergedEndsOk(w.graph, pos, Stays(op), s, set b | b in s :: b.content);
    case PAll(op) =>
      EndsAreHere(w, op, pos, refs);
      OperandsEndOk(w.graph, pos, Stays(op), [Sem(w, op, pos, refs)]);
    case PSkip(op) => EndsAreHere(w, op, pos, refs);
    case PMaybe(op) => EndsAreHere(w, op, pos, refs);
    case PNested(names, plan) =>
      EndsAreHere(w, plan, pos, Restrict(refs, names));
      EndsAreHere(w, plan, pos, refs);
    case PRepetition(op, min, max) => RepeatEndsOk(w, op, min, max, 0, EmptyAt(pos, refs), pos);
    case _ =>
  }

  lemma PathHasEdge(path: MatchPath)
    requires path.Alternates()
    ensures path.edges != [] ==> HasEdgeStep(path.Items())
  {
    if path.edges != [] {
      assert path.Item(if path.start.CORE? then 1 else 0).EdgeStep?;
      assert path.Items()[if path.start.CORE? then 1 else 0].EdgeStep?;
    }
  }

  lemma EndOkThrough(g: Graph, pos: Position, s1: bool, q: Position, s2: bool, r: Position)
    requires EndOk(g, pos, s1, q) && EndOk(g, q, s2, r)
    ensures EndOk(g, pos, s1 && s2, r)
  {}

  lemma {:induction false} ConcatEndsOk(w: World, ops: seq<Plan>, pos: Position, refs: Refs)
    requires WellFormed(w.graph)
    ensures AllEndsOk(w.graph, pos, forall o :: o in ops ==> Stays(o), SemConcat(w, ops, pos, refs))
    decreases ops, 0, 0
  {
    if ops != [] {
      var stays := forall o :: o in ops ==> Stays(o);
      var staysAfter := forall o :: o in ops[1..] ==> Stays(o);
      assert stays <==> (Stays(ops[0]) && staysAfter) by { assert ops == [ops[0]] + ops[1..]; }
      EndsAreHere(w, ops[0], pos, refs);
      if |ops| > 1 {
        forall h, q, t | h in Sem(w, ops[0], pos, refs) && q in h.content.ends && t in SemConcat(w, ops[1..], q, h.refs)
          ensures EndsOk(w.graph, pos, stays, Join(h, t).content)
        {
          ConcatEndsOk(w, ops[1..], q, h.refs);
          forall r | r in t.content.ends ensures EndOk(w.graph, pos, stays, r) {
            EndOkThrough(w.graph, pos, Stays(ops[0]), q, staysAfter, r);
          }
        }
      }
    }
  }

  lemma {:induction false} RepeatEndsOk(w: World, op: Plan, min: nat, max: nat, k: nat, chain: Body, pos: Position)
    requires WellFormed(w.graph) && EndsOk(w.graph, pos, k == 0 || Stays(op), chain.content)
    ensures AllEndsOk(w.graph, pos, min == 0 || Stays(op), SemRepeat(w, op, min, max, k, chain))
    decreases op, 1, max - k
  {
    hide WellFormed, Stays, Sem, EndOk;
    forall c | c in Continued(w, op, max, k, chain)
      ensures AllEndsOk(w.graph, pos, min == 0 || Stays(op), SemRepeatAfter(w, op, min, max, k, c))
    {
      ContinuedEnds(w, op, max, k, pos, chain, c);
      RepeatEndsOk(w, op, min, max, k + 1, c, pos);
    }
    if k >= min { EndsOkWeaken(w.graph, pos, k == 0 || Stays(op), min == 0 || Stays(op), chain.content); }
  }

  lemma EndsOkWeaken(g: Graph, pos: Position, s: bool, t: bool, c: Content)
    requires EndsOk(g, pos, s, c) && (s ==> t)
    ensures EndsOk(g, pos, t, c)
  {}

  lemma {:induction false} ContinuedEnds(w: World, op: Plan, max: nat, k: nat, pos: Position, c: Body, d: Body)
    requires WellFormed(w.graph) && EndsOk(w.graph, pos, k == 0 || Stays(op), c.content) &&
        d in Continued(w, op, max, k, c)
    ensures EndsOk(w.graph, pos, Stays(op), d.content)
    decreases op, 1, max - k, 0
  {
    hide Sem, WellFormed;
    var q, t :| q in c.content.ends && t in Sem(w, op, q, c.refs) && d == Join(c, t);
    EndsAreHere(w, op, q, c.refs);
    forall r | r in t.content.ends ensures EndOk(w.graph, pos, Stays(op), r) {
      EndOkThrough(w.graph, pos, k == 0 || Stays(op), q, Stays(op), r);
    }
  }

  // --------------------------------------------------------------------------
  // Nested expressions of a plan
  // --------------------------------------------------------------------------

  // How many nested expressions the plan consists of, one in another.
  function Height(p: Plan): nat
    decreases p, 0
  {
    match p
    case PVertex(_) => 0
    case PEdge(_) => 0
    case PNoop => 0
    case PPath(_) => 0
    case PPathToVertex(_, _, _) => 0
    case PConcatenation(ops) => MaxHeight(ops)
    case POr(ops) => MaxHeight(ops)
    case PAndWithoutSetRef(ops) => MaxHeight(ops)
    case PAnd(ops) => MaxHeight(ops)
    case PAllAnd(ops) => MaxHeight(ops)
    case PNested(_, plan) => 1 + Height(plan)
    case _ => Height(p.operand)
  }

  function MaxHeight(ops: seq<Plan>): (n: nat)
    ensures forall o :: o in ops ==> Height(o) <= n
    decreases ops, 0
  {
    if ops == [] then 0
    else
      var rest := MaxHeight(ops[1..]);
      assert ops == [ops[0]] + ops[1..];
      if Height(ops[0]) > rest then Height(ops[0]) else rest
  }

  // Lookaheads that stop at the first match set no refs.
  ghost predicate Supported(p: Plan, bound: RefNames)
    decreases p, 0
  {
    match p
    case PVertex(_) => true
    case PEdge(_) => true
    case PNoop => true
    case PPath(_) => true
    case PPathToVertex(_, _, _) => true
    case PConcatenation(ops) => SupportedConcat(ops, bound)
    case POr(ops) => forall o :: o in ops ==> Supported(o, bound)
    case PAndWithoutSetRef(ops) => forall o :: o in ops ==> Supported(o, bound)
    case PAnd(ops) => forall o :: o in ops ==> Supported(o, bound)
    case PAllAnd(ops) => forall o :: o in ops ==> Supported(o, bound)
    case PIfWithoutSetRef(op) => Supported(op, bound) && Changed(op, bound) == {}
    case PNested(names, plan) => Supported(plan, bound * names)
    case _ => Supported(p.operand, bound)
  }

  ghost predicate SupportedConcat(ops: seq<Plan>, bound: RefNames)
    decreases ops, 0
  {
    ops != [] ==> Supported(ops[0], bound) && SupportedConcat(ops[1..], Bound(ops[0], bound))
  }

  lemma {:induction false} SupportedIsMonotone(p: Plan, a: RefNames, b: RefNames)
    requires a <= b && Supported(p, a)
    ensures Supported(p, b)
    decreases p, 0
  {
    TrackingIsMonotone(p, a, b);
    match p
    case PVertex(_) =>
    case PEdge(_) =>
    case PNoop =>
    case PPath(_) =>
    case PPathToVertex(_, _, _) =>
    case PConcatenation(ops) => SupportedConcatIsMonotone(ops, a, b);
    case POr(ops) => forall o | o in ops ensures Supported(o, b) { SupportedIsMonotone(o, a, b); }
    case PAndWithoutSetRef(ops) => forall o | o in ops ensures Supported(o, b) { SupportedIsMonotone(o, a, b); }
    case PAnd(ops) => forall o | o in ops ensures Supported(o, b) { SupportedIsMonotone(o, a, b); }
    case PAllAnd(ops) => forall o | o in ops ensures Supported(o, b) { SupportedIsMonotone(o, a, b); }
    case PIfWithoutSetRef(op) =>
      SupportedIsMonotone(op, a, b);
      TrackingIsMonotone(op, a, b);
    case PNested(names, plan) => SupportedIsMonotone(plan, a * names, b * names);
    case _ => SupportedIsMonotone(p.operand, a, b);
  }

  lemma {:induction false} SupportedConcatIsMonotone(ops: seq<Plan>, a: RefNames, b: RefNames)
    requires a <= b && SupportedConcat(ops, a)
    ensures SupportedConcat(ops, b)
    decreases ops, 0
  {
    if ops != [] {
      SupportedIsMonotone(ops[0], a, b);
      TrackingIsMonotone(ops[0], a, b);
      SupportedConcatIsMonotone(ops[1..], Bound(ops[0], a), Bound(ops[0], b));
    }
  }

  // Nested expressions of the plan don't test the vertex they start from.
  ghost predicate NestsEdgeFirst(p: Plan)
    decreases p
  {
    match p
    case PVertex(_) => true
    case PEdge(_) => true
    case PNoop => true
    case PPath(_) => true
    case PPathToVertex(_, _, _) => true
    case PConcatenation(ops) => forall o :: o in ops ==> NestsEdgeFirst(o)
    case POr(ops) => forall o :: o in ops ==> NestsEdgeFirst(o)
    case PAndWithoutSetRef(ops) => forall o :: o in ops ==> NestsEdgeFirst(o)
    case PAnd(ops) => forall o :: o in ops ==> NestsEdgeFirst(o)
    case PAllAnd(ops) => forall o :: o in ops ==> NestsEdgeFirst(o)
    case PNested(_, plan) => !Peeks(plan) && NestsEdgeFirst(plan)
    case _ => NestsEdgeFirst(p.operand)
  }
}
