/** The planner, which tracks bound and changed refs, and chooses operators. */
module Planner {
  import opened Base
  import opened Plans
  import opened RefTracking
  import opened Dependencies
  import opened Unfolding
  import opened TransparentCaching
  import opened PlanningPaths
  import opened Planning
  import opened Expressions

  // --------------------------------------------------------------------------
  // Paths
  // --------------------------------------------------------------------------

  ghost predicate StepFits(s: Step) {
    match s
    case VertexStep(m) => m.matchRef.Some? ==> m.setRef.None?
    case EdgeStep(e) => ValidEdge(e)
  }

  ghost predicate StepsOk(items: seq<Step>) { forall s :: s in items ==> StepFits(s) }

  ghost predicate Alternating(items: seq<Step>) {
    forall i :: 0 <= i < |items| - 1 ==> items[i].VertexStep? != items[i + 1].VertexStep?
  }

  // The items are matched by the plans, and the matcher can match these.
  ghost predicate GroupedPaths(ps: seq<Plan>, items: seq<Step>) {
    AreSteps(ps, items) && (ps == [] <==> items == []) &&
    forall p :: p in ps ==> StepsOf(p).Some? && Plans.Valid(p) && NamesCover(p)
  }

  lemma {:induction false} AreStepsAppend(ps: seq<Plan>, items: seq<Step>, qs: seq<Plan>, more: seq<Step>)
    requires AreSteps(ps, items) && AreSteps(qs, more)
    ensures AreSteps(ps + qs, items + more)
    decreases |ps|
  {
    hide StepsOf;
    if ps == [] {
      assert ps + qs == qs && items + more == more;
    } else {
      var n := |StepsOf(ps[0]).value|;
      assert (ps + qs)[1..] == ps[1..] + qs && (ps + qs)[0] == ps[0];
      assert (items + more)[..n] == items[..n] && (items + more)[n..] == items[n..] + more;
      AreStepsAppend(ps[1..], items[n..], qs, more);
    }
  }

  lemma GroupedAppend(ps: seq<Plan>, items: seq<Step>, qs: seq<Plan>, more: seq<Step>)
    requires GroupedPaths(ps, items) && GroupedPaths(qs, more)
    ensures GroupedPaths(ps + qs, items + more)
  {
    hide Plans.Valid, NamesCover, StepsOf, AreSteps;
    AreStepsAppend(ps, items, qs, more);
  }

  lemma OneGroup(p: Plan, items: seq<Step>)
    requires StepsOf(p) == Some(items) && items != [] && Plans.Valid(p) && NamesCover(p)
    ensures GroupedPaths([p], items)
  {
    hide Plans.Valid, NamesCover;
    assert [p][0] == p && [p][1..] == [] && items[..|items|] == items && items[|items|..] == [];
    assert AreSteps([p][1..], items[|items|..]);
  }

  lemma {:induction false} AlternatingKinds(items: seq<Step>, i: nat)
    requires Alternating(items) && i < |items|
    ensures items[i].VertexStep? <==> (i % 2 == 0) == items[0].VertexStep?
  {
    if i > 0 { AlternatingKinds(items, i - 1); }
  }

  method MakePath(items: seq<Step>) returns (path: MatchPath)
    requires items != [] && Alternating(items) && StepsOk(items)
    ensures path.Alternates() && path.Items() == items && ValidPath(path)
  {
    var edges: seq<MatchEdge>, vertices: seq<MatchVertex> := [], [];
    ghost var core := items[0].VertexStep?;
    for i := 0 to |items|
      invariant |vertices| == (if core then (i + 1) / 2 else i / 2) && |edges| == (if core then i / 2 else (i + 1) / 2)
      invariant forall k :: 0 <= k < i ==>
        if (k % 2 == 0) == core then items[k] == VertexStep(vertices[k / 2]) else items[k] == EdgeStep(edges[k / 2])
      invariant forall e :: e in edges ==> ValidEdge(e)
    {
      AlternatingKinds(items, i);
      assert StepFits(items[i]);
      match items[i]
      case VertexStep(m) => vertices := vertices + [m];
      case EdgeStep(e) => edges := edges + [e];
    }
    path := MatchPath(if items[0].VertexStep? then CORE else ORBIT, edges, vertices);
    forall k | 0 <= k < |items| ensures path.Item(k) == items[k] {}
  }

  method AddPath(items: seq<Step>, plans: seq<Plan>) returns (result: seq<Plan>)
    requires Alternating(items) && StepsOk(items) && |items| <= MAX_LENGTH
    ensures plans <= result && GroupedPaths(result[|plans|..], items)
  {
    if items == [] {
      NothingToGroup();
      return plans;
    }
    var p: Plan;
    if |items| == 1 {
      assert StepFits(items[0]) && items == [items[0]];
      p := SinglePlan(items[0]);
    } else {
      var path := MakePath(items);
      assert |path.Items()| == path.Length();
      p := PPath(path);
    }
    OneGroup(p, items);
    result := plans + [p];
    assert result[|plans|..] == [p];
  }

  lemma GroupedOn(plans: seq<Plan>, was: seq<Plan>, result: seq<Plan>, items: seq<Step>, a: nat, b: nat)
    requires plans <= was && was <= result && a <= b <= |items|
    requires GroupedPaths(was[|plans|..], items[..a]) && GroupedPaths(result[|was|..], items[a..b])
    ensures GroupedPaths(result[|plans|..], items[..b])
  {
    hide GroupedPaths;
    GroupedAppend(was[|plans|..], items[..a], result[|was|..], items[a..b]);
    assert items[..a] + items[a..b] == items[..b] && result[|plans|..] == was[|plans|..] + result[|was|..];
  }

  lemma AlternatingGrows(path: seq<Step>, item: Step)
    requires Alternating(path) && (path != [] ==> path[|path| - 1].VertexStep? != item.VertexStep?)
    ensures Alternating(path + [item])
  {
    var next := path + [item];
    forall k | 0 <= k < |next| - 1 ensures next[k].VertexStep? != next[k + 1].VertexStep? {
      if k < |path| - 1 { assert path[k] == next[k] && path[k + 1] == next[k + 1]; }
    }
  }

  // Adds the item to the path, or begins a new one with it.
  method AddItem(path: seq<Step>, item: Step, plans: seq<Plan>) returns (next: seq<Step>, result: seq<Plan>)
    requires Alternating(path) && StepsOk(path) && |path| <= MAX_LENGTH
    ensures Alternating(next) && |next| <= MAX_LENGTH && plans <= result
    ensures (next == path + [item] && result == plans) || (next == [item] && GroupedPaths(result[|plans|..], path))
  {
    hide GroupedPaths, StepsOk;
    next, result := path, plans;
    if path != [] && (path[|path| - 1].VertexStep? == item.VertexStep? || |path| == MAX_LENGTH) {
      // Here the items stop alternating, or the path is full: it ends before the item.
      result := AddPath(path, plans);
      next := [];
    }
    AlternatingGrows(next, item);
    next := next + [item];
    assert [] + [item] == [item];
  }

  // The plan of a path whose last edge is matched between two vertices.
  method AddPathToVertex(path: seq<Step>, edge: MatchEdge, vertex: MatchVertex, plans: seq<Plan>)
      returns (result: seq<Plan>)
    requires Alternating(path) && StepsOk(path) && |path| <= MAX_LENGTH
    requires StepFits(EdgeStep(edge)) && StepFits(VertexStep(vertex)) && IsKnown(vertex)
    ensures plans <= result && GroupedPaths(result[|plans|..], path + [EdgeStep(edge), VertexStep(vertex)])
  {
    hide GroupedPaths, Plans.Valid, NamesCover, StepsOf;
    result := plans;
    var prefix := MatchPath(ORBIT, [], []);
    ghost var rest := path;
    if path != [] && path[|path| - 1].VertexStep? && |path| + 2 <= MAX_LENGTH {
      prefix := MakePath(path);
    } else {
      result := AddPath(path, result);
      rest := [];
    }
    assert prefix.Items() == rest;
    ghost var added := result[|plans|..];
    var p := PPathToVertex(prefix, edge, vertex);
    ToVertexIsOk(p, rest);
    result := result + [p];
    assert result[|plans|..] == added + [p];
    OneGroup(p, rest + [EdgeStep(edge), VertexStep(vertex)]);
    if rest == [] {
      assert rest + [EdgeStep(edge), VertexStep(vertex)] == [EdgeStep(edge), VertexStep(vertex)];
      GroupedAppend(added, path, [p], [EdgeStep(edge), VertexStep(vertex)]);
    } else {
      assert added + [p] == [p];
    }
  }

  // The first items are grouped, except the last of them, which are the path.
  ghost predicate Progress(plans: seq<Plan>, result: seq<Plan>, items: seq<Step>, i: nat, path: seq<Step>) {
    |path| <= i <= |items| && path == items[i - |path|..i] && Alternating(path) && StepsOk(path) &&
        |path| <= MAX_LENGTH &&
    plans <= result && GroupedPaths(result[|plans|..], items[..i - |path|])
  }

  lemma PathAdded(plans: seq<Plan>, was: seq<Plan>, result: seq<Plan>, items: seq<Step>, i: nat, path: seq<Step>,
      n: nat)
    requires Progress(plans, was, items, i, path) && was <= result && i + n <= |items|
    requires GroupedPaths(result[|was|..], path + items[i..i + n])
    ensures Progress(plans, result, items, i + n, [])
  {
    hide GroupedPaths, StepsOk;
    assert path + items[i..i + n] == items[i - |path|..i + n];
    GroupedOn(plans, was, result, items, i - |path|, i + n);
    assert StepsOk([]) by { NothingToGroup(); }
  }

  lemma NothingToGroup()
    ensures StepsOk([]) && GroupedPaths([], [])
  {}

  lemma ItemAdded(plans: seq<Plan>, was: seq<Plan>, result: seq<Plan>, items: seq<Step>, i: nat, path: seq<Step>,
      next: seq<Step>)
    requires Progress(plans, was, items, i, path) && i < |items| && StepFits(items[i])
    requires Alternating(next) && |next| <= MAX_LENGTH && was <= result
    requires (next == path + [items[i]] && result == was) || (next == [items[i]] && GroupedPaths(result[|was|..], path))
    ensures Progress(plans, result, items, i + 1, next)
  {
    hide GroupedPaths, StepFits, Alternating;
    if next == path + [items[i]] && result == was {
      assert next == items[i - |path|..i + 1];
    } else {
      assert path + items[i..i] == path;
      PathAdded(plans, was, result, items, i, path, 0);
    }
  }

  // Cuts the items into plans, one path or path to a known vertex each.
  method AddPaths(items: seq<Step>, plans: seq<Plan>) returns (result: seq<Plan>)
    requires StepsOk(items)
    ensures plans <= result && GroupedPaths(result[|plans|..], items)
  {
    result := plans;
    var path: seq<Step> := [];
    var i := 0;
    NothingToGroup();
    assert result[|plans|..] == [] && items[..0] == [];
    assert Progress(plans, result, items, i, path);
    hide GroupedPaths, StepFits;
    while i < |items|
      invariant Progress(plans, result, items, i, path)
    {
      assert items[i] in items;
      ghost var was := result;
      if items[i].EdgeStep? && i + 1 < |items| && items[i + 1].VertexStep? && IsKnown(items[i + 1].vertex) {
        result := AddPathToVertex(path, items[i].edge, items[i + 1].vertex, result);
        assert items[i..i + 2] == [items[i], items[i + 1]];
        PathAdded(plans, was, result, items, i, path, 2);
        path := [];
        i := i + 2;
      } else {
        ghost var before := path;
        path, result := AddItem(path, items[i], result);
        ItemAdded(plans, was, result, items, i, before, path);
        i := i + 1;
      }
    }
    ghost var was := result;
    result := AddPath(path, result);
    assert path + items[i..i] == path;
    PathAdded(plans, was, result, items, i, path, 0);
    assert items[..i] == items;
  }

  lemma ToVertexIsOk(p: Plan, before: seq<Step>)
    requires p.PPathToVertex? && ValidPath(p.prefix) && p.prefix.Items() == before && |before| + 2 <= MAX_LENGTH
    requires (before != [] ==> before[|before| - 1].VertexStep?) && ValidEdge(p.edge) && IsKnown(p.vertex)
    requires p.vertex.matchRef.Some? ==> p.vertex.setRef.None?
    ensures StepsOf(p) == Some(before + [EdgeStep(p.edge), VertexStep(p.vertex)]) && Plans.Valid(p) && NamesCover(p)
  {
    assert |p.prefix.Items()| == p.prefix.Length();
    if before != [] { assert p.prefix.Items()[|before| - 1] == p.prefix.Item(|before| - 1); }
  }

  // --------------------------------------------------------------------------
  // Tracking of several operands
  // --------------------------------------------------------------------------

  lemma {:induction false} SomeSnoc(ps: seq<Plan>, p: Plan, bound: RefNames)
    ensures BoundSome(ps + [p], bound) == BoundSome(ps, bound) + Bound(p, bound)
    ensures ChangedSome(ps + [p], bound) == ChangedSome(ps, bound) + Changed(p, bound)
    decreases |ps|
  {
    hide Bound, Changed;
    BoundGrows(p, bound);
    if ps == [] {
      assert ps + [p] == [p] && [p][1..] == [];
      assert BoundSome([p], bound) == Bound(p, bound) + BoundSome([], bound);
      assert ChangedSome([p], bound) == Changed(p, bound) + ChangedSome([], bound);
    } else {
      assert (ps + [p])[0] == ps[0] && (ps + [p])[1..] == ps[1..] + [p];
      SomeSnoc(ps[1..], p, bound);
    }
  }

  lemma {:induction false} EverySnoc(ps: seq<Plan>, p: Plan, bound: RefNames)
    ensures BoundEvery(ps + [p], bound) == if ps == [] then Bound(p, bound) else BoundEvery(ps, bound) * Bound(p, bound)
    decreases |ps|
  {
    hide Bound;
    if ps == [] {
      assert ps + [p] == [p];
    } else {
      assert (ps + [p])[0] == ps[0] && (ps + [p])[1..] == ps[1..] + [p];
      EverySnoc(ps[1..], p, bound);
    }
  }

  lemma EachSoundSnoc(ps: seq<Plan>, es: seq<Expr>, i: nat, p: Plan, bound: RefNames, edgeFirst: bool)
    requires i < |es| && EachIsSound(ps, es[..i], bound, edgeFirst) && Sound(p, es[i], bound, edgeFirst)
    ensures EachIsSound(ps + [p], es[..i + 1], bound, edgeFirst)
  {
    hide Sound;
    forall k | 0 <= k < i + 1 ensures Sound((ps + [p])[k], es[..i + 1][k], bound, edgeFirst) {
      if k < i { assert Sound(ps[k], es[..i][k], bound, edgeFirst); }
    }
  }

  lemma SoundForFewer(p: Plan, e: Expr, bound: RefNames, a: bool, b: bool)
    requires Sound(p, e, bound, a) && (b ==> a)
    ensures Sound(p, e, bound, b)
  {}

  // --------------------------------------------------------------------------
  // Expressions
  // --------------------------------------------------------------------------

  function Size(e: Expr): nat
    decreases e
  {
    match e
    case VertexExpr(_, _, _) => 1
    case EdgeExpr(_, _, _) => 1
    case NoopExpr => 1
    case ConcatenationExpr(ops) => 1 + SizeOfAll(ops)
    case OrExpr(ops) => 1 + SizeOfAll(ops)
    case AndExpr(ops) => 1 + SizeOfAll(ops)
    case OperationExpr(_, op) => 1 + Size(op)
    case RepetitionExpr(_, _, op) => 1 + Size(op)
  }

  function SizeOfAll(es: seq<Expr>): (n: nat)
    ensures forall e :: e in es ==> Size(e) <= n
    decreases es
  {
    if es == [] then 0
    else
      assert es == [es[0]] + es[1..];
      Size(es[0]) + SizeOfAll(es[1..])
  }

  lemma {:induction false} FlattenShrinks(es: seq<Expr>)
    ensures forall e :: e in Flatten(es) ==> Size(e) <= SizeOfAll(es)
    decreases es
  {
    if es != [] {
      FlattenShrinks(es[1..]);
      if es[0].ConcatenationExpr? { FlattenShrinks(es[0].operands); }
    }
  }

  // Appends the operands of the concatenation, and of concatenations in it.
  method FlattenOperands(es: seq<Expr>, operands: seq<Expr>) returns (result: seq<Expr>)
    ensures result == operands + Flatten(es)
    decreases es
  {
    result := operands;
    assert es[..0] == [] && Flatten([]) == [];
    hide Flatten;
    for i := 0 to |es|
      invariant result == operands + Flatten(es[..i])
    {
      FlattenSnoc(es, i);
      ghost var more := if es[i].ConcatenationExpr? then Flatten(es[i].operands) else [es[i]];
      assert operands + Flatten(es[..i + 1]) == operands + Flatten(es[..i]) + more;
      if es[i].ConcatenationExpr? {
        result := FlattenOperands(es[i].operands, result);
      } else {
        result := result + [es[i]];
      }
    }
    assert es[..|es|] == es;
  }

  lemma {:induction false} FlattenSnoc(es: seq<Expr>, i: nat)
    requires i < |es|
    ensures Flatten(es[..i + 1]) == Flatten(es[..i]) +
        if es[i].ConcatenationExpr? then Flatten(es[i].operands) else [es[i]]
    decreases i
  {
    if i == 0 {
      assert es[..1][1..] == [] && es[..0] == [];
    } else {
      assert es[..i + 1][1..] == es[1..][..i] && es[..i][1..] == es[1..][..i - 1];
      FlattenSnoc(es[1..], i - 1);
    }
  }

  method CollectRefs(e: Expr, refs: RefNames) returns (result: RefNames)
    ensures result == refs + RefsIn(e)
    decreases Size(e), 1
  {
    result := refs;
    match e
    case VertexExpr(_, ref, _) => if ref.Some? { result := result + {ref.value}; }
    case EdgeExpr(_, _, _) =>
    case NoopExpr =>
    case ConcatenationExpr(ops) => result := CollectRefsOfAll(ops, refs);
    case OrExpr(ops) => result := CollectRefsOfAll(ops, refs);
    case AndExpr(ops) => result := CollectRefsOfAll(ops, refs);
    case OperationExpr(_, op) => result := CollectRefs(op, refs);
    case RepetitionExpr(_, _, op) => result := CollectRefs(op, refs);
  }

  method CollectRefsOfAll(es: seq<Expr>, refs: RefNames) returns (result: RefNames)
    ensures result == refs + RefsInAny(es)
    decreases SizeOfAll(es) + 1, 0
  {
    result := refs;
    for i := 0 to |es|
      invariant result == refs + RefsInAny(es[..i])
    {
      assert es[..i + 1] == es[..i] + [es[i]];
      RefsInAppend(es[..i], [es[i]]);
      assert RefsInAny([es[i]]) == RefsIn(es[i]) + RefsInAny([es[i]][1..]);
      result := CollectRefs(es[i], result);
    }
    assert es[..|es|] == es;
  }

  // --------------------------------------------------------------------------
  // Planning
  // --------------------------------------------------------------------------

  class PlanContext {
    const nestOperands: bool
    // What the operations planned so far may have changed.
    var setByOperations: RefNames

    constructor (nestOperands: bool)
      ensures this.nestOperands == nestOperands && setByOperations == {}
    {
      this.nestOperands := nestOperands;
      setByOperations := {};
    }
  }

  predicate IsSingleStep(p: Plan) {
    p.PVertex? || p.PEdge? || p.PNoop? || (p.PPathToVertex? && p.prefix.vertices == [] && p.prefix.edges == [])
  }

  ghost predicate Supportable(nest: bool, e: Expr) { nest ==> NestsOk(e) }

  ghost predicate AndOperandsSound(p: Plan, e: Expr, bound: RefNames, edgeFirst: bool) {
    e.AndExpr? ==>
      (p.PAnd? || p.PAndWithoutSetRef?) && EachIsSound(p.operands, e.operands, bound, edgeFirst) &&
          p == AndPlan(p.operands, bound)
  }

  // The plan of the visitor for the expression.
  ghost predicate Planned(p: Plan, e: Expr, bound: RefNames, edgeFirst: bool) {
    Sound(p, e, bound, edgeFirst) && (p.PAnd? ==> e.AndExpr?) &&
    (e.VertexExpr? ==> p.PVertex?) && AndOperandsSound(p, e, bound, edgeFirst)
  }

  // Plans for starts at which the bound refs have vertices.
  class PlanVisitor {
    var bound: RefNames
    // Refs whose values the plan may set or exclude.
    var changed: RefNames
    const context: PlanContext

    constructor (bound: RefNames, changed: RefNames, context: PlanContext)
      ensures this.bound == bound && this.changed == changed && this.context == context
    {
      this.bound, this.changed, this.context := bound, changed, context;
    }

    method Visit(e: Expr) returns (p: Plan)
      requires ValidExpr(e)
      modifies this, context
      ensures Planned(p, e, old(bound), Supportable(context.nestOperands, e))
      ensures bound == Bound(p, old(bound)) && changed == old(changed) + Changed(p, old(bound))
      ensures old(context.setByOperations) <= context.setByOperations
      decreases Size(e), 2
    {
      match e
      case VertexExpr(t, ref, placeholder) =>
        ghost var b := bound;
        var m := VisitVertex(t, ref, placeholder);
        p := PVertex(m);
        VertexIsSound(t, ref, placeholder, b, Supportable(context.nestOperands, e));
        hide Sound;
      case EdgeExpr(direction, forward, backward) =>
        p := PEdge(MatchEdge(direction, forward, backward));
        EdgeIsSound(e, bound, Supportable(context.nestOperands, e));
        hide Sound;
      case NoopExpr =>
        p := PNoop;
        NoopIsSound(bound, Supportable(context.nestOperands, e));
        hide Sound;
      case ConcatenationExpr(ops) => p := VisitConcatenation(ops);
      case OrExpr(ops) => p := VisitOr(ops);
      case AndExpr(ops) => p := VisitAnd(ops);
      case OperationExpr(operation, op) => p := VisitOperation(operation, op);
      case RepetitionExpr(min, max, op) => p := VisitRepetition(min, max, op);
    }

    method VisitVertex(t: Option<TypeName>, ref: Option<RefName>, placeholder: Option<VertexID>)
        returns (m: MatchVertex)
      modifies this
      ensures m == VertexPlan(t, ref, placeholder, old(bound)) && StepFits(VertexStep(m))
      ensures bound == Bound(PVertex(m), old(bound)) && changed == old(changed) + Changed(PVertex(m), old(bound))
    {
      m := MatchVertex(t, None, None, placeholder);
      if ref.Some? {
        if ref.value in bound {
          m := m.(matchRef := ref);
        } else {
          m := m.(setRef := ref);
          bound := bound + {ref.value};
          changed := changed + {ref.value};
        }
      }
    }

    // A joined operand can be cached if it is more than one step, and names no ref that operations have changed.
    method Nested(e: Expr, p: Plan) returns (q: Plan)
      ensures q == if !context.nestOperands || IsSingleStep(p) ||
          RefsIn(e) * context.setByOperations != {} then p else PNested(RefsIn(e), p)
    {
      if !context.nestOperands || IsSingleStep(p) {
        return p;
      }
      var refs := CollectRefs(e, {});
      assert refs == RefsIn(e);
      if refs * context.setByOperations != {} {
        return p;
      }
      q := PNested(refs, p);
    }

    method VisitConcatenation(ops: seq<Expr>) returns (p: Plan)
      requires ValidExpr(ConcatenationExpr(ops))
      modifies this, context
      ensures Planned(p, ConcatenationExpr(ops), old(bound), Supportable(context.nestOperands, ConcatenationExpr(ops)))
      ensures bound == Bound(p, old(bound)) && changed == old(changed) + Changed(p, old(bound))
      ensures old(context.setByOperations) <= context.setByOperations
      decreases Size(ConcatenationExpr(ops)), 1
    {
      ghost var b, c, edgeFirst := bound, changed, Supportable(context.nestOperands, ConcatenationExpr(ops));
      var operands := FlattenOperands(ops, []);
      assert operands == Flatten(ops);
      FlattenShrinks(ops);
      FlattenSupportable(ops, context.nestOperands);
      // Steps wait in `path` until an operand of another kind comes.
      var plans: seq<Plan>, path: seq<Step> := [], [];
      ghost var ps: seq<Plan> := [];
      StartsCollecting(operands, b, c, edgeFirst);
      hide CollectedSteps, Bound, Changed, Planned, Sound, Supportable, ValidExpr, Flatten, Size, GroupedPaths,
          StepFits;
      for i := 0 to |operands|
        invariant CollectedSteps(plans, path, ps, operands, i, b, bound, c, changed, edgeFirst)
        invariant old(context.setByOperations) <= context.setByOperations
      {
        assert operands[i] in operands;
        plans, path, ps := CollectOperand(operands, i, plans, path, ps, b, c, edgeFirst);
      }
      CollectedIsOk(plans, path, ps, operands, |operands|, b, bound, c, changed, edgeFirst);
      ghost var wasPlans := plans;
      plans := AddPaths(path, plans);
      PathCollected(wasPlans, plans, path, ps, operands, |operands|, b, bound, c, changed, edgeFirst);
      AllCollected(plans, ps, ops, b, bound, c, changed, edgeFirst);
      if |plans| == 1 {
        return plans[0];
      }
      p := PConcatenation(plans);
    }

    // Plans one more operand of a concatenation.
    method CollectOperand(operands: seq<Expr>, i: nat, plans: seq<Plan>, path: seq<Step>, ghost ps: seq<Plan>,
                          ghost b: RefNames, ghost c: RefNames, ghost edgeFirst: bool)
      returns (nextPlans: seq<Plan>, nextPath: seq<Step>, ghost nextPs: seq<Plan>)
      requires i < |operands| && ValidExpr(operands[i]) &&
          (edgeFirst ==> Supportable(context.nestOperands, operands[i]))
      requires CollectedSteps(plans, path, ps, operands, i, b, bound, c, changed, edgeFirst)
      modifies this, context
      ensures CollectedSteps(nextPlans, nextPath, nextPs, operands, i + 1, b, bound, c, changed, edgeFirst)
      ensures old(context.setByOperations) <= context.setByOperations
      decreases Size(operands[i]), 4
    {
      hide CollectedSteps, Bound, Changed, Planned, Sound, Supportable, Flatten, Size, GroupedPaths, StepFits;
      ghost var before, was := bound, changed;
      var operand := operands[i];
      nextPlans := plans;
      if operand.VertexExpr? {
        var m := VisitVertex(operand.typeName, operand.ref, operand.placeholder);
        VertexIsSound(operand.typeName, operand.ref, operand.placeholder, before, edgeFirst);
        StepCollected(plans, path, ps, operands, i, b, before, bound, c, was, changed, edgeFirst, VertexStep(m));
        nextPath := path + [VertexStep(m)];
        nextPs := ps + [PVertex(m)];
      } else if operand.EdgeExpr? {
        var m := MatchEdge(operand.direction, operand.forward, operand.backward);
        EdgeIsSound(operand, bound, edgeFirst);
        EdgeTracking(m, bound);
        assert StepFits(EdgeStep(m)) by { EdgeIsOk(operand); }
        StepCollected(plans, path, ps, operands, i, b, bound, bound, c, changed, changed, edgeFirst, EdgeStep(m));
        nextPath := path + [EdgeStep(m)];
        nextPs := ps + [PEdge(m)];
      } else {
        CollectedIsOk(plans, path, ps, operands, i, b, bound, c, changed, edgeFirst);
        nextPlans := AddPaths(path, plans);
        PathCollected(plans, nextPlans, path, ps, operands, i, b, bound, c, changed, edgeFirst);
        nextPath := [];
        var q: Plan;
        q, bound, changed := PlanExpression(operand, bound, changed, context);
        PlanCollected(nextPlans, ps, operands, i, b, before, bound, c, was, changed, edgeFirst, q,
            Supportable(context.nestOperands, operand));
        nextPlans := nextPlans + [q];
        nextPs := ps + [q];
      }
    }

    method VisitOr(ops: seq<Expr>) returns (p: Plan)
      requires ValidExpr(OrExpr(ops))
      modifies this, context
      ensures Planned(p, OrExpr(ops), old(bound), Supportable(context.nestOperands, OrExpr(ops)))
      ensures bound == Bound(p, old(bound)) && changed == old(changed) + Changed(p, old(bound))
      ensures old(context.setByOperations) <= context.setByOperations
      decreases Size(OrExpr(ops)), 1
    {
      ghost var b, c, edgeFirst := bound, changed, Supportable(context.nestOperands, OrExpr(ops));
      var plans: seq<Plan>, common: Option<RefNames> := [], None;
      hide Sound, Bound, Changed;
      for i := 0 to |ops|
        invariant bound == b && changed == c + ChangedSome(plans, b) && EachIsSound(plans, ops[..i], b, edgeFirst)
        invariant common == if plans == [] then None else Some(BoundEvery(plans, b))
        invariant old(context.setByOperations) <= context.setByOperations
      {
        assert ops[i] in ops && (edgeFirst ==> Supportable(context.nestOperands, ops[i]));
        var q, operandBound, nextChanged := PlanExpression(ops[i], bound, changed, context);
        PlannedIsSound(q, ops[i], b, Supportable(context.nestOperands, ops[i]), edgeFirst);
        EachSoundSnoc(plans, ops, i, q, b, edgeFirst);
        SomeSnoc(plans, q, b);
        EverySnoc(plans, q, b);
        common := Some(if common.None? then operandBound else common.value * operandBound);
        changed := nextChanged;
        plans := plans + [q];
      }
      assert ops[..|ops|] == ops;
      if common.Some? {
        bound := common.value;
      }
      p := POr(plans);
      OrIsSound(plans, ops, b, edgeFirst);
      OrTracking(plans, b);
    }

    method VisitAnd(ops: seq<Expr>) returns (p: Plan)
      requires ValidExpr(AndExpr(ops))
      modifies this, context
      ensures Planned(p, AndExpr(ops), old(bound), Supportable(context.nestOperands, AndExpr(ops)))
      ensures bound == Bound(p, old(bound)) && changed == old(changed) + Changed(p, old(bound))
      ensures old(context.setByOperations) <= context.setByOperations
      decreases Size(AndExpr(ops)), 1
    {
      ghost var b, edgeFirst := bound, Supportable(context.nestOperands, AndExpr(ops));
      var plans: seq<Plan>, allBound, operandsChanged: RefNames := [], bound, {};
      hide Sound, Bound, Changed;
      for i := 0 to |ops|
        invariant bound == b && changed == old(changed) && EachIsSound(plans, ops[..i], b, edgeFirst)
        invariant allBound == BoundSome(plans, b) && operandsChanged == ChangedSome(plans, b)
        invariant old(context.setByOperations) <= context.setByOperations
      {
        assert ops[i] in ops;
        ghost var ok := Supportable(context.nestOperands, ops[i]) && (context.nestOperands ==> MayNest(ops[i]));
        var q, operandBound, nextChanged := VisitNested(ops[i], bound, operandsChanged);
        SoundForFewer(q, ops[i], b, ok, edgeFirst);
        EachSoundSnoc(plans, ops, i, q, b, edgeFirst);
        SomeSnoc(plans, q, b);
        allBound := allBound + operandBound;
        operandsChanged := nextChanged;
        plans := plans + [q];
      }
      assert ops[..|ops|] == ops;
      bound := allBound;
      context.setByOperations := context.setByOperations + operandsChanged;
      AndIsSound(plans, ops, b, edgeFirst);
      AndTracking(plans, b);
      if operandsChanged == {} {
        return PAndWithoutSetRef(plans);
      }
      changed := changed + operandsChanged;
      p := PAnd(plans);
    }

    method VisitAll(op: Expr) returns (p: Plan)
      requires ValidExpr(op)
      modifies this, context
      ensures Planned(p, OperationExpr(All, op), old(bound), Supportable(context.nestOperands, OperationExpr(All, op)))
      ensures bound == Bound(p, old(bound)) && changed == old(changed) + Changed(p, old(bound))
      ensures old(context.setByOperations) <= context.setByOperations
      decreases Size(OperationExpr(All, op)), 0
    {
      ghost var b, edgeFirst := bound, Supportable(context.nestOperands, OperationExpr(All, op));
      hide Sound, Bound, Changed, Planned;
      var q: Plan, operandBound: RefNames, operandChanged: RefNames;
      if op.AndExpr? {
        // An AND below is planned as such and then fused: what is nested are its own operands.
        q, operandBound, operandChanged := PlanExpression(op, bound, {}, context);
        AllAndIsPlanned(q, op, b, Supportable(context.nestOperands, op), edgeFirst);
      } else {
        q, operandBound, operandChanged := VisitNested(op, bound, {});
        AllIsPlanned(q, op, b, Supportable(context.nestOperands, op) &&
            (context.nestOperands ==> MayNest(op)), edgeFirst);
      }
      p := OperateAll(q, operandBound, operandChanged);
    }

    // The plan of `all`, given the plan of its operand.
    method OperateAll(q: Plan, operandBound: RefNames, operandChanged: RefNames) returns (p: Plan)
      requires operandBound == Bound(q, bound) && operandChanged == Changed(q, bound)
      modifies this, context
      ensures p == AllPlan(q, old(bound))
      ensures bound == Bound(p, old(bound)) && changed == old(changed) + Changed(p, old(bound))
      ensures old(context.setByOperations) <= context.setByOperations
    {
      hide Bound, Changed;
      AllTracking(q, bound);
      bound := operandBound;
      context.setByOperations := context.setByOperations + operandChanged;
      if operandChanged == {} {
        return PAllWithoutSetRef(q);
      }
      changed := changed + operandChanged;
      p := if q.PAnd? then PAllAnd(q.operands) else PAll(q);
    }

    method VisitOperation(operation: Operation, op: Expr) returns (p: Plan)
      requires ValidExpr(op)
      modifies this, context
      ensures Planned(p, OperationExpr(operation, op), old(bound),
          Supportable(context.nestOperands, OperationExpr(operation, op)))
      ensures bound == Bound(p, old(bound)) && changed == old(changed) + Changed(p, old(bound))
      ensures old(context.setByOperations) <= context.setByOperations
      decreases Size(OperationExpr(operation, op)), 1
    {
      if operation.All? {
        p := VisitAll(op);
        return;
      }
      ghost var b, edgeFirst := bound, Supportable(context.nestOperands, OperationExpr(operation, op));
      hide Sound, Bound, Changed, Planned;
      var q: Plan, operandBound: RefNames, operandChanged: RefNames;
      ghost var ok := Supportable(context.nestOperands, op);
      if operation.Maybe? {
        q, operandBound, operandChanged := VisitNested(op, bound, {});
        ok := ok && (context.nestOperands ==> MayNest(op));
      } else {
        q, operandBound, operandChanged := PlanExpression(op, bound, {}, context);
        PlannedIsSound(q, op, b, ok, ok);
      }
      OperationIsPlanned(operation, q, op, b, ok, edgeFirst);
      p := Operate(operation, q, operandBound, operandChanged);
    }

    // The plan of an operation other than `all`, given the plan of its operand.
    method Operate(operation: Operation, q: Plan, operandBound: RefNames, operandChanged: RefNames) returns (p: Plan)
      requires !operation.All? && operandBound == Bound(q, bound) && operandChanged == Changed(q, bound)
      modifies this, context
      ensures p == OperationPlan(operation, q, old(bound))
      ensures bound == Bound(p, old(bound)) && changed == old(changed) + Changed(p, old(bound))
      ensures old(context.setByOperations) <= context.setByOperations
    {
      hide Bound, Changed;
      OperationTracking(operation, q, bound);
      match operation
      case If =>
        bound := operandBound;
        context.setByOperations := context.setByOperations + operandChanged;
        if operandChanged == {} {
          return PIfWithoutSetRef(q);
        }
        changed := changed + operandChanged;
        p := PIf(q);
      case Unless(shared) =>
        // Nothing new is bound, and only shared refs can lose values.
        var sharedChanged := operandChanged * shared;
        context.setByOperations := context.setByOperations + sharedChanged;
        if sharedChanged == {} {
          return PUnlessWithoutSetNonLocalRef(q, shared);
        }
        changed := changed + sharedChanged;
        p := PUnless(q, shared);
      case Skip =>
        bound := operandBound;
        context.setByOperations := context.setByOperations + operandChanged;
        changed := changed + operandChanged;
        p := PSkip(q);
      case Maybe =>
        // The fallback leaves the refs alone, so no binding is certain.
        context.setByOperations := context.setByOperations + operandChanged;
        changed := changed + operandChanged;
        p := PMaybe(q);
    }

    method VisitRepetition(min: nat, max: nat, op: Expr) returns (p: Plan)
      requires ValidExpr(op)
      modifies this, context
      ensures Planned(p, RepetitionExpr(min, max, op), old(bound),
          Supportable(context.nestOperands, RepetitionExpr(min, max, op)))
      ensures bound == Bound(p, old(bound)) && changed == old(changed) + Changed(p, old(bound))
      ensures old(context.setByOperations) <= context.setByOperations
      decreases Size(RepetitionExpr(min, max, op)), 1
    {
      ghost var b, edgeFirst := bound, Supportable(context.nestOperands, RepetitionExpr(min, max, op));
      hide Sound, Bound, Changed;
      var q, operandBound, nextChanged := PlanExpression(op, bound, changed, context);
      PlannedIsSound(q, op, b, Supportable(context.nestOperands, op), edgeFirst);
      changed := nextChanged;
      if min > 0 {
        bound := operandBound;
      }
      p := PRepetition(q, min, max);
      RepetitionIsSound(q, op, min, max, b, edgeFirst);
      RepetitionTracking(q, min, max, b);
    }

    // Plans an operand to be joined.
    method VisitNested(e: Expr, operandBound: RefNames, operandChanged: RefNames)
      returns (p: Plan, nextBound: RefNames, nextChanged: RefNames)
      requires ValidExpr(e)
      modifies context
      ensures Sound(p, e, operandBound, Supportable(context.nestOperands, e) && (context.nestOperands ==> MayNest(e)))
      ensures nextBound == Bound(p, operandBound) && nextChanged == operandChanged + Changed(p, operandBound)
      ensures p.PAnd? ==> e.AndExpr?
      ensures old(context.setByOperations) <= context.setByOperations
      decreases Size(e), 4
    {
      hide Sound, Bound, Changed, NestsOk, MayNest;
      ghost var edgeFirst := Supportable(context.nestOperands, e) && (context.nestOperands ==> MayNest(e));
      p, nextBound, nextChanged := PlanExpression(e, operandBound, operandChanged, context);
      SoundForFewer(p, e, operandBound, Supportable(context.nestOperands, e), edgeFirst);
      ghost var plain := p;
      p := Nested(e, p);
      if p != plain {
        if edgeFirst { NestedMayNot(e, plain); }
        NestedIsSound(plain, e, operandBound, edgeFirst);
      }
    }
  }

  // The first operands were planned one after another; the path is to be added to the plans still.
  ghost predicate CollectedSteps(plans: seq<Plan>, path: seq<Step>, ps: seq<Plan>, es: seq<Expr>, i: nat,
                            b: RefNames, bound: RefNames, c: RefNames, changed: RefNames, edgeFirst: bool) {
    i <= |es| && |path| <= |ps| && SoundInTurn(ps, es[..i], b, edgeFirst) && Regroups(plans + Singles(path), ps) &&
        StepsOk(path) &&
    bound == BoundConcat(ps, b) && changed == c + ChangedConcat(ps, b) &&
        (|plans| + |path| == |ps| || HasSteps(plans)) &&
    forall p :: p in plans ==> Plans.Valid(p) && NamesCover(p)
  }

  lemma FlattenSupportable(ops: seq<Expr>, nest: bool)
    requires ValidExpr(ConcatenationExpr(ops))
    ensures forall e :: e in Flatten(ops) ==>
      ValidExpr(e) && Size(e) < Size(ConcatenationExpr(ops)) &&
          (Supportable(nest, ConcatenationExpr(ops)) ==> Supportable(nest, e))
  {
    FlattenKeeps(ops);
    FlattenShrinks(ops);
  }

  ghost predicate HasSteps(plans: seq<Plan>) { exists p :: p in plans && StepsOf(p).Some? }

  lemma StartsCollecting(es: seq<Expr>, b: RefNames, c: RefNames, edgeFirst: bool)
    ensures CollectedSteps([], [], [], es, 0, b, b, c, c, edgeFirst)
  {
    RegroupsItself([]);
    assert [] + Singles([]) == [] && es[..0] == [];
  }

  lemma CollectedIsOk(plans: seq<Plan>, path: seq<Step>, ps: seq<Plan>, es: seq<Expr>, i: nat,
                      b: RefNames, bound: RefNames, c: RefNames, changed: RefNames, edgeFirst: bool)
    requires CollectedSteps(plans, path, ps, es, i, b, bound, c, changed, edgeFirst)
    ensures StepsOk(path) && bound == BoundConcat(ps, b)
  {
    hide SoundInTurn, Regroups, StepsOk;
  }

  lemma EdgeIsOk(e: Expr)
    requires e.EdgeExpr? && ValidExpr(e)
    ensures StepFits(EdgeStep(MatchEdge(e.direction, e.forward, e.backward)))
  {}

  lemma EdgeTracking(m: MatchEdge, b: RefNames)
    ensures Bound(PEdge(m), b) == b && Changed(PEdge(m), b) == {}
  {}

  lemma InTurnTracking(ps: seq<Plan>, p: Plan, b: RefNames)
    ensures BoundConcat(ps + [p], b) == Bound(p, BoundConcat(ps, b))
    ensures ChangedConcat(ps + [p], b) == ChangedConcat(ps, b) + Changed(p, BoundConcat(ps, b))
  {
    hide Bound, Changed;
    TrackingAppend(ps, [p], b);
    ListOfOne(p, BoundConcat(ps, b));
  }

  lemma StepCollected(plans: seq<Plan>, path: seq<Step>, ps: seq<Plan>, es: seq<Expr>, i: nat, b: RefNames,
      bound: RefNames, next: RefNames,
                      c: RefNames, changed: RefNames, nextChanged: RefNames, edgeFirst: bool, s: Step)
    requires CollectedSteps(plans, path, ps, es, i, b, bound, c, changed, edgeFirst) && i < |es|
    requires Sound(SinglePlan(s), es[i], bound, edgeFirst) && !IsUnless(es[i]) && StepFits(s)
    requires next == Bound(SinglePlan(s), bound) && nextChanged == changed + Changed(SinglePlan(s), bound)
    ensures CollectedSteps(plans, path + [s], ps + [SinglePlan(s)], es, i + 1, b, next, c, nextChanged, edgeFirst)
  {
    var p := SinglePlan(s);
    hide Sound, Bound, Changed, StepFits, Regroups, SoundInTurn, Plans.Valid, NamesCover, SinglePlan, StepsOf;
    InTurnTracking(ps, p, b);
    assert es[..i + 1] == es[..i] + [es[i]];
    SoundInTurnSnoc(ps, es[..i], b, edgeFirst, p, es[i]);
    assert Singles(path + [s]) == Singles(path) + [p];
    assert plans + Singles(path + [s]) == plans + Singles(path) + [p];
    RegroupsItself([p]);
    RegroupsAppend(plans + Singles(path), ps, [p], [p]);
  }

  lemma PathCollected(plans: seq<Plan>, next: seq<Plan>, path: seq<Step>, ps: seq<Plan>, es: seq<Expr>, i: nat,
                      b: RefNames, bound: RefNames, c: RefNames, changed: RefNames, edgeFirst: bool)
    requires CollectedSteps(plans, path, ps, es, i, b, bound, c, changed, edgeFirst)
    requires plans <= next && GroupedPaths(next[|plans|..], path)
    ensures CollectedSteps(next, [], ps, es, i, b, bound, c, changed, edgeFirst)
  {
    var added := next[|plans|..];
    assert next == plans + added && next + Singles([]) == next;
    if path != [] { assert added[0] in added && added[0] in next; }
    hide Regroups, SoundInTurn, Plans.Valid, NamesCover, StepsOf, AreSteps;
    GroupsRegroup(added, path);
    RegroupsItself(plans);
    RegroupsAppend(plans, plans, added, Singles(path));
    RegroupsTransitive(next, plans + Singles(path), ps);
  }

  lemma PlannedIsUsable(p: Plan, e: Expr, bound: RefNames, a: bool, b: bool)
    requires Planned(p, e, bound, a) && (b ==> a)
    ensures Sound(p, e, bound, b) && Plans.Valid(p) && NamesCover(p)
  {}

  lemma StillHasSteps(plans: seq<Plan>, p: Plan)
    requires HasSteps(plans)
    ensures HasSteps(plans + [p])
  {
    var q :| q in plans && StepsOf(q).Some?;
    assert q in plans + [p];
  }

  lemma PlanCollected(plans: seq<Plan>, ps: seq<Plan>, es: seq<Expr>, i: nat, b: RefNames, bound: RefNames,
      next: RefNames,
                      c: RefNames, changed: RefNames, nextChanged: RefNames, edgeFirst: bool, p: Plan, a: bool)
    requires CollectedSteps(plans, [], ps, es, i, b, bound, c, changed, edgeFirst) && i < |es|
    requires Planned(p, es[i], bound, a) && (edgeFirst ==> a)
    requires next == Bound(p, bound) && nextChanged == changed + Changed(p, bound)
    ensures CollectedSteps(plans + [p], [], ps + [p], es, i + 1, b, next, c, nextChanged, edgeFirst)
  {
    hide Bound, Changed, Regroups, SoundInTurn, Plans.Valid, NamesCover, StepsOf, Planned, Sound,
        HasSteps;
    PlannedIsUsable(p, es[i], bound, a, edgeFirst);
    if HasSteps(plans) { StillHasSteps(plans, p); }
    InTurnTracking(ps, p, b);
    assert es[..i + 1] == es[..i] + [es[i]];
    SoundInTurnSnoc(ps, es[..i], b, edgeFirst, p, es[i]);
    assert plans + Singles([]) == plans && (plans + [p]) + Singles([]) == plans + [p];
    RegroupsItself([p]);
    RegroupsAppend(plans, ps, [p], [p]);
  }

  lemma AllCollected(plans: seq<Plan>, ps: seq<Plan>, ops: seq<Expr>, b: RefNames, bound: RefNames, c: RefNames,
      changed: RefNames, edgeFirst: bool)
    requires ValidExpr(ConcatenationExpr(ops)) &&
        CollectedSteps(plans, [], ps, Flatten(ops), |Flatten(ops)|, b, bound, c, changed, edgeFirst)
    ensures plans != [] && Planned(ConcatPlan(plans), ConcatenationExpr(ops), b, edgeFirst)
    ensures bound == Bound(ConcatPlan(plans), b) && changed == c + Changed(ConcatPlan(plans), b)
  {
    var es := Flatten(ops);
    assert es[..|es|] == es && plans + Singles([]) == plans;
    FlattenKeeps(ops);
    assert |ps| == |es| >= 2;
    assert plans != [];
    ConcatIsSound(plans, ps, ops, b, edgeFirst);
    if |plans| == 1 {
      assert HasSteps(plans);
      assert StepsOf(plans[0]).Some?;
    }
    hide Sound;
  }

  lemma PlannedIsSound(p: Plan, e: Expr, bound: RefNames, a: bool, b: bool)
    requires Planned(p, e, bound, a) && (b ==> a)
    ensures Sound(p, e, bound, b)
  {}

  lemma OrTracking(ps: seq<Plan>, bound: RefNames)
    requires ps != []
    ensures Bound(POr(ps), bound) == BoundEvery(ps, bound) && Changed(POr(ps), bound) == ChangedSome(ps, bound)
  {}

  lemma AndTracking(ps: seq<Plan>, bound: RefNames)
    ensures Bound(AndPlan(ps, bound), bound) == BoundSome(ps, bound) &&
        Changed(AndPlan(ps, bound), bound) == ChangedSome(ps, bound)
  {
    BoundGrowsSome(ps, bound);
  }

  lemma AllTracking(q: Plan, bound: RefNames)
    ensures Changed(q, bound) == {} ==>
      Bound(PAllWithoutSetRef(q), bound) == Bound(q, bound) && Changed(PAllWithoutSetRef(q), bound) == {}
    ensures Bound(PAll(q), bound) == Bound(q, bound) && Changed(PAll(q), bound) == Changed(q, bound)
    ensures q.PAnd? ==>
        Bound(PAllAnd(q.operands), bound) == Bound(q, bound) &&
        Changed(PAllAnd(q.operands), bound) == Changed(q, bound)
  {
    BoundGrows(q, bound);
  }

  lemma UnaryTracking(p: Plan, bound: RefNames)
    requires IsUnary(p)
    ensures Bound(p, bound) == if p.PAll? || p.PIf? || p.PSkip? then Bound(p.operand, bound) else bound
    ensures Changed(p, bound) ==
      if p.PUnless? then Changed(p.operand, bound) * p.shared
      else if p.PAll? || p.PIf? || p.PSkip? || p.PMaybe? then Changed(p.operand, bound)
      else {}
  {}

  lemma OperationTracking(operation: Operation, q: Plan, bound: RefNames)
    ensures var p := OperationPlan(operation, q, bound);
      Bound(p, bound) == (if operation.All? || operation.If? || operation.Skip? then Bound(q, bound) else bound) &&
      Changed(p, bound) == if operation.Unless? then Changed(q, bound) * operation.shared else Changed(q, bound)
  {
    hide Bound, Changed;
    BoundGrows(q, bound);
    UnaryTracking(OperationPlan(operation, q, bound), bound);
  }

  lemma RepetitionTracking(q: Plan, min: nat, max: nat, bound: RefNames)
    ensures Bound(PRepetition(q, min, max), bound) == if min > 0 then Bound(q, bound) else bound
    ensures Changed(PRepetition(q, min, max), bound) == Changed(q, bound)
  {}

  lemma OperationIsPlanned(operation: Operation, q: Plan, op: Expr, bound: RefNames, a: bool, b: bool)
    requires Sound(q, op, bound, a) && (b ==> a) && !operation.All?
    ensures Planned(OperationPlan(operation, q, bound), OperationExpr(operation, op), bound, b)
  {
    hide Sound, Changed;
    SoundForFewer(q, op, bound, a, b);
    OperationIsSound(operation, q, op, bound, b);
  }

  ghost function AllPlan(q: Plan, bound: RefNames): Plan {
    if Changed(q, bound) == {} then PAllWithoutSetRef(q) else if q.PAnd? then PAllAnd(q.operands) else PAll(q)
  }

  lemma AllIsPlanned(q: Plan, op: Expr, bound: RefNames, a: bool, b: bool)
    requires Sound(q, op, bound, a) && (b ==> a) && !op.AndExpr? && !q.PAnd?
    ensures Planned(AllPlan(q, bound), OperationExpr(All, op), bound, b)
  {
    hide Sound, Changed;
    SoundForFewer(q, op, bound, a, b);
    OperationIsSound(All, q, op, bound, b);
  }

  lemma AllAndIsPlanned(q: Plan, op: Expr, bound: RefNames, a: bool, b: bool)
    requires Planned(q, op, bound, a) && op.AndExpr? && (b ==> a)
    ensures Planned(AllPlan(q, bound), OperationExpr(All, op), bound, b)
  {
    hide Sound;
    AndTracking(q.operands, bound);
    AndIsSound(q.operands, op.operands, bound, a);
    SoundForFewer(AllAndPlan(q.operands, bound), OperationExpr(All, op), bound, a, b);
  }

  lemma NestedMayNot(e: Expr, p: Plan)
    requires MayNest(e) && !IsSingleStep(p) && (e.VertexExpr? ==> p.PVertex?)
    ensures !Peeks(Naive(e))
  {}

  method PlanExpression(e: Expr, operandBound: RefNames, operandChanged: RefNames, context: PlanContext)
    returns (p: Plan, bound: RefNames, changed: RefNames)
    requires ValidExpr(e)
    modifies context
    ensures Planned(p, e, operandBound, Supportable(context.nestOperands, e))
    ensures bound == Bound(p, operandBound) && changed == operandChanged + Changed(p, operandBound)
    ensures old(context.setByOperations) <= context.setByOperations
    decreases Size(e), 3
  {
    hide Planned, Bound, Changed;
    var visitor := new PlanVisitor(operandBound, operandChanged, context);
    p := visitor.Visit(e);
    bound, changed := visitor.bound, visitor.changed;
  }
}
