/** Which refs a plan mentions at all, in any of its parts. */
module Mentions {
  import opened Base
  import opened RefsAlgebra
  import opened Plans
  import opened Semantics
  import opened RefTracking

  ghost function Names(r: set<Literal>): RefNames { set l | l in r :: l.name }

  // The refs that vertices of the plan have.
  ghost function Mentioned(p: Plan): RefNames
    decreases p, 0
  {
    match p
    case PVertex(m) => VertexRefs(m)
    case PEdge(_) => {}
    case PNoop => {}
    case PPath(path) => BoundBySteps(PathSteps(path))
    case PPathToVertex(prefix, e, m) => BoundBySteps(PathToVertexSteps(prefix, e, m))
    case PConcatenation(ops) => MentionedInAny(ops)
    case POr(ops) => MentionedInAny(ops)
    case PAndWithoutSetRef(ops) => MentionedInAny(ops)
    case PAnd(ops) => MentionedInAny(ops)
    case PAllAnd(ops) => MentionedInAny(ops)
    case PNested(_, plan) => Mentioned(plan)
    case _ => Mentioned(p.operand)
  }

  ghost function MentionedInAny(ops: seq<Plan>): (ns: RefNames)
    ensures forall o :: o in ops ==> Mentioned(o) <= ns
    decreases ops, 0
  {
    if ops == [] then {}
    else
      assert ops == [ops[0]] + ops[1..];
      Mentioned(ops[0]) + MentionedInAny(ops[1..])
  }

  // Only refs that are mentioned change.
  lemma {:induction false} ChangedAreMentioned(p: Plan, bound: RefNames)
    ensures Changed(p, bound) <= Mentioned(p)
    decreases p, 0
  {
    match p
    case PConcatenation(ops) => ChangedConcatAreMentioned(ops, bound);
    case POr(ops) => ChangedSomeAreMentioned(ops, bound);
    case PAndWithoutSetRef(ops) => ChangedSomeAreMentioned(ops, bound);
    case PAnd(ops) => ChangedSomeAreMentioned(ops, bound);
    case PAllAnd(ops) => ChangedSomeAreMentioned(ops, bound);
    case PAll(op) => ChangedAreMentioned(op, bound);
    case PIf(op) => ChangedAreMentioned(op, bound);
    case PUnless(op, shared) => ChangedAreMentioned(op, bound);
    case PSkip(op) => ChangedAreMentioned(op, bound);
    case PMaybe(op) => ChangedAreMentioned(op, bound);
    case PNested(names, plan) => ChangedAreMentioned(plan, bound * names);
    case PRepetition(op, min, max) => ChangedAreMentioned(op, bound);
    case _ =>
  }

  lemma {:induction false} ChangedConcatAreMentioned(ops: seq<Plan>, bound: RefNames)
    ensures ChangedConcat(ops, bound) <= MentionedInAny(ops)
    decreases ops, 0
  {
    if ops != [] {
      ChangedAreMentioned(ops[0], bound);
      ChangedConcatAreMentioned(ops[1..], Bound(ops[0], bound));
    }
  }

  lemma {:induction false} ChangedSomeAreMentioned(ops: seq<Plan>, bound: RefNames)
    ensures ChangedSome(ops, bound) <= MentionedInAny(ops)
    decreases ops, 0
  {
    if ops != [] {
      ChangedAreMentioned(ops[0], bound);
      ChangedSomeAreMentioned(ops[1..], bound);
    }
  }

  ghost predicate AllNamed(s: set<Body>, names: RefNames) { forall b :: b in s ==> Names(b.refs) <= names }

  // Matching doesn't introduce other refs.
  lemma MatchesMention(w: World, p: Plan, pos: Position, refs: Refs, names: RefNames)
    requires Mentioned(p) <= names && Names(refs) <= names
    ensures AllNamed(Sem(w, p, pos, refs), names)
  {
    MatchesRespect(w, p, pos, refs, {});
    ChangedAreMentioned(p, {});
    OnlyNamed(refs, Sem(w, p, pos, refs), Bound(p, {}), Changed(p, {}), names);
  }

  lemma OnlyNamed(refs: Refs, s: set<Body>, b: RefNames, changed: RefNames, names: RefNames)
    requires AllRespect(refs, s, b, changed) && changed <= names && Names(refs) <= names
    ensures AllNamed(s, names)
  {
    forall x, l | x in s && l in x.refs ensures l.name in names {
      assert Respects(refs, x.refs, b, changed);
      if l.name !in changed { assert l in refs; }
    }
  }

}
