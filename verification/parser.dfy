/** The shared refs of negations. */
module Parser {
  import opened Base
  import opened Plans
  import opened RefTracking
  import opened Mentions
  import opened Pointwise
  import opened Expressions
  import opened Planning

  type Counts = map<RefName, nat>

  function CountIn(counts: Counts, x: RefName): nat { if x in counts then counts[x] else 0 }

  // How many times the ref occurs.
  function Occurrences(e: Expr, x: RefName): nat
    decreases e
  {
    match e
    case VertexExpr(_, ref, _) => if ref == Some(x) then 1 else 0
    case EdgeExpr(_, _, _) => 0
    case NoopExpr => 0
    case ConcatenationExpr(ops) => OccurrencesInAll(ops, x)
    case OrExpr(ops) => OccurrencesInAll(ops, x)
    case AndExpr(ops) => OccurrencesInAll(ops, x)
    case OperationExpr(_, op) => Occurrences(op, x)
    case RepetitionExpr(_, _, op) => Occurrences(op, x)
  }

  function OccurrencesInAll(es: seq<Expr>, x: RefName): nat
    decreases es
  {
    if es == [] then 0 else Occurrences(es[0], x) + OccurrencesInAll(es[1..], x)
  }

  ghost predicate Counted(e: Expr, counts: Counts) {
    forall x :: CountIn(counts, x) == Occurrences(e, x) && (x in counts ==> counts[x] > 0)
  }

  ghost predicate CountedAll(es: seq<Expr>, counts: Counts) {
    forall x :: CountIn(counts, x) == OccurrencesInAll(es, x) && (x in counts ==> counts[x] > 0)
  }

  // The refs of the expression that occur outside of it, too.
  ghost function SharedIn(e: Expr, total: Counts): RefNames { set x | x in total && total[x] > Occurrences(e, x) > 0 }

  // The negations of the expression know their shared refs: names counted more often in total than in them.
  ghost function Resolved(e: Expr, total: Counts): Expr
    decreases e
  {
    match e
    case ConcatenationExpr(ops) => ConcatenationExpr(ResolvedEach(ops, total))
    case OrExpr(ops) => OrExpr(ResolvedEach(ops, total))
    case AndExpr(ops) => AndExpr(ResolvedEach(ops, total))
    case OperationExpr(operation, op) =>
      OperationExpr(if operation.Unless? then Unless(SharedIn(op, total)) else operation, Resolved(op, total))
    case RepetitionExpr(min, max, op) => RepetitionExpr(min, max, Resolved(op, total))
    case _ => e
  }

  ghost function ResolvedEach(es: seq<Expr>, total: Counts): (rs: seq<Expr>)
    ensures |rs| == |es| && forall i :: 0 <= i < |es| ==> rs[i] == Resolved(es[i], total)
    decreases es
  {
    if es == [] then [] else [Resolved(es[0], total)] + ResolvedEach(es[1..], total)
  }

  // --------------------------------------------------------------------------
  // Counting and resolving
  // --------------------------------------------------------------------------

  ghost predicate CountsAll(e: Expr, total: Counts) { forall x :: Occurrences(e, x) > 0 ==> x in total }

  method AddCounts(a: Counts, b: Counts) returns (sum: Counts)
    ensures forall x :: CountIn(sum, x) == CountIn(a, x) + CountIn(b, x)
    ensures (forall x :: x in a ==> a[x] > 0) && (forall x :: x in b ==> b[x] > 0) ==> forall x :: x in sum ==>
        sum[x] > 0
  {
    sum := a;
    var names := Listed(b.Keys);
    for i := 0 to |names|
      invariant forall x :: CountIn(sum, x) == CountIn(a, x) + if x in names[..i] then CountIn(b, x) else 0
      invariant forall x :: x in sum ==> x in a || x in names[..i]
    {
      ElemsPrefix(names, i);
      assert names[i] in Elems(names) && names[i] !in names[..i];
      assert forall x :: x in names[..i + 1] <==> x in names[..i] || x == names[i];
      sum := sum[names[i] := CountIn(sum, names[i]) + b[names[i]]];
    }
    ElemsWhole(names);
    forall x ensures CountIn(sum, x) == CountIn(a, x) + CountIn(b, x) {
      assert x in names <==> x in Elems(names);
    }
    if (forall x :: x in a ==> a[x] > 0) && (forall x :: x in b ==> b[x] > 0) {
      forall x | x in sum ensures sum[x] > 0 {
        assert CountIn(sum, x) == CountIn(a, x) + CountIn(b, x);
        assert x in names ==> x in Elems(names);
      }
    }
  }

  // One pass over the tree, made twice: first to count, and then, given the total, to resolve negations as well.
  method ResolveSharedRefs(e: Expr, total: Counts) returns (r: Expr, counts: Counts)
    requires total != map[] ==> CountsAll(e, total)
    ensures Counted(e, counts) && r == if total == map[] then e else Resolved(e, total)
    decreases e, 1
  {
    r, counts := e, map[];
    match e
    case VertexExpr(_, ref, _) => if ref.Some? { counts := counts[ref.value := 1]; }
    case EdgeExpr(_, _, _) =>
    case NoopExpr =>
    case ConcatenationExpr(ops) =>
      var rs;
      rs, counts := ResolveEach(ops, total);
      r := ConcatenationExpr(rs);
    case OrExpr(ops) =>
      var rs;
      rs, counts := ResolveEach(ops, total);
      r := OrExpr(rs);
    case AndExpr(ops) =>
      var rs;
      rs, counts := ResolveEach(ops, total);
      r := AndExpr(rs);
    case OperationExpr(operation, op) =>
      var q;
      q, counts := ResolveSharedRefs(op, total);
      r := OperationExpr(operation, q);
      if operation.Unless? && total != map[] {
        var shared := set x | x in counts && total[x] > counts[x];
        SharedAreCounted(op, counts, total);
        r := OperationExpr(Unless(shared), q);
      }
    case RepetitionExpr(min, max, op) =>
      var q;
      q, counts := ResolveSharedRefs(op, total);
      r := RepetitionExpr(min, max, q);
  }

  lemma SharedAreCounted(op: Expr, counts: Counts, total: Counts)
    requires Counted(op, counts) && CountsAll(op, total)
    ensures (forall x :: x in counts ==> x in total) && SharedIn(op, total) == set x | x in counts &&
        total[x] > counts[x]
  {
    forall x ensures x in counts <==> Occurrences(op, x) > 0 { assert CountIn(counts, x) == Occurrences(op, x); }
    forall x | x in counts ensures counts[x] == Occurrences(op, x) && x in total {
      assert CountIn(counts, x) == Occurrences(op, x);
    }
    var shared := set x | x in counts && total[x] > counts[x];
    forall x ensures x in SharedIn(op, total) <==> x in shared {}
  }

  method ResolveEach(es: seq<Expr>, total: Counts) returns (rs: seq<Expr>, counts: Counts)
    requires total != map[] ==> forall x :: OccurrencesInAll(es, x) > 0 ==> x in total
    ensures CountedAll(es, counts) && rs == if total == map[] then es else ResolvedEach(es, total)
    decreases es, 0
  {
    rs, counts := [], map[];
    for i := 0 to |es|
      invariant |rs| == i && CountedAll(es[..i], counts)
      invariant forall k :: 0 <= k < i ==> rs[k] == if total == map[] then es[k] else Resolved(es[k], total)
    {
      forall x ensures Occurrences(es[i], x) <= OccurrencesInAll(es, x) { OneAmongAll(es, i, x); }
      var r, more := ResolveSharedRefs(es[i], total);
      forall x ensures OccurrencesInAll(es[..i + 1], x) == OccurrencesInAll(es[..i], x) + Occurrences(es[i], x) {
        OneMoreExpr(es, i, x);
      }
      counts := AddCounts(counts, more);
      rs := rs + [r];
    }
    assert es[..|es|] == es;
  }

  lemma {:induction false} OneAmongAll(es: seq<Expr>, i: nat, x: RefName)
    requires i < |es|
    ensures Occurrences(es[i], x) <= OccurrencesInAll(es, x)
    decreases i
  {
    if i > 0 { OneAmongAll(es[1..], i - 1, x); }
  }

  lemma {:induction false} OneMoreExpr(es: seq<Expr>, i: nat, x: RefName)
    requires i < |es|
    ensures OccurrencesInAll(es[..i + 1], x) == OccurrencesInAll(es[..i], x) + Occurrences(es[i], x)
    decreases i
  {
    if i == 0 {
      assert es[..1][1..] == [] && es[..0] == [];
    } else {
      assert es[..i + 1][1..] == es[1..][..i] && es[..i][1..] == es[1..][..i - 1];
      OneMoreExpr(es[1..], i - 1, x);
    }
  }

  // --------------------------------------------------------------------------
  // Local refs are local
  // --------------------------------------------------------------------------

  // Operators that look at the whole region of the start have operands that don't split it.
  ghost predicate RegionsKept(p: Plan, bound: RefNames)
    decreases p, 0
  {
    match p
    case PVertex(_) => true
    case PEdge(_) => true
    case PNoop => true
    case PPath(_) => true
    case PPathToVertex(_, _, _) => true
    case PConcatenation(ops) => RegionsKeptInTurn(ops, bound)
    case POr(ops) => forall o :: o in ops ==> RegionsKept(o, bound)
    case PAndWithoutSetRef(ops) => forall o :: o in ops ==> RegionsKept(o, bound) && Changed(o, bound) == {}
    case PAnd(ops) => forall o :: o in ops ==> RegionsKept(o, bound)
    case PAllAnd(ops) => forall o :: o in ops ==> RegionsKept(o, bound)
    case PAllWithoutSetRef(op) => RegionsKept(op, bound) && Changed(op, bound) == {}
    case PAll(op) => RegionsKept(op, bound)
    case PIfWithoutSetRef(op) => RegionsKept(op, bound) && Changed(op, bound) == {}
    case PIf(op) => RegionsKept(op, bound)
    case PUnlessWithoutSetNonLocalRef(op, shared) => RegionsKept(op, bound) && Changed(op, bound) * shared == {}
    case PUnless(op, _) => RegionsKept(op, bound)
    case PSkip(op) => RegionsKept(op, bound)
    case PMaybe(op) => RegionsKept(op, bound) && Changed(op, bound) == {}
    case PNested(names, plan) => RegionsKept(plan, bound * names)
    case PRepetition(op, _, _) => RegionsKept(op, bound) && Changed(op, bound) == {}
  }

  ghost predicate RegionsKeptInTurn(ops: seq<Plan>, bound: RefNames)
    decreases ops, 0
  {
    ops != [] ==> RegionsKept(ops[0], bound) && RegionsKeptInTurn(ops[1..], Bound(ops[0], bound))
  }

  // The used refs occur outside of the expression, somewhere in the whole pattern.
  ghost predicate Outside(total: Counts, used: RefNames, e: Expr) {
    forall x :: Occurrences(e, x) <= CountIn(total, x) && (x in used ==> Occurrences(e, x) < CountIn(total, x))
  }

  ghost predicate OutsideAll(total: Counts, used: RefNames, es: seq<Expr>) {
    forall x :: OccurrencesInAll(es, x) <= CountIn(total, x) &&
        (x in used ==> OccurrencesInAll(es, x) < CountIn(total, x))
  }

  lemma OutsideEach(total: Counts, used: RefNames, es: seq<Expr>, i: nat)
    requires OutsideAll(total, used, es) && i < |es|
    ensures Outside(total, used, es[i])
  {
    forall x ensures Occurrences(es[i], x) <= OccurrencesInAll(es, x) { OneAmongAll(es, i, x); }
  }

  lemma {:induction false} NaiveMentions(e: Expr)
    ensures Mentioned(Naive(e)) == RefsIn(e)
    decreases e
  {
    hide Naive, Mentioned, RefsIn;
    match e
    case VertexExpr(_, _, _) => SingleMentions(e);
    case EdgeExpr(_, _, _) => SingleMentions(e);
    case NoopExpr => SingleMentions(e);
    case ConcatenationExpr(ops) =>
      NaivesMention(ops);
      OperandsMention(ops);
    case OrExpr(ops) =>
      NaivesMention(ops);
      OperandsMention(ops);
    case AndExpr(ops) =>
      NaivesMention(ops);
      OperandsMention(ops);
    case OperationExpr(operation, op) =>
      if operation.All? && op.AndExpr? {
        NaivesMention(op.operands);
        OperandsMention(op.operands);
      } else {
        NaiveMentions(op);
        OperationMentions(operation, op);
      }
    case RepetitionExpr(min, max, op) =>
      NaiveMentions(op);
      RepetitionMentions(min, max, op);
  }

  lemma SingleMentions(e: Expr)
    requires e.VertexExpr? || e.EdgeExpr? || e.NoopExpr?
    ensures Mentioned(Naive(e)) == RefsIn(e)
  {}

  lemma OperandsMention(ops: seq<Expr>)
    requires MentionedInAny(NaiveEach(ops)) == RefsInAny(ops)
    ensures Mentioned(Naive(ConcatenationExpr(ops))) == RefsIn(ConcatenationExpr(ops))
    ensures Mentioned(Naive(OrExpr(ops))) == RefsIn(OrExpr(ops))
    ensures Mentioned(Naive(AndExpr(ops))) == RefsIn(AndExpr(ops))
    ensures Mentioned(Naive(OperationExpr(All, AndExpr(ops)))) == RefsIn(OperationExpr(All, AndExpr(ops)))
  {
    hide MentionedInAny, NaiveEach;
  }

  lemma RepetitionMentions(min: nat, max: nat, op: Expr)
    requires Mentioned(Naive(op)) == RefsIn(op)
    ensures Mentioned(Naive(RepetitionExpr(min, max, op))) == RefsIn(RepetitionExpr(min, max, op))
  {
    assert Naive(RepetitionExpr(min, max, op)) == PRepetition(Naive(op), min, max);
    hide Naive;
  }

  lemma OperationMentions(operation: Operation, op: Expr)
    requires !(operation.All? && op.AndExpr?)
    requires Mentioned(Naive(op)) == RefsIn(op)
    ensures Mentioned(Naive(OperationExpr(operation, op))) == RefsIn(OperationExpr(operation, op))
  {
    var n := Naive(OperationExpr(operation, op));
    assert n.operand == Naive(op) by { hide Mentioned; }
    hide Naive;
  }

  lemma {:induction false} NaivesMention(es: seq<Expr>)
    ensures MentionedInAny(NaiveEach(es)) == RefsInAny(es)
    decreases es
  {
    if es != [] {
      assert NaiveEach(es)[1..] == NaiveEach(es[1..]);
      NaiveMentions(es[0]);
      NaivesMention(es[1..]);
    }
  }

  lemma {:induction false} RefsOccur(e: Expr, x: RefName)
    ensures x in RefsIn(e) <==> Occurrences(e, x) > 0
    decreases e
  {
    match e
    case VertexExpr(_, _, _) =>
    case EdgeExpr(_, _, _) =>
    case NoopExpr =>
    case ConcatenationExpr(ops) => RefsOccurInAll(ops, x);
    case OrExpr(ops) => RefsOccurInAll(ops, x);
    case AndExpr(ops) => RefsOccurInAll(ops, x);
    case OperationExpr(_, op) => RefsOccur(op, x);
    case RepetitionExpr(_, _, op) => RefsOccur(op, x);
  }

  lemma {:induction false} RefsOccurInAll(es: seq<Expr>, x: RefName)
    ensures x in RefsInAny(es) <==> OccurrencesInAll(es, x) > 0
    decreases es
  {
    if es != [] {
      RefsOccur(es[0], x);
      RefsOccurInAll(es[1..], x);
    }
  }

  lemma {:induction false} ResolvedRefs(e: Expr, total: Counts)
    ensures RefsIn(Resolved(e, total)) == RefsIn(e)
    decreases e
  {
    match e
    case VertexExpr(_, _, _) =>
    case EdgeExpr(_, _, _) =>
    case NoopExpr =>
    case ConcatenationExpr(ops) => ResolvedRefsOfAll(ops, total);
    case OrExpr(ops) => ResolvedRefsOfAll(ops, total);
    case AndExpr(ops) => ResolvedRefsOfAll(ops, total);
    case OperationExpr(_, op) => ResolvedRefs(op, total);
    case RepetitionExpr(_, _, op) => ResolvedRefs(op, total);
  }

  lemma {:induction false} ResolvedRefsOfAll(es: seq<Expr>, total: Counts)
    ensures RefsInAny(ResolvedEach(es, total)) == RefsInAny(es)
    decreases es
  {
    if es != [] {
      assert ResolvedEach(es, total)[1..] == ResolvedEach(es[1..], total);
      ResolvedRefs(es[0], total);
      ResolvedRefsOfAll(es[1..], total);
    }
  }

  lemma MentionedOccur(e: Expr, total: Counts, x: RefName)
    requires x in Mentioned(Naive(Resolved(e, total)))
    ensures Occurrences(e, x) > 0
  {
    NaiveMentions(Resolved(e, total));
    ResolvedRefs(e, total);
    RefsOccur(e, x);
  }

  // In a resolved pattern nothing outside of a negation uses the refs that are local to it: if its optional and
  // repeated parts set no refs, the pattern has a reading at single assignments.
  lemma {:induction false} ResolvedIsPointwise(e: Expr, total: Counts, bound: RefNames, used: RefNames)
    requires Outside(total, used, e) && RegionsKept(Naive(Resolved(e, total)), bound)
    ensures IsPointwise(Naive(Resolved(e, total)), bound, used)
    decreases e
  {
    match e
    case VertexExpr(_, _, _) =>
    case EdgeExpr(_, _, _) =>
    case NoopExpr =>
    case ConcatenationExpr(ops) => ResolvedInTurn(ops, total, bound, used);
    case OrExpr(ops) => ResolvedOperands(ops, total, bound, used);
    case AndExpr(ops) => ResolvedOperands(ops, total, bound, used);
    case OperationExpr(operation, op) =>
      OperandIsOutside(e, total, used);
      if operation.All? && op.AndExpr? {
        AllAndResolved(op.operands, total);
        ResolvedOperands(op.operands, total, bound, used);
      } else {
        OperationResolved(operation, op, total);
        OperandKeeps(operation, op, total, bound);
        ResolvedIsPointwise(op, total, bound, used);
        if operation.Unless? { LocalsAreUnused(op, total, used); }
        OperationIsPointwise(operation, op, total, bound, used);
      }
    case RepetitionExpr(_, _, op) => ResolvedIsPointwise(op, total, bound, used);
  }

  lemma OperandIsOutside(e: Expr, total: Counts, used: RefNames)
    requires e.OperationExpr? && Outside(total, used, e)
    ensures Outside(total, used, e.operand)
    ensures e.operand.AndExpr? ==> OutsideAll(total, used, e.operand.operands)
  {
    forall x ensures Occurrences(e, x) == Occurrences(e.operand, x) {}
    if e.operand.AndExpr? {
      forall x ensures Occurrences(e.operand, x) == OccurrencesInAll(e.operand.operands, x) {}
    }
  }

  lemma AllAndResolved(ops: seq<Expr>, total: Counts)
    ensures Naive(Resolved(OperationExpr(All, AndExpr(ops)), total)) == PAllAnd(NaiveEach(ResolvedEach(ops, total)))
  {}

  ghost function ResolvedOperation(operation: Operation, op: Expr, total: Counts): Operation {
    if operation.Unless? then Unless(SharedIn(op, total)) else operation
  }

  lemma OperationResolved(operation: Operation, op: Expr, total: Counts)
    requires !(operation.All? && op.AndExpr?)
    ensures Naive(Resolved(OperationExpr(operation, op), total)) ==
      GenericPlan(ResolvedOperation(operation, op, total), Naive(Resolved(op, total)))
  {
    assert op.AndExpr? <==> Resolved(op, total).AndExpr?;
  }

  lemma OperandKeeps(operation: Operation, op: Expr, total: Counts, bound: RefNames)
    requires RegionsKept(GenericPlan(ResolvedOperation(operation, op, total), Naive(Resolved(op, total))), bound)
    ensures RegionsKept(Naive(Resolved(op, total)), bound)
    ensures operation.Maybe? ==> Changed(Naive(Resolved(op, total)), bound) == {}
  {
    hide Naive, Resolved, Changed;
  }

  lemma OperationIsPointwise(operation: Operation, op: Expr, total: Counts, bound: RefNames, used: RefNames)
    requires IsPointwise(Naive(Resolved(op, total)), bound, used)
    requires operation.Maybe? ==> Changed(Naive(Resolved(op, total)), bound) == {}
    requires operation.Unless? ==> LocalNames(Naive(Resolved(op, total)), SharedIn(op, total)) !! used
    ensures IsPointwise(GenericPlan(ResolvedOperation(operation, op, total), Naive(Resolved(op, total))), bound, used)
  {
    hide Naive, Resolved, Changed, LocalNames;
  }

  lemma LocalsAreUnused(op: Expr, total: Counts, used: RefNames)
    requires Outside(total, used, op)
    ensures LocalNames(Naive(Resolved(op, total)), SharedIn(op, total)) !! used
  {
    var ns := Mentioned(Naive(Resolved(op, total)));
    forall x | x in ns && x in used ensures x in SharedIn(op, total) {
      MentionedOccur(op, total, x);
      assert Occurrences(op, x) < CountIn(total, x);
    }
  }

  lemma {:induction false} ResolvedOperands(es: seq<Expr>, total: Counts, bound: RefNames, used: RefNames)
    requires OutsideAll(total, used, es) && forall n :: n in NaiveEach(ResolvedEach(es, total)) ==>
        RegionsKept(n, bound)
    ensures forall n :: n in NaiveEach(ResolvedEach(es, total)) ==> IsPointwise(n, bound, used)
    decreases es
  {
    var ns := NaiveEach(ResolvedEach(es, total));
    forall i | 0 <= i < |es| ensures IsPointwise(ns[i], bound, used) {
      assert ns[i] in ns;
      OutsideEach(total, used, es, i);
      ResolvedIsPointwise(es[i], total, bound, used);
    }
  }

  lemma {:induction false} ResolvedInTurn(es: seq<Expr>, total: Counts, bound: RefNames, used: RefNames)
    requires OutsideAll(total, used, es) && RegionsKeptInTurn(NaiveEach(ResolvedEach(es, total)), bound)
    ensures ConcatIsPointwise(NaiveEach(ResolvedEach(es, total)), bound, used)
    decreases es
  {
    if es != [] {
      var n := Naive(Resolved(es[0], total));
      assert NaiveEach(ResolvedEach(es, total))[1..] == NaiveEach(ResolvedEach(es[1..], total));
      OutsideEach(total, used, es, 0);
      ResolvedIsPointwise(es[0], total, bound, used);
      ChangedAreMentioned(n, bound);
      forall x | x in Changed(n, bound) ensures OccurrencesInAll(es[1..], x) < CountIn(total, x) {
        MentionedOccur(es[0], total, x);
        assert OccurrencesInAll(es, x) <= CountIn(total, x);
      }
      ResolvedInTurn(es[1..], total, Bound(n, bound), used + Changed(n, bound));
    }
  }

  // As the grammar gives them: no shared refs are known.
  ghost predicate Unresolved(e: Expr)
    decreases e
  {
    match e
    case ConcatenationExpr(ops) => forall o :: o in ops ==> Unresolved(o)
    case OrExpr(ops) => forall o :: o in ops ==> Unresolved(o)
    case AndExpr(ops) => forall o :: o in ops ==> Unresolved(o)
    case OperationExpr(operation, op) => Unresolved(op) && (operation.Unless? ==> operation.shared == {})
    case RepetitionExpr(_, _, op) => Unresolved(op)
    case _ => true
  }

  lemma {:induction false} NothingToResolve(e: Expr)
    requires Unresolved(e)
    ensures Resolved(e, map[]) == e
    decreases e
  {
    match e
    case VertexExpr(_, _, _) =>
    case EdgeExpr(_, _, _) =>
    case NoopExpr =>
    case ConcatenationExpr(ops) => NothingToResolveInAll(ops);
    case OrExpr(ops) => NothingToResolveInAll(ops);
    case AndExpr(ops) => NothingToResolveInAll(ops);
    case OperationExpr(operation, op) =>
      NothingToResolve(op);
      assert SharedIn(op, map[]) == {};
    case RepetitionExpr(_, _, op) => NothingToResolve(op);
  }

  lemma {:induction false} NothingToResolveInAll(es: seq<Expr>)
    requires forall e :: e in es ==> Unresolved(e)
    ensures ResolvedEach(es, map[]) == es
    decreases es
  {
    forall i | 0 <= i < |es| ensures ResolvedEach(es, map[])[i] == es[i] { NothingToResolve(es[i]); }
  }

  // The shared refs of every negation are exactly the refs that occur in it, and elsewhere in the whole pattern.
  ghost predicate SharesExactly(e: Expr, whole: Expr)
    decreases e
  {
    match e
    case ConcatenationExpr(ops) => forall o :: o in ops ==> SharesExactly(o, whole)
    case OrExpr(ops) => forall o :: o in ops ==> SharesExactly(o, whole)
    case AndExpr(ops) => forall o :: o in ops ==> SharesExactly(o, whole)
    case OperationExpr(operation, op) =>
      SharesExactly(op, whole) &&
      (operation.Unless? ==>
        forall x :: x in operation.shared <==> 0 < Occurrences(op, x) < Occurrences(whole, x))
    case RepetitionExpr(_, _, op) => SharesExactly(op, whole)
    case _ => true
  }

  // The pattern with nothing shared.
  function Forgotten(e: Expr): Expr
    decreases e
  {
    match e
    case ConcatenationExpr(ops) => ConcatenationExpr(ForgottenEach(ops))
    case OrExpr(ops) => OrExpr(ForgottenEach(ops))
    case AndExpr(ops) => AndExpr(ForgottenEach(ops))
    case OperationExpr(operation, op) =>
      OperationExpr(if operation.Unless? then Unless({}) else operation, Forgotten(op))
    case RepetitionExpr(min, max, op) => RepetitionExpr(min, max, Forgotten(op))
    case _ => e
  }

  function ForgottenEach(es: seq<Expr>): (rs: seq<Expr>)
    ensures |rs| == |es| && forall i :: 0 <= i < |es| ==> rs[i] == Forgotten(es[i])
    decreases es
  {
    if es == [] then [] else [Forgotten(es[0])] + ForgottenEach(es[1..])
  }

  lemma {:induction false} ResolvedOccurs(e: Expr, total: Counts, x: RefName)
    ensures Occurrences(Resolved(e, total), x) == Occurrences(e, x)
    decreases e
  {
    match e
    case VertexExpr(_, _, _) =>
    case EdgeExpr(_, _, _) =>
    case NoopExpr =>
    case ConcatenationExpr(ops) => ResolvedOccurInAll(ops, total, x);
    case OrExpr(ops) => ResolvedOccurInAll(ops, total, x);
    case AndExpr(ops) => ResolvedOccurInAll(ops, total, x);
    case OperationExpr(_, op) => ResolvedOccurs(op, total, x);
    case RepetitionExpr(_, _, op) => ResolvedOccurs(op, total, x);
  }

  lemma {:induction false} ResolvedOccurInAll(es: seq<Expr>, total: Counts, x: RefName)
    ensures OccurrencesInAll(ResolvedEach(es, total), x) == OccurrencesInAll(es, x)
    decreases es
  {
    if es != [] {
      assert ResolvedEach(es, total)[1..] == ResolvedEach(es[1..], total);
      ResolvedOccurs(es[0], total, x);
      ResolvedOccurInAll(es[1..], total, x);
    }
  }

  lemma {:induction false} ResolvedShares(e: Expr, total: Counts, whole: Expr)
    requires Counted(whole, total)
    ensures SharesExactly(Resolved(e, total), whole)
    decreases e
  {
    match e
    case VertexExpr(_, _, _) =>
    case EdgeExpr(_, _, _) =>
    case NoopExpr =>
    case ConcatenationExpr(ops) => ResolvedAllShare(ops, total, whole);
    case OrExpr(ops) => ResolvedAllShare(ops, total, whole);
    case AndExpr(ops) => ResolvedAllShare(ops, total, whole);
    case OperationExpr(operation, op) =>
      ResolvedShares(op, total, whole);
      if operation.Unless? {
        forall x ensures x in SharedIn(op, total) <==> 0 < Occurrences(Resolved(op, total), x) < Occurrences(whole, x) {
          ResolvedOccurs(op, total, x);
          assert CountIn(total, x) == Occurrences(whole, x);
        }
      }
    case RepetitionExpr(_, _, op) => ResolvedShares(op, total, whole);
  }

  lemma {:induction false} ResolvedAllShare(es: seq<Expr>, total: Counts, whole: Expr)
    requires Counted(whole, total)
    ensures forall r :: r in ResolvedEach(es, total) ==> SharesExactly(r, whole)
    decreases es
  {
    forall i | 0 <= i < |es| ensures SharesExactly(ResolvedEach(es, total)[i], whole) {
      ResolvedShares(es[i], total, whole);
    }
  }

  lemma {:induction false} ResolvedIsTheSame(e: Expr, total: Counts)
    requires Unresolved(e)
    ensures Forgotten(Resolved(e, total)) == e
    decreases e
  {
    match e
    case VertexExpr(_, _, _) =>
    case EdgeExpr(_, _, _) =>
    case NoopExpr =>
    case ConcatenationExpr(ops) => ResolvedAreTheSame(ops, total);
    case OrExpr(ops) => ResolvedAreTheSame(ops, total);
    case AndExpr(ops) => ResolvedAreTheSame(ops, total);
    case OperationExpr(_, op) => ResolvedIsTheSame(op, total);
    case RepetitionExpr(_, _, op) => ResolvedIsTheSame(op, total);
  }

  lemma {:induction false} ResolvedAreTheSame(es: seq<Expr>, total: Counts)
    requires forall e :: e in es ==> Unresolved(e)
    ensures ForgottenEach(ResolvedEach(es, total)) == es
    decreases es
  {
    forall i | 0 <= i < |es| ensures ForgottenEach(ResolvedEach(es, total))[i] == es[i] {
      ResolvedIsTheSame(es[i], total);
    }
  }

  // Resolves the shared refs of a whole pattern: the refs of a negation that occur outside of it. Then the pattern has
  // a reading at single assignments, unless its optional or repeated parts set refs.
  method Resolve(e: Expr) returns (r: Expr)
    requires Unresolved(e)
    ensures Forgotten(r) == e && SharesExactly(r, r)
    ensures RegionsKept(Naive(r), {}) ==> IsPointwise(Naive(r), {}, {})
  {
    var total, counts;
    r, total := ResolveSharedRefs(e, map[]);
    r, counts := ResolveSharedRefs(r, total);
    NothingToResolve(e);
    ResolvedIsTheSame(e, total);
    forall x ensures Occurrences(r, x) == Occurrences(e, x) { ResolvedOccurs(e, total, x); }
    ResolvedShares(e, total, r);
    if RegionsKept(Naive(r), {}) { ResolvedIsPointwise(e, total, {}, {}); }
  }
}
