/** Parsed patterns, with refs and placeholders resolved. */
module Expressions {
  import opened Base
  import opened Plans

  datatype Operation = All | If | Unless(shared: set<RefName>) | Skip | Maybe

  datatype Expr =
    | VertexExpr(typeName: Option<TypeName>, ref: Option<RefName>, placeholder: Option<VertexID>)
    | EdgeExpr(direction: Direction, forward: Labels, backward: Labels)
    | NoopExpr
    | ConcatenationExpr(operands: seq<Expr>)
    | OrExpr(operands: seq<Expr>)
    | AndExpr(operands: seq<Expr>)
    | OperationExpr(operation: Operation, operand: Expr)
    | RepetitionExpr(min: nat, max: nat, operand: Expr)

  predicate IsUnless(e: Expr) { e.OperationExpr? && e.operation.Unless? }

  // Operators have operands, concatenations have several, and edges that are given labels have some.
  ghost predicate ValidExpr(e: Expr) {
    match e
    case VertexExpr(_, _, _) => true
    case EdgeExpr(direction, forward, backward) => ValidLabels(forward) && ValidLabels(backward)
    case NoopExpr => true
    case ConcatenationExpr(ops) => |ops| >= 2 && forall o :: o in ops ==> ValidExpr(o)
    case OrExpr(ops) => ops != [] && forall o :: o in ops ==> ValidExpr(o)
    case AndExpr(ops) => ops != [] && forall o :: o in ops ==> ValidExpr(o)
    case OperationExpr(_, op) => ValidExpr(op)
    case RepetitionExpr(min, max, op) => ValidExpr(op)
  }
}
