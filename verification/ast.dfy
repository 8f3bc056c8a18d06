/**
 * The syntax tree: seven expression variants and five statement variants.
 * Consumers use `match`, which is exhaustive, in place of the visitor's
 * double dispatch.
 */
module Ast {
  import opened Wrappers
  import opened Values
  import opened Tokens

  datatype Expr =
    | AssignExpr(name: Token, value: Expr)
    | BinaryExpr(left: Expr, operator: Token, right: Expr)
    | GroupingExpr(expression: Expr)
    | LiteralExpr(literal: Value)
    | UnaryExpr(operator: Token, right: Expr)
    | VariableExpr(name: Token)
    | LogicalExpr(left: Expr, op: Token, right: Expr)

  /** A block's statements are ordered; `var` and `else` parts may be absent. */
  datatype Stmt =
    | BlockStmt(statements: seq<Stmt>)
    | ExpressionStmt(expression: Expr)
    | PrintStmt(expression: Expr)
    | VarStmt(name: Token, initializer: Option<Expr>)
    | IfStmt(condition: Expr, thenBranch: Stmt, elseBranch: Option<Stmt>)

  /**
   * Expressions built only from the four variants of the older expression
   * family (binary, grouping, literal, unary): the ones the draft evaluator
   * and the printer handle.
   */
  predicate InDraftFamily(e: Expr) {
    match e
    case BinaryExpr(l, _, r) => InDraftFamily(l) && InDraftFamily(r)
    case GroupingExpr(inner) => InDraftFamily(inner)
    case LiteralExpr(_) => true
    case UnaryExpr(_, r) => InDraftFamily(r)
    case _ => false
  }

  /** Expressions that contain no assignment anywhere. */
  predicate AssignmentFree(e: Expr) {
    match e
    case AssignExpr(_, _) => false
    case BinaryExpr(l, _, r) => AssignmentFree(l) && AssignmentFree(r)
    case GroupingExpr(inner) => AssignmentFree(inner)
    case LiteralExpr(_) => true
    case UnaryExpr(_, r) => AssignmentFree(r)
    case VariableExpr(_) => true
    case LogicalExpr(l, _, r) => AssignmentFree(l) && AssignmentFree(r)
  }
}
