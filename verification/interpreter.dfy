/**
 * The statement evaluator: expressions evaluate to a value or a fault and
 * may rebind variables; statements run in order, print lines, and stop at
 * the first fault. The mutable current environment becomes an `Env`
 * threaded through every call.
 */
module Interpreter {
  import opened Wrappers
  import opened Values
  import opened Tokens
  import opened Faults
  import opened Ast
  import opened Environment
  import opened Semantics

  /** The outcome of evaluating an expression, with the environment after it. */
  datatype Evaluated = Evaluated(result: Result<Value, Fault>, env: Env)

  /**
   * Evaluation order is left to right, and an operand's fault stops the
   * evaluation with the environment as that operand left it. Assignment
   * only rebinds names, so the shape of the scope chain never changes.
   * Each variant has its own function, as each has its own visit method.
   */
  function Eval(e: Expr, env: Env, ops: FloatOps): (r: Evaluated)
    ensures SameShape(env, r.env)
    decreases e, 1
  {
    match e
    case AssignExpr(name, value) => EvalAssign(name, value, env, ops)
    case BinaryExpr(left, operator, right) => EvalBinary(left, operator, right, env, ops)
    case GroupingExpr(inner) => Eval(inner, env, ops)
    case LiteralExpr(literal) => Evaluated(Success(literal), env)
    case UnaryExpr(operator, right) => EvalUnary(operator, right, env, ops)
    case VariableExpr(name) => EvalVariable(name, env)
    case LogicalExpr(left, op, right) => EvalLogical(left, op, right, env, ops)
  }

  /** Assignment: the right-hand side first, then the rebinding; it yields the value. */
  function EvalAssign(name: Token, value: Expr, env: Env, ops: FloatOps): (r: Evaluated)
    ensures SameShape(env, r.env)
    decreases AssignExpr(name, value), 0
  {
    var v := Eval(value, env, ops);
    if v.result.Failure? then v
    else
      match Environment.Assign(v.env, name, v.result.value)
      case Success(env') => Evaluated(v.result, env')
      case Failure(err) => Evaluated(Failure(LoxError(err)), v.env)
  }

  /** Both operands, left then right, then the operator with the concatenating `+`. */
  function EvalBinary(left: Expr, operator: Token, right: Expr, env: Env, ops: FloatOps): (r: Evaluated)
    ensures SameShape(env, r.env)
    decreases BinaryExpr(left, operator, right), 0
  {
    var l := Eval(left, env, ops);
    if l.result.Failure? then l
    else
      var rr := Eval(right, l.env, ops);
      if rr.result.Failure? then rr
      else Evaluated(BinaryOp(operator, l.result.value, rr.result.value, Concatenating, ops), rr.env)
  }

  function EvalUnary(operator: Token, right: Expr, env: Env, ops: FloatOps): (r: Evaluated)
    ensures SameShape(env, r.env)
    decreases UnaryExpr(operator, right), 0
  {
    var rr := Eval(right, env, ops);
    if rr.result.Failure? then rr
    else Evaluated(UnaryOp(operator, rr.result.value, ops), rr.env)
  }

  /**
   * A variable read answers the innermost binding's value, or fails with
   * "Undefined variable x." when no scope binds the name.
   */
  function EvalVariable(name: Token, env: Env): (r: Evaluated)
    ensures r.env == env
    ensures r.result.Success? <==> Bound(env, name.lexeme)
    ensures forall i :: Innermost(env, name.lexeme, i) ==> r.result == Success(env[i][name.lexeme])
    ensures r.result.Failure? ==> r.result.error == LoxError(UndefinedVariable(name))
  {
    match Environment.Get(env, name)
    case Success(v) => Evaluated(Success(v), env)
    case Failure(err) => Evaluated(Failure(LoxError(err)), env)
  }

  /**
   * Whether the left operand of `or` (any other operator acts as `and`)
   * settles the result: a truthy one for `or`, a falsy one otherwise.
   */
  predicate Decides(op: Token, left: Value) {
    op.kind == Or <==> IsTruthy(left)
  }

  function EvalLogical(left: Expr, op: Token, right: Expr, env: Env, ops: FloatOps): (r: Evaluated)
    ensures SameShape(env, r.env)
    decreases LogicalExpr(left, op, right), 0
  {
    var l := Eval(left, env, ops);
    if l.result.Failure? || Decides(op, l.result.value) then l
    else Eval(right, l.env, ops)
  }

  /**
   * The outcome of running statements: the fault that stopped them, if
   * any, the environment after them and the lines they printed.
   */
  datatype Executed = Executed(fault: Option<Fault>, env: Env, output: seq<string>)

  /**
   * How a statement may change the scope chain: its depth and every
   * enclosing scope keep their names, and the current scope only gains
   * names.
   */
  predicate Grows(before: seq<Scope>, after: seq<Scope>) {
    && |before| == |after|
    && |before| > 0
    && before[0].Keys <= after[0].Keys
    && forall i :: 1 <= i < |before| ==> before[i].Keys == after[i].Keys
  }

  function Exec(s: Stmt, env: Env, ops: FloatOps): (r: Executed)
    ensures Grows(env, r.env)
    decreases s, 1
  {
    match s
    case BlockStmt(statements) => ExecBlock(statements, env, ops)
    case ExpressionStmt(expression) =>
      var v := Eval(expression, env, ops);
      Executed(if v.result.Failure? then Some(v.result.error) else None, v.env, [])
    case PrintStmt(expression) =>
      var v := Eval(expression, env, ops);
      if v.result.Failure? then Executed(Some(v.result.error), v.env, [])
      else Executed(None, v.env, [Semantics.Stringify(v.result.value, ops)])
    case VarStmt(name, initializer) => ExecVar(name, initializer, env, ops)
    case IfStmt(condition, thenBranch, elseBranch) => ExecIf(condition, thenBranch, elseBranch, env, ops)
  }

  /** A block runs in a fresh innermost scope, which is dropped however the block ends. */
  function ExecBlock(statements: seq<Stmt>, env: Env, ops: FloatOps): (r: Executed)
    ensures Grows(env, r.env)
    decreases BlockStmt(statements), 0
  {
    var inner := ExecSeq(statements, [map[]] + env, ops);
    Executed(inner.fault, inner.env[1..], inner.output)
  }

  /** `var`: the initializer's value, or nil without one, defined in the current scope. */
  function ExecVar(name: Token, initializer: Option<Expr>, env: Env, ops: FloatOps): (r: Executed)
    ensures Grows(env, r.env)
    decreases VarStmt(name, initializer), 0
  {
    var v := if initializer.Some? then Eval(initializer.value, env, ops) else Evaluated(Success(Value.Nil), env);
    if v.result.Failure? then Executed(Some(v.result.error), v.env, [])
    else
      match Define(v.env, name, v.result.value)
      case Success(env') => Executed(None, env', [])
      case Failure(err) => Executed(Some(LoxError(err)), v.env, [])
  }

  function ExecIf(condition: Expr, thenBranch: Stmt, elseBranch: Option<Stmt>, env: Env, ops: FloatOps): (r: Executed)
    ensures Grows(env, r.env)
    decreases IfStmt(condition, thenBranch, elseBranch), 0
  {
    var c := Eval(condition, env, ops);
    if c.result.Failure? then Executed(Some(c.result.error), c.env, [])
    else if IsTruthy(c.result.value) then Exec(thenBranch, c.env, ops)
    else if elseBranch.Some? then Exec(elseBranch.value, c.env, ops)
    else Executed(None, c.env, [])
  }

  /** Runs statements in order, stopping at the first fault. */
  function ExecSeq(ss: seq<Stmt>, env: Env, ops: FloatOps): (r: Executed)
    ensures Grows(env, r.env)
    ensures |ss| == 0 ==> r == Executed(None, env, [])
    decreases ss, 1
  {
    if |ss| == 0 then Executed(None, env, [])
    else
      var first := Exec(ss[0], env, ops);
      if first.fault.Some? then first
      else
        var rest := ExecSeq(ss[1..], first.env, ops);
        Executed(rest.fault, rest.env, first.output + rest.output)
  }

  /**
   * How one call of `Interpret` ends: every statement ran, a runtime error
   * was caught and reported, or a host exception escaped it and ends the
   * process.
   */
  datatype Outcome = Completed | Reported(error: RuntimeError) | Crashed(reason: string)

  datatype Run = Run(outcome: Outcome, env: Env, output: seq<string>)

  /**
   * `Interpret`: runs the statements in order against the interpreter's
   * long-lived environment, which the next call continues from; the first
   * runtime error ends the call and is handed to the error reporter.
   */
  function Interpret(stmts: seq<Stmt>, env: Env, ops: FloatOps): (r: Run)
    ensures Grows(env, r.env)
    ensures r.outcome.Completed? <==> ExecSeq(stmts, env, ops).fault.None?
    ensures r.outcome.Reported? ==> ExecSeq(stmts, env, ops).fault == Some(LoxError(r.outcome.error))
    ensures r.outcome.Crashed? ==> ExecSeq(stmts, env, ops).fault == Some(HostCrash(r.outcome.reason))
    ensures r.env == ExecSeq(stmts, env, ops).env && r.output == ExecSeq(stmts, env, ops).output
  {
    var x := ExecSeq(stmts, env, ops);
    match x.fault
    case None => Run(Completed, x.env, x.output)
    case Some(LoxError(err)) => Run(Reported(err), x.env, x.output)
    case Some(HostCrash(reason)) => Run(Crashed(reason), x.env, x.output)
  }
}
