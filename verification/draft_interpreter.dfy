/**
 * The earlier expression-only evaluator. It knows binary, grouping,
 * literal and unary nodes, keeps no variables, and its `+` accepts only two
 * numbers or two strings; everything else it shares with the statement
 * evaluator.
 */
module DraftInterpreter {
  import opened Wrappers
  import opened Values
  import opened Tokens
  import opened Faults
  import opened Ast
  import opened Semantics

  /** Evaluates operands left to right; the first fault stops evaluation. */
  function DraftEval(e: Expr, ops: FloatOps): (r: Result<Value, Fault>)
    requires InDraftFamily(e)
    ensures r.Failure? ==> r.error.LoxError?
    decreases e
  {
    match e
    case BinaryExpr(left, operator, right) =>
      var l := DraftEval(left, ops);
      if l.Failure? then l
      else
        var rr := DraftEval(right, ops);
        if rr.Failure? then rr
        else BinaryOp(operator, l.value, rr.value, Strict, ops)
    case GroupingExpr(inner) =>
      DraftEval(inner, ops)
    case LiteralExpr(literal) =>
      Success(literal)
    case UnaryExpr(operator, right) =>
      var rr := DraftEval(right, ops);
      if rr.Failure? then rr
      else UnaryOp(operator, rr.value, ops)
  }

  /** What one call of the draft `Interpret` writes: a value line or a reported error. */
  datatype DraftRun = Printed(line: string) | Reported(error: RuntimeError)

  /**
   * `Interpret`: prints the expression's value as the statement evaluator's
   * `print` would, or reports the runtime error that stopped it.
   */
  function DraftInterpret(e: Expr, ops: FloatOps): (r: DraftRun)
    requires InDraftFamily(e)
    ensures r.Printed? <==> DraftEval(e, ops).Success?
    ensures r.Printed? ==> r.line == Semantics.Stringify(DraftEval(e, ops).value, ops)
    ensures r.Reported? ==> DraftEval(e, ops) == Failure(LoxError(r.error))
  {
    match DraftEval(e, ops)
    case Success(v) => Printed(Semantics.Stringify(v, ops))
    case Failure(fault) => Reported(fault.error)
  }
}
