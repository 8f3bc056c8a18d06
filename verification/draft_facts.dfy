/** How the draft evaluator relates to the statement evaluator. */
module DraftFacts {
  import opened Wrappers
  import opened Values
  import opened Tokens
  import opened Faults
  import opened Ast
  import opened Environment
  import opened Semantics
  import opened SemanticsFacts
  import opened Interpreter
  import opened DraftInterpreter

  /**
   * Wherever the draft succeeds, the statement evaluator computes the same
   * value, in any environment, and leaves the environment alone: its only
   * change to the shared expressions is to accept more `+` operands.
   */
  lemma {:induction false} DraftSuccessAgrees(e: Expr, env: Env, ops: FloatOps)
    requires InDraftFamily(e)
    requires DraftEval(e, ops).Success?
    ensures Eval(e, env, ops) == Evaluated(DraftEval(e, ops), env)
    decreases e
  {
    match e
    case BinaryExpr(left, operator, right) =>
      DraftSuccessAgrees(left, env, ops);
      DraftSuccessAgrees(right, env, ops);
      var l := DraftEval(left, ops).value;
      var r := DraftEval(right, ops).value;
      if operator.kind == Plus {
        ConcatenatingExtendsStrict(operator, l, r, ops);
      } else if NumericKind(operator.kind) {
        NumericOperatorsNeedNumbers(operator, l, r, Strict, ops);
      }
    case GroupingExpr(inner) =>
      DraftSuccessAgrees(inner, env, ops);
    case LiteralExpr(_) =>
    case UnaryExpr(_, right) =>
      DraftSuccessAgrees(right, env, ops);
  }

  /**
   * Where the draft succeeds, its `Interpret` writes the same line as the
   * statement evaluator running `print e;`, which completes and leaves the
   * environment as it was.
   */
  lemma DraftInterpretAgrees(e: Expr, env: Env, ops: FloatOps)
    requires InDraftFamily(e)
    requires DraftEval(e, ops).Success?
    ensures DraftInterpret(e, ops).Printed?
    ensures Interpret([PrintStmt(e)], env, ops) == Run(Completed, env, [DraftInterpret(e, ops).line])
  {
    DraftSuccessAgrees(e, env, ops);
    var line := Semantics.Stringify(DraftEval(e, ops).value, ops);
    assert Exec(PrintStmt(e), env, ops) == Executed(None, env, [line]);
    assert [PrintStmt(e)][1..] == [];
    assert ExecSeq([PrintStmt(e)], env, ops) == Executed(None, env, [line] + []);
    assert [line] + [] == [line];
  }

  /**
   * Where the draft's `+` rejects a string mixed with a non-nil
   * non-string, the statement evaluator joins the two texts.
   */
  lemma MixedPlusParts(op: Token, s: string, n: Double, ops: FloatOps)
    requires op.kind == Plus
    ensures InDraftFamily(BinaryExpr(LiteralExpr(Str(s)), op, LiteralExpr(Num(n))))
    ensures DraftEval(BinaryExpr(LiteralExpr(Str(s)), op, LiteralExpr(Num(n))), ops)
              == Failure(LoxError(RuntimeError(op, "Operands must be two numbers or two strings.")))
    ensures Eval(BinaryExpr(LiteralExpr(Str(s)), op, LiteralExpr(Num(n))), [map[]], ops).result
              == Success(Str(s + ops.cultureText(n)))
  {
    var env: Env := [map[]];
    var e := BinaryExpr(LiteralExpr(Str(s)), op, LiteralExpr(Num(n)));
    assert Eval(LiteralExpr(Str(s)), env, ops) == Evaluated(Success(Str(s)), env);
    assert Eval(LiteralExpr(Num(n)), env, ops) == Evaluated(Success(Num(n)), env);
    assert Eval(e, env, ops) == EvalBinary(LiteralExpr(Str(s)), op, LiteralExpr(Num(n)), env, ops);
    ConcatenatingPlusCases(op, Str(s), Num(n), ops);
    StrictPlusCases(op, Str(s), Num(n), ops);
  }
}
