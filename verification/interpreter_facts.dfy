/** What the statement evaluator promises about scopes, order and output. */
module InterpreterFacts {
  import opened Wrappers
  import opened Values
  import opened Tokens
  import opened Faults
  import opened Ast
  import opened Environment
  import opened Semantics
  import opened Interpreter

  /** An expression without assignments reads the environment but never changes it. */
  lemma {:induction false} AssignmentFreeKeepsEnv(e: Expr, env: Env, ops: FloatOps)
    requires AssignmentFree(e)
    ensures Eval(e, env, ops).env == env
    decreases e
  {
    match e
    case BinaryExpr(left, _, right) =>
      AssignmentFreeKeepsEnv(left, env, ops);
      AssignmentFreeKeepsEnv(right, env, ops);
    case GroupingExpr(inner) =>
      AssignmentFreeKeepsEnv(inner, env, ops);
    case UnaryExpr(_, right) =>
      AssignmentFreeKeepsEnv(right, env, ops);
    case LogicalExpr(left, _, right) =>
      AssignmentFreeKeepsEnv(left, env, ops);
      AssignmentFreeKeepsEnv(right, env, ops);
    case LiteralExpr(_) =>
    case VariableExpr(_) =>
  }

  /**
   * `or` and `and` answer an operand itself, not a boolean: the left one,
   * without evaluating the right, when it already decides the answer
   * (truthy for `or`, falsy for any other operator), and otherwise whatever
   * the right one evaluates to in the environment the left one left.
   */
  lemma LogicalShortCircuits(left: Expr, op: Token, right: Expr, env: Env, ops: FloatOps)
    ensures var l := Eval(left, env, ops);
            (l.result.Success? && (op.kind == Or <==> IsTruthy(l.result.value)))
              ==> Eval(LogicalExpr(left, op, right), env, ops) == l
    ensures var l := Eval(left, env, ops);
            (l.result.Success? && (op.kind == Or <==> !IsTruthy(l.result.value)))
              ==> Eval(LogicalExpr(left, op, right), env, ops) == Eval(right, l.env, ops)
    ensures var l := Eval(left, env, ops);
            l.result.Failure? ==> Eval(LogicalExpr(left, op, right), env, ops) == l
  {
    assert Eval(LogicalExpr(left, op, right), env, ops) == EvalLogical(left, op, right, env, ops);
  }

  /** When the left operand decides, what the right operand is makes no difference. */
  lemma RightOperandIrrelevantWhenDecided(left: Expr, op: Token, right1: Expr, right2: Expr, env: Env, ops: FloatOps)
    requires Eval(left, env, ops).result.Success?
    requires op.kind == Or <==> IsTruthy(Eval(left, env, ops).result.value)
    ensures Eval(LogicalExpr(left, op, right1), env, ops) == Eval(LogicalExpr(left, op, right2), env, ops)
  {
    LogicalShortCircuits(left, op, right1, env, ops);
    LogicalShortCircuits(left, op, right2, env, ops);
  }

  /**
   * Both operands are evaluated, left first, before the operator is
   * applied: the right operand's assignments have happened even when the
   * operator then fails on the operand types.
   */
  lemma OperandsBeforeOperator(left: Expr, op: Token, right: Expr, env: Env, ops: FloatOps)
    requires Eval(left, env, ops).result.Success?
    requires Eval(right, Eval(left, env, ops).env, ops).result.Success?
    ensures var l := Eval(left, env, ops);
            var r := Eval(right, l.env, ops);
            Eval(BinaryExpr(left, op, right), env, ops)
              == Evaluated(BinaryOp(op, l.result.value, r.result.value, Concatenating, ops), r.env)
  {
  }

  /**
   * An assignment yields the assigned value and a later read of the name
   * sees it; assigning a name no scope binds fails with "Undefined
   * variable" and leaves the environment as the right-hand side left it.
   */
  lemma AssignYieldsValue(name: Token, value: Expr, env: Env, ops: FloatOps)
    requires Eval(value, env, ops).result.Success?
    ensures var v := Eval(value, env, ops);
            var r := Eval(AssignExpr(name, value), env, ops);
            && (Bound(v.env, name.lexeme) ==> r.result == v.result && Get(r.env, name) == Success(v.result.value))
            && (!Bound(v.env, name.lexeme) ==> r == Evaluated(Failure(LoxError(UndefinedVariable(name))), v.env))
  {
    var v := Eval(value, env, ops);
    if Bound(v.env, name.lexeme) {
      GetAfterAssign(v.env, name, v.result.value);
    }
  }

  /**
   * `var x;` binds `x` to nil in the current scope; declaring a name the
   * current scope already binds fails with "Variable already defined." and
   * changes nothing.
   */
  lemma VarWithoutInitializerDefinesNil(name: Token, env: Env, ops: FloatOps)
    ensures var r := Exec(VarStmt(name, None), env, ops);
            && (name.lexeme !in env[0] ==>
                  r.fault == None && r.output == [] && Get(r.env, name) == Success(Value.Nil) && r.env[1..] == env[1..])
            && (name.lexeme in env[0] ==>
                  r == Executed(Some(LoxError(RuntimeError(name, "Variable already defined."))), env, []))
  {
    if name.lexeme !in env[0] {
      GetAfterDefine(env, name, Value.Nil);
    }
  }

  /**
   * A block runs in a fresh scope that is dropped again however the block
   * ends: afterwards every scope binds exactly the names it bound before,
   * so the block's declarations are gone, while assignments it made to
   * enclosing variables remain.
   */
  lemma BlockRestoresScope(statements: seq<Stmt>, env: Env, ops: FloatOps)
    ensures SameShape(env, Exec(BlockStmt(statements), env, ops).env)
    ensures var inner := ExecSeq(statements, [map[]] + env, ops);
            Exec(BlockStmt(statements), env, ops) == Executed(inner.fault, inner.env[1..], inner.output)
  {
    var inner := ExecSeq(statements, [map[]] + env, ops);
    assert forall i :: 0 <= i < |env| ==> ([map[]] + env)[i + 1] == env[i];
  }

  /**
   * `if` runs exactly one branch, chosen by the condition's truthiness,
   * in the environment the condition left; a falsy condition without an
   * `else` does nothing more. The branch not taken is never looked at.
   */
  lemma IfRunsOneBranch(condition: Expr, thenBranch: Stmt, elseBranch: Option<Stmt>, env: Env, ops: FloatOps)
    requires Eval(condition, env, ops).result.Success?
    ensures var c := Eval(condition, env, ops);
            Exec(IfStmt(condition, thenBranch, elseBranch), env, ops) ==
              if IsTruthy(c.result.value) then Exec(thenBranch, c.env, ops)
              else if elseBranch.Some? then Exec(elseBranch.value, c.env, ops)
              else Executed(None, c.env, [])
  {
    assert Exec(IfStmt(condition, thenBranch, elseBranch), env, ops) == ExecIf(condition, thenBranch, elseBranch, env, ops);
  }

  /**
   * The branch `if` does not take makes no difference: with a truthy
   * condition any `else` part may stand in place of the given one, and with
   * a falsy condition any `then` part.
   */
  lemma UntakenBranchIrrelevant(condition: Expr, then1: Stmt, then2: Stmt, else1: Option<Stmt>, else2: Option<Stmt>,
                                env: Env, ops: FloatOps)
    requires Eval(condition, env, ops).result.Success?
    ensures IsTruthy(Eval(condition, env, ops).result.value) ==>
              Exec(IfStmt(condition, then1, else1), env, ops) == Exec(IfStmt(condition, then1, else2), env, ops)
    ensures !IsTruthy(Eval(condition, env, ops).result.value) ==>
              Exec(IfStmt(condition, then1, else1), env, ops) == Exec(IfStmt(condition, then2, else1), env, ops)
  {
    IfRunsOneBranch(condition, then1, else1, env, ops);
    IfRunsOneBranch(condition, then1, else2, env, ops);
    IfRunsOneBranch(condition, then2, else1, env, ops);
  }

  /** Statements without a `print` anywhere in them print nothing. */
  predicate PrintFree(s: Stmt)
    decreases s
  {
    match s
    case BlockStmt(statements) => forall i :: 0 <= i < |statements| ==> PrintFree(statements[i])
    case PrintStmt(_) => false
    case IfStmt(_, thenBranch, elseBranch) =>
      PrintFree(thenBranch) && (elseBranch.Some? ==> PrintFree(elseBranch.value))
    case _ => true
  }

  lemma {:induction false} PrintFreeIsSilent(s: Stmt, env: Env, ops: FloatOps)
    requires PrintFree(s)
    ensures Exec(s, env, ops).output == []
    decreases s
  {
    match s
    case BlockStmt(statements) =>
      PrintFreeSeqIsSilent(statements, [map[]] + env, ops);
    case IfStmt(condition, thenBranch, elseBranch) =>
      var c := Eval(condition, env, ops);
      if c.result.Success? {
        if IsTruthy(c.result.value) {
          PrintFreeIsSilent(thenBranch, c.env, ops);
        } else if elseBranch.Some? {
          PrintFreeIsSilent(elseBranch.value, c.env, ops);
        }
      }
    case _ =>
  }

  lemma {:induction false} PrintFreeSeqIsSilent(ss: seq<Stmt>, env: Env, ops: FloatOps)
    requires forall i :: 0 <= i < |ss| ==> PrintFree(ss[i])
    ensures ExecSeq(ss, env, ops).output == []
    decreases ss
  {
    if |ss| > 0 {
      PrintFreeIsSilent(ss[0], env, ops);
      var first := Exec(ss[0], env, ops);
      if first.fault.None? {
        PrintFreeSeqIsSilent(ss[1..], first.env, ops);
      }
    }
  }

  /**
   * Running `ss1 + ss2` is running `ss1` and, only if it raised no fault,
   * running `ss2` from where it left off; the printed lines concatenate.
   */
  lemma {:induction false} ExecSeqAppend(ss1: seq<Stmt>, ss2: seq<Stmt>, env: Env, ops: FloatOps)
    ensures var a := ExecSeq(ss1, env, ops);
            ExecSeq(ss1 + ss2, env, ops) ==
              if a.fault.Some? then a
              else var b := ExecSeq(ss2, a.env, ops); Executed(b.fault, b.env, a.output + b.output)
    decreases |ss1|
  {
    if |ss1| == 0 {
      assert ss1 + ss2 == ss2;
      assert [] + ExecSeq(ss2, env, ops).output == ExecSeq(ss2, env, ops).output;
    } else {
      assert (ss1 + ss2)[0] == ss1[0];
      assert (ss1 + ss2)[1..] == ss1[1..] + ss2;
      var first := Exec(ss1[0], env, ops);
      if first.fault.None? {
        ExecSeqAppend(ss1[1..], ss2, first.env, ops);
        var rest := ExecSeq(ss1[1..], first.env, ops);
        if rest.fault.None? {
          var b := ExecSeq(ss2, rest.env, ops);
          assert first.output + (rest.output + b.output) == (first.output + rest.output) + b.output;
        }
      }
    }
  }

  /**
   * The environment outlives each call of `Interpret`. When the first call
   * completes, a second call from its environment equals one call on the
   * joined program. When the first call faults, the joined call ends there
   * and never runs the second piece.
   */
  lemma InterpretInPieces(ss1: seq<Stmt>, ss2: seq<Stmt>, env: Env, ops: FloatOps)
    ensures var a := Interpret(ss1, env, ops);
            var b := Interpret(ss2, a.env, ops);
            Interpret(ss1 + ss2, env, ops) ==
              if a.outcome.Completed? then Run(b.outcome, b.env, a.output + b.output) else a
  {
    ExecSeqAppend(ss1, ss2, env, ops);
  }

  /** Inside the example's block: the inner `var a = "b";` shadows the global `a`. */
  lemma ShadowingDeclaration(a: Token, ops: FloatOps)
    requires a == Token(1, Value.Nil, "a", Identifier)
    ensures Exec(VarStmt(a, Some(LiteralExpr(Str("b")))), [map[], map["a" := Str("a")]], ops)
            == Executed(None, [map["a" := Str("b")], map["a" := Str("a")]], [])
  {
    var env: Env := [map[], map["a" := Str("a")]];
    assert Eval(LiteralExpr(Str("b")), env, ops) == Evaluated(Success(Str("b")), env);
    assert env[0]["a" := Str("b")] == map["a" := Str("b")];
    assert env[1..] == [map["a" := Str("a")]];
    assert a.lexeme == "a" && a.lexeme !in env[0];
    assert [map["a" := Str("b")]] + [map["a" := Str("a")]] == [map["a" := Str("b")], map["a" := Str("a")]];
    assert Define(env, a, Str("b")) == Success([map["a" := Str("b")], map["a" := Str("a")]]);
  }

  /** Inside the example's block: `print a;` sees the inner binding. */
  lemma ShadowingPrint(a: Token, ops: FloatOps)
    requires a == Token(1, Value.Nil, "a", Identifier)
    ensures Exec(PrintStmt(VariableExpr(a)), [map["a" := Str("b")], map["a" := Str("a")]], ops)
            == Executed(None, [map["a" := Str("b")], map["a" := Str("a")]], ["b"])
  {
    var inner: Env := [map["a" := Str("b")], map["a" := Str("a")]];
    assert Get(inner, a) == Success(Str("b"));
    assert Eval(VariableExpr(a), inner, ops) == Evaluated(Success(Str("b")), inner);
  }

  /** The block of the shadowing example, run against the global `a`. */
  lemma ShadowingBlock(a: Token, ops: FloatOps)
    requires a == Token(1, Value.Nil, "a", Identifier)
    ensures Exec(BlockStmt([VarStmt(a, Some(LiteralExpr(Str("b")))), PrintStmt(VariableExpr(a))]),
                 [map["a" := Str("a")]], ops)
            == Executed(None, [map["a" := Str("a")]], ["b"])
  {
    var global: Env := [map["a" := Str("a")]];
    var inner: Env := [map["a" := Str("b")], map["a" := Str("a")]];
    var body := [VarStmt(a, Some(LiteralExpr(Str("b")))), PrintStmt(VariableExpr(a))];
    assert [map[]] + global == [map[], map["a" := Str("a")]];
    ShadowingDeclaration(a, ops);
    ShadowingPrint(a, ops);
    assert body[1..] == [PrintStmt(VariableExpr(a))];
    assert ExecSeq(body[1..], inner, ops) == Executed(None, inner, ["b"]);
    assert ExecSeq(body, [map[]] + global, ops) == Executed(None, inner, ["b"]);
    assert inner[1..] == global;
  }

  /** The example's global `var a = "a";` and its final `print a;`. */
  lemma ShadowingGlobal(a: Token, ops: FloatOps)
    requires a == Token(1, Value.Nil, "a", Identifier)
    ensures Exec(VarStmt(a, Some(LiteralExpr(Str("a")))), [map[]], ops) == Executed(None, [map["a" := Str("a")]], [])
    ensures Exec(PrintStmt(VariableExpr(a)), [map["a" := Str("a")]], ops) == Executed(None, [map["a" := Str("a")]], ["a"])
  {
    var empty: Env := [map[]];
    var global: Env := [map["a" := Str("a")]];
    assert Eval(LiteralExpr(Str("a")), empty, ops) == Evaluated(Success(Str("a")), empty);
    assert empty[0]["a" := Str("a")] == map["a" := Str("a")];
    assert a.lexeme == "a" && a.lexeme !in empty[0];
    assert [map["a" := Str("a")]] + empty[1..] == global;
    assert Define(empty, a, Str("a")) == Success(global);
    assert Get(global, a) == Success(Str("a"));
    assert Eval(VariableExpr(a), global, ops) == Evaluated(Success(Str("a")), global);
  }

  /**
   * A concrete run showing shadowing: with `a` bound to "a" globally, a
   * block declaring its own `a` as "b" and printing it, then printing `a`
   * after the block, prints "b" and then "a"; the global `a` is untouched.
   */
  lemma ShadowingExample(ops: FloatOps)
    ensures var a := Token(1, Value.Nil, "a", Identifier);
            var program := [
              VarStmt(a, Some(LiteralExpr(Str("a")))),
              BlockStmt([VarStmt(a, Some(LiteralExpr(Str("b")))), PrintStmt(VariableExpr(a))]),
              PrintStmt(VariableExpr(a))];
            Interpret(program, [map[]], ops) == Run(Completed, [map["a" := Str("a")]], ["b", "a"])
  {
    var a := Token(1, Value.Nil, "a", Identifier);
    var s1 := VarStmt(a, Some(LiteralExpr(Str("a"))));
    var s2 := BlockStmt([VarStmt(a, Some(LiteralExpr(Str("b")))), PrintStmt(VariableExpr(a))]);
    var s3 := PrintStmt(VariableExpr(a));
    var global: Env := [map["a" := Str("a")]];
    ShadowingGlobal(a, ops);
    ShadowingBlock(a, ops);
    assert ExecSeq([s3], global, ops) == Executed(None, global, ["a"]);
    assert ExecSeq([s2, s3], global, ops) == Executed(None, global, ["b", "a"]);
    assert ExecSeq([s1, s2, s3], [map[]], ops) == Executed(None, global, ["b", "a"]);
  }
}
