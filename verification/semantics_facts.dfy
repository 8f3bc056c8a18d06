/** What the shared operator semantics promise. */
module SemanticsFacts {
  import opened Wrappers
  import opened Values
  import opened Tokens
  import opened Faults
  import opened Semantics

  /** The kinds that only accept number operands. */
  predicate NumericKind(k: TokenType) {
    k in {TokenType.Minus, TokenType.Slash, TokenType.Star,
          TokenType.Greater, TokenType.GreaterEqual, TokenType.Less, TokenType.LessEqual}
  }

  /** The kinds `BinaryOp` gives a meaning to. */
  predicate BinaryKind(k: TokenType) {
    NumericKind(k) || k in {TokenType.Plus, TokenType.BangEqual, TokenType.EqualEqual}
  }

  /** Exactly nil and false are falsy, and `!` answers the negated truthiness. */
  lemma Truthiness(v: Value, op: Token, ops: FloatOps)
    requires op.kind == Bang
    ensures !IsTruthy(v) <==> v == Value.Nil || v == Bool(false)
    ensures UnaryOp(op, v, ops) == Success(Bool(!IsTruthy(v)))
  {
  }

  /**
   * Nil equals only nil, values of different variants are never equal, and
   * `!=` is exactly the negation of `==`; neither ever fails.
   */
  lemma Equality(left: Value, right: Value, op: Token, ops: FloatOps, rule: PlusRule)
    ensures left.Nil? ==> (IsEqual(left, right, ops) <==> right.Nil?)
    ensures right.Nil? ==> (IsEqual(left, right, ops) <==> left.Nil?)
    ensures (left.Nil? != right.Nil? || left.Bool? != right.Bool? || left.Num? != right.Num?)
              ==> !IsEqual(left, right, ops)
    ensures op.kind == EqualEqual ==> BinaryOp(op, left, right, rule, ops) == Success(Bool(IsEqual(left, right, ops)))
    ensures op.kind == BangEqual ==> BinaryOp(op, left, right, rule, ops) == Success(Bool(!IsEqual(left, right, ops)))
  {
  }

  /**
   * Equality is an equivalence on every value exactly when the host's
   * `Double.Equals` is one on numbers (it is: NaN equals NaN there).
   */
  lemma EqualityIsEquivalence(ops: FloatOps)
    requires forall a :: ops.equals(a, a)
    requires forall a, b :: ops.equals(a, b) ==> ops.equals(b, a)
    requires forall a, b, c :: ops.equals(a, b) && ops.equals(b, c) ==> ops.equals(a, c)
    ensures forall v :: IsEqual(v, v, ops)
    ensures forall v, w :: IsEqual(v, w, ops) ==> IsEqual(w, v, ops)
    ensures forall u, v, w :: IsEqual(u, v, ops) && IsEqual(v, w, ops) ==> IsEqual(u, w, ops)
  {
    forall v ensures IsEqual(v, v, ops) {
      if v.Num? { assert ops.equals(v.n, v.n); }
    }
    forall v, w | IsEqual(v, w, ops) ensures IsEqual(w, v, ops) {
      if v.Num? { assert ops.equals(w.n, v.n); }
    }
    forall u, v, w | IsEqual(u, v, ops) && IsEqual(v, w, ops) ensures IsEqual(u, w, ops) {
      if u.Num? { assert ops.equals(u.n, w.n); }
    }
  }

  /**
   * `-`, `*`, `/` and the four comparisons fail, at the operator token with
   * "Operands must be double values.", exactly when an operand is not a
   * number; unary `-` likewise. Both evaluators agree on them.
   */
  lemma NumericOperatorsNeedNumbers(op: Token, left: Value, right: Value, rule: PlusRule, ops: FloatOps)
    requires NumericKind(op.kind)
    ensures BinaryOp(op, left, right, rule, ops).Failure? <==> !(left.Num? && right.Num?)
    ensures BinaryOp(op, left, right, rule, ops).Failure? ==> BinaryOp(op, left, right, rule, ops).error == NotNumbers(op)
    ensures BinaryOp(op, left, right, Concatenating, ops) == BinaryOp(op, left, right, Strict, ops)
  {
    if !(left.Num? && right.Num?) {
      assert CheckNumberOperands(op, [left, right]) == Some(NotNumbers(op));
    }
  }

  lemma NegationNeedsNumber(op: Token, operand: Value, ops: FloatOps)
    requires op.kind == Minus
    ensures UnaryOp(op, operand, ops).Failure? <==> !operand.Num?
    ensures UnaryOp(op, operand, ops).Failure? ==> UnaryOp(op, operand, ops).error == NotNumbers(op)
    ensures operand.Num? ==> UnaryOp(op, operand, ops) == Success(Num(ops.negate(operand.n)))
  {
    if !operand.Num? {
      assert CheckNumberOperands(op, [operand]) == Some(NotNumbers(op));
    }
  }

  /** An operator kind neither evaluator knows yields nil instead of failing. */
  lemma UnknownOperatorsYieldNil(op: Token, left: Value, right: Value, rule: PlusRule, ops: FloatOps)
    ensures !BinaryKind(op.kind) ==> BinaryOp(op, left, right, rule, ops) == Success(Value.Nil)
    ensures op.kind != Minus && op.kind != Bang ==> UnaryOp(op, left, ops) == Success(Value.Nil)
  {
  }

  /**
   * The statement evaluator's `+`, case by case: numbers add; when either
   * side is a string the `ToString` texts are joined, except that a nil side
   * crashes the host; all other pairs fail with "Operands must be numbers
   * or strings.".
   */
  lemma ConcatenatingPlusCases(op: Token, left: Value, right: Value, ops: FloatOps)
    requires op.kind == Plus
    ensures var r := BinaryOp(op, left, right, Concatenating, ops);
            && (left.Num? && right.Num? ==> r == Success(Num(ops.add(left.n, right.n))))
            && ((left.Str? || right.Str?) && !left.Nil? && !right.Nil? ==>
                  r == Success(Str(ObjectText(left, ops).value + ObjectText(right, ops).value)))
            && ((left.Str? && right.Nil?) || (left.Nil? && right.Str?) ==> r == Failure(HostCrash(NullReference)))
            && (!(left.Num? && right.Num?) && !left.Str? && !right.Str? ==>
                  r == Failure(LoxError(RuntimeError(op, "Operands must be numbers or strings."))))
  {
  }

  /** The draft's `+`: only two numbers or two strings succeed. */
  lemma StrictPlusCases(op: Token, left: Value, right: Value, ops: FloatOps)
    requires op.kind == Plus
    ensures var r := BinaryOp(op, left, right, Strict, ops);
            && (r.Success? <==> (left.Num? && right.Num?) || (left.Str? && right.Str?))
            && (left.Num? && right.Num? ==> r == Success(Num(ops.add(left.n, right.n))))
            && (left.Str? && right.Str? ==> r == Success(Str(left.s + right.s)))
            && (r.Failure? ==> r.error == LoxError(RuntimeError(op, "Operands must be two numbers or two strings.")))
  {
  }

  /**
   * The two `+` rules agree wherever the draft's succeeds; the statement
   * evaluator succeeds where the draft does not exactly on a string mixed
   * with a non-nil non-string, and it fails only where the draft fails too.
   */
  lemma ConcatenatingExtendsStrict(op: Token, left: Value, right: Value, ops: FloatOps)
    requires op.kind == Plus
    ensures BinaryOp(op, left, right, Strict, ops).Success? ==>
              BinaryOp(op, left, right, Concatenating, ops) == BinaryOp(op, left, right, Strict, ops)
    ensures (BinaryOp(op, left, right, Concatenating, ops).Success? && BinaryOp(op, left, right, Strict, ops).Failure?)
              <==> ((left.Str? || right.Str?) && !(left.Str? && right.Str?) && !left.Nil? && !right.Nil?)
  {
  }

  /** What `print` writes for booleans and strings. */
  lemma PrintedForms(b: bool, s: string, ops: FloatOps)
    ensures Semantics.Stringify(Bool(true), ops) == "True" && Semantics.Stringify(Bool(false), ops) == "False"
    ensures Semantics.Stringify(Str(s), ops) == s
    ensures Semantics.Stringify(Value.Nil, ops) == "nil"
  {
  }
}
