/**
 * Operator semantics shared by the statement evaluator and the older
 * expression-only draft: truthiness, equality, the number checks, and the
 * binary and unary operators. The two evaluators differ only in `+`,
 * which is selected by a `PlusRule`.
 */
module Semantics {
  import opened Wrappers
  import opened Values
  import opened Tokens
  import opened Faults

  /**
   * `Concatenating`: the statement evaluator's `+`, which turns both operands
   * into text when either is a string. `Strict`: the draft's `+`, which only
   * accepts two numbers or two strings.
   */
  datatype PlusRule = Concatenating | Strict

  /** `nil` and `false` are falsy; everything else, `0` and `""` included, is truthy. */
  predicate IsTruthy(v: Value) {
    match v
    case Nil => false
    case Bool(b) => b
    case _ => true
  }

  /**
   * `IsEqual`: null equals only null; otherwise `left.Equals(right)`, which
   * is false across variants and `Double.Equals` between numbers.
   */
  predicate IsEqual(left: Value, right: Value, ops: FloatOps) {
    match left
    case Nil => right.Nil?
    case Bool(a) => right.Bool? && right.b == a
    case Num(a) => right.Num? && ops.equals(a, right.n)
    case Str(a) => right.Str? && right.s == a
  }

  /** The text with one trailing ".0" removed, if it has one. */
  function TrimPointZero(text: string): (r: string)
    ensures r == text || r + ".0" == text
    ensures r != text <==> |text| >= 2 && text[|text| - 2..] == ".0"
  {
    if |text| >= 2 && text[|text| - 2..] == ".0" then text[..|text| - 2] else text
  }

  /**
   * `Stringify`, the text `print` writes: "nil" for nil, the invariant-culture
   * text of a number without a trailing ".0", and `ToString` for the rest
   * (so booleans print as "True" and "False").
   */
  function Stringify(v: Value, ops: FloatOps): (r: string)
    ensures v.Nil? ==> r == "nil"
    ensures v.Num? ==> r == TrimPointZero(ops.invariantText(v.n))
    ensures !v.Nil? && !v.Num? ==> Some(r) == ObjectText(v, ops)
  {
    match v
    case Nil => "nil"
    case Num(n) => TrimPointZero(ops.invariantText(n))
    case Bool(b) => BoolText(b)
    case Str(s) => s
  }

  /** The error of `CheckNumberOperands`. */
  function NotNumbers(op: Token): Fault {
    LoxError(RuntimeError(op, "Operands must be double values."))
  }

  /** `CheckNumberOperands`: fails at the operator unless every operand is a number. */
  function CheckNumberOperands(op: Token, operands: seq<Value>): (r: Option<Fault>)
    ensures r.None? <==> forall k :: 0 <= k < |operands| ==> operands[k].Num?
    ensures r.Some? ==> r.value == NotNumbers(op)
  {
    if operands == [] then None
    else if !operands[0].Num? then Some(NotNumbers(op))
    else CheckNumberOperands(op, operands[1..])
  }

  /** An arithmetic operator on checked number operands. */
  function Arithmetic(op: Token, left: Value, right: Value, f: (Double, Double) -> Double): (r: Result<Value, Fault>)
  {
    match CheckNumberOperands(op, [left, right])
    case Some(fault) => Failure(fault)
    case None =>
      assert [left, right][0].Num? && [left, right][1].Num?;
      Success(Num(f(left.n, right.n)))
  }

  /** A comparison operator on checked number operands. */
  function Comparison(op: Token, left: Value, right: Value, f: (Double, Double) -> bool): (r: Result<Value, Fault>)
  {
    match CheckNumberOperands(op, [left, right])
    case Some(fault) => Failure(fault)
    case None =>
      assert [left, right][0].Num? && [left, right][1].Num?;
      Success(Bool(f(left.n, right.n)))
  }

  /**
   * The statement evaluator's `+`: numbers add; otherwise, when either side
   * is a string, both sides' `ToString` texts are joined, and `ToString` on
   * nil crashes the host; anything else is a runtime error.
   */
  function ConcatenatingPlus(op: Token, left: Value, right: Value, ops: FloatOps): (r: Result<Value, Fault>)
  {
    if left.Num? && right.Num? then
      Success(Num(ops.add(left.n, right.n)))
    else if left.Str? || right.Str? then
      match (ObjectText(left, ops), ObjectText(right, ops))
      case (Some(a), Some(b)) => Success(Str(a + b))
      case _ => Failure(HostCrash(NullReference))
    else
      Failure(LoxError(RuntimeError(op, "Operands must be numbers or strings.")))
  }

  /** The draft's `+`: two numbers add, two strings concatenate, nothing else is allowed. */
  function StrictPlus(op: Token, left: Value, right: Value, ops: FloatOps): (r: Result<Value, Fault>)
  {
    if left.Num? && right.Num? then
      Success(Num(ops.add(left.n, right.n)))
    else if left.Str? && right.Str? then
      Success(Str(left.s + right.s))
    else
      Failure(LoxError(RuntimeError(op, "Operands must be two numbers or two strings.")))
  }

  /** A binary operator applied to already evaluated operands. */
  function BinaryOp(op: Token, left: Value, right: Value, rule: PlusRule, ops: FloatOps): (r: Result<Value, Fault>)
  {
    match op.kind
    case Minus => Arithmetic(op, left, right, ops.sub)
    case Plus =>
      if rule == Concatenating then ConcatenatingPlus(op, left, right, ops)
      else StrictPlus(op, left, right, ops)
    case Slash => Arithmetic(op, left, right, ops.div)
    case Star => Arithmetic(op, left, right, ops.mul)
    case Greater => Comparison(op, left, right, ops.greater)
    case GreaterEqual => Comparison(op, left, right, ops.greaterEq)
    case Less => Comparison(op, left, right, ops.less)
    case LessEqual => Comparison(op, left, right, ops.lessEq)
    case BangEqual => Success(Bool(!IsEqual(left, right, ops)))
    case EqualEqual => Success(Bool(IsEqual(left, right, ops)))
    case _ => Success(Value.Nil)
  }

  /** A unary operator applied to an already evaluated operand. */
  function UnaryOp(op: Token, operand: Value, ops: FloatOps): (r: Result<Value, Fault>)
  {
    match op.kind
    case Minus =>
      (match CheckNumberOperands(op, [operand])
       case Some(fault) => Failure(fault)
       case None => Success(Num(ops.negate(operand.n))))
    case Bang => Success(Bool(!IsTruthy(operand)))
    case _ => Success(Value.Nil)
  }
}
