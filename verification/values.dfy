/**
 * The runtime value domain of the interpreter: the C# `object` that the
 * visitors pass around, restricted to what Lox produces (null, bool,
 * double, string).
 */
module Values {
  import opened Wrappers

  /** An IEEE-754 binary64 number, represented by its 64-bit pattern. */
  type Double = bv64

  /**
   * The host's floating-point routines. They are not interpreted by this
   * model: every arithmetic operator, comparison, `Double.Equals` and both
   * text conversions are taken as parameters.
   */
  datatype FloatOps = FloatOps(
    add: (Double, Double) -> Double,
    sub: (Double, Double) -> Double,
    mul: (Double, Double) -> Double,
    div: (Double, Double) -> Double,
    negate: Double -> Double,
    less: (Double, Double) -> bool,
    lessEq: (Double, Double) -> bool,
    greater: (Double, Double) -> bool,
    greaterEq: (Double, Double) -> bool,
    equals: (Double, Double) -> bool,
    /** `double.ToString(CultureInfo.InvariantCulture)` */
    invariantText: Double -> string,
    /** `double.ToString()` in the current culture */
    cultureText: Double -> string
  )

  /** A Lox runtime value; `Nil` is the C# null reference. */
  datatype Value = Nil | Bool(b: bool) | Num(n: Double) | Str(s: string)

  /** `bool.ToString()`, which capitalises. */
  function BoolText(b: bool): (r: string)
    ensures |r| > 0 && 'A' <= r[0] <= 'Z'
  {
    if b then "True" else "False"
  }

  /**
   * `object.ToString()` on a value. Calling it on null throws
   * NullReferenceException, which is `None` here.
   */
  function ObjectText(v: Value, ops: FloatOps): (r: Option<string>)
    ensures r.None? <==> v.Nil?
    ensures v.Str? ==> r == Some(v.s)
  {
    match v
    case Nil => None
    case Bool(b) => Some(BoolText(b))
    case Num(n) => Some(ops.cultureText(n))
    case Str(s) => Some(s)
  }
}
