/**
 * The Lisp-style printer of the statement syntax tree. It prints the four
 * draft-family variants and throws "not implemented" for assignment,
 * variable and logical nodes, modelled as `None`.
 */
module AstPrinter {
  import opened Wrappers
  import opened Values
  import opened Tokens
  import opened Ast

  /** Each part preceded by one space. */
  function Spaced(parts: seq<string>): (r: string)
    ensures |parts| == 0 ==> r == ""
    ensures |parts| > 0 ==> |r| > |parts[0]| && r[0] == ' '
  {
    if |parts| == 0 then "" else " " + parts[0] + Spaced(parts[1..])
  }

  lemma {:induction false} SpacedAppend(parts: seq<string>, p: string)
    ensures Spaced(parts + [p]) == Spaced(parts) + " " + p
    decreases |parts|
  {
    if |parts| == 0 {
      assert parts + [p] == [p];
    } else {
      assert (parts + [p])[1..] == parts[1..] + [p];
      SpacedAppend(parts[1..], p);
    }
  }

  /** The text `Parenthesize` produces: "(name part1 part2 ...)". */
  function Parenthesized(name: string, parts: seq<string>): (r: string)
    ensures |r| >= |name| + 2 && r[0] == '(' && r[|r| - 1] == ')'
    ensures r[1..1 + |name|] == name
  {
    "(" + name + Spaced(parts) + ")"
  }

  /** `Parenthesize`: builds the text left to right, as the string builder does. */
  method Parenthesize(name: string, parts: seq<string>) returns (text: string)
    ensures text == Parenthesized(name, parts)
  {
    text := "(" + name;
    var i := 0;
    while i < |parts|
      invariant 0 <= i <= |parts|
      invariant text == "(" + name + Spaced(parts[..i])
    {
      SpacedAppend(parts[..i], parts[i]);
      assert parts[..i + 1] == parts[..i] + [parts[i]];
      text := text + " " + parts[i];
      i := i + 1;
    }
    assert parts[..i] == parts;
    text := text + ")";
  }

  /**
   * A literal prints as "nil" for nil and as the host's `ToString` text
   * otherwise, so a boolean prints as "True" or "False" and a number with
   * the current culture's formatting.
   */
  function LiteralText(v: Value, ops: FloatOps): (r: string)
    ensures v.Nil? ==> r == "nil"
    ensures !v.Nil? ==> Some(r) == ObjectText(v, ops)
  {
    if v.Nil? then "nil" else ObjectText(v, ops).value
  }

  /** `Print`: the text of the tree, or `None` when a node is not printable. */
  function Print(e: Expr, ops: FloatOps): (r: Option<string>)
    ensures r.Some? <==> InDraftFamily(e)
    decreases e
  {
    match e
    case BinaryExpr(left, operator, right) =>
      var l := Print(left, ops);
      var rr := Print(right, ops);
      if l.Some? && rr.Some? then Some(Parenthesized(operator.lexeme, [l.value, rr.value])) else None
    case GroupingExpr(inner) =>
      var i := Print(inner, ops);
      if i.Some? then Some(Parenthesized("group", [i.value])) else None
    case LiteralExpr(literal) =>
      Some(LiteralText(literal, ops))
    case UnaryExpr(operator, right) =>
      var rr := Print(right, ops);
      if rr.Some? then Some(Parenthesized(operator.lexeme, [rr.value])) else None
    case _ => None
  }

  /** `Parenthesize` with one part and with two parts, written out. */
  lemma ParenthesizedOneTwo(name: string, a: string, b: string)
    ensures Parenthesized(name, [a]) == "(" + name + " " + a + ")"
    ensures Parenthesized(name, [a, b]) == "(" + name + " " + a + " " + b + ")"
  {
    assert Spaced([b]) == " " + b + Spaced([]);
    assert [a, b][1..] == [b];
    assert Spaced([a, b]) == " " + a + " " + b;
    assert Spaced([a]) == " " + a + Spaced([]);
  }

  /**
   * A binary node prints as "(op left right)" with the operator's lexeme,
   * each operand printed in turn and preceded by one space.
   */
  lemma PrintBinaryForm(left: Expr, operator: Token, right: Expr, ops: FloatOps)
    requires InDraftFamily(left) && InDraftFamily(right)
    ensures Print(BinaryExpr(left, operator, right), ops)
              == Some("(" + operator.lexeme + " " + Print(left, ops).value + " " + Print(right, ops).value + ")")
  {
    var l := Print(left, ops).value;
    var r := Print(right, ops).value;
    assert Print(BinaryExpr(left, operator, right), ops) == Some(Parenthesized(operator.lexeme, [l, r]));
    ParenthesizedOneTwo(operator.lexeme, l, r);
  }

  /** A grouping prints as "(group inner)". */
  lemma PrintGroupingForm(inner: Expr, ops: FloatOps)
    requires InDraftFamily(inner)
    ensures Print(GroupingExpr(inner), ops) == Some("(group " + Print(inner, ops).value + ")")
  {
    var i := Print(inner, ops).value;
    assert Print(GroupingExpr(inner), ops) == Some(Parenthesized("group", [i]));
    ParenthesizedOneTwo("group", i, i);
    assert "(" + "group" + " " == "(group ";
  }

  /** A unary node prints as "(op operand)". */
  lemma PrintUnaryForm(operator: Token, right: Expr, ops: FloatOps)
    requires InDraftFamily(right)
    ensures Print(UnaryExpr(operator, right), ops) == Some("(" + operator.lexeme + " " + Print(right, ops).value + ")")
  {
    var r := Print(right, ops).value;
    assert Print(UnaryExpr(operator, right), ops) == Some(Parenthesized(operator.lexeme, [r]));
    ParenthesizedOneTwo(operator.lexeme, r, r);
  }

  /** How often `c` occurs in `s`. */
  function Count(s: string, c: char): nat {
    if |s| == 0 then 0 else (if s[0] == c then 1 else 0) + Count(s[1..], c)
  }

  lemma {:induction false} CountAppend(a: string, b: string, c: char)
    ensures Count(a + b, c) == Count(a, c) + Count(b, c)
    decreases |a|
  {
    if |a| == 0 {
      assert a + b == b;
    } else {
      assert (a + b)[1..] == a[1..] + b;
      CountAppend(a[1..], b, c);
    }
  }

  predicate NoParens(s: string) {
    forall i :: 0 <= i < |s| ==> s[i] != '(' && s[i] != ')'
  }

  lemma {:induction false} NoParensCountsZero(s: string)
    requires NoParens(s)
    ensures Count(s, '(') == 0 && Count(s, ')') == 0
    decreases |s|
  {
    if |s| > 0 {
      NoParensCountsZero(s[1..]);
    }
  }

  /** The number of binary, grouping and unary nodes: the ones printed in parentheses. */
  function Composites(e: Expr): nat {
    match e
    case BinaryExpr(left, _, right) => 1 + Composites(left) + Composites(right)
    case GroupingExpr(inner) => 1 + Composites(inner)
    case UnaryExpr(_, right) => 1 + Composites(right)
    case AssignExpr(_, value) => Composites(value)
    case LogicalExpr(left, _, right) => Composites(left) + Composites(right)
    case _ => 0
  }

  /** Neither a literal's text nor an operator's lexeme contains a parenthesis. */
  predicate PlainText(e: Expr, ops: FloatOps) {
    match e
    case BinaryExpr(left, operator, right) => NoParens(operator.lexeme) && PlainText(left, ops) && PlainText(right, ops)
    case GroupingExpr(inner) => PlainText(inner, ops)
    case LiteralExpr(literal) => NoParens(LiteralText(literal, ops))
    case UnaryExpr(operator, right) => NoParens(operator.lexeme) && PlainText(right, ops)
    case _ => true
  }

  /** Occurrences of `c` summed over the parts. */
  function PartsCount(parts: seq<string>, c: char): nat {
    if |parts| == 0 then 0 else Count(parts[0], c) + PartsCount(parts[1..], c)
  }

  /** `Parenthesized` adds one opening and one closing parenthesis to its parts'. */
  lemma {:induction false} ParenthesizedCounts(name: string, parts: seq<string>)
    requires NoParens(name)
    ensures Count(Parenthesized(name, parts), '(') == 1 + PartsCount(parts, '(')
    ensures Count(Parenthesized(name, parts), ')') == 1 + PartsCount(parts, ')')
  {
    NoParensCountsZero(name);
    SpacedCounts(parts, '(');
    SpacedCounts(parts, ')');
    var body := Spaced(parts);
    CountAppend("(" + name + body, ")", '(');
    CountAppend("(" + name + body, ")", ')');
    CountAppend("(" + name, body, '(');
    CountAppend("(" + name, body, ')');
    CountAppend("(", name, '(');
    CountAppend("(", name, ')');
  }

  lemma {:induction false} SpacedCounts(parts: seq<string>, c: char)
    requires c != ' '
    ensures Count(Spaced(parts), c) == PartsCount(parts, c)
    decreases |parts|
  {
    if |parts| > 0 {
      SpacedCounts(parts[1..], c);
      CountAppend(" " + parts[0], Spaced(parts[1..]), c);
      CountAppend(" ", parts[0], c);
    }
  }

  /** What a node printed with `Parenthesized` adds to its children's parentheses. */
  lemma {:induction false} CompositeCounts(name: string, children: seq<string>, text: string)
    requires NoParens(name) && |children| <= 2 && text == Parenthesized(name, children)
    ensures Count(text, '(') == 1 + (if |children| == 0 then 0 else Count(children[0], '('))
                                 + (if |children| < 2 then 0 else Count(children[1], '('))
    ensures Count(text, ')') == 1 + (if |children| == 0 then 0 else Count(children[0], ')'))
                                 + (if |children| < 2 then 0 else Count(children[1], ')'))
  {
    ParenthesizedCounts(name, children);
    if |children| == 1 {
      assert children[1..] == [];
    } else if |children| == 2 {
      var tail := children[1..];
      assert tail[1..] == [];
      assert PartsCount(tail, '(') == Count(children[1], '(');
      assert PartsCount(tail, ')') == Count(children[1], ')');
    }
  }

  /**
   * Every composite node contributes exactly one opening and one closing
   * parenthesis, so when the leaves' texts hold none the printed text is
   * balanced.
   */
  lemma {:induction false} PrintIsBalanced(e: Expr, ops: FloatOps)
    requires InDraftFamily(e) && PlainText(e, ops)
    ensures Count(Print(e, ops).value, '(') == Composites(e)
    ensures Count(Print(e, ops).value, ')') == Composites(e)
    decreases e
  {
    match e
    case BinaryExpr(left, operator, right) =>
      PrintIsBalanced(left, ops);
      PrintIsBalanced(right, ops);
      CompositeCounts(operator.lexeme, [Print(left, ops).value, Print(right, ops).value], Print(e, ops).value);
    case GroupingExpr(inner) =>
      PrintIsBalanced(inner, ops);
      CompositeCounts("group", [Print(inner, ops).value], Print(e, ops).value);
    case LiteralExpr(literal) =>
      NoParensCountsZero(LiteralText(literal, ops));
    case UnaryExpr(operator, right) =>
      PrintIsBalanced(right, ops);
      CompositeCounts(operator.lexeme, [Print(right, ops).value], Print(e, ops).value);
  }

  /** Concrete printed forms: a boolean literal prints capitalised, nil as "nil". */
  lemma PrintExample(ops: FloatOps)
    ensures Print(UnaryExpr(Token(1, Value.Nil, "-", Minus), LiteralExpr(Bool(true))), ops) == Some("(- True)")
    ensures Print(GroupingExpr(LiteralExpr(Value.Nil)), ops) == Some("(group nil)")
  {
    assert Spaced(["True"]) == " True";
    assert Parenthesized("-", ["True"]) == "(- True)";
    assert Spaced(["nil"]) == " nil";
    assert Parenthesized("group", ["nil"]) == "(group nil)";
  }
}
