/** Token kinds and the token record produced by the scanner. */
module Tokens {
  import opened Wrappers
  import opened Values

  /**
   * Every token kind the scanner and the keyword table produce. The
   * enumeration itself is not part of the modelled files; this is the set
   * of kinds they refer to.
   */
  datatype TokenType =
    // single-character punctuation
    | LeftParen | RightParen | LeftBrace | RightBrace
    | Comma | Dot | Minus | Plus | Semicolon | Slash | Star
    // one- or two-character operators
    | Bang | BangEqual | Equal | EqualEqual
    | Greater | GreaterEqual | Less | LessEqual
    // literals
    | Identifier | String | Number
    // keywords
    | And | Class | Else | False | For | Fun | If | Nil | Or
    | Print | Return | Super | This | True | Var | While
    | Eof

  /** The text `Enum.ToString()` gives for a kind. */
  function Name(t: TokenType): string {
    match t
    case LeftParen => "LEFT_PAREN"
    case RightParen => "RIGHT_PAREN"
    case LeftBrace => "LEFT_BRACE"
    case RightBrace => "RIGHT_BRACE"
    case Comma => "COMMA"
    case Dot => "DOT"
    case Minus => "MINUS"
    case Plus => "PLUS"
    case Semicolon => "SEMICOLON"
    case Slash => "SLASH"
    case Star => "STAR"
    case Bang => "BANG"
    case BangEqual => "BANG_EQUAL"
    case Equal => "EQUAL"
    case EqualEqual => "EQUAL_EQUAL"
    case Greater => "GREATER"
    case GreaterEqual => "GREATER_EQUAL"
    case Less => "LESS"
    case LessEqual => "LESS_EQUAL"
    case Identifier => "IDENTIFIER"
    case String => "STRING"
    case Number => "NUMBER"
    case And => "AND"
    case Class => "CLASS"
    case Else => "ELSE"
    case False => "FALSE"
    case Fun => "FUN"
    case For => "FOR"
    case If => "IF"
    case Nil => "NIL"
    case Or => "OR"
    case Print => "PRINT"
    case Return => "RETURN"
    case Super => "SUPER"
    case This => "THIS"
    case True => "TRUE"
    case Var => "VAR"
    case While => "WHILE"
    case Eof => "EOF"
  }

  /** The kind whose name is `text`, if any: `Enum.Parse` read back. */
  function KindNamed(text: string): Option<TokenType> {
    match text
    case "LEFT_PAREN" => Some(LeftParen)
    case "RIGHT_PAREN" => Some(RightParen)
    case "LEFT_BRACE" => Some(LeftBrace)
    case "RIGHT_BRACE" => Some(RightBrace)
    case "COMMA" => Some(Comma)
    case "DOT" => Some(Dot)
    case "MINUS" => Some(Minus)
    case "PLUS" => Some(Plus)
    case "SEMICOLON" => Some(Semicolon)
    case "SLASH" => Some(Slash)
    case "STAR" => Some(Star)
    case "BANG" => Some(Bang)
    case "BANG_EQUAL" => Some(BangEqual)
    case "EQUAL" => Some(Equal)
    case "EQUAL_EQUAL" => Some(EqualEqual)
    case "GREATER" => Some(Greater)
    case "GREATER_EQUAL" => Some(GreaterEqual)
    case "LESS" => Some(Less)
    case "LESS_EQUAL" => Some(LessEqual)
    case "IDENTIFIER" => Some(Identifier)
    case "STRING" => Some(String)
    case "NUMBER" => Some(Number)
    case "AND" => Some(And)
    case "CLASS" => Some(Class)
    case "ELSE" => Some(Else)
    case "FALSE" => Some(False)
    case "FUN" => Some(Fun)
    case "FOR" => Some(For)
    case "IF" => Some(If)
    case "NIL" => Some(TokenType.Nil)
    case "OR" => Some(Or)
    case "PRINT" => Some(Print)
    case "RETURN" => Some(Return)
    case "SUPER" => Some(Super)
    case "THIS" => Some(This)
    case "TRUE" => Some(True)
    case "VAR" => Some(Var)
    case "WHILE" => Some(While)
    case "EOF" => Some(Eof)
    case _ => None
  }

  /*
   * The names of the kinds, five at a time: each reads back as its kind
   * and holds no space.
   */
  lemma KindNamesGroup1()
    ensures KindNamed("LEFT_PAREN") == Some(LeftParen) && ' ' !in "LEFT_PAREN"
    ensures KindNamed("RIGHT_PAREN") == Some(RightParen) && ' ' !in "RIGHT_PAREN"
    ensures KindNamed("LEFT_BRACE") == Some(LeftBrace) && ' ' !in "LEFT_BRACE"
    ensures KindNamed("RIGHT_BRACE") == Some(RightBrace) && ' ' !in "RIGHT_BRACE"
    ensures KindNamed("COMMA") == Some(Comma) && ' ' !in "COMMA"
  {
  }

  lemma KindNamesGroup2()
    ensures KindNamed("DOT") == Some(Dot) && ' ' !in "DOT"
    ensures KindNamed("MINUS") == Some(Minus) && ' ' !in "MINUS"
    ensures KindNamed("PLUS") == Some(Plus) && ' ' !in "PLUS"
    ensures KindNamed("SEMICOLON") == Some(Semicolon) && ' ' !in "SEMICOLON"
    ensures KindNamed("SLASH") == Some(Slash) && ' ' !in "SLASH"
  {
  }

  lemma KindNamesGroup3()
    ensures KindNamed("STAR") == Some(Star) && ' ' !in "STAR"
    ensures KindNamed("BANG") == Some(Bang) && ' ' !in "BANG"
    ensures KindNamed("BANG_EQUAL") == Some(BangEqual) && ' ' !in "BANG_EQUAL"
    ensures KindNamed("EQUAL") == Some(Equal) && ' ' !in "EQUAL"
    ensures KindNamed("EQUAL_EQUAL") == Some(EqualEqual) && ' ' !in "EQUAL_EQUAL"
  {
  }

  lemma KindNamesGroup4()
    ensures KindNamed("GREATER") == Some(Greater) && ' ' !in "GREATER"
    ensures KindNamed("GREATER_EQUAL") == Some(GreaterEqual) && ' ' !in "GREATER_EQUAL"
    ensures KindNamed("LESS") == Some(Less) && ' ' !in "LESS"
    ensures KindNamed("LESS_EQUAL") == Some(LessEqual) && ' ' !in "LESS_EQUAL"
    ensures KindNamed("IDENTIFIER") == Some(Identifier) && ' ' !in "IDENTIFIER"
  {
  }

  lemma KindNamesGroup5()
    ensures KindNamed("STRING") == Some(String) && ' ' !in "STRING"
    ensures KindNamed("NUMBER") == Some(Number) && ' ' !in "NUMBER"
    ensures KindNamed("AND") == Some(And) && ' ' !in "AND"
    ensures KindNamed("CLASS") == Some(Class) && ' ' !in "CLASS"
    ensures KindNamed("ELSE") == Some(Else) && ' ' !in "ELSE"
  {
  }

  lemma KindNamesGroup6()
    ensures KindNamed("FALSE") == Some(False) && ' ' !in "FALSE"
    ensures KindNamed("FUN") == Some(Fun) && ' ' !in "FUN"
    ensures KindNamed("FOR") == Some(For) && ' ' !in "FOR"
    ensures KindNamed("IF") == Some(If) && ' ' !in "IF"
    ensures KindNamed("NIL") == Some(TokenType.Nil) && ' ' !in "NIL"
  {
  }

  lemma KindNamesGroup7()
    ensures KindNamed("OR") == Some(Or) && ' ' !in "OR"
    ensures KindNamed("PRINT") == Some(Print) && ' ' !in "PRINT"
    ensures KindNamed("RETURN") == Some(Return) && ' ' !in "RETURN"
    ensures KindNamed("SUPER") == Some(Super) && ' ' !in "SUPER"
    ensures KindNamed("THIS") == Some(This) && ' ' !in "THIS"
  {
  }

  lemma KindNamesGroup8()
    ensures KindNamed("TRUE") == Some(True) && ' ' !in "TRUE"
    ensures KindNamed("VAR") == Some(Var) && ' ' !in "VAR"
    ensures KindNamed("WHILE") == Some(While) && ' ' !in "WHILE"
    ensures KindNamed("EOF") == Some(Eof) && ' ' !in "EOF"
  {
  }

  /** Kind names are non-empty upper-case words: no spaces inside. */
  lemma NameIsOneWord(t: TokenType)
    ensures |Name(t)| > 0
    ensures ' ' !in Name(t)
  {
    KindNamesGroup1();
    KindNamesGroup2();
    KindNamesGroup3();
    KindNamesGroup4();
    KindNamesGroup5();
    KindNamesGroup6();
    KindNamesGroup7();
    KindNamesGroup8();
  }

  /** Every kind's name reads back as that kind, so `Name` is injective. */
  lemma NameRoundTrip(t: TokenType)
    ensures KindNamed(Name(t)) == Some(t)
  {
    match t
    case LeftParen => KindNamesGroup1();
    case RightParen => KindNamesGroup1();
    case LeftBrace => KindNamesGroup1();
    case RightBrace => KindNamesGroup1();
    case Comma => KindNamesGroup1();
    case Dot => KindNamesGroup2();
    case Minus => KindNamesGroup2();
    case Plus => KindNamesGroup2();
    case Semicolon => KindNamesGroup2();
    case Slash => KindNamesGroup2();
    case Star => KindNamesGroup3();
    case Bang => KindNamesGroup3();
    case BangEqual => KindNamesGroup3();
    case Equal => KindNamesGroup3();
    case EqualEqual => KindNamesGroup3();
    case Greater => KindNamesGroup4();
    case GreaterEqual => KindNamesGroup4();
    case Less => KindNamesGroup4();
    case LessEqual => KindNamesGroup4();
    case Identifier => KindNamesGroup4();
    case String => KindNamesGroup5();
    case Number => KindNamesGroup5();
    case And => KindNamesGroup5();
    case Class => KindNamesGroup5();
    case Else => KindNamesGroup5();
    case False => KindNamesGroup6();
    case Fun => KindNamesGroup6();
    case For => KindNamesGroup6();
    case If => KindNamesGroup6();
    case Nil => KindNamesGroup6();
    case Or => KindNamesGroup7();
    case Print => KindNamesGroup7();
    case Return => KindNamesGroup7();
    case Super => KindNamesGroup7();
    case This => KindNamesGroup7();
    case True => KindNamesGroup8();
    case Var => KindNamesGroup8();
    case While => KindNamesGroup8();
    case Eof => KindNamesGroup8();
  }

  /**
   * The immutable token record, with the fields in the source's positional
   * order: line, literal (null is `Values.Nil`), lexeme, kind. Equality is
   * structural over all four fields, as for a C# record.
   */
  datatype Token = Token(line: int, literal: Value, lexeme: string, kind: TokenType)

  /** The literal part of `Stringify`: `Literal ?? "NULL"`, then `ToString`. */
  function LiteralText(v: Value, ops: FloatOps): (r: string)
    ensures v.Nil? ==> r == "NULL"
    ensures !v.Nil? ==> Some(r) == ObjectText(v, ops)
  {
    match ObjectText(v, ops)
    case None => "NULL"
    case Some(text) => text
  }

  /** The debug form: kind name, lexeme and literal separated by single spaces. */
  function Stringify(t: Token, ops: FloatOps): (r: string)
  {
    Name(t.kind) + " " + t.lexeme + " " + LiteralText(t.literal, ops)
  }

  /** The text up to (not including) the first space. */
  function FirstWord(s: string): (r: string)
    ensures |r| <= |s| && r == s[..|r|]
    ensures forall i :: 0 <= i < |r| ==> r[i] != ' '
  {
    if s == [] || s[0] == ' ' then [] else [s[0]] + FirstWord(s[1..])
  }

  lemma {:induction false} FirstWordOfPrefix(w: string, rest: string)
    requires forall i :: 0 <= i < |w| ==> w[i] != ' '
    ensures FirstWord(w + " " + rest) == w
  {
    if w != [] {
      assert (w + " " + rest)[1..] == w[1..] + " " + rest;
      FirstWordOfPrefix(w[1..], rest);
    }
  }

  /**
   * `Stringify` starts with the kind's name and the lexeme, and the kind
   * can be read back from it: the kind name is the first word.
   */
  lemma StringifyShowsKind(t: Token, ops: FloatOps)
    ensures Stringify(t, ops)[..|Name(t.kind)| + 1] == Name(t.kind) + " "
    ensures KindNamed(FirstWord(Stringify(t, ops))) == Some(t.kind)
    ensures t.literal.Nil? ==> Stringify(t, ops) == Name(t.kind) + " " + t.lexeme + " NULL"
  {
    NameIsOneWord(t.kind);
    assert Stringify(t, ops) == Name(t.kind) + " " + (t.lexeme + " " + LiteralText(t.literal, ops));
    FirstWordOfPrefix(Name(t.kind), t.lexeme + " " + LiteralText(t.literal, ops));
    NameRoundTrip(t.kind);
  }
}
