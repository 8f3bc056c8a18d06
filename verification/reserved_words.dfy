/** The keyword table the scanner consults for every identifier-shaped word. */
module ReservedWords {
  import opened Tokens

  const Keywords: map<string, TokenType> := map[
    "and" := TokenType.And,
    "class" := TokenType.Class,
    "else" := TokenType.Else,
    "false" := TokenType.False,
    "for" := TokenType.For,
    "fun" := TokenType.Fun,
    "if" := TokenType.If,
    "nil" := TokenType.Nil,
    "or" := TokenType.Or,
    "print" := TokenType.Print,
    "return" := TokenType.Return,
    "super" := TokenType.Super,
    "this" := TokenType.This,
    "true" := TokenType.True,
    "var" := TokenType.Var,
    "while" := TokenType.While
  ]

  /** The kinds that only keywords produce. */
  predicate IsKeywordKind(t: TokenType) {
    t in {TokenType.And, TokenType.Class, TokenType.Else, TokenType.False,
          TokenType.For, TokenType.Fun, TokenType.If, TokenType.Nil,
          TokenType.Or, TokenType.Print, TokenType.Return, TokenType.Super,
          TokenType.This, TokenType.True, TokenType.Var, TokenType.While}
  }

  /**
   * `TryGetValue` on the table, falling back to IDENTIFIER: exact,
   * case-sensitive, whole-word lookup.
   */
  function KindOf(text: string): (r: TokenType)
    ensures r == Identifier <==> text !in Keywords
    ensures text in Keywords ==> r == Keywords[text] && IsKeywordKind(r)
    ensures r != Eof
  {
    KeywordKindsAreKeywordOnly();
    if text in Keywords then Keywords[text] else Identifier
  }

  /**
   * The reserved word of a keyword kind; the empty string for the other
   * kinds. It inverts the table (`SpellingInvertsTable`).
   */
  function Spelling(t: TokenType): string {
    match t
    case And => "and"
    case Class => "class"
    case Else => "else"
    case False => "false"
    case For => "for"
    case Fun => "fun"
    case If => "if"
    case Nil => "nil"
    case Or => "or"
    case Print => "print"
    case Return => "return"
    case Super => "super"
    case This => "this"
    case True => "true"
    case Var => "var"
    case While => "while"
    case _ => ""
  }

  /** Looking a keyword up and spelling its kind gives the keyword back. */
  lemma SpellingInvertsTable(k: string)
    requires k in Keywords
    ensures Spelling(Keywords[k]) == k
    ensures IsKeywordKind(Keywords[k])
  {
  }

  /** Each keyword has its own kind, and every kind in the table is a keyword kind. */
  lemma KeywordKindsAreKeywordOnly()
    ensures forall a, b :: a in Keywords && b in Keywords && a != b ==> Keywords[a] != Keywords[b]
    ensures forall k :: k in Keywords ==> IsKeywordKind(Keywords[k])
  {
    forall a, b | a in Keywords && b in Keywords && Keywords[a] == Keywords[b]
      ensures a == b
    {
      SpellingInvertsTable(a);
      SpellingInvertsTable(b);
    }
    forall k | k in Keywords
      ensures IsKeywordKind(Keywords[k])
    {
      SpellingInvertsTable(k);
    }
  }

  /** The table has exactly the sixteen reserved words, as its keys. */
  lemma KeywordSet()
    ensures Keywords.Keys == {"and", "class", "else", "false", "for", "fun", "if", "nil",
                              "or", "print", "return", "super", "this", "true", "var", "while"}
  {
  }

  /**
   * Every keyword is spelled in lower-case ASCII letters, so a word with any
   * other character (an upper-case letter, a digit, `_`) is never a keyword.
   */
  lemma KeywordsAreLowerCase(text: string, i: int)
    requires 0 <= i < |text| && !('a' <= text[i] <= 'z')
    ensures text !in Keywords
    ensures KindOf(text) == Identifier
  {
  }

  /** The literal words are keywords and never identifiers. */
  lemma LiteralWordsAreKeywords()
    ensures KindOf("true") == TokenType.True
    ensures KindOf("false") == TokenType.False
    ensures KindOf("nil") == TokenType.Nil
  {
  }

  /** Lookup is case-sensitive: a capitalised keyword is an identifier. */
  lemma CapitalisedWordsAreIdentifiers()
    ensures KindOf("Print") == Identifier && KindOf("VAR") == Identifier
  {
    KeywordsAreLowerCase("Print", 0);
    KeywordsAreLowerCase("VAR", 0);
  }
}
