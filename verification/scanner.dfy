/**
 * The scanner: turns source text into tokens plus a list of lexical errors.
 * Scanning starts at index 1, so the first character of the text is never
 * looked at.
 */
module Scanner {
  import opened Wrappers
  import opened Values
  import opened Tokens
  import opened SourceWalker
  import ReservedWords

  /** A lexical error as reported to the diagnostic sink: line and message. */
  datatype LexError = LexError(line: int, message: string)

  /** What one `ScanToken` call does: the moved cursor, and the token or error it adds. */
  datatype Step = Step(walker: Walker, token: Option<Token>, error: Option<LexError>)

  /** A token together with the `[start, end)` range of the text it was cut from. */
  datatype Emitted = Emitted(token: Token, start: nat, end: nat)

  /** The tokens and errors of a scan before the EOF token, and the final line. */
  datatype Lexed = Lexed(items: seq<Emitted>, errors: seq<LexError>, line: int)

  /** The scanner's result: the token list and the lexical errors in order. */
  datatype Scan = Scan(tokens: seq<Token>, errors: seq<LexError>)

  /** The index at which the scanner's cursor starts. */
  const FirstIndex: nat := 1

  predicate IsAlpha(c: char) {
    ('a' <= c <= 'z') || ('A' <= c <= 'Z') || c == '_'
  }

  predicate IsDigit(c: char) {
    '0' <= c <= '9'
  }

  predicate IsAlphaNumeric(c: char) {
    IsAlpha(c) || IsDigit(c)
  }

  /** The kind of a character that is a token on its own. */
  function SingleCharKind(c: char): Option<TokenType> {
    match c
    case '(' => Some(LeftParen)
    case ')' => Some(RightParen)
    case '{' => Some(LeftBrace)
    case '}' => Some(RightBrace)
    case ',' => Some(Comma)
    case '.' => Some(Dot)
    case '-' => Some(Minus)
    case '+' => Some(Plus)
    case ';' => Some(Semicolon)
    case '*' => Some(Star)
    case _ => None
  }

  /** For `!`, `=`, `<`, `>`: the bare kind and the kind with `=` appended. */
  function OperatorKinds(c: char): Option<(TokenType, TokenType)> {
    match c
    case '!' => Some((Bang, BangEqual))
    case '=' => Some((Equal, EqualEqual))
    case '<' => Some((Less, LessEqual))
    case '>' => Some((Greater, GreaterEqual))
    case _ => None
  }

  /** Number of newline characters in `s`. */
  function Newlines(s: string): nat {
    if s == [] then 0 else (if s[0] == '\n' then 1 else 0) + Newlines(s[1..])
  }

  /** `AddToken`: a token whose lexeme is the text between the marks, at the current line. */
  function AddToken(w: Walker, kind: TokenType, literal: Value): (r: Step)
    requires w.start <= w.current <= |w.source|
  {
    Step(w, Some(Token(w.line, literal, w.Lexeme(), kind)), None)
  }

  /** A step that adds nothing. */
  function Skip(w: Walker): Step {
    Step(w, None, None)
  }

  /**
   * `while (p(PeekAt())) Advance();` — consumes the longest run of
   * characters satisfying `p`. `p` must reject NUL, which `PeekAt` shows at
   * the end.
   */
  function SkipWhile(w: Walker, p: char -> bool): (r: Walker)
    requires !p('\0')
    requires w.current <= |w.source|
    ensures r == w.(current := r.current)
    ensures w.current <= r.current <= |w.source|
    ensures forall i :: w.current <= i < r.current ==> p(w.source[i])
    ensures !p(r.PeekAt(0))
    decreases |w.source| - w.current
  {
    if p(w.PeekAt(0)) then SkipWhile(w.Advance().1, p) else w
  }

  /** The body of a `//` comment: consumes up to, not including, the next newline. */
  function SkipComment(w: Walker): (r: Walker)
    requires w.current <= |w.source|
    ensures r == w.(current := r.current)
    ensures w.current <= r.current <= |w.source|
    ensures forall i :: w.current <= i < r.current ==> w.source[i] != '\n'
    ensures r.IsAtEnd(0) || w.source[r.current] == '\n'
    decreases |w.source| - w.current
  {
    if w.PeekAt(0) != '\n' && !w.IsAtEnd(0) then SkipComment(w.Advance().1) else w
  }

  lemma NewlinesSplit(s: string, i: int)
    requires 0 <= i < |s|
    ensures Newlines(s[i..]) == (if s[i] == '\n' then 1 else 0) + Newlines(s[i + 1..])
  {
    assert s[i..][1..] == s[i + 1..];
  }

  /**
   * The body of a string literal: consumes up to the closing quote or the
   * end, counting the newlines it passes.
   */
  function StringBody(w: Walker): (r: Walker)
    requires w.current <= |w.source|
    ensures r == w.(current := r.current, line := r.line)
    ensures w.current <= r.current <= |w.source|
    ensures forall i :: w.current <= i < r.current ==> w.source[i] != '"'
    ensures r.IsAtEnd(0) || w.source[r.current] == '"'
    ensures r.line == w.line + Newlines(w.source[w.current..r.current])
    decreases |w.source| - w.current
  {
    if w.PeekAt(0) != '"' && !w.IsAtEnd(0) then
      var w1 := if w.PeekAt(0) == '\n' then w.(line := w.line + 1) else w;
      var r := StringBody(w1.Advance().1);
      assert w.source[w.current..r.current][1..] == w.source[w.current + 1..r.current];
      r
    else
      w
  }

  /** `ParseString`, entered after the opening quote. */
  function ParseString(w: Walker): (r: Step)
    requires w.start < w.current <= |w.source|
    ensures r.walker == StringBody(w).(current := r.walker.current)
    ensures r.token.Some? <==> !StringBody(w).IsAtEnd(0)
    ensures r.token.Some? ==>
              && r.walker.current == StringBody(w).current + 1
              && r.error.None?
              && r.token.value.line == r.walker.line
              && r.token.value.kind == String
              && r.token.value.lexeme == w.source[w.start..r.walker.current]
              && r.token.value.literal == Str(w.source[w.start + 1..r.walker.current - 1])
    ensures r.token.None? ==>
              && r.walker == StringBody(w)
              && r.error == Some(LexError(r.walker.line, "Unterminated string."))
  {
    CloseString(StringBody(w))
  }

  /**
   * The end of `ParseString`, once the body is consumed: an error at the
   * end of the source, otherwise the closing quote is consumed and the
   * token's literal is the text between the quotes.
   */
  function CloseString(w: Walker): (r: Step)
    requires w.start < w.current <= |w.source|
    ensures r.walker == w.(current := r.walker.current)
    ensures r.token.Some? <==> !w.IsAtEnd(0)
    ensures r.token.Some? ==>
              && r.walker.current == w.current + 1
              && r.error.None?
              && r.token.value.line == r.walker.line
              && r.token.value.kind == String
              && r.token.value.lexeme == w.source[w.start..r.walker.current]
              && r.token.value.literal == Str(w.source[w.start + 1..r.walker.current - 1])
    ensures r.token.None? ==>
              && r.walker == w
              && r.error == Some(LexError(r.walker.line, "Unterminated string."))
  {
    if w.IsAtEnd(0) then
      Step(w, None, Some(LexError(w.line, "Unterminated string.")))
    else
      var w1 := w.Advance().1;
      AddToken(w1, String, Str(w1.source[w1.start + 1..w1.current - 1]))
  }

  /** `ParseNumber`, entered after the first digit; `parse` is `double.Parse`. */
  function ParseNumber(w: Walker, parse: string -> Double): (r: Step)
    requires w.start < w.current <= |w.source|
  {
    var w1 := SkipWhile(w, IsDigit);
    var w2 := if w1.PeekAt(0) == '.' && IsDigit(w1.PeekAt(1))
              then SkipWhile(w1.Advance().1, IsDigit)
              else w1;
    AddToken(w2, Number, Num(parse(w2.Lexeme())))
  }

  /** `ParseIdentifier`, entered after the first letter. */
  function ParseIdentifier(w: Walker): (r: Step)
    requires w.start < w.current <= |w.source|
  {
    var w1 := SkipWhile(w, IsAlphaNumeric);
    AddToken(w1, ReservedWords.KindOf(w1.Lexeme()), Value.Nil)
  }

  /** `!`, `=`, `<`, `>` after their first character: one character of lookahead for `=`. */
  function ScanOperator(w: Walker, kinds: (TokenType, TokenType)): (r: Step)
    requires w.start < w.current <= |w.source|
  {
    var (matched, w1) := w.AdvanceOnMatch('=');
    AddToken(w1, if matched then kinds.1 else kinds.0, Value.Nil)
  }

  /** `/` after its first character: a comment when another `/` follows, else SLASH. */
  function ScanSlash(w: Walker): (r: Step)
    requires w.start < w.current <= |w.source|
  {
    var (matched, w1) := w.AdvanceOnMatch('/');
    if matched then Skip(SkipComment(w1)) else AddToken(w1, Slash, Value.Nil)
  }

  /**
   * `ScanToken`: consumes at least one character and adds at most one token
   * or one error. The token's lexeme is the consumed text.
   */
  function ScanToken(w: Walker, parse: string -> Double): (r: Step)
    requires w.start == w.current && !w.IsAtEnd(0)
    ensures r.walker.source == w.source && r.walker.start == w.start
    ensures w.current < r.walker.current <= |w.source|
    ensures r.walker.line >= w.line
    ensures r.token.Some? ==> r.error.None?
    ensures r.token.Some? ==>
              && r.token.value.lexeme == w.source[w.current..r.walker.current]
              && r.token.value.kind != Eof
              && r.token.value.line == r.walker.line
  {
    var (c, w1) := w.Advance();
    if SingleCharKind(c).Some? then
      AddToken(w1, SingleCharKind(c).value, Value.Nil)
    else if OperatorKinds(c).Some? then
      ScanOperator(w1, OperatorKinds(c).value)
    else if c == '/' then
      ScanSlash(w1)
    else if c == ' ' || c == '\r' || c == '\t' then
      Skip(w1)
    else if c == '\n' then
      Skip(w1.(line := w1.line + 1))
    else if c == '"' then
      ParseString(w1)
    else if IsDigit(c) then
      ParseNumber(w1, parse)
    else if IsAlpha(c) then
      ParseIdentifier(w1)
    else
      Step(w1, None, Some(LexError(w1.line, "Unexpected character: " + [c])))
  }

  /** The tokens of a list of emitted items, in order. */
  function TokensOf(items: seq<Emitted>): (r: seq<Token>)
    ensures |r| == |items|
    ensures forall k :: 0 <= k < |items| ==> r[k] == items[k].token
  {
    if items == [] then [] else [items[0].token] + TokensOf(items[1..])
  }

  /**
   * The scanning loop from cursor `w` to the end of the text. Every item is
   * cut from the text at or after the starting cursor, items come in text
   * order without overlapping, and none of them is EOF.
   */
  function ScanFrom(w: Walker, parse: string -> Double): (r: Lexed)
    ensures r.line >= w.line
    ensures forall k :: 0 <= k < |r.items| ==>
              && w.current <= r.items[k].start < r.items[k].end <= |w.source|
              && r.items[k].token.lexeme == w.source[r.items[k].start..r.items[k].end]
              && r.items[k].token.kind != Eof
    ensures forall k :: 0 <= k < |r.items| - 1 ==> r.items[k].end <= r.items[k + 1].start
    decreases |w.source| - w.current
  {
    if w.IsAtEnd(0) then
      Lexed([], [], w.line)
    else
      var step := ScanToken(w.(start := w.current), parse);
      var rest := ScanFrom(step.walker, parse);
      var here := if step.token.Some? then [Emitted(step.token.value, w.current, step.walker.current)] else [];
      var errs := if step.error.Some? then [step.error.value] else [];
      Lexed(here + rest.items, errs + rest.errors, rest.line)
  }

  /** The EOF token that closes every scan. */
  function EofToken(line: int): Token {
    Token(line, Value.Nil, "", Eof)
  }

  /**
   * `ScanTokens`: the scanned tokens followed by exactly one EOF token; no
   * earlier token is EOF. `ScannerLines.TokenLines` gives the lines.
   */
  function ScanTokens(source: string, parse: string -> Double): (r: Scan)
    ensures |r.tokens| >= 1
    ensures r.tokens[|r.tokens| - 1] == Token(r.tokens[|r.tokens| - 1].line, Value.Nil, "", Eof)
    ensures r.tokens[|r.tokens| - 1].line >= 1
    ensures forall k :: 0 <= k < |r.tokens| - 1 ==> r.tokens[k].kind != Eof
  {
    var lexed := ScanFrom(Walker(source, FirstIndex, FirstIndex, 1), parse);
    Scan(TokensOf(lexed.items) + [EofToken(lexed.line)], lexed.errors)
  }
}
