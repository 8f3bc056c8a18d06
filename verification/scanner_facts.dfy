/** Properties of the scanner, one group per kind of input character. */
module ScannerFacts {
  import opened Wrappers
  import opened Values
  import opened Tokens
  import opened SourceWalker
  import opened Scanner
  import ReservedWords

  /** A cursor ready for `ScanToken`: start mark at the cursor, before the end. */
  predicate ReadyAt(w: Walker, i: nat) {
    w.start == w.current == i && i < |w.source|
  }

  /** Characters that `ScanToken` knows how to handle. */
  predicate Recognised(c: char) {
    || SingleCharKind(c).Some? || OperatorKinds(c).Some?
    || c == '/' || c == ' ' || c == '\r' || c == '\t' || c == '\n' || c == '"'
    || IsDigit(c) || IsAlpha(c)
  }

  lemma SliceOfOne(s: string, i: nat)
    requires i < |s|
    ensures s[i..i + 1] == [s[i]]
  {
  }

  /** A one-character token is emitted for its character alone. */
  lemma SingleCharToken(w: Walker, i: nat, parse: string -> Double)
    requires ReadyAt(w, i) && SingleCharKind(w.source[i]).Some?
    ensures ScanToken(w, parse) ==
      Step(w.(current := i + 1),
           Some(Token(w.line, Value.Nil, [w.source[i]], SingleCharKind(w.source[i]).value)), None)
  {
    assert w.source[i..i + 1] == [w.source[i]];
  }

  /**
   * `!`, `=`, `<` and `>` take the `=`-suffixed kind exactly when the next
   * character is `=`, and then consume it too.
   */
  lemma OperatorToken(w: Walker, i: nat, parse: string -> Double)
    requires ReadyAt(w, i) && OperatorKinds(w.source[i]).Some?
    ensures var two := i + 1 < |w.source| && w.source[i + 1] == '=';
            var kinds := OperatorKinds(w.source[i]).value;
            ScanToken(w, parse) ==
              Step(w.(current := if two then i + 2 else i + 1),
                   Some(Token(w.line, Value.Nil,
                              if two then [w.source[i], '='] else [w.source[i]],
                              if two then kinds.1 else kinds.0)), None)
  {
    var two := i + 1 < |w.source| && w.source[i + 1] == '=';
    var w1 := w.Advance().1;
    assert ScanToken(w, parse) == ScanOperator(w1, OperatorKinds(w.source[i]).value);
    if two {
      assert w.source[i..i + 2] == [w.source[i], '='];
    } else {
      SliceOfOne(w.source, i);
    }
  }

  /**
   * `//` starts a comment that runs up to, not over, the next newline (or
   * the end) and adds nothing; a lone `/` is a SLASH token.
   */
  lemma SlashOrComment(w: Walker, i: nat, parse: string -> Double)
    requires ReadyAt(w, i) && w.source[i] == '/'
    ensures var r := ScanToken(w, parse);
            if i + 1 < |w.source| && w.source[i + 1] == '/' then
              && r.token.None? && r.error.None?
              && r.walker == w.(current := r.walker.current)
              && (forall k :: i + 2 <= k < r.walker.current ==> w.source[k] != '\n')
              && (r.walker.current == |w.source| || w.source[r.walker.current] == '\n')
            else
              r == Step(w.(current := i + 1), Some(Token(w.line, Value.Nil, "/", Slash)), None)
  {
    var w1 := w.Advance().1;
    assert ScanToken(w, parse) == ScanSlash(w1);
    assert w.source[i..i + 1] == "/";
  }

  /** Space, CR and tab add nothing; a newline adds nothing but moves to the next line. */
  lemma WhitespaceAndNewline(w: Walker, i: nat, parse: string -> Double)
    requires ReadyAt(w, i)
    ensures w.source[i] in {' ', '\r', '\t'} ==> ScanToken(w, parse) == Step(w.(current := i + 1), None, None)
    ensures w.source[i] == '\n' ==> ScanToken(w, parse) == Step(w.(current := i + 1, line := w.line + 1), None, None)
  {
  }

  /**
   * A `"` hands over to `ParseString`, whose contract describes the literal:
   * the token, if any, ends at the next double quote, its literal is the
   * text between the quotes, and it is recorded on the line of the closing
   * quote.
   */
  lemma StringToken(w: Walker, i: nat, parse: string -> Double)
    requires ReadyAt(w, i) && w.source[i] == '"'
    ensures ScanToken(w, parse) == ParseString(w.Advance().1)
    ensures var r := ScanToken(w, parse);
            r.token.Some? ==> r.token.value.literal == Str(w.source[i + 1..r.walker.current - 1])
  {
    var w1 := w.Advance().1;
    assert SingleCharKind('"').None? && OperatorKinds('"').None?;
    assert ScanToken(w, parse) == ParseString(w1);
  }

  /** Every character of `s` is a digit. */
  predicate AllDigits(s: string) {
    forall k :: 0 <= k < |s| ==> IsDigit(s[k])
  }

  /**
   * The shape of a number lexeme: a run of digits, optionally followed by
   * a `.` and a second non-empty run of digits.
   */
  predicate NumberShape(s: string) {
    || (|s| > 0 && AllDigits(s))
    || exists p :: 0 < p < |s| - 1 && s[p] == '.' && AllDigits(s[..p]) && AllDigits(s[p + 1..])
  }

  /** A digit starts a number token; `ParseNumberShape` says what it covers. */
  lemma NumberToken(w: Walker, i: nat, parse: string -> Double)
    requires ReadyAt(w, i) && IsDigit(w.source[i])
    ensures ScanToken(w, parse) == ParseNumber(w.Advance().1, parse)
  {
    WordCharacter(w.source[i]);
  }

  /**
   * A number token's lexeme has the number shape and is the longest such
   * prefix: it is not followed by a digit, and a `.` after an integer part
   * is left alone unless a digit follows it. Its literal is `double.Parse`
   * of the lexeme.
   */
  lemma ParseNumberShape(w: Walker, i: nat, parse: string -> Double)
    requires w.start == i && w.current == i + 1 <= |w.source| && IsDigit(w.source[i])
    ensures var r := ParseNumber(w, parse);
            var j := r.walker.current;
            && i < j <= |w.source|
            && r.walker == w.(current := j)
            && r.error.None?
            && r.token == Some(Token(w.line, Num(parse(w.source[i..j])), w.source[i..j], Number))
            && NumberShape(w.source[i..j])
            && (j == |w.source| || !IsDigit(w.source[j]))
            && ('.' !in w.source[i..j] ==>
                  !(j + 1 < |w.source| && w.source[j] == '.' && IsDigit(w.source[j + 1])))
  {
    var a := SkipWhile(w, IsDigit);
    DigitRun(w.source, i, a.current);
    if a.PeekAt(0) == '.' && IsDigit(a.PeekAt(1)) {
      var b := SkipWhile(a.Advance().1, IsDigit);
      DigitRun(w.source, a.current + 1, b.current);
      DigitsDotDigits(w.source, i, a.current, b.current);
    }
  }

  lemma DigitRun(source: string, i: nat, j: nat)
    requires i <= j <= |source|
    requires forall k :: i <= k < j ==> IsDigit(source[k])
    ensures AllDigits(source[i..j]) && '.' !in source[i..j]
    ensures i < j ==> NumberShape(source[i..j])
  {
    assert forall k :: 0 <= k < j - i ==> source[i..j][k] == source[i + k];
  }

  lemma DigitsDotDigits(source: string, i: nat, m: nat, j: nat)
    requires i < m && m + 1 < j <= |source|
    requires AllDigits(source[i..m]) && source[m] == '.' && AllDigits(source[m + 1..j])
    ensures NumberShape(source[i..j])
  {
    var s := source[i..j];
    var p := m - i;
    assert s[..p] == source[i..m];
    assert s[p + 1..] == source[m + 1..j];
  }

  /**
   * An identifier starts with a letter or `_`, runs over letters, digits and
   * `_` as far as it can, and is a keyword token exactly when its text is in
   * the keyword table.
   */
  lemma IdentifierToken(w: Walker, i: nat, parse: string -> Double)
    requires ReadyAt(w, i) && IsAlpha(w.source[i])
    ensures var r := ScanToken(w, parse);
            var j := r.walker.current;
            && r.walker == w.(current := j)
            && r.error.None?
            && r.token == Some(Token(w.line, Value.Nil, w.source[i..j], ReservedWords.KindOf(w.source[i..j])))
            && (forall k :: i <= k < j ==> IsAlphaNumeric(w.source[k]))
            && (j == |w.source| || !IsAlphaNumeric(w.source[j]))
            && (r.token.value.kind == Identifier <==> w.source[i..j] !in ReservedWords.Keywords)
  {
    var w1 := w.Advance().1;
    WordCharacter(w.source[i]);
    assert ScanToken(w, parse) == ParseIdentifier(w1);
    ParseIdentifierShape(w1, i);
  }

  /** Letters, digits and `_` reach none of `ScanToken`'s earlier branches. */
  lemma WordCharacter(c: char)
    requires IsAlphaNumeric(c)
    ensures SingleCharKind(c).None? && OperatorKinds(c).None?
    ensures c != '/' && c != ' ' && c != '\r' && c != '\t' && c != '\n' && c != '"'
  {
  }

  lemma ParseIdentifierShape(w: Walker, i: nat)
    requires w.start == i && w.current == i + 1 <= |w.source|
    ensures var r := ParseIdentifier(w);
            var j := r.walker.current;
            && r.walker == w.(current := j)
            && r.error.None?
            && r.token == Some(Token(w.line, Value.Nil, w.source[i..j], ReservedWords.KindOf(w.source[i..j])))
            && (forall k :: i < k < j ==> IsAlphaNumeric(w.source[k]))
            && (j == |w.source| || !IsAlphaNumeric(w.source[j]))
            && (r.token.value.kind == Identifier <==> w.source[i..j] !in ReservedWords.Keywords)
  {
  }

  /** Any other character is reported with its line and consumed; nothing is added. */
  lemma UnexpectedCharacter(w: Walker, i: nat, parse: string -> Double)
    requires ReadyAt(w, i) && !Recognised(w.source[i])
    ensures ScanToken(w, parse) ==
      Step(w.(current := i + 1), None, Some(LexError(w.line, "Unexpected character: " + [w.source[i]])))
  {
  }

  /** A text of at most one character scans to the EOF token alone, on line 1. */
  lemma ShortSourceOnlyEof(source: string, parse: string -> Double)
    requires |source| <= 1
    ensures ScanTokens(source, parse) == Scan([Token(1, Value.Nil, "", Eof)], [])
  {
  }

  /**
   * Every token before EOF is a slice of the text that starts at index 1 or
   * later, and the slices come in text order.
   */
  lemma TokensAreOrderedSlices(source: string, parse: string -> Double)
    ensures var lexed := ScanFrom(Walker(source, FirstIndex, FirstIndex, 1), parse);
            && ScanTokens(source, parse).tokens == TokensOf(lexed.items) + [EofToken(lexed.line)]
            && (forall k :: 0 <= k < |lexed.items| ==>
                  && 1 <= lexed.items[k].start < lexed.items[k].end <= |source|
                  && lexed.items[k].token.lexeme == source[lexed.items[k].start..lexed.items[k].end])
            && (forall k :: 0 <= k < |lexed.items| - 1 ==> lexed.items[k].end <= lexed.items[k + 1].start)
  {
  }

  // ---- The first character is never read --------------------------------

  /** Two cursors in the same state over texts that may differ only at index 0. */
  predicate Agree(w1: Walker, w2: Walker) {
    && |w1.source| == |w2.source|
    && w1.start == w2.start && w1.current == w2.current && w1.line == w2.line
    && 1 <= w1.start && 1 <= w1.current
    && (forall k :: 1 <= k < |w1.source| ==> w1.source[k] == w2.source[k])
  }

  lemma SkipWhileAgree(w1: Walker, w2: Walker, p: char -> bool)
    requires Agree(w1, w2) && !p('\0') && w1.current <= |w1.source|
    ensures Agree(SkipWhile(w1, p), SkipWhile(w2, p))
    decreases |w1.source| - w1.current
  {
    if p(w1.PeekAt(0)) {
      SkipWhileAgree(w1.Advance().1, w2.Advance().1, p);
    }
  }

  lemma SkipCommentAgree(w1: Walker, w2: Walker)
    requires Agree(w1, w2) && w1.current <= |w1.source|
    ensures Agree(SkipComment(w1), SkipComment(w2))
    decreases |w1.source| - w1.current
  {
    if w1.PeekAt(0) != '\n' && !w1.IsAtEnd(0) {
      SkipCommentAgree(w1.Advance().1, w2.Advance().1);
    }
  }

  lemma StringBodyAgree(w1: Walker, w2: Walker)
    requires Agree(w1, w2) && w1.current <= |w1.source|
    ensures Agree(StringBody(w1), StringBody(w2))
    decreases |w1.source| - w1.current
  {
    assert w1.PeekAt(0) == w2.PeekAt(0) && w1.IsAtEnd(0) == w2.IsAtEnd(0);
    if w1.PeekAt(0) != '"' && !w1.IsAtEnd(0) {
      var v1 := if w1.PeekAt(0) == '\n' then w1.(line := w1.line + 1) else w1;
      var v2 := if w2.PeekAt(0) == '\n' then w2.(line := w2.line + 1) else w2;
      var n1 := v1.Advance().1;
      var n2 := v2.Advance().1;
      assert Agree(n1, n2);
      StringBodyAgree(n1, n2);
      assert StringBody(w1) == StringBody(n1);
      assert StringBody(w2) == StringBody(n2);
    }
  }

  lemma SliceAgree(w1: Walker, w2: Walker, a: nat, b: nat)
    requires Agree(w1, w2) && 1 <= a <= b <= |w1.source|
    ensures w1.source[a..b] == w2.source[a..b]
  {
  }

  /** Two agreeing steps: same token and error, agreeing cursors. */
  predicate StepsAgree(r1: Step, r2: Step) {
    Agree(r1.walker, r2.walker) && r1.token == r2.token && r1.error == r2.error
  }

  lemma AddTokenAgree(w1: Walker, w2: Walker, kind: TokenType, literal: Value)
    requires Agree(w1, w2) && w1.start <= w1.current <= |w1.source|
    ensures StepsAgree(AddToken(w1, kind, literal), AddToken(w2, kind, literal))
  {
    SliceAgree(w1, w2, w1.start, w1.current);
  }

  lemma ScanOperatorAgree(w1: Walker, w2: Walker, kinds: (TokenType, TokenType))
    requires Agree(w1, w2) && w1.start < w1.current <= |w1.source|
    ensures StepsAgree(ScanOperator(w1, kinds), ScanOperator(w2, kinds))
  {
    var m1 := w1.AdvanceOnMatch('=');
    var m2 := w2.AdvanceOnMatch('=');
    assert m1.0 == m2.0 && Agree(m1.1, m2.1);
    AddTokenAgree(m1.1, m2.1, if m1.0 then kinds.1 else kinds.0, Value.Nil);
  }

  lemma ScanSlashAgree(w1: Walker, w2: Walker)
    requires Agree(w1, w2) && w1.start < w1.current <= |w1.source|
    ensures StepsAgree(ScanSlash(w1), ScanSlash(w2))
  {
    var m1 := w1.AdvanceOnMatch('/');
    var m2 := w2.AdvanceOnMatch('/');
    assert m1.0 == m2.0 && Agree(m1.1, m2.1);
    if m1.0 {
      SkipCommentAgree(m1.1, m2.1);
    } else {
      AddTokenAgree(m1.1, m2.1, Slash, Value.Nil);
    }
  }

  lemma ParseStringAgree(w1: Walker, w2: Walker)
    requires Agree(w1, w2) && w1.start < w1.current <= |w1.source|
    ensures StepsAgree(ParseString(w1), ParseString(w2))
  {
    StringBodyAgree(w1, w2);
    CloseStringAgree(StringBody(w1), StringBody(w2));
  }

  lemma CloseStringAgree(w1: Walker, w2: Walker)
    requires Agree(w1, w2) && w1.start < w1.current <= |w1.source|
    ensures StepsAgree(CloseString(w1), CloseString(w2))
  {
    if !w1.IsAtEnd(0) {
      var e1 := w1.Advance().1;
      var e2 := w2.Advance().1;
      SliceAgree(e1, e2, e1.start + 1, e1.current - 1);
      AddTokenAgree(e1, e2, String, Str(e1.source[e1.start + 1..e1.current - 1]));
    }
  }

  lemma ParseNumberAgree(w1: Walker, w2: Walker, parse: string -> Double)
    requires Agree(w1, w2) && w1.start < w1.current <= |w1.source|
    ensures StepsAgree(ParseNumber(w1, parse), ParseNumber(w2, parse))
  {
    SkipWhileAgree(w1, w2, IsDigit);
    var a1 := SkipWhile(w1, IsDigit);
    var a2 := SkipWhile(w2, IsDigit);
    assert a1.PeekAt(0) == a2.PeekAt(0) && a1.PeekAt(1) == a2.PeekAt(1);
    if a1.PeekAt(0) == '.' && IsDigit(a1.PeekAt(1)) {
      SkipWhileAgree(a1.Advance().1, a2.Advance().1, IsDigit);
      var e1 := SkipWhile(a1.Advance().1, IsDigit);
      SliceAgree(e1, SkipWhile(a2.Advance().1, IsDigit), e1.start, e1.current);
    } else {
      SliceAgree(a1, a2, a1.start, a1.current);
    }
  }

  lemma ParseIdentifierAgree(w1: Walker, w2: Walker)
    requires Agree(w1, w2) && w1.start < w1.current <= |w1.source|
    ensures StepsAgree(ParseIdentifier(w1), ParseIdentifier(w2))
  {
    SkipWhileAgree(w1, w2, IsAlphaNumeric);
    var a1 := SkipWhile(w1, IsAlphaNumeric);
    SliceAgree(a1, SkipWhile(w2, IsAlphaNumeric), a1.start, a1.current);
  }

  lemma ScanTokenAgree(w1: Walker, w2: Walker, parse: string -> Double)
    requires Agree(w1, w2) && w1.start == w1.current && !w1.IsAtEnd(0)
    ensures StepsAgree(ScanToken(w1, parse), ScanToken(w2, parse))
  {
    var i := w1.current;
    var c := w1.source[i];
    assert w2.source[i] == c;
    var v1 := w1.Advance().1;
    var v2 := w2.Advance().1;
    assert Agree(v1, v2);
    if SingleCharKind(c).Some? {
      AddTokenAgree(v1, v2, SingleCharKind(c).value, Value.Nil);
    } else if OperatorKinds(c).Some? {
      ScanOperatorAgree(v1, v2, OperatorKinds(c).value);
    } else if c == '/' {
      ScanSlashAgree(v1, v2);
    } else if c == ' ' || c == '\r' || c == '\t' || c == '\n' {
    } else if c == '"' {
      ParseStringAgree(v1, v2);
    } else if IsDigit(c) {
      ParseNumberAgree(v1, v2, parse);
    } else if IsAlpha(c) {
      ParseIdentifierAgree(v1, v2);
    }
  }

  lemma {:induction false} ScanFromAgree(w1: Walker, w2: Walker, parse: string -> Double)
    requires Agree(w1, w2)
    ensures ScanFrom(w1, parse) == ScanFrom(w2, parse)
    decreases |w1.source| - w1.current
  {
    if !w1.IsAtEnd(0) {
      var u1 := w1.(start := w1.current);
      var u2 := w2.(start := w2.current);
      ScanTokenAgree(u1, u2, parse);
      ScanFromAgree(ScanToken(u1, parse).walker, ScanToken(u2, parse).walker, parse);
    }
  }

  /**
   * Scanning starts at index 1: texts that differ only in their first
   * character scan to the same tokens and errors.
   */
  lemma FirstCharacterIgnored(c: char, d: char, rest: string, parse: string -> Double)
    ensures ScanTokens([c] + rest, parse) == ScanTokens([d] + rest, parse)
  {
    var w1 := Walker([c] + rest, FirstIndex, FirstIndex, 1);
    var w2 := Walker([d] + rest, FirstIndex, FirstIndex, 1);
    assert forall k :: 1 <= k < |w1.source| ==> w1.source[k] == rest[k - 1] == w2.source[k];
    ScanFromAgree(w1, w2, parse);
  }
}
