/**
 * Line numbers in the scanner. The scanner keeps its line count as it goes
 * instead of working it out from the text: it adds one for each newline it
 * passes, both between tokens and inside string literals. This module shows
 * that the running count always equals 1 plus the newlines in the text
 * scanned so far. So every token carries the line its last character is on,
 * and EOF carries the line the text ends on.
 */
module ScannerLines {
  import opened Values
  import opened Tokens
  import opened SourceWalker
  import opened Scanner
  import opened ScannerFacts

  lemma {:induction false} NewlinesAppend(a: string, b: string)
    ensures Newlines(a + b) == Newlines(a) + Newlines(b)
  {
    if a != [] {
      assert (a + b)[1..] == a[1..] + b;
      NewlinesAppend(a[1..], b);
    } else {
      assert a + b == b;
    }
  }

  /** The newlines of `s[i..k]` are those of `s[i..j]` plus those of `s[j..k]`. */
  lemma NewlinesSlices(s: string, i: nat, j: nat, k: nat)
    requires i <= j <= k <= |s|
    ensures Newlines(s[i..k]) == Newlines(s[i..j]) + Newlines(s[j..k])
  {
    assert s[i..k] == s[i..j] + s[j..k];
    NewlinesAppend(s[i..j], s[j..k]);
  }

  lemma {:induction false} NoNewlines(s: string)
    requires forall k :: 0 <= k < |s| ==> s[k] != '\n'
    ensures Newlines(s) == 0
  {
    if s != [] {
      assert forall k :: 0 <= k < |s| - 1 ==> s[1..][k] == s[k + 1];
      NoNewlines(s[1..]);
    }
  }

  lemma OneCharacter(s: string, i: nat)
    requires i < |s|
    ensures Newlines(s[i..i + 1]) == if s[i] == '\n' then 1 else 0
  {
    assert s[i..i + 1] == [s[i]];
    assert [s[i]][1..] == [];
  }

  /** A number lexeme holds no newline. */
  lemma NumberHasNoNewline(t: string)
    requires NumberShape(t)
    ensures Newlines(t) == 0
  {
    if !(|t| > 0 && AllDigits(t)) {
      var p :| 0 < p < |t| - 1 && t[p] == '.' && AllDigits(t[..p]) && AllDigits(t[p + 1..]);
      forall k | 0 <= k < |t|
        ensures t[k] != '\n'
      {
        if k < p {
          assert t[..p][k] == t[k];
        } else if k > p {
          assert t[p + 1..][k - p - 1] == t[k];
        }
      }
    }
    NoNewlines(t);
  }

  /** `!`, `=`, `<`, `>`, with or without a following `=`, keep the line. */
  lemma OperatorLine(w: Walker, i: nat, parse: string -> Double)
    requires ReadyAt(w, i) && OperatorKinds(w.source[i]).Some?
    ensures var r := ScanToken(w, parse);
            r.walker.line == w.line + Newlines(w.source[i..r.walker.current])
  {
    OperatorToken(w, i, parse);
    var j := ScanToken(w, parse).walker.current;
    forall k | 0 <= k < j - i
      ensures w.source[i..j][k] != '\n'
    {
      assert w.source[i..j][k] == w.source[i + k];
    }
    NoNewlines(w.source[i..j]);
  }

  /** A comment runs up to the next newline without passing it; a lone `/` keeps the line. */
  lemma SlashLine(w: Walker, i: nat, parse: string -> Double)
    requires ReadyAt(w, i) && w.source[i] == '/'
    ensures var r := ScanToken(w, parse);
            r.walker.line == w.line + Newlines(w.source[i..r.walker.current])
  {
    SlashOrComment(w, i, parse);
    var j := ScanToken(w, parse).walker.current;
    forall k | 0 <= k < j - i
      ensures w.source[i..j][k] != '\n'
    {
      assert w.source[i..j][k] == w.source[i + k];
    }
    NoNewlines(w.source[i..j]);
  }

  /**
   * A string literal passes the newlines inside it: the walker leaves it
   * on the line of the closing quote, or of the end of the text when the
   * literal is unterminated.
   */
  lemma StringLine(w: Walker, i: nat, parse: string -> Double)
    requires ReadyAt(w, i) && w.source[i] == '"'
    ensures var r := ScanToken(w, parse);
            r.walker.line == w.line + Newlines(w.source[i..r.walker.current])
  {
    StringToken(w, i, parse);
    ParseStringLine(w.Advance().1);
  }

  lemma ParseStringLine(v: Walker)
    requires v.start + 1 == v.current <= |v.source| && v.source[v.start] == '"'
    ensures var r := ParseString(v);
            r.walker.line == v.line + Newlines(v.source[v.start..r.walker.current])
  {
    var b := StringBody(v);
    var r := ParseString(v);
    OneCharacter(v.source, v.start);
    NewlinesSlices(v.source, v.start, v.current, b.current);
    if r.token.Some? {
      OneCharacter(v.source, b.current);
      NewlinesSlices(v.source, v.start, b.current, b.current + 1);
    }
  }

  /** A number passes digits and at most one `.`. */
  lemma NumberLine(w: Walker, i: nat, parse: string -> Double)
    requires ReadyAt(w, i) && IsDigit(w.source[i])
    ensures var r := ScanToken(w, parse);
            r.walker.line == w.line + Newlines(w.source[i..r.walker.current])
  {
    NumberToken(w, i, parse);
    var w1 := w.Advance().1;
    ParseNumberShape(w1, i, parse);
    NumberHasNoNewline(w.source[i..ParseNumber(w1, parse).walker.current]);
  }

  /** An identifier passes letters, digits and `_` only. */
  lemma IdentifierLine(w: Walker, i: nat, parse: string -> Double)
    requires ReadyAt(w, i) && IsAlpha(w.source[i])
    ensures var r := ScanToken(w, parse);
            r.walker.line == w.line + Newlines(w.source[i..r.walker.current])
  {
    IdentifierToken(w, i, parse);
    var j := ScanToken(w, parse).walker.current;
    forall k | 0 <= k < j - i
      ensures w.source[i..j][k] != '\n'
    {
      assert w.source[i..j][k] == w.source[i + k];
      WordCharacter(w.source[i + k]);
    }
    NoNewlines(w.source[i..j]);
  }

  /**
   * One `ScanToken` call moves the line on by exactly the newlines in the
   * text it consumes.
   */
  lemma StepLine(w: Walker, i: nat, parse: string -> Double)
    requires ReadyAt(w, i)
    ensures var r := ScanToken(w, parse);
            r.walker.line == w.line + Newlines(w.source[i..r.walker.current])
  {
    var c := w.source[i];
    if SingleCharKind(c).Some? {
      SingleCharToken(w, i, parse);
      OneCharacter(w.source, i);
    } else if OperatorKinds(c).Some? {
      OperatorLine(w, i, parse);
    } else if c == '/' {
      SlashLine(w, i, parse);
    } else if c == '"' {
      StringLine(w, i, parse);
    } else if IsDigit(c) {
      NumberLine(w, i, parse);
    } else if IsAlpha(c) {
      IdentifierLine(w, i, parse);
    } else if c == ' ' || c == '\r' || c == '\t' || c == '\n' {
      WhitespaceAndNewline(w, i, parse);
      OneCharacter(w.source, i);
    } else {
      UnexpectedCharacter(w, i, parse);
      OneCharacter(w.source, i);
    }
  }

  /**
   * The scanning loop from cursor `w`: the final line is the starting line
   * plus the newlines in the rest of the text, and each item's line is the
   * starting line plus the newlines before the item's end.
   */
  lemma {:induction false} ScanFromLines(w: Walker, parse: string -> Double)
    requires w.current <= |w.source|
    ensures var r := ScanFrom(w, parse);
            && r.line == w.line + Newlines(w.source[w.current..])
            && forall k :: 0 <= k < |r.items| ==>
                 r.items[k].token.line == w.line + Newlines(w.source[w.current..r.items[k].end])
    decreases |w.source| - w.current
  {
    if w.IsAtEnd(0) {
      assert w.source[w.current..] == [];
    } else {
      var w0 := w.(start := w.current);
      var step := ScanToken(w0, parse);
      var j := step.walker.current;
      var rest := ScanFrom(step.walker, parse);
      var here := if step.token.Some? then [Emitted(step.token.value, w.current, j)] else [];
      var r := ScanFrom(w, parse);
      assert r.items == here + rest.items && r.line == rest.line;
      StepLine(w0, w.current, parse);
      ScanFromLines(step.walker, parse);
      NewlinesSlices(w.source, w.current, j, |w.source|);
      assert w.source[j..] == w.source[j..|w.source|];
      assert w.source[w.current..] == w.source[w.current..|w.source|];
      forall k | 0 <= k < |r.items|
        ensures r.items[k].token.line == w.line + Newlines(w.source[w.current..r.items[k].end])
      {
        if k >= |here| {
          assert r.items[k] == rest.items[k - |here|];
          NewlinesSlices(w.source, w.current, j, rest.items[k - |here|].end);
        }
      }
    }
  }

  /**
   * `ScanTokens`: each token before EOF is on line 1 plus the newlines up
   * to its end (for a string literal, the line of its closing quote), and
   * EOF is on line 1 plus the newlines in the whole text after the
   * ignored first character.
   */
  lemma TokenLines(source: string, parse: string -> Double)
    ensures var r := ScanTokens(source, parse);
            r.tokens[|r.tokens| - 1].line == 1 + (if |source| <= 1 then 0 else Newlines(source[1..]))
    ensures var r := ScanTokens(source, parse);
            var lexed := ScanFrom(Walker(source, FirstIndex, FirstIndex, 1), parse);
            forall k :: 0 <= k < |lexed.items| ==> r.tokens[k].line == 1 + Newlines(source[1..lexed.items[k].end])
  {
    var w := Walker(source, FirstIndex, FirstIndex, 1);
    if |source| >= 1 {
      ScanFromLines(w, parse);
      if |source| == 1 {
        assert source[1..] == [];
      }
    }
  }
}
