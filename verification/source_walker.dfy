/**
 * The cursor over source text shared by the scanner: a start mark, a
 * current position and a line counter. The methods are pure here; each one
 * that moves the cursor returns the moved walker.
 */
module SourceWalker {

  datatype Walker = Walker(source: string, start: nat, current: nat, line: int) {

    /** Length of the text between the start mark and the cursor. */
    function EndLength(): int {
      current - start
    }

    /** True when the position `depth` characters ahead is past the text. */
    predicate IsAtEnd(depth: nat) {
      current + depth >= |source|
    }

    /** The character `depth` ahead, or NUL when that is past the text. */
    function PeekAt(depth: nat): char {
      if IsAtEnd(depth) then '\0' else source[current + depth]
    }

    /** Consumes one character; only defined before the end. */
    function Advance(): (r: (char, Walker))
      requires !IsAtEnd(0)
    {
      (source[current], this.(current := current + 1))
    }

    /** Consumes the next character only when it is `expected`. */
    function AdvanceOnMatch(expected: char): (r: (bool, Walker)) {
      if IsAtEnd(0) then (false, this)
      else if source[current] != expected then (false, this)
      else (true, Advance().1)
    }

    /** The text from the start mark to the cursor: `Substring(_start, _endLength)`. */
    function Lexeme(): (r: string)
      requires start <= current <= |source|
      ensures |r| == EndLength()
    {
      source[start..current]
    }
  }

  /** A walker as the base class constructs it: both marks at 0, line 1. */
  function Fresh(source: string): (w: Walker)
    ensures w.source == source && w.start == 0 && w.current == 0 && w.line == 1
    ensures w.EndLength() == 0 && (source != [] ==> w.PeekAt(0) == source[0])
    ensures w.IsAtEnd(0) <==> source == []
  {
    Walker(source, 0, 0, 1)
  }

  /**
   * `Advance` returns exactly what `PeekAt(0)` shows and moves the cursor by
   * one, leaving the text, the start mark and the line alone.
   */
  lemma AdvanceReturnsPeek(w: Walker)
    requires !w.IsAtEnd(0)
    ensures w.Advance().0 == w.PeekAt(0)
    ensures w.Advance().1 == Walker(w.source, w.start, w.current + 1, w.line)
    ensures w.Advance().1.EndLength() == w.EndLength() + 1
  {
  }

  /**
   * `AdvanceOnMatch(c)` succeeds iff the cursor is before the end and shows
   * `c`; on success it is `Advance`, on failure nothing changes. (At the end
   * `PeekAt(0)` shows NUL, yet matching NUL there still fails.)
   */
  lemma AdvanceOnMatchIffPeek(w: Walker, c: char)
    ensures w.AdvanceOnMatch(c).0 <==> !w.IsAtEnd(0) && w.PeekAt(0) == c
    ensures w.AdvanceOnMatch(c).0 ==> w.AdvanceOnMatch(c).1 == w.Advance().1
    ensures !w.AdvanceOnMatch(c).0 ==> w.AdvanceOnMatch(c).1 == w
  {
  }
}
