/**
 * The pull-based scanner of src/lexer/lexer.ts: a cursor over the source text that hands
 * out one token per `ScanToken` call. Each method is proved to compute what the functions
 * of module Scanning say it computes.
 */
module Lexing {
  import opened Wrappers
  import opened Tokens
  import opened Scanning
  import opened ScanningLemmas

  class Lexer {
    const source: string
    /** Start of the lexeme being scanned. */
    var start: nat
    /** Position of the scanner. */
    var current: nat
    /** Number of the line being read. */
    var line: nat
    /** The tokens other than end-of-input returned so far. */
    ghost var emitted: seq<Token>
    /** Every token other than end-of-input that the source scans to. */
    ghost const stream: seq<Token>

    /** The cursor invariant that every method keeps. */
    ghost predicate Cursor()
      reads this
    {
      start <= current <= |source| && 1 <= line
    }

    /** Between calls: what was returned, followed by what is still to come, is the whole stream. */
    ghost predicate Valid()
      reads this
    {
      Cursor() && stream == TokenStream(source, 0, 1) && emitted + TokenStream(source, current, line) == stream
    }

    constructor(source: string)
      ensures this.source == source && start == 0 && current == 0 && line == 1
      ensures emitted == [] && Valid()
    {
      this.source := source;
      start, current, line := 0, 0, 1;
      emitted := [];
      stream := TokenStream(source, 0, 1);
    }

    /** `scanToken`: skip trivia, then scan one token. */
    method ScanToken() returns (tok: Token)
      requires Valid()
      modifies this
      ensures Valid()
      ensures Scan(tok, current, line) == ScanAt(source, old(current), old(line))
      ensures start == tok.start
      ensures emitted == old(emitted) + (if tok.kind == Eof then [] else [tok])
    {
      ghost var from, fromLine := current, line;
      SkipWhitespace();
      start := current;
      tok := ScanLexeme();
      ResumeStep(source, emitted, stream, from, fromLine, Scan(tok, current, line));
      emitted := emitted + (if tok.kind == Eof then [] else [tok]);
    }

    /** The `switch` of `scanToken`, entered with `start` at the cursor once trivia is skipped. */
    method ScanLexeme() returns (tok: Token)
      requires Cursor() && start == current
      modifies this`current, this`line
      ensures Cursor()
      ensures Scan(tok, current, line) == Classify(source, start, old(line))
    {
      if IsAtEnd() {
        tok := MakeToken(Eof);
      } else {
        var c := Advance();
        if AlphaAt(Some(c)) {
          tok := MakeIdentifierOrKeyword();
        } else if DigitAt(Some(c)) {
          tok := MakeNumber();
        } else if SingleCharKind(c).Some? {
          tok := MakeToken(SingleCharKind(c).value);
        } else if OperatorKinds(c).Some? {
          var two := Match('=');
          tok := MakeToken(if two then OperatorKinds(c).value.1 else OperatorKinds(c).value.0);
        } else if c == '"' {
          tok := MakeString();
        } else {
          tok := MakeErrorToken("Unexpected character");
        }
      }
    }

    /** `makeToken`: a token covering the source text from `start` to the cursor. */
    function MakeToken(kind: TokenKind): (t: Token)
      reads this
      requires Cursor()
      ensures t.kind == kind && t.start == start && t.line == line
      ensures t.start + t.length == current && t.lexeme == source[t.start..t.start + t.length]
    {
      Span(kind, source, start, current, line)
    }

    /** `makeErrorToken`: the same span, with the message in place of the lexeme. */
    function MakeErrorToken(message: string): (t: Token)
      reads this
      requires Cursor()
      ensures t.kind == Error && t.lexeme == message && t.line == line
      ensures t.start == start && t.start + t.length == current
    {
      ErrorSpan(message, start, current, line)
    }

    /** `makeString`, entered just after the opening quote. */
    method MakeString() returns (tok: Token)
      requires Cursor() && start < |source| && current == start + 1 && source[start] == '"'
      modifies this`current, this`line
      ensures Cursor()
      ensures Scan(tok, current, line) == StringScan(source, start, old(line))
    {
      ScanStringBody();
      if IsAtEnd() {
        tok := MakeErrorToken("Unterminated string");
      } else {
        var c := Advance();
        tok := MakeToken(String);
      }
    }

    /** The loop of `makeString`: up to the closing quote or the end, counting newlines. */
    method ScanStringBody()
      requires Cursor()
      modifies this`current, this`line
      ensures Cursor() && current == QuoteEnd(source, old(current))
      ensures line == old(line) + Newlines(source, old(current), current)
    {
      ghost var from, end, line0 := current, QuoteEnd(source, current), line;
      while Peek() != Some('"') && !IsAtEnd()
        invariant Cursor() && from <= current <= end
        invariant QuoteEnd(source, current) == end
        invariant line == line0 + Newlines(source, from, current)
        decreases |source| - current
      {
        if Peek() == Some('\n') {
          line := line + 1;
        }
        var c := Advance();
      }
    }

    /** `makeNumber`, entered just after the first digit. */
    method MakeNumber() returns (tok: Token)
      requires Cursor() && start < |source| && current == start + 1
      modifies this`current
      ensures Cursor()
      ensures Scan(tok, current, line) == NumberScan(source, start, line)
    {
      while DigitAt(Peek())
        invariant Cursor() && start + 1 <= current
        invariant DigitsEnd(source, current) == DigitsEnd(source, start + 1)
        decreases |source| - current
      {
        var c := Advance();
      }
      assert current == DigitsEnd(source, start + 1);
      if Peek() == Some('.') && DigitAt(PeekNext()) {
        ghost var end := NumberEnd(source, start + 1);
        assert end == DigitsEnd(source, current + 1);
        var dot := Advance();
        while DigitAt(Peek())
          invariant Cursor() && start + 1 <= current
          invariant DigitsEnd(source, current) == end
          decreases |source| - current
        {
          var c := Advance();
        }
      } else {
        assert NumberEnd(source, start + 1) == current;
      }
      assert current == NumberEnd(source, start + 1);
      tok := MakeToken(Number);
    }

    /** `makeIdentifierOrKeyword`, entered just after the first letter. */
    method MakeIdentifierOrKeyword() returns (tok: Token)
      requires Cursor() && start < |source| && current == start + 1
      modifies this`current
      ensures Cursor()
      ensures Scan(tok, current, line) == WordScan(source, start, line)
    {
      while AlphaAt(Peek()) || DigitAt(Peek())
        invariant Cursor() && start + 1 <= current
        invariant WordEnd(source, current) == WordEnd(source, start + 1)
        decreases |source| - current
      {
        var c := Advance();
      }
      tok := MakeToken(WordKind(source[start..current]));
    }

    /** `isAtEnd` */
    predicate IsAtEnd()
      reads this
      requires Cursor()
    {
      current == |source|
    }

    /** `peek`: the character under the cursor, or nothing at the end. */
    function Peek(): (c: Option<char>)
      reads this
      requires Cursor()
      ensures c.Some? <==> current < |source|
      ensures c.Some? ==> c.value == source[current]
    {
      CharAt(source, current)
    }

    /** `peekNext`: the character after the cursor, or nothing at or just before the end. */
    function PeekNext(): (c: Option<char>)
      reads this
      requires Cursor()
      ensures c.Some? <==> current + 1 < |source|
      ensures c.Some? ==> c.value == source[current + 1]
    {
      if IsAtEnd() then None else CharAt(source, current + 1)
    }

    /** `advance`: consume the character under the cursor; only called when one is there. */
    method Advance() returns (c: char)
      requires Cursor() && current < |source|
      modifies this`current
      ensures Cursor() && current == old(current) + 1 && c == source[old(current)]
    {
      current := current + 1;
      c := source[current - 1];
    }

    /** `match`: consume the character under the cursor if it is `expected`. */
    method Match(expected: char) returns (matched: bool)
      requires Cursor()
      modifies this`current
      ensures Cursor()
      ensures matched <==> old(Peek()) == Some(expected)
      ensures current == old(current) + (if matched then 1 else 0)
    {
      if IsAtEnd() {
        return false;
      }
      if source[current] != expected {
        return false;
      }
      current := current + 1;
      return true;
    }

    /** `skipWhitespace`, with a comment followed by further trivia rather than returning. */
    method SkipWhitespace()
      requires Cursor()
      modifies this`current, this`line
      ensures Cursor()
      ensures (current, line) == SkipTrivia(source, old(current), old(line))
    {
      while true
        invariant Cursor()
        invariant SkipTrivia(source, current, line) == SkipTrivia(source, old(current), old(line))
        decreases |source| - current
      {
        var c := Peek();
        if c == Some(' ') || c == Some('\t') || c == Some('\r') {
          assert SkipTrivia(source, current, line) == SkipTrivia(source, current + 1, line);
          var skipped := Advance();
        } else if c == Some('\n') {
          assert SkipTrivia(source, current, line) == SkipTrivia(source, current + 1, line + 1);
          line := line + 1;
          var skipped := Advance();
        } else if c == Some('/') && PeekNext() == Some('/') {
          ghost var from, fromLine := current, line;
          assert SkipTrivia(source, from, line) == SkipTrivia(source, CommentEnd(source, from), line);
          while Peek() != Some('\n') && !IsAtEnd()
            invariant Cursor() && from <= current <= CommentEnd(source, from)
            invariant CommentEnd(source, current) == CommentEnd(source, from) && line == fromLine
            decreases |source| - current
          {
            var skipped := Advance();
          }
          assert current == CommentEnd(source, from);
        } else {
          return;
        }
      }
    }
  }
}
