/**
 * What the scanner promises about each token it returns, proved about the functions of
 * module Scanning (and so, through their contracts, about the `Lexer` class).
 */
module ScanningLemmas {
  import opened Wrappers
  import opened Tokens
  import opened Scanning
  import Chars

  /** Every character from `a` up to `b` is a digit. */
  ghost predicate AllDigits(s: string, a: nat, b: nat)
    requires a <= b <= |s|
  {
    forall k :: a <= k < b ==> Chars.IsDigit(s[k])
  }

  /** Every character from `a` up to `b` is a letter, `_` or a digit. */
  ghost predicate AllWordChars(s: string, a: nat, b: nat)
    requires a <= b <= |s|
  {
    forall k :: a <= k < b ==> Chars.IsAlphanumeric(s[k])
  }

  /** No character from `a` up to `b` is `c`. */
  ghost predicate Lacks(s: string, a: nat, b: nat, c: char)
    requires a <= b <= |s|
  {
    forall k :: a <= k < b ==> s[k] != c
  }

  // ---------------------------------------------------------------- runs of characters

  /** Newline counts over adjacent ranges add up. */
  lemma {:induction false} NewlinesSplit(s: string, a: nat, b: nat, c: nat)
    requires a <= b <= c <= |s|
    ensures Newlines(s, a, c) == Newlines(s, a, b) + Newlines(s, b, c)
    decreases c - b
  {
    if b < c {
      NewlinesSplit(s, a, b, c - 1);
    }
  }

  /** A range without newline characters counts none. */
  lemma {:induction false} NoNewlines(s: string, a: nat, b: nat)
    requires a <= b <= |s| && Lacks(s, a, b, '\n')
    ensures Newlines(s, a, b) == 0
    decreases b - a
  {
    if a < b {
      NoNewlines(s, a, b - 1);
    }
  }

  /** A comment runs up to, not including, the first newline. */
  lemma {:induction false} CommentEndFirst(s: string, i: nat)
    requires i <= |s|
    ensures Lacks(s, i, CommentEnd(s, i), '\n')
    decreases |s| - i
  {
    if i < |s| && s[i] != '\n' {
      CommentEndFirst(s, i + 1);
    }
  }

  /** A string body runs up to, not including, the first double quote. */
  lemma {:induction false} QuoteEndFirst(s: string, i: nat)
    requires i <= |s|
    ensures Lacks(s, i, QuoteEnd(s, i), '"')
    decreases |s| - i
  {
    if i < |s| && s[i] != '"' {
      QuoteEndFirst(s, i + 1);
    }
  }

  /** `DigitsEnd` stops at the first character that is not a digit. */
  lemma {:induction false} DigitsEndFirst(s: string, i: nat)
    requires i <= |s|
    ensures AllDigits(s, i, DigitsEnd(s, i)) && !DigitAt(CharAt(s, DigitsEnd(s, i)))
    decreases |s| - i
  {
    if DigitAt(CharAt(s, i)) {
      DigitsEndFirst(s, i + 1);
    }
  }

  /** `WordEnd` stops at the first character that is neither a letter, `_` nor a digit. */
  lemma {:induction false} WordEndFirst(s: string, i: nat)
    requires i <= |s|
    ensures AllWordChars(s, i, WordEnd(s, i))
    ensures WordEnd(s, i) == |s| || !Chars.IsAlphanumeric(s[WordEnd(s, i)])
    decreases |s| - i
  {
    if AlphaAt(CharAt(s, i)) || DigitAt(CharAt(s, i)) {
      WordEndFirst(s, i + 1);
    }
  }

  // ---------------------------------------------------------------- trivia

  /**
   * Skipping trivia stops at the end of the text or at a character that is neither blank,
   * newline nor the start of `//`, and the line counter grows by the newlines passed.
   */
  lemma {:induction false} SkipTriviaStops(s: string, i: nat, line: nat)
    requires i <= |s|
    ensures var (j, l) := SkipTrivia(s, i, line);
      && l == line + Newlines(s, i, j)
      && (j == |s| || (!IsBlank(s[j]) && s[j] != '\n' && !(s[j] == '/' && CharAt(s, j + 1) == Some('/'))))
    decreases |s| - i
  {
    if i == |s| {
    } else if IsBlank(s[i]) || s[i] == '\n' {
      var (j, l) := SkipTrivia(s, i + 1, line + (if s[i] == '\n' then 1 else 0));
      SkipTriviaStops(s, i + 1, line + (if s[i] == '\n' then 1 else 0));
      NewlinesSplit(s, i, i + 1, j);
    } else if s[i] == '/' && CharAt(s, i + 1) == Some('/') {
      var e := CommentEnd(s, i);
      var (j, l) := SkipTrivia(s, e, line);
      assert i < e by {
        assert s[i] != '\n';
      }
      SkipTriviaStops(s, e, line);
      CommentEndFirst(s, i);
      NoNewlines(s, i, e);
      NewlinesSplit(s, i, e, j);
    }
  }

  /**
   * The `skipWhitespace` of the source stops a `//` comment before its newline and returns,
   * so the next scan turns that newline into an "Unexpected character" error token. The
   * corrected `SkipTrivia` goes on past the newline, counting it.
   */
  lemma CommentThenNewlineAsWritten(s: string, i: nat, line: nat)
    requires i + 1 < |s| && s[i] == '/' && s[i + 1] == '/' && CommentEnd(s, i) < |s|
    ensures var e := CommentEnd(s, i);
      && SkipTriviaAsWritten(s, i, line) == (e, line)
      && Classify(s, e, line).token == Token(Error, "Unexpected character", e, 1, line)
    ensures SkipTrivia(s, i, line).0 > CommentEnd(s, i)
    ensures SkipTrivia(s, i, line).1 > line
  {
    var e := CommentEnd(s, i);
    assert s[e] == '\n';
    assert !Chars.IsAlpha(s[e]) && !Chars.IsDigit(s[e]);
    assert SkipTrivia(s, i, line) == SkipTrivia(s, e, line);
    assert SkipTrivia(s, e, line) == SkipTrivia(s, e + 1, line + 1);
  }

  // ---------------------------------------------------------------- tokens

  /** `!`, `=`, `<` and `>` give their two-character kind exactly when `=` follows. */
  lemma OperatorToken(s: string, j: nat, line: nat)
    requires j < |s| && OperatorKinds(s[j]).Some?
    ensures var r := Classify(s, j, line);
      var (one, two) := OperatorKinds(s[j]).value;
      && (r.token.kind == two <==> CharAt(s, j + 1) == Some('='))
      && (r.token.kind == one <==> CharAt(s, j + 1) != Some('='))
      && r.token.lexeme == Spelling(r.token.kind).value
  {
    var c := s[j];
    assert !Chars.IsAlpha(c) && !Chars.IsDigit(c) && SingleCharKind(c).None?;
    if CharAt(s, j + 1) == Some('=') {
      assert s[j..j + 2] == [c, '='];
    } else {
      assert s[j..j + 1] == [c];
    }
  }

  /** A single-character token is exactly its one character. */
  lemma SingleCharToken(s: string, j: nat, line: nat)
    requires j < |s| && SingleCharKind(s[j]).Some?
    ensures var r := Classify(s, j, line);
      && r.token.kind == SingleCharKind(s[j]).value && IsSingleChar(r.token.kind)
      && r.next == j + 1 && r.token.lexeme == Spelling(r.token.kind).value
  {
    var c := s[j];
    assert !Chars.IsAlpha(c) && !Chars.IsDigit(c);
    assert s[j..j + 1] == [c];
  }

  /** Every keyword in the table is spelt as the table's key, and is neither `and` nor `or`. */
  lemma KeywordSpelling(word: string)
    requires Keyword(word).Some?
    ensures Spelling(Keyword(word).value) == Some(word)
    ensures IsKeyword(Keyword(word).value) && Keyword(word).value !in {And, Or}
  {
  }

  /** The table holds every keyword kind except `and` and `or`, under its spelling. */
  lemma KeywordsComplete(k: TokenKind)
    requires IsKeyword(k) && k != And && k != Or
    ensures Spelling(k).Some? && Keyword(Spelling(k).value) == Some(k)
  {
  }

  /**
   * A word that starts with a letter or `_` runs over letters, `_` and digits as far as they
   * go, and its kind is the keyword the table gives that exact text, else identifier.
   */
  lemma WordToken(s: string, j: nat, line: nat)
    requires j < |s| && Chars.IsAlpha(s[j])
    ensures var r := WordScan(s, j, line);
      && r.token.lexeme == s[j..r.next] && AllWordChars(s, j, r.next)
      && (r.next == |s| || !Chars.IsAlphanumeric(s[r.next]))
      && r.token.kind == WordKind(r.token.lexeme)
      && r.token.kind != And && r.token.kind != Or
      && (r.token.kind == Identifier || Spelling(r.token.kind) == Some(r.token.lexeme))
  {
    var r := WordScan(s, j, line);
    WordEndFirst(s, j + 1);
    if r.token.kind != Identifier {
      KeywordSpelling(r.token.lexeme);
    }
  }

  /** A number starts with one or more digits; `NumberFraction` says how it goes on. */
  lemma NumberToken(s: string, j: nat, line: nat)
    requires j < |s| && Chars.IsDigit(s[j])
    ensures var r := NumberScan(s, j, line);
      var d := DigitsEnd(s, j + 1);
      && r.token.kind == Number && r.token.lexeme == s[j..r.next]
      && j < d <= r.next == NumberEnd(s, j + 1) && AllDigits(s, j, d)
  {
    DigitsEndFirst(s, j + 1);
  }

  /**
   * After its leading digits a number goes on with a `.` and one or more digits exactly
   * when a digit follows the `.`, and it stops where its digits stop.
   */
  lemma NumberFraction(s: string, j: nat)
    requires j < |s| && Chars.IsDigit(s[j])
    ensures var e := NumberEnd(s, j + 1);
      var d := DigitsEnd(s, j + 1);
      && (e == d <==> !(CharAt(s, d) == Some('.') && DigitAt(CharAt(s, d + 1))))
      && (e > d ==> s[d] == '.' && d + 1 < e && AllDigits(s, d + 1, e))
      && !DigitAt(CharAt(s, e))
  {
    var d := DigitsEnd(s, j + 1);
    DigitsEndFirst(s, j + 1);
    if CharAt(s, d) == Some('.') && DigitAt(CharAt(s, d + 1)) {
      assert DigitsEnd(s, d + 1) == DigitsEnd(s, d + 2);
      DigitsEndFirst(s, d + 1);
    }
  }

  /**
   * A string token is the text from the opening quote to the closing quote, both
   * included; the line counter grows by the newlines inside it. With no closing quote the
   * token is an error that runs to the end of the text.
   */
  lemma StringToken(s: string, j: nat, line: nat)
    requires j < |s| && s[j] == '"'
    ensures var r := StringScan(s, j, line);
      && r.line == line + Newlines(s, j, r.next)
      && (r.token.kind == String ==>
            && j + 2 <= r.next && r.token.lexeme == s[j..r.next]
            && s[r.next - 1] == '"' && Lacks(s, j + 1, r.next - 1, '"'))
      && (r.token.kind == Error ==> r.token.lexeme == "Unterminated string" && r.next == |s|)
  {
    var e := QuoteEnd(s, j + 1);
    QuoteEndFirst(s, j + 1);
    NewlinesSplit(s, j, j + 1, e);
    if e < |s| {
      NewlinesSplit(s, j, e, e + 1);
    }
  }

  /** A string is unterminated exactly when no double quote follows the opening one. */
  lemma UnterminatedString(s: string, j: nat, line: nat)
    requires j < |s| && s[j] == '"'
    ensures StringScan(s, j, line).token.kind == Error <==> Lacks(s, j + 1, |s|, '"')
  {
    var e := QuoteEnd(s, j + 1);
    QuoteEndFirst(s, j + 1);
    if e < |s| {
      assert s[e] == '"';
    }
  }

  /** Which scan `scanToken` hands a character to, after the end-of-input check. */
  lemma ClassifyDispatch(s: string, j: nat, line: nat)
    requires j < |s|
    ensures Chars.IsAlpha(s[j]) ==> Classify(s, j, line) == WordScan(s, j, line)
    ensures Chars.IsDigit(s[j]) ==> Classify(s, j, line) == NumberScan(s, j, line)
    ensures s[j] == '"' ==> Classify(s, j, line) == StringScan(s, j, line)
  {
    Chars.DigitIsNotAlpha(s[j]);
  }

  /** A character that starts no token gives the error token "Unexpected character" over that one character. */
  lemma UnexpectedToken(s: string, j: nat, line: nat)
    requires j <= |s|
    ensures var r := Classify(s, j, line);
      (r.token.kind == Error && r.token.lexeme == "Unexpected character") <==>
        (j < |s| && !Chars.IsAlphanumeric(s[j]) && SingleCharKind(s[j]).None?
           && OperatorKinds(s[j]).None? && s[j] != '"')
    ensures var r := Classify(s, j, line);
      r.token.kind == Error && r.token.lexeme == "Unexpected character" ==> r.next == j + 1 && r.token.length == 1
  {
    if j < |s| {
      ClassifyDispatch(s, j, line);
      if s[j] == '"' {
        StringToken(s, j, line);
      }
    }
  }

  /** An error token carries one of the scanner's two messages. */
  lemma ErrorMessages(s: string, j: nat, line: nat)
    requires j <= |s|
    ensures var r := Classify(s, j, line);
      r.token.kind == Error ==> r.token.lexeme in {"Unexpected character", "Unterminated string"}
  {
    if j < |s| {
      ClassifyDispatch(s, j, line);
      if s[j] == '"' {
        StringToken(s, j, line);
      }
    }
  }

  /**
   * Whatever the first character, the scan's token starts there and ends where the cursor
   * stops, end-of-input comes exactly at the end of the text, and a non-error lexeme is the
   * text the token covers.
   */
  lemma ClassifyCovers(s: string, j: nat, line: nat)
    requires j <= |s|
    ensures Covers(s, j, line, Classify(s, j, line))
  {
    if j < |s| {
      ClassifyDispatch(s, j, line);
      if s[j] == '"' {
        StringToken(s, j, line);
      }
    }
  }

  // ---------------------------------------------------------------- the stream

  /** Where the scan from cursor `i` puts its token, and what that token covers. */
  lemma ScanAtCovers(s: string, i: nat, line: nat)
    requires i <= |s|
    ensures var r := ScanAt(s, i, line);
      && r.token.start == SkipTrivia(s, i, line).0
      && Covers(s, r.token.start, SkipTrivia(s, i, line).1, r)
  {
    var (j, l) := SkipTrivia(s, i, line);
    ClassifyCovers(s, j, l);
  }

  /** One step of the stream: what the scan from `i` returns, then the stream from where it stops. */
  lemma StreamStep(s: string, i: nat, line: nat)
    requires i <= |s|
    ensures var r := ScanAt(s, i, line);
      TokenStream(s, i, line) == (if r.token.kind == Eof then [] else [r.token]) + TokenStream(s, r.next, r.line)
  {
    var r := ScanAt(s, i, line);
    if r.token.kind == Eof {
      EndOfInputRepeats(s, i, line);
    }
  }

  /** The tokens returned so far, then the stream from where the next scan stops, are still the whole stream. */
  lemma ResumeStep(s: string, emitted: seq<Token>, stream: seq<Token>, i: nat, line: nat, r: Scan)
    requires i <= |s| && emitted + TokenStream(s, i, line) == stream
    requires r == ScanAt(s, i, line)
    ensures r.next <= |s|
    ensures emitted + (if r.token.kind == Eof then [] else [r.token]) + TokenStream(s, r.next, r.line) == stream
  {
    var head := if r.token.kind == Eof then [] else [r.token];
    var tail := TokenStream(s, r.next, r.line);
    StreamStep(s, i, line);
    assert TokenStream(s, i, line) == head + tail;
    assert emitted + head + tail == emitted + (head + tail);
  }

  /** Once a scan returns end-of-input, scanning again returns the same token and moves nothing. */
  lemma EndOfInputRepeats(s: string, i: nat, line: nat)
    requires i <= |s| && ScanAt(s, i, line).token.kind == Eof
    ensures var r := ScanAt(s, i, line);
      r.next == |s| && r.token.lexeme == "" && ScanAt(s, r.next, r.line) == r && TokenStream(s, r.next, r.line) == []
  {
    ScanAtCovers(s, i, line);
  }

  /**
   * Tokens that lie inside `s` at or after `from`, in order and without overlap, none of
   * them end-of-input, each non-error lexeme being the text it covers.
   */
  ghost predicate InOrder(s: string, from: nat, ts: seq<Token>)
    decreases |ts|
  {
    ts == [] ||
      var t := ts[0];
      && t.kind != Eof && from <= t.start && t.start + t.length <= |s|
      && (t.kind != Error ==> t.lexeme == s[t.start..t.start + t.length])
      && InOrder(s, t.start + t.length, ts[1..])
  }

  /** The stream of tokens from any cursor lies in order inside the text. */
  lemma {:induction false} StreamInOrder(s: string, i: nat, line: nat)
    requires i <= |s|
    ensures InOrder(s, i, TokenStream(s, i, line))
    decreases |s| - i
  {
    var r := ScanAt(s, i, line);
    ScanAtCovers(s, i, line);
    if r.token.kind != Eof {
      StreamInOrder(s, r.next, r.line);
      StreamStep(s, i, line);
      InOrderCons(s, i, r.token, TokenStream(s, r.next, r.line));
    }
  }

  lemma InOrderCons(s: string, from: nat, t: Token, rest: seq<Token>)
    requires t.kind != Eof && from <= t.start && t.start + t.length <= |s|
    requires t.kind != Error ==> t.lexeme == s[t.start..t.start + t.length]
    requires InOrder(s, t.start + t.length, rest)
    ensures InOrder(s, from, [t] + rest)
  {
    assert ([t] + rest)[0] == t && ([t] + rest)[1..] == rest;
  }

  /** An identifier that names an inherited member of the table object: the lookup as written yields no token kind. */
  lemma InheritedWordAsWritten()
    ensures WordKindAsWritten("constructor") == Inherited("constructor")
    ensures WordKind("constructor") == Identifier
  {
  }
}
