/**
 * What one call of the lexer's `scanToken` computes (src/lexer/lexer.ts), stated as pure
 * functions of the source text, the cursor and the line counter. The `Lexer` class in
 * module Lexing is proved to follow these functions step by step; the lemmas here state
 * what the scanner promises about the tokens it returns.
 */
module Scanning {
  import opened Wrappers
  import opened Tokens
  import Chars

  /** JavaScript's `charAt`: the character at `i`, or nothing (the empty string) outside the text. */
  function CharAt(s: string, i: int): (r: Option<char>)
    ensures r.Some? <==> 0 <= i < |s|
  {
    if 0 <= i < |s| then Some(s[i]) else None
  }

  /** The lexer's `isDigit` regex test applied to a result of `charAt`; the empty string is no digit. */
  predicate DigitAt(c: Option<char>)
  {
    c.Some? && Chars.IsDigit(c.value)
  }

  /** The lexer's `isAlpha` regex test applied to a result of `charAt`. */
  predicate AlphaAt(c: Option<char>)
  {
    c.Some? && Chars.IsAlpha(c.value)
  }

  /** A lookup in the `KEYWORDS` table's own entries: exact words to keyword kinds. `and` and `or` are not in it. */
  function Keyword(word: string): Option<TokenKind>
  {
    match word
    case "class" => Some(Class)
    case "else" => Some(Else)
    case "false" => Some(False)
    case "fn" => Some(Fn)
    case "for" => Some(For)
    case "if" => Some(If)
    case "null" => Some(Null)
    case "print" => Some(Print)
    case "return" => Some(Return)
    case "super" => Some(Super)
    case "this" => Some(This)
    case "true" => Some(True)
    case "var" => Some(Var)
    case "while" => Some(While)
    case _ => None
  }

  /** `KEYWORDS[word] ?? identifier`, looking only at the table's own entries. */
  function WordKind(word: string): (k: TokenKind)
    ensures k == Identifier <==> Keyword(word).None?
  {
    if Keyword(word).Some? then Keyword(word).value else Identifier
  }

  /**
   * The members every JavaScript object inherits from `Object.prototype`. An object literal
   * used as a table answers a lookup of any of these names with the inherited member.
   */
  const InheritedMembers: set<string> := {
    "constructor", "hasOwnProperty", "isPrototypeOf", "propertyIsEnumerable",
    "toLocaleString", "toString", "valueOf", "__proto__",
    "__defineGetter__", "__defineSetter__", "__lookupGetter__", "__lookupSetter__"
  }

  /** What `KEYWORDS[word] ?? identifier` evaluates to: a token kind, or an inherited member that is none. */
  datatype LookedUp = Kind(kind: TokenKind) | Inherited(member: string)

  /** `KEYWORDS[word] ?? identifier` as written: an inherited member is not nullish, so `??` keeps it. */
  function WordKindAsWritten(word: string): (r: LookedUp)
    ensures r.Inherited? <==> Keyword(word).None? && word in InheritedMembers
    ensures r.Kind? ==> r.kind == WordKind(word)
  {
    if Keyword(word).Some? then Kind(Keyword(word).value)
    else if word in InheritedMembers then Inherited(word)
    else Kind(Identifier)
  }

  /** The text every token of a kind has, for the kinds whose text is fixed. */
  function Spelling(k: TokenKind): Option<string>
  {
    match k
    case LeftParen => Some("(")
    case RightParen => Some(")")
    case LeftBrace => Some("{")
    case RightBrace => Some("}")
    case Comma => Some(",")
    case Dot => Some(".")
    case Minus => Some("-")
    case Plus => Some("+")
    case Semicolon => Some(";")
    case Slash => Some("/")
    case Star => Some("*")
    case Bang => Some("!")
    case BangEqual => Some("!=")
    case Equal => Some("=")
    case EqualEqual => Some("==")
    case Greater => Some(">")
    case GreaterEqual => Some(">=")
    case Less => Some("<")
    case LessEqual => Some("<=")
    case Identifier => None
    case String => None
    case Number => None
    case And => Some("and")
    case Class => Some("class")
    case Else => Some("else")
    case False => Some("false")
    case Fn => Some("fn")
    case For => Some("for")
    case If => Some("if")
    case Null => Some("null")
    case Or => Some("or")
    case Print => Some("print")
    case Return => Some("return")
    case Super => Some("super")
    case This => Some("this")
    case True => Some("true")
    case Var => Some("var")
    case While => Some("while")
    case Error => None
    case Eof => Some("")
  }

  /** The single-character tokens of the `switch` in `scanToken`. */
  function SingleCharKind(c: char): Option<TokenKind>
  {
    match c
    case '(' => Some(LeftParen)
    case ')' => Some(RightParen)
    case '{' => Some(LeftBrace)
    case '}' => Some(RightBrace)
    case ',' => Some(Comma)
    case '.' => Some(Dot)
    case '-' => Some(Minus)
    case '+' => Some(Plus)
    case ';' => Some(Semicolon)
    case '/' => Some(Slash)
    case '*' => Some(Star)
    case _ => None
  }

  /** The one-or-two character tokens: the kind alone, and the kind when `=` follows. */
  function OperatorKinds(c: char): Option<(TokenKind, TokenKind)>
  {
    match c
    case '!' => Some((Bang, BangEqual))
    case '=' => Some((Equal, EqualEqual))
    case '<' => Some((Less, LessEqual))
    case '>' => Some((Greater, GreaterEqual))
    case _ => None
  }

  /** The outcome of one scan: the token, and the cursor and line counter afterwards. */
  datatype Scan = Scan(token: Token, next: nat, line: nat)

  /** `makeToken`: the token whose lexeme is the source text from `start` to `end`. */
  function Span(kind: TokenKind, s: string, start: nat, end: nat, line: nat): (t: Token)
    requires start <= end <= |s|
    ensures t.start + t.length == end && t.lexeme == s[t.start..t.start + t.length]
  {
    Token(kind, s[start..end], start, end - start, line)
  }

  /** `makeErrorToken`: the span from `start` to `end`, with the message in place of the lexeme. */
  function ErrorSpan(message: string, start: nat, end: nat, line: nat): (t: Token)
    requires start <= end
    ensures t.kind == Error && t.lexeme == message && t.start + t.length == end
  {
    Token(Error, message, start, end - start, line)
  }

  /** Number of newline characters in `s` from position `a` up to, not including, `b`. */
  function Newlines(s: string, a: nat, b: nat): nat
    requires a <= b <= |s|
    decreases b - a
  {
    if a == b then 0 else Newlines(s, a, b - 1) + (if s[b - 1] == '\n' then 1 else 0)
  }

  /** First position at or after `i` that holds a newline, or the end of the text. */
  function CommentEnd(s: string, i: nat): (j: nat)
    requires i <= |s|
    ensures i <= j <= |s|
    ensures j == |s| || s[j] == '\n'
    decreases |s| - i
  {
    if i == |s| || s[i] == '\n' then i else CommentEnd(s, i + 1)
  }

  predicate IsBlank(c: char)
  {
    c == ' ' || c == '\t' || c == '\r'
  }

  /**
   * `skipWhitespace` with the comment case continuing the loop: blanks, newlines (counted)
   * and `//` comments are skipped until a character that starts a token, or the end.
   */
  function SkipTrivia(s: string, i: nat, line: nat): (r: (nat, nat))
    requires i <= |s|
    ensures i <= r.0 <= |s| && line <= r.1
    decreases |s| - i
  {
    if i == |s| then (i, line)
    else if IsBlank(s[i]) then SkipTrivia(s, i + 1, line)
    else if s[i] == '\n' then SkipTrivia(s, i + 1, line + 1)
    else if s[i] == '/' && CharAt(s, i + 1) == Some('/') then SkipTrivia(s, CommentEnd(s, i), line)
    else (i, line)
  }

  /** `skipWhitespace` exactly as written: after a comment it returns, before the newline. */
  function SkipTriviaAsWritten(s: string, i: nat, line: nat): (r: (nat, nat))
    requires i <= |s|
    ensures i <= r.0 <= |s| && line <= r.1
    decreases |s| - i
  {
    if i == |s| then (i, line)
    else if IsBlank(s[i]) then SkipTriviaAsWritten(s, i + 1, line)
    else if s[i] == '\n' then SkipTriviaAsWritten(s, i + 1, line + 1)
    else if s[i] == '/' && CharAt(s, i + 1) == Some('/') then (CommentEnd(s, i), line)
    else (i, line)
  }

  /** First position at or after `i` that holds neither a letter, `_` nor a digit. */
  function WordEnd(s: string, i: nat): (j: nat)
    requires i <= |s|
    ensures i <= j <= |s|
    decreases |s| - i
  {
    if AlphaAt(CharAt(s, i)) || DigitAt(CharAt(s, i)) then WordEnd(s, i + 1) else i
  }

  /** First position at or after `i` that holds no digit. */
  function DigitsEnd(s: string, i: nat): (j: nat)
    requires i <= |s|
    ensures i <= j <= |s|
    decreases |s| - i
  {
    if DigitAt(CharAt(s, i)) then DigitsEnd(s, i + 1) else i
  }

  /** End of a number whose first digit precedes `i`: digits, then `.` and digits if a digit follows the dot. */
  function NumberEnd(s: string, i: nat): (j: nat)
    requires i <= |s|
    ensures i <= j <= |s|
  {
    var d := DigitsEnd(s, i);
    if CharAt(s, d) == Some('.') && DigitAt(CharAt(s, d + 1)) then DigitsEnd(s, d + 1) else d
  }

  /** First position at or after `i` that holds a double quote, or the end of the text. */
  function QuoteEnd(s: string, i: nat): (j: nat)
    requires i <= |s|
    ensures i <= j <= |s|
    ensures j == |s| || s[j] == '"'
    decreases |s| - i
  {
    if i == |s| || s[i] == '"' then i else QuoteEnd(s, i + 1)
  }

  /**
   * A scan of a token that starts at `start` (after trivia): the cursor ends past it and a
   * non-error lexeme is the source text it covers.
   */
  predicate Covers(s: string, start: nat, line: nat, r: Scan)
  {
    && r.token.start == start && start <= r.next <= |s| && line <= r.line
    && r.token.start + r.token.length == r.next
    && (r.token.kind == Eof <==> start == |s|)
    && (r.token.kind == Eof ==> r.next == |s| && r.token.lexeme == "" && r.line == line)
    && (r.token.kind != Eof ==> start < r.next)
    && (r.token.kind != Error ==> r.token.lexeme == s[start..r.next])
  }

  /** `makeIdentifierOrKeyword` from the letter at `start`. */
  function WordScan(s: string, start: nat, line: nat): (r: Scan)
    requires start < |s|
    ensures start < r.next <= |s|
  {
    var e := WordEnd(s, start + 1);
    Scan(Span(WordKind(s[start..e]), s, start, e, line), e, line)
  }

  /** `makeNumber` from the digit at `start`. */
  function NumberScan(s: string, start: nat, line: nat): (r: Scan)
    requires start < |s|
    ensures start < r.next <= |s|
  {
    var e := NumberEnd(s, start + 1);
    Scan(Span(Number, s, start, e, line), e, line)
  }

  /** `makeString` from the opening quote at `start`; newlines inside advance the line counter. */
  function StringScan(s: string, start: nat, line: nat): (r: Scan)
    requires start < |s|
    ensures start < r.next <= |s|
  {
    var e := QuoteEnd(s, start + 1);
    var l := line + Newlines(s, start + 1, e);
    if e == |s| then Scan(ErrorSpan("Unterminated string", start, e, l), e, l)
    else Scan(Span(String, s, start, e + 1, l), e + 1, l)
  }

  /** The classification in `scanToken` of the character at `start`, once trivia is skipped. */
  function Classify(s: string, start: nat, line: nat): (r: Scan)
    requires start <= |s|
    ensures start <= r.next <= |s| && (r.token.kind != Eof ==> start < r.next)
  {
    if start == |s| then Scan(Span(Eof, s, start, start, line), start, line)
    else
      var c := s[start];
      if Chars.IsAlpha(c) then WordScan(s, start, line)
      else if Chars.IsDigit(c) then NumberScan(s, start, line)
      else if SingleCharKind(c).Some? then
        Scan(Span(SingleCharKind(c).value, s, start, start + 1, line), start + 1, line)
      else if OperatorKinds(c).Some? then
        if CharAt(s, start + 1) == Some('=') then
          Scan(Span(OperatorKinds(c).value.1, s, start, start + 2, line), start + 2, line)
        else
          Scan(Span(OperatorKinds(c).value.0, s, start, start + 1, line), start + 1, line)
      else if c == '"' then StringScan(s, start, line)
      else Scan(ErrorSpan("Unexpected character", start, start + 1, line), start + 1, line)
  }

  /** One call of `scanToken` from cursor `i` and line counter `line`. */
  function ScanAt(s: string, i: nat, line: nat): (r: Scan)
    requires i <= |s|
    ensures i <= r.next <= |s| && (r.token.kind != Eof ==> i < r.next)
  {
    var (j, l) := SkipTrivia(s, i, line);
    Classify(s, j, l)
  }

  /** The tokens that successive scans from cursor `i` return before the first end-of-input token. */
  function TokenStream(s: string, i: nat, line: nat): seq<Token>
    requires i <= |s|
    decreases |s| - i
  {
    var r := ScanAt(s, i, line);
    if r.token.kind == Eof then [] else [r.token] + TokenStream(s, r.next, r.line)
  }
}
