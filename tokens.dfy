/**
 * Token kinds and the token record of src/lexer/token.ts.
 */
module Tokens {
  import opened Wrappers

  /** The closed set of token kinds (the `TokenType` enum). */
  datatype TokenKind =
    // Single-character tokens.
    | LeftParen | RightParen | LeftBrace | RightBrace | Comma | Dot
    | Minus | Plus | Semicolon | Slash | Star
    // One or two character tokens.
    | Bang | BangEqual | Equal | EqualEqual
    | Greater | GreaterEqual | Less | LessEqual
    // Literals.
    | Identifier | String | Number
    // Keywords.
    | And | Class | Else | False | Fn | For | If | Null | Or
    | Print | Return | Super | This | True | Var | While
    // Sentinels.
    | Error | Eof

  /** A scanned token: its kind, its text (or the message of an error token), and where it is. */
  datatype Token = Token(kind: TokenKind, lexeme: string, start: nat, length: nat, line: nat)

  /** Every kind, in declaration order. */
  const AllKinds: seq<TokenKind> := [
    LeftParen, RightParen, LeftBrace, RightBrace, Comma, Dot, Minus, Plus, Semicolon, Slash, Star,
    Bang, BangEqual, Equal, EqualEqual, Greater, GreaterEqual, Less, LessEqual,
    Identifier, String, Number,
    And, Class, Else, False, Fn, For, If, Null, Or, Print, Return, Super, This, True, Var, While,
    Error, Eof
  ]

  predicate IsSingleChar(k: TokenKind) {
    k in {LeftParen, RightParen, LeftBrace, RightBrace, Comma, Dot, Minus, Plus, Semicolon, Slash, Star}
  }

  predicate IsOneOrTwoChar(k: TokenKind) {
    k in {Bang, BangEqual, Equal, EqualEqual, Greater, GreaterEqual, Less, LessEqual}
  }

  predicate IsLiteral(k: TokenKind) {
    k in {Identifier, String, Number}
  }

  predicate IsKeyword(k: TokenKind) {
    k in {And, Class, Else, False, Fn, For, If, Null, Or, Print, Return, Super, This, True, Var, While}
  }

  /** The enum's string value of each kind; it is the member's own name. */
  function KindName(k: TokenKind): string
  {
    match k
    case LeftParen => "leftParen"
    case RightParen => "rightParen"
    case LeftBrace => "leftBrace"
    case RightBrace => "rightBrace"
    case Comma => "comma"
    case Dot => "dot"
    case Minus => "minus"
    case Plus => "plus"
    case Semicolon => "semicolon"
    case Slash => "slash"
    case Star => "star"
    case Bang => "bang"
    case BangEqual => "bangEqual"
    case Equal => "equal"
    case EqualEqual => "equalEqual"
    case Greater => "greater"
    case GreaterEqual => "greaterEqual"
    case Less => "less"
    case LessEqual => "lessEqual"
    case Identifier => "identifier"
    case String => "string"
    case Number => "number"
    case And => "and"
    case Class => "class"
    case Else => "else"
    case False => "false"
    case Fn => "fn"
    case For => "for"
    case If => "if"
    case Null => "null"
    case Or => "or"
    case Print => "print"
    case Return => "return"
    case Super => "super"
    case This => "this"
    case True => "true"
    case Var => "var"
    case While => "while"
    case Error => "error"
    case Eof => "eof"
  }

  /** The kind whose string value is `name`, if any (the reverse lookup of the enum). */
  function KindNamed(name: string): Option<TokenKind>
  {
    match name
    case "leftParen" => Some(LeftParen)
    case "rightParen" => Some(RightParen)
    case "leftBrace" => Some(LeftBrace)
    case "rightBrace" => Some(RightBrace)
    case "comma" => Some(Comma)
    case "dot" => Some(Dot)
    case "minus" => Some(Minus)
    case "plus" => Some(Plus)
    case "semicolon" => Some(Semicolon)
    case "slash" => Some(Slash)
    case "star" => Some(Star)
    case "bang" => Some(Bang)
    case "bangEqual" => Some(BangEqual)
    case "equal" => Some(Equal)
    case "equalEqual" => Some(EqualEqual)
    case "greater" => Some(Greater)
    case "greaterEqual" => Some(GreaterEqual)
    case "less" => Some(Less)
    case "lessEqual" => Some(LessEqual)
    case "identifier" => Some(Identifier)
    case "string" => Some(String)
    case "number" => Some(Number)
    case "and" => Some(And)
    case "class" => Some(Class)
    case "else" => Some(Else)
    case "false" => Some(False)
    case "fn" => Some(Fn)
    case "for" => Some(For)
    case "if" => Some(If)
    case "null" => Some(Null)
    case "or" => Some(Or)
    case "print" => Some(Print)
    case "return" => Some(Return)
    case "super" => Some(Super)
    case "this" => Some(This)
    case "true" => Some(True)
    case "var" => Some(Var)
    case "while" => Some(While)
    case "error" => Some(Error)
    case "eof" => Some(Eof)
    case _ => None
  }

  /** Reading a kind's name back gives the kind: no two kinds share a string value. */
  lemma KindNameRoundTrip(k: TokenKind)
    ensures KindNamed(KindName(k)) == Some(k)
  {
    if IsSingleChar(k) {
      SingleCharNameRoundTrip(k);
    } else if IsOneOrTwoChar(k) {
      OperatorNameRoundTrip(k);
    } else if k in {And, Class, Else, False, Fn, For, If, Null} {
      KeywordNameRoundTrip(k);
    } else if IsKeyword(k) {
      LaterKeywordNameRoundTrip(k);
    }
  }

  lemma SingleCharNameRoundTrip(k: TokenKind)
    requires IsSingleChar(k)
    ensures KindNamed(KindName(k)) == Some(k)
  {
  }

  lemma OperatorNameRoundTrip(k: TokenKind)
    requires IsOneOrTwoChar(k)
    ensures KindNamed(KindName(k)) == Some(k)
  {
  }

  lemma KeywordNameRoundTrip(k: TokenKind)
    requires k in {And, Class, Else, False, Fn, For, If, Null}
    ensures KindNamed(KindName(k)) == Some(k)
  {
  }

  lemma LaterKeywordNameRoundTrip(k: TokenKind)
    requires k in {Or, Print, Return, Super, This, True, Var, While}
    ensures KindNamed(KindName(k)) == Some(k)
  {
  }

  lemma KindNameInjective(a: TokenKind, b: TokenKind)
    ensures KindName(a) == KindName(b) <==> a == b
  {
    KindNameRoundTrip(a);
    KindNameRoundTrip(b);
  }

  /** The 40 kinds fall into exactly one of the six groups of the enum. */
  lemma KindGroups(k: TokenKind)
    ensures k in AllKinds
    ensures (if IsSingleChar(k) then 1 else 0) + (if IsOneOrTwoChar(k) then 1 else 0)
          + (if IsLiteral(k) then 1 else 0) + (if IsKeyword(k) then 1 else 0)
          + (if k == Error then 1 else 0) + (if k == Eof then 1 else 0) == 1
  {
  }
}
