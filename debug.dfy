/**
 * The debug printer of the syntax tree: every tree is written as an S-expression, an
 * operator node as `(name operand...)` with the operator's token-kind name, a leaf as its
 * literal text, and a statement as `(expression ...)` or `(print ...)`.
 *
 * The printer's partner is a reader of that notation: reading a printed tree gives the tree
 * back, up to the spelling of its numbers, which the printer writes in their canonical form.
 */
module AstPrinter {
  import opened Wrappers
  import opened Tokens
  import opened Ast
  import Chars

  // ---------------------------------------------------------------- numbers

  /** A numeral as the scanner produces it: digits, then optionally a `.` and digits. */
  predicate Numeral(s: string)
  {
    var d := IndexOf(s, '.');
    && 0 < d && AllDigits(s[..d])
    && (d < |s| ==> d + 1 < |s| && AllDigits(s[d + 1..]))
  }

  predicate AllDigits(s: string)
  {
    forall k | 0 <= k < |s| :: Chars.IsDigit(s[k])
  }

  /** The position of the first `c` in `s`, or `|s|` if there is none. */
  function IndexOf(s: string, c: char): (d: nat)
    ensures d <= |s| && (d < |s| ==> s[d] == c)
    ensures forall k | 0 <= k < d :: s[k] != c
  {
    if s == [] || s[0] == c then 0 else 1 + IndexOf(s[1..], c)
  }

  /** Leading zeros of an integer part dropped, one digit always kept. */
  function DropLeadingZeros(s: string): (r: string)
    ensures |r| <= |s| && (s != [] ==> r != [])
    ensures r == s[|s| - |r|..]
    ensures |r| > 1 ==> r[0] != '0'
  {
    if |s| > 1 && s[0] == '0' then DropLeadingZeros(s[1..]) else s
  }

  /** Trailing zeros of a fraction dropped. */
  function DropTrailingZeros(s: string): (r: string)
    ensures |r| <= |s| && r == s[..|r|]
    ensures r != [] ==> r[|r| - 1] != '0'
  {
    if s != [] && s[|s| - 1] == '0' then DropTrailingZeros(s[..|s| - 1]) else s
  }

  /**
   * `Number(lexeme).toString()` for a numeral: no leading zeros in the integer part, no
   * trailing zeros in the fraction, and no `.` when the fraction is all zeros.
   */
  function NumberText(lexeme: string): string
  {
    var d := IndexOf(lexeme, '.');
    var whole := DropLeadingZeros(lexeme[..d]);
    var fraction := if d < |lexeme| then DropTrailingZeros(lexeme[d + 1..]) else [];
    if fraction == [] then whole else whole + "." + fraction
  }

  /** A numeral already in the form `toString` writes. */
  predicate Canonical(s: string)
  {
    var d := IndexOf(s, '.');
    && Numeral(s)
    && (d > 1 ==> s[0] != '0')
    && (d < |s| ==> s[|s| - 1] != '0')
  }

  /** In `w`, then `c`, then anything, the first `c` is the one after `w`. */
  lemma {:induction false} IndexOfAfter(w: string, c: char, rest: string)
    requires forall k | 0 <= k < |w| :: w[k] != c
    ensures IndexOf(w, c) == |w|
    ensures IndexOf(w + [c] + rest, c) == |w|
  {
    if w != [] {
      assert (w + [c] + rest)[1..] == w[1..] + [c] + rest;
      IndexOfAfter(w[1..], c, rest);
    }
  }

  lemma SuffixDigits(s: string, r: string)
    requires AllDigits(s) && |r| <= |s| && r == s[|s| - |r|..]
    ensures AllDigits(r)
  {
    assert forall k | 0 <= k < |r| :: r[k] == s[|s| - |r| + k];
  }

  lemma PrefixDigits(s: string, r: string)
    requires AllDigits(s) && |r| <= |s| && r == s[..|r|]
    ensures AllDigits(r)
  {
    assert forall k | 0 <= k < |r| :: r[k] == s[k];
  }

  lemma DigitsHaveNoDot(s: string)
    requires AllDigits(s)
    ensures forall k | 0 <= k < |s| :: s[k] != '.'
  {
  }

  /** `toString` of a numeral gives a numeral in canonical form. */
  lemma NumberTextCanonical(lexeme: string)
    requires Numeral(lexeme)
    ensures Canonical(NumberText(lexeme))
  {
    var d := IndexOf(lexeme, '.');
    var whole := DropLeadingZeros(lexeme[..d]);
    var fraction := if d < |lexeme| then DropTrailingZeros(lexeme[d + 1..]) else [];
    SuffixDigits(lexeme[..d], whole);
    if fraction != [] {
      PrefixDigits(lexeme[d + 1..], fraction);
      JoinedCanonical(whole, fraction);
    } else {
      DigitsHaveNoDot(whole);
      IndexOfAfter(whole, '.', []);
      assert whole[..|whole|] == whole;
    }
  }

  /** Digits without leading zeros, a dot, and digits without trailing zeros make a canonical numeral. */
  lemma JoinedCanonical(whole: string, fraction: string)
    requires whole != [] && AllDigits(whole) && (|whole| > 1 ==> whole[0] != '0')
    requires fraction != [] && AllDigits(fraction) && fraction[|fraction| - 1] != '0'
    ensures Canonical(whole + "." + fraction)
  {
    var t := whole + "." + fraction;
    DigitsHaveNoDot(whole);
    IndexOfAfter(whole, '.', fraction);
    assert t[..|whole|] == whole && t[|whole| + 1..] == fraction;
    assert t[0] == whole[0] && t[|t| - 1] == fraction[|fraction| - 1];
  }

  /** A canonical numeral is written as it is. */
  lemma CanonicalFixed(s: string)
    requires Canonical(s)
    ensures NumberText(s) == s
  {
    var d := IndexOf(s, '.');
    assert DropLeadingZeros(s[..d]) == s[..d];
    if d < |s| {
      assert DropTrailingZeros(s[d + 1..]) == s[d + 1..];
      assert s == s[..d] + "." + s[d + 1..];
    } else {
      assert s[..d] == s;
    }
  }

  /** Writing a number twice is writing it once. */
  lemma NumberTextIdempotent(lexeme: string)
    requires Numeral(lexeme)
    ensures NumberText(NumberText(lexeme)) == NumberText(lexeme)
  {
    NumberTextCanonical(lexeme);
    CanonicalFixed(NumberText(lexeme));
  }

  // ---------------------------------------------------------------- printing

  /** `printExpressionAst`. */
  function PrintExpression(e: Expression): string
  {
    match e
    case Infix(left, op, right) =>
      "(" + KindName(op) + " " + PrintExpression(left) + " " + PrintExpression(right) + ")"
    case Prefix(op, right) => "(" + KindName(op) + " " + PrintExpression(right) + ")"
    case BoolLit(truth) => if truth then "true" else "false"
    case NullLit => "null"
    case NumberLit(literal) => NumberText(literal)
    case StringLit(value) => value
  }

  /** `printStatementAst`. */
  function PrintStatement(s: Statement): string
  {
    match s
    case ExpressionStmt(e) => "(expression " + PrintExpression(e) + ")"
    case PrintStmt(e) => "(print " + PrintExpression(e) + ")"
  }

  // ---------------------------------------------------------------- reading back

  /** The length of the run of letters at the front of `s`. */
  function WordRun(s: string): (n: nat)
    ensures n <= |s| && (n < |s| ==> !Chars.IsAlpha(s[n]))
    ensures forall k | 0 <= k < n :: Chars.IsAlpha(s[k])
  {
    if s != [] && Chars.IsAlpha(s[0]) then 1 + WordRun(s[1..]) else 0
  }

  /** The length of the run of digits and dots at the front of `s`. */
  function NumeralRun(s: string): (n: nat)
    ensures n <= |s| && (n < |s| ==> !Chars.IsDigit(s[n]) && s[n] != '.')
    ensures forall k | 0 <= k < n :: Chars.IsDigit(s[k]) || s[k] == '.'
  {
    if s != [] && (Chars.IsDigit(s[0]) || s[0] == '.') then 1 + NumeralRun(s[1..]) else 0
  }

  /** Reads one printed tree from the front of `s`, returning it and the text after it. */
  function ReadExpression(s: string): (r: Option<(Expression, string)>)
    ensures r.Some? ==> |r.value.1| < |s|
    decreases |s|, 1
  {
    if s != [] && s[0] == '(' then
      match ReadOperator(s)
      case None => None
      case Some((op, tail)) => ReadOperands(op, tail)
    else ReadLeaf(s)
  }

  /** Reads a `(`, a word and the space after it: the front of a node or of a statement. */
  function ReadKeyword(s: string): (r: Option<(string, string)>)
    ensures r.Some? ==> |r.value.1| < |s|
  {
    if s == [] || s[0] != '(' then None
    else
      var n := WordRun(s[1..]);
      var rest := s[1 + n..];
      if rest == [] || rest[0] != ' ' then None else Some((s[1..1 + n], rest[1..]))
  }

  /** Reads the `(`, an operator's name and the space after it. */
  function ReadOperator(s: string): (r: Option<(TokenKind, string)>)
    ensures r.Some? ==> |r.value.1| < |s|
  {
    match ReadKeyword(s)
    case None => None
    case Some((name, tail)) =>
      var op := KindNamed(name);
      if op.None? then None else Some((op.value, tail))
  }

  /** Reads the operands of an operator node, `operand)` or `left right)`. */
  function ReadOperands(op: TokenKind, s: string): (r: Option<(Expression, string)>)
    ensures r.Some? ==> |r.value.1| < |s|
    decreases |s|, 3
  {
    match ReadExpression(s)
    case None => None
    case Some((a, more)) => ReadClose(op, a, more)
  }

  /** After the first operand: `)` closes a prefix node, a space starts the right operand. */
  function ReadClose(op: TokenKind, a: Expression, s: string): (r: Option<(Expression, string)>)
    ensures r.Some? ==> |r.value.1| < |s|
    decreases |s|, 2
  {
    if s != [] && s[0] == ')' then Some((Prefix(op, a), s[1..]))
    else if s == [] || s[0] != ' ' then None
    else
      match ReadExpression(s[1..])
      case None => None
      case Some((b, last)) =>
        if last != [] && last[0] == ')' then Some((Infix(a, op, b), last[1..])) else None
  }

  /** Reads a string literal, a numeral, or one of the words `true`, `false` and `null`. */
  function ReadLeaf(s: string): (r: Option<(Expression, string)>)
    ensures r.Some? ==> |r.value.1| < |s|
  {
    if s == [] then None
    else if s[0] == '"' then
      var q := IndexOf(s[1..], '"');
      if q == |s| - 1 then None else Some((StringLit(s[..q + 2]), s[q + 2..]))
    else if Chars.IsDigit(s[0]) then
      var n := NumeralRun(s);
      Some((NumberLit(s[..n]), s[n..]))
    else
      var n := WordRun(s);
      var word := s[..n];
      if word == "true" then Some((BoolLit(true), s[n..]))
      else if word == "false" then Some((BoolLit(false), s[n..]))
      else if word == "null" then Some((NullLit, s[n..]))
      else None
  }

  /** Reads one printed statement, which must be all of `s`. */
  function ReadStatement(s: string): Option<Statement>
  {
    match ReadKeyword(s)
    case None => None
    case Some((keyword, tail)) =>
      match ReadExpression(tail)
      case None => None
      case Some((e, rest)) =>
        if rest != ")" then None
        else if keyword == "expression" then Some(ExpressionStmt(e))
        else if keyword == "print" then Some(PrintStmt(e))
        else None
  }

  // ---------------------------------------------------------------- the round trip

  /** A string literal as the scanner produces it: quotes around text without quotes. */
  predicate Quoted(v: string)
  {
    && 2 <= |v| && v[0] == '"' && v[|v| - 1] == '"'
    && forall k | 0 < k < |v| - 1 :: v[k] != '"'
  }

  /** Trees whose leaves are numerals and quoted strings, as the parser builds them. */
  predicate WellFormed(e: Expression)
  {
    match e
    case Infix(left, _, right) => WellFormed(left) && WellFormed(right)
    case Prefix(_, right) => WellFormed(right)
    case NumberLit(literal) => Numeral(literal)
    case StringLit(value) => Quoted(value)
    case _ => true
  }

  /** The tree with every number in the spelling the printer gives it. */
  function Normalized(e: Expression): Expression
  {
    match e
    case Infix(left, op, right) => Infix(Normalized(left), op, Normalized(right))
    case Prefix(op, right) => Prefix(op, Normalized(right))
    case NumberLit(literal) => NumberLit(NumberText(literal))
    case _ => e
  }

  /** Text that may follow a printed tree: nothing, a space or a closing parenthesis. */
  predicate Follower(rest: string)
  {
    rest == [] || rest[0] == ' ' || rest[0] == ')'
  }

  /** A nonempty run of letters. */
  predicate IsWord(w: string)
  {
    |w| > 0 && forall i | 0 <= i < |w| :: Chars.IsAlpha(w[i])
  }

  /** Every kind's name is a word, so a reader can find where it ends. */
  lemma KindNameIsWord(k: TokenKind)
    ensures IsWord(KindName(k))
  {
    if IsSingleChar(k) {
      SingleCharNameIsWord(k);
    } else if IsOneOrTwoChar(k) {
      OperatorNameIsWord(k);
    } else if k in {And, Class, Else, False, Fn, For, If, Null} {
      KeywordNameIsWord(k);
    } else if k in {Or, Print, Return, Super, This, True, Var, While} {
      LaterKeywordNameIsWord(k);
    } else {
      OtherNameIsWord(k);
    }
  }

  lemma SingleCharNameIsWord(k: TokenKind)
    requires IsSingleChar(k)
    ensures IsWord(KindName(k))
  {
  }

  lemma OperatorNameIsWord(k: TokenKind)
    requires IsOneOrTwoChar(k)
    ensures IsWord(KindName(k))
  {
  }

  lemma KeywordNameIsWord(k: TokenKind)
    requires k in {And, Class, Else, False, Fn, For, If, Null}
    ensures IsWord(KindName(k))
  {
  }

  lemma LaterKeywordNameIsWord(k: TokenKind)
    requires k in {Or, Print, Return, Super, This, True, Var, While}
    ensures IsWord(KindName(k))
  {
  }

  lemma OtherNameIsWord(k: TokenKind)
    requires k in {Identifier, String, Number, Error, Eof}
    ensures IsWord(KindName(k))
  {
  }

  /** The word run of a word followed by a non-letter is the word. */
  lemma {:induction false} WordRunOf(w: string, rest: string)
    requires forall i | 0 <= i < |w| :: Chars.IsAlpha(w[i])
    requires rest == [] || !Chars.IsAlpha(rest[0])
    ensures WordRun(w + rest) == |w|
  {
    if w != [] {
      assert (w + rest)[1..] == w[1..] + rest;
      WordRunOf(w[1..], rest);
    }
  }

  lemma {:induction false} NumeralRunOf(w: string, rest: string)
    requires forall i | 0 <= i < |w| :: Chars.IsDigit(w[i]) || w[i] == '.'
    requires Follower(rest)
    ensures NumeralRun(w + rest) == |w|
  {
    if w != [] {
      assert (w + rest)[1..] == w[1..] + rest;
      NumeralRunOf(w[1..], rest);
    }
  }

  /** Every character of a numeral is a digit or the dot. */
  lemma NumeralChars(t: string)
    requires Numeral(t)
    ensures forall i | 0 <= i < |t| :: Chars.IsDigit(t[i]) || t[i] == '.'
    ensures Chars.IsDigit(t[0])
  {
    var d := IndexOf(t, '.');
    forall i | 0 <= i < |t|
      ensures Chars.IsDigit(t[i]) || t[i] == '.'
    {
      if i < d {
        assert t[..d][i] == t[i];
      } else if i > d {
        assert t[d + 1..][i - d - 1] == t[i];
      }
    }
    assert t[..d][0] == t[0];
  }

  /** A printed number reads back as the number in canonical spelling. */
  lemma ReadNumber(literal: string, rest: string)
    requires Numeral(literal) && Follower(rest)
    ensures ReadExpression(NumberText(literal) + rest) == Some((NumberLit(NumberText(literal)), rest))
  {
    var t := NumberText(literal);
    NumberTextCanonical(literal);
    NumeralChars(t);
    NumeralRunOf(t, rest);
    var s := t + rest;
    assert s[0] == t[0];
    assert s[..|t|] == t && s[|t|..] == rest;
    assert ReadLeaf(s) == Some((NumberLit(t), rest));
  }

  /** A printed string literal reads back as itself. */
  lemma ReadString(value: string, rest: string)
    requires Quoted(value)
    ensures ReadExpression(value + rest) == Some((StringLit(value), rest))
  {
    var inner := value[1..|value| - 1];
    var s := value + rest;
    assert s[1..] == inner + "\"" + rest;
    IndexOfAfter(inner, '"', rest);
    assert s[..|inner| + 2] == value && s[|inner| + 2..] == rest;
    assert ReadLeaf(s) == Some((StringLit(value), rest));
  }

  lemma ReadWord(w: string, e: Expression, rest: string)
    requires w in {"true", "false", "null"} && Follower(rest)
    requires e == (if w == "true" then BoolLit(true) else if w == "false" then BoolLit(false) else NullLit)
    ensures ReadExpression(w + rest) == Some((e, rest))
  {
    WordRunOf(w, rest);
    var s := w + rest;
    assert s[0] == w[0];
    assert s[..|w|] == w && s[|w|..] == rest;
    assert ReadLeaf(s) == Some((e, rest));
  }

  /** An operator's name: a nonempty word naming that operator. */
  predicate Names(name: string, op: TokenKind)
  {
    IsWord(name) && KindNamed(name) == Some(op)
  }

  lemma KindNameNames(op: TokenKind)
    ensures Names(KindName(op), op)
  {
    KindNameIsWord(op);
    KindNameRoundTrip(op);
  }

  /** The front of a printed node or statement: `(`, a word and a space, then `tail`. */
  lemma ReadKeywordOf(word: string, tail: string)
    requires forall i | 0 <= i < |word| :: Chars.IsAlpha(word[i])
    ensures ReadKeyword("(" + word + " " + tail) == Some((word, tail))
  {
    var s := "(" + word + " " + tail;
    assert s[1..] == word + (" " + tail);
    WordRunOf(word, " " + tail);
    assert s[1..1 + |word|] == word;
    assert s[1 + |word|..] == " " + tail;
  }

  lemma ReadHead(name: string, op: TokenKind, tail: string)
    requires Names(name, op)
    ensures ReadOperator("(" + name + " " + tail) == Some((op, tail))
  {
    ReadKeywordOf(name, tail);
  }

  /** A node's front hands what follows it to the operand reader. */
  lemma ReadNode(name: string, op: TokenKind, tail: string)
    requires Names(name, op)
    ensures ReadExpression("(" + name + " " + tail) == ReadOperands(op, tail)
  {
    ReadHead(name, op, tail);
  }

  /** A printed prefix node reads back when its operand does. */
  lemma ReadPrefix(name: string, op: TokenKind, pr: string, right: Expression, rest: string)
    requires Names(name, op)
    requires ReadExpression(pr + (")" + rest)) == Some((right, ")" + rest))
    ensures ReadExpression("(" + name + " " + pr + ")" + rest) == Some((Prefix(op, right), rest))
  {
    var tail := pr + (")" + rest);
    assert "(" + name + " " + pr + ")" + rest == "(" + name + " " + tail;
    ReadNode(name, op, tail);
    assert ReadClose(op, right, ")" + rest) == Some((Prefix(op, right), rest));
  }

  /** A printed infix node reads back when its operands do. */
  lemma ReadInfix(name: string, op: TokenKind, pl: string, left: Expression, pr: string, right: Expression, rest: string)
    requires Names(name, op)
    requires ReadExpression(pl + (" " + pr + ")" + rest)) == Some((left, " " + pr + ")" + rest))
    requires ReadExpression(pr + (")" + rest)) == Some((right, ")" + rest))
    ensures ReadExpression("(" + name + " " + pl + " " + pr + ")" + rest) == Some((Infix(left, op, right), rest))
  {
    var more := " " + pr + ")" + rest;
    var tail := pl + more;
    assert "(" + name + " " + pl + " " + pr + ")" + rest == "(" + name + " " + tail;
    ReadNode(name, op, tail);
    CloseInfix(op, left, pr, right, rest);
  }

  /** A space and a printed right operand, then `)`, close an infix node. */
  lemma CloseInfix(op: TokenKind, left: Expression, pr: string, right: Expression, rest: string)
    requires ReadExpression(pr + (")" + rest)) == Some((right, ")" + rest))
    ensures ReadClose(op, left, " " + pr + ")" + rest) == Some((Infix(left, op, right), rest))
  {
    var s := " " + pr + ")" + rest;
    assert s == " " + (pr + (")" + rest));
    CloseAfterSpace(op, left, pr + (")" + rest), right, rest);
  }

  lemma CloseAfterSpace(op: TokenKind, left: Expression, tail: string, right: Expression, rest: string)
    requires ReadExpression(tail) == Some((right, ")" + rest))
    ensures ReadClose(op, left, " " + tail) == Some((Infix(left, op, right), rest))
  {
    var s := " " + tail;
    assert s[0] == ' ' && s[1..] == tail;
    assert (")" + rest)[0] == ')' && (")" + rest)[1..] == rest;
  }

  /**
   * Reading a printed tree, followed by nothing, a space or a `)`, gives the tree back with
   * its numbers in canonical spelling, and leaves what followed.
   */
  lemma {:induction false} ReadPrinted(e: Expression, rest: string)
    requires WellFormed(e) && Follower(rest)
    ensures ReadExpression(PrintExpression(e) + rest) == Some((Normalized(e), rest))
  {
    match e
    case Infix(left, op, right) =>
      var pl := PrintExpression(left);
      var pr := PrintExpression(right);
      ReadPrinted(left, " " + pr + ")" + rest);
      ReadPrinted(right, ")" + rest);
      KindNameNames(op);
      ReadInfix(KindName(op), op, pl, Normalized(left), pr, Normalized(right), rest);
    case Prefix(op, right) =>
      var pr := PrintExpression(right);
      ReadPrinted(right, ")" + rest);
      KindNameNames(op);
      ReadPrefix(KindName(op), op, pr, Normalized(right), rest);
    case BoolLit(truth) =>
      ReadWord(if truth then "true" else "false", e, rest);
    case NullLit =>
      ReadWord("null", e, rest);
    case NumberLit(literal) =>
      ReadNumber(literal, rest);
    case StringLit(value) =>
      ReadString(value, rest);
  }

  function NormalizedStatement(s: Statement): Statement
  {
    match s
    case ExpressionStmt(e) => ExpressionStmt(Normalized(e))
    case PrintStmt(e) => PrintStmt(Normalized(e))
  }

  /** A printed statement reads back as the statement, its numbers in canonical spelling. */
  lemma ReadPrintedStatement(s: Statement)
    requires WellFormed(s.expression)
    ensures ReadStatement(PrintStatement(s)) == Some(NormalizedStatement(s))
  {
    var keyword := if s.ExpressionStmt? then "expression" else "print";
    var p := PrintExpression(s.expression);
    assert PrintStatement(s) == "(" + keyword + " " + (p + ")");
    ReadKeywordOf(keyword, p + ")");
    ReadPrinted(s.expression, ")");
  }
}
