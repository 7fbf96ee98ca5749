/**
 * The recursive-descent parser with panic-mode error recovery.
 *
 * A `Parser` pulls tokens from its lexer one at a time and reports to its reporter. Every
 * method is proved to leave the parser, the lexer and the reporter in the state the function
 * of the same role in `ParseModel` computes from the state it started in; `State()` reads
 * that state off the three objects.
 */
module Parsing {
  import opened Wrappers
  import opened Tokens
  import opened Ast
  import opened Grammar
  import opened ParseModel
  import Lexing
  import Reporting

  /** What `ParseModule` returns: the reporter when any issue was reported, else the module. */
  datatype ParserResult = Failed(reporter: Reporting.JsonReporter) | Parsed(program: Module)

  /** The loop of `match`: the position of the first `kind` in `kinds`, or `|kinds|` if there is none. */
  method FirstIndex(kinds: seq<TokenKind>, kind: TokenKind) returns (i: nat)
    ensures i <= |kinds| && (i < |kinds| <==> kind in kinds)
    ensures i < |kinds| ==> kinds[i] == kind && kind !in kinds[..i]
  {
    i := 0;
    while i < |kinds| && kinds[i] != kind
      invariant i <= |kinds| && kind !in kinds[..i]
    {
      i := i + 1;
    }
    assert i == |kinds| ==> kinds[..i] == kinds;
  }

  class Parser {
    const lexer: Lexing.Lexer
    const reporter: Reporting.JsonReporter
    /** The most recently consumed token; none before the first `Consume`. */
    var previous: Option<Token>
    /** The token yet to be consumed; none before the first `Consume`. */
    var current: Option<Token>
    /** Set by the first error, cleared by `Synchronize`; errors are not reported while set. */
    var panicMode: bool
    /** The tokens consumed so far, oldest first. */
    ghost var trail: seq<Token>

    ghost function State(): PState
      reads this, lexer, reporter
    {
      PState(lexer.current, lexer.line, previous, current, panicMode, reporter.issues, trail)
    }

    ghost predicate Valid()
      reads this, lexer
    {
      lexer.Valid()
    }

    /** Whether the reporter has recorded any issue. */
    predicate HadError()
      reads this, reporter
    {
      reporter.HadError()
    }

    constructor (lexer: Lexing.Lexer, reporter: Reporting.JsonReporter)
      requires lexer.Valid()
      ensures this.lexer == lexer && this.reporter == reporter && Valid()
      ensures State() == PState(lexer.current, lexer.line, None, None, false, reporter.issues, [])
    {
      this.lexer := lexer;
      this.reporter := reporter;
      previous := None;
      current := None;
      panicMode := false;
      trail := [];
    }

    /** Parses the whole input: statements up to end of input, then the end of input itself. */
    method ParseModule() returns (result: ParserResult)
      requires Valid()
      modifies this, lexer, reporter
      ensures Valid()
      ensures var (outcome, st) := ModuleOf(lexer.source, old(State()));
        && State() == st
        && (result.Failed? <==> outcome.Rejected?)
        && (result.Failed? ==> result.reporter == reporter)
        && (result.Parsed? ==> outcome == Accepted(result.program))
    {
      var statements: seq<Statement> := [];
      var first := Consume();
      while current.value.kind != Eof
        invariant Valid() && Ready(lexer.source, State())
        invariant StatementsFrom(lexer.source, State(), statements)
          == StatementsFrom(lexer.source, Advance(lexer.source, old(State())), [])
        decreases Progress(lexer.source, State())
      {
        var s := ParseDeclaration();
        statements := statements + [s];
        if panicMode {
          Synchronize();
        }
      }
      var last := Expect(Eof, "Expected end of input.");
      if HadError() {
        return Failed(reporter);
      }
      return Parsed(Module(statements));
    }

    method ParseDeclaration() returns (s: Statement)
      requires Valid() && Ready(lexer.source, State())
      modifies this, lexer, reporter
      ensures Valid() && (s, State()) == StatementOf(lexer.source, old(State()))
    {
      s := ParseStatement();
    }

    method ParseStatement() returns (s: Statement)
      requires Valid() && Ready(lexer.source, State())
      modifies this, lexer, reporter
      ensures Valid() && (s, State()) == StatementOf(lexer.source, old(State()))
    {
      var printKeyword := Match([Print]);
      if printKeyword.Some? {
        s := ParsePrintStatement();
      } else {
        s := ParseExpressionStatement();
      }
    }

    method ParsePrintStatement() returns (s: Statement)
      requires Valid() && Ready(lexer.source, State())
      modifies this, lexer, reporter
      ensures Valid() && (s, State()) == PrintStatementOf(lexer.source, old(State()))
    {
      var e := ParseExpression();
      var semicolon := Expect(Semicolon, "Expected ';' after value.");
      s := PrintStmt(e);
    }

    method ParseExpressionStatement() returns (s: Statement)
      requires Valid() && Ready(lexer.source, State())
      modifies this, lexer, reporter
      ensures Valid() && (s, State()) == ExpressionStatementOf(lexer.source, old(State()))
    {
      var e := ParseExpression();
      var semicolon := Expect(Semicolon, "Expected ';' after expression.");
      s := ExpressionStmt(e);
    }

    method ParseExpression() returns (e: Expression)
      requires Valid() && Ready(lexer.source, State())
      modifies this, lexer, reporter
      ensures Valid() && (e, State()) == ExpressionOf(lexer.source, old(State()))
    {
      e := ParseInfix(Equality);
    }

    /**
     * A left-associative series of `level`'s operators, each operand parsed one level
     * tighter: the equality, comparison, term and factor parsers.
     */
    method ParseInfix(level: Level) returns (e: Expression)
      requires Valid() && Ready(lexer.source, State()) && level != Prefixed
      modifies this, lexer, reporter
      ensures Valid() && (e, State()) == InfixOf(lexer.source, level, old(State()))
      decreases Progress(lexer.source, State()), Rank(level), 2
    {
      e := ParseOperand(level);
      while true
        invariant Valid() && Ready(lexer.source, State())
        invariant Progress(lexer.source, State()) <= Progress(lexer.source, old(State()))
        invariant InfixTail(lexer.source, level, e, State()) == InfixOf(lexer.source, level, old(State()))
        decreases Progress(lexer.source, State())
      {
        ghost var before := State();
        var op := Match(Ops(level));
        if op.None? {
          break;
        }
        OperatorNotEof(level, before.current.value.kind);
        ghost var mid := State();
        assert Progress(lexer.source, mid) < Progress(lexer.source, before);
        var operator := previous.value.kind;
        var right := ParseOperand(level);
        assert Progress(lexer.source, State()) <= Progress(lexer.source, mid);
        e := Infix(e, operator, right);
      }
    }

    /** The operand parser of a binary level: the next binary level, or the unary parser. */
    method ParseOperand(level: Level) returns (e: Expression)
      requires Valid() && Ready(lexer.source, State()) && level != Prefixed
      modifies this, lexer, reporter
      ensures Valid() && (e, State()) == OperandOf(lexer.source, level, old(State()))
      decreases Progress(lexer.source, State()), Rank(level), 1
    {
      if level == Factor {
        e := ParseUnary();
      } else {
        e := ParseInfix(Next(level));
      }
    }

    method ParseUnary() returns (e: Expression)
      requires Valid() && Ready(lexer.source, State())
      modifies this, lexer, reporter
      ensures Valid() && (e, State()) == UnaryOf(lexer.source, old(State()))
      decreases Progress(lexer.source, State()), 0, 0
    {
      var op := Match(Ops(Prefixed));
      if op.Some? {
        var operator := previous.value.kind;
        var right := ParseUnary();
        return Prefix(operator, right);
      }
      e := ParsePrimary();
    }

    method ParsePrimary() returns (e: Expression)
      requires Valid() && Ready(lexer.source, State())
      modifies this, lexer, reporter
      ensures Valid() && (e, State()) == PrimaryOf(lexer.source, old(State()))
    {
      ghost var st := State();
      var t := Match([False]);
      if t.Some? {
        return BoolLit(false);
      }
      t := Match([True]);
      if t.Some? {
        return BoolLit(true);
      }
      t := Match([Null]);
      if t.Some? {
        return NullLit;
      }
      assert State() == st && !(st.current.value.kind in {False, True, Null});
      t := Match([Number]);
      if t.Some? {
        return NumberLit(previous.value.lexeme);
      }
      t := Match([String]);
      if t.Some? {
        return StringLit(previous.value.lexeme);
      }
      assert State() == st;
      Error("Expected expression.", None);
      e := NullLit;
    }

    /** `consume()`: the current token becomes the previous one; scanner errors are reported and skipped. */
    method Consume() returns (tok: Option<Token>)
      requires Valid()
      modifies this, lexer, reporter
      ensures Valid() && tok == previous
      ensures State() == Advance(lexer.source, old(State()))
    {
      previous := current;
      trail := trail + Consumed(current);
      while true
        invariant Valid()
        invariant Pull(lexer.source, State()) == Advance(lexer.source, old(State()))
        decreases |lexer.source| - lexer.current
      {
        var t := lexer.ScanToken();
        current := Some(t);
        if t.kind != TokenKind.Error {
          break;
        }
        Error(t.lexeme, None);
      }
      tok := previous;
    }

    /** `consume(kind, message)`: consume, and report `message` if the consumed token is not `kind`. */
    method Expect(kind: TokenKind, message: string) returns (tok: Option<Token>)
      requires Valid() && current.Some?
      modifies this, lexer, reporter
      ensures Valid() && tok == previous
      ensures State() == ParseModel.Expect(lexer.source, old(State()), kind, message)
    {
      tok := Consume();
      if previous.value.kind != kind {
        Error(message, previous);
      }
    }

    /** `match(...kinds)`: consume the current token if its kind is one of `kinds`. */
    method Match(kinds: seq<TokenKind>) returns (tok: Option<Token>)
      requires Valid() && Ready(lexer.source, State())
      modifies this, lexer, reporter
      ensures Valid()
      ensures tok.Some? <==> old(current.value.kind) in kinds
      ensures tok.Some? ==> tok == old(current) && State() == Advance(lexer.source, old(State()))
      ensures tok.None? ==> State() == old(State())
    {
      var i := FirstIndex(kinds, current.value.kind);
      if i < |kinds| {
        tok := Consume();
      } else {
        tok := None;
      }
    }

    /** Leaves panic mode and skips to the next statement boundary or the end of input. */
    method Synchronize()
      requires Valid() && Ready(lexer.source, State()) && previous.Some?
      modifies this, lexer, reporter
      ensures Valid() && State() == Synchronized(lexer.source, old(State()))
    {
      panicMode := false;
      while current.value.kind != Eof
        invariant Valid() && Ready(lexer.source, State()) && previous.Some?
        invariant SkipToBoundary(lexer.source, State()) == Synchronized(lexer.source, old(State()))
        decreases Progress(lexer.source, State())
      {
        if previous.value.kind == Semicolon {
          return;
        }
        if current.value.kind in StatementStarts {
          return;
        }
        var skipped := Consume();
      }
    }

    /**
     * `error(message, token)`: ignored while panicking; otherwise reported against the given
     * token, else the current one, else the previous one, and panic mode is entered.
     */
    method Error(message: string, token: Option<Token>)
      requires Valid() && (token.Some? || current.Some? || previous.Some?)
      modifies this, reporter
      ensures Valid() && State() == Report(old(State()), message, token)
    {
      if panicMode {
        return;
      }
      var tokenToReport := if token.Some? then token.value
        else if current.Some? then current.value
        else previous.value;
      reporter.Error(message, tokenToReport);
      panicMode := true;
    }
  }
}
