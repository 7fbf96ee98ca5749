/**
 * The parser as functions on its state.
 *
 * `PState` holds everything the parser's behaviour depends on: the lexer's cursor, the
 * previous and current tokens, panic mode and the issues reported so far, plus the tokens
 * consumed so far, which only the specification looks at. Each function below is what the
 * method of the same role in `Parsing.Parser` computes; the lemmas about parsing are stated
 * on these functions.
 */
module ParseModel {
  import opened Wrappers
  import opened Tokens
  import opened Scanning
  import opened Ast
  import opened Grammar
  import Reporting

  datatype PState = PState(
    pos: nat, line: nat,
    previous: Option<Token>, current: Option<Token>,
    panic: bool, issues: seq<Reporting.Issue>, trail: seq<Token>)

  /** The state of a new parser over a new lexer, with the reporter's earlier issues. */
  function Initial(issues: seq<Reporting.Issue>): PState
  {
    PState(0, 1, None, None, false, issues, [])
  }

  predicate AtEof(st: PState)
  {
    st.current.Some? && st.current.value.kind == Eof
  }

  /**
   * The parser's termination measure: twice the input left to scan, plus one while the
   * current token is not end-of-input. Consuming a token that is not end-of-input lowers it.
   */
  function Progress(src: string, st: PState): nat
    requires st.pos <= |src|
  {
    2 * (|src| - st.pos) + (if AtEof(st) then 0 else 1)
  }

  /** A state parsing can start from: a current token is scanned and it is not an error. */
  predicate Ready(src: string, st: PState)
  {
    st.pos <= |src| && st.current.Some? && st.current.value.kind != Error
  }

  /** The token an option holds, as a sequence of none or one. */
  function Consumed(t: Option<Token>): seq<Token>
  {
    if t.Some? then [t.value] else []
  }

  /**
   * `error(message, token)`: nothing while panicking; otherwise one issue against the given
   * token, else the current one, else the previous one, and panic mode is entered.
   */
  function Report(st: PState, message: string, token: Option<Token>): PState
    requires token.Some? || st.current.Some? || st.previous.Some?
  {
    if st.panic then st
    else
      var t := if token.Some? then token.value
        else if st.current.Some? then st.current.value
        else st.previous.value;
      st.(issues := st.issues + [Reporting.Issue(message, t, Reporting.Error)], panic := true)
  }

  /**
   * The scanning loop of `consume`: scan until a token that is not an error. Outside panic mode
   * the first error token is reported with its lexeme; `error` is silent in panic mode, so the
   * rest are skipped without a report.
   */
  function Pull(src: string, st: PState): (r: PState)
    requires st.pos <= |src|
    ensures st.pos <= r.pos <= |src| && r.current.Some? && r.current.value.kind != Error
    ensures !AtEof(r) ==> st.pos < r.pos
    ensures r.previous == st.previous && r.trail == st.trail
    decreases |src| - st.pos
  {
    var sc := ScanAt(src, st.pos, st.line);
    var scanned := st.(pos := sc.next, line := sc.line, current := Some(sc.token));
    if sc.token.kind == Error then Pull(src, Report(scanned, sc.token.lexeme, None))
    else scanned
  }

  /** `consume()`: the current token becomes the previous one, and the next one is pulled. */
  function Advance(src: string, st: PState): (r: PState)
    requires st.pos <= |src|
    ensures Ready(src, r) && r.previous == st.current
    ensures Progress(src, r) <= Progress(src, st)
    ensures !AtEof(st) ==> Progress(src, r) < Progress(src, st)
  {
    Pull(src, st.(previous := st.current, trail := st.trail + Consumed(st.current)))
  }

  /** `consume(kind, message)`: consume, then report `message` if what was consumed is not `kind`. */
  function Expect(src: string, st: PState, kind: TokenKind, message: string): (r: PState)
    requires st.pos <= |src| && st.current.Some?
    ensures Ready(src, r) && r.previous == st.current
    ensures Progress(src, r) <= Progress(src, st)
    ensures !AtEof(st) ==> Progress(src, r) < Progress(src, st)
  {
    var r := Advance(src, st);
    if r.previous.value.kind != kind then Report(r, message, r.previous) else r
  }

  /** `parsePrimary`: a literal, or "Expected expression." and a null node without consuming. */
  function PrimaryOf(src: string, st: PState): (r: (Expression, PState))
    requires Ready(src, st)
    ensures Ready(src, r.1) && Progress(src, r.1) <= Progress(src, st)
    ensures Progress(src, r.1) < Progress(src, st) || (r.1.pos == st.pos && r.1.current == st.current)
  {
    var k := st.current.value.kind;
    if k == False then (BoolLit(false), Advance(src, st))
    else if k == True then (BoolLit(true), Advance(src, st))
    else if k == Null then (NullLit, Advance(src, st))
    else if k == Number then (NumberLit(st.current.value.lexeme), Advance(src, st))
    else if k == String then (StringLit(st.current.value.lexeme), Advance(src, st))
    else (NullLit, Report(st, "Expected expression.", None))
  }

  /** `parseUnary`: prefix operators, right-recursively, over a primary. */
  function UnaryOf(src: string, st: PState): (r: (Expression, PState))
    requires Ready(src, st)
    ensures Ready(src, r.1) && Progress(src, r.1) <= Progress(src, st)
    ensures Progress(src, r.1) < Progress(src, st) || (r.1.pos == st.pos && r.1.current == st.current)
    decreases Progress(src, st), 0, 0
  {
    if st.current.value.kind in Ops(Prefixed) then
      var st1 := Advance(src, st);
      var (right, st2) := UnaryOf(src, st1);
      (Prefix(st.current.value.kind, right), st2)
    else PrimaryOf(src, st)
  }

  /** The operand parser `parseInfix` is given at each binary level. */
  function OperandOf(src: string, level: Level, st: PState): (r: (Expression, PState))
    requires Ready(src, st) && level != Prefixed
    ensures Ready(src, r.1) && Progress(src, r.1) <= Progress(src, st)
    ensures Progress(src, r.1) < Progress(src, st) || (r.1.pos == st.pos && r.1.current == st.current)
    decreases Progress(src, st), Rank(level), 1
  {
    if level == Factor then UnaryOf(src, st) else InfixOf(src, Next(level), st)
  }

  /** `parseInfix` at a binary level: an operand, then the loop over that level's operators. */
  function InfixOf(src: string, level: Level, st: PState): (r: (Expression, PState))
    requires Ready(src, st) && level != Prefixed
    ensures Ready(src, r.1) && Progress(src, r.1) <= Progress(src, st)
    ensures Progress(src, r.1) < Progress(src, st) || (r.1.pos == st.pos && r.1.current == st.current)
    decreases Progress(src, st), Rank(level), 2
  {
    var (left, st1) := OperandOf(src, level, st);
    InfixTail(src, level, left, st1)
  }

  /** The loop of `parseInfix`: each further operator wraps the tree built so far as its left operand. */
  function InfixTail(src: string, level: Level, left: Expression, st: PState): (r: (Expression, PState))
    requires Ready(src, st) && level != Prefixed
    ensures Ready(src, r.1) && Progress(src, r.1) <= Progress(src, st)
    ensures Progress(src, r.1) < Progress(src, st) || (r.1.pos == st.pos && r.1.current == st.current)
    decreases Progress(src, st), Rank(level), 0
  {
    if st.current.value.kind in Ops(level) then
      var st1 := Advance(src, st);
      var (right, st2) := OperandOf(src, level, st1);
      InfixTail(src, level, Infix(left, st.current.value.kind, right), st2)
    else (left, st)
  }

  /** `parseExpression`: an equality-level tree. */
  function ExpressionOf(src: string, st: PState): (r: (Expression, PState))
    requires Ready(src, st)
    ensures Ready(src, r.1) && Progress(src, r.1) <= Progress(src, st)
    ensures Progress(src, r.1) < Progress(src, st) || (r.1.pos == st.pos && r.1.current == st.current)
  {
    InfixOf(src, Equality, st)
  }

  /** `parsePrintStatement`, after `print`: an expression, then a `;`. */
  function PrintStatementOf(src: string, st: PState): (r: (Statement, PState))
    requires Ready(src, st)
    ensures Ready(src, r.1) && r.1.previous.Some? && Progress(src, r.1) <= Progress(src, st)
    ensures !AtEof(st) ==> Progress(src, r.1) < Progress(src, st)
  {
    var (e, st1) := ExpressionOf(src, st);
    (PrintStmt(e), Expect(src, st1, Semicolon, "Expected ';' after value."))
  }

  /** `parseExpressionStatement`: an expression, then a `;`. */
  function ExpressionStatementOf(src: string, st: PState): (r: (Statement, PState))
    requires Ready(src, st)
    ensures Ready(src, r.1) && r.1.previous.Some? && Progress(src, r.1) <= Progress(src, st)
    ensures !AtEof(st) ==> Progress(src, r.1) < Progress(src, st)
  {
    var (e, st1) := ExpressionOf(src, st);
    (ExpressionStmt(e), Expect(src, st1, Semicolon, "Expected ';' after expression."))
  }

  /** `parseStatement` (and `parseDeclaration`): a print statement or an expression statement. */
  function StatementOf(src: string, st: PState): (r: (Statement, PState))
    requires Ready(src, st)
    ensures Ready(src, r.1) && r.1.previous.Some? && Progress(src, r.1) <= Progress(src, st)
    ensures !AtEof(st) ==> Progress(src, r.1) < Progress(src, st)
  {
    if st.current.value.kind == Print then PrintStatementOf(src, Advance(src, st))
    else ExpressionStatementOf(src, st)
  }

  /** The keywords `synchronize` stops in front of. */
  const StatementStarts: set<TokenKind> := {Class, Fn, Var, For, If, While, Print, Return}

  /** The loop of `synchronize`: consume up to a statement boundary or the end of input. */
  function SkipToBoundary(src: string, st: PState): (r: PState)
    requires Ready(src, st) && st.previous.Some?
    ensures Ready(src, r) && r.previous.Some? && Progress(src, r) <= Progress(src, st)
    decreases Progress(src, st)
  {
    if AtEof(st) then st
    else if st.previous.value.kind == Semicolon then st
    else if st.current.value.kind in StatementStarts then st
    else SkipToBoundary(src, Advance(src, st))
  }

  /** `synchronize`: leave panic mode, then skip to a statement boundary. */
  function Synchronized(src: string, st: PState): (r: PState)
    requires Ready(src, st) && st.previous.Some?
    ensures Ready(src, r) && r.previous.Some? && Progress(src, r) <= Progress(src, st)
  {
    SkipToBoundary(src, st.(panic := false))
  }

  /** The loop of `parseModule`: statements up to end of input, synchronizing after a panic. */
  function StatementsFrom(src: string, st: PState, done: seq<Statement>): (r: (seq<Statement>, PState))
    requires Ready(src, st)
    ensures Ready(src, r.1) && AtEof(r.1)
    decreases Progress(src, st)
  {
    if AtEof(st) then (done, st)
    else
      var (s, st1) := StatementOf(src, st);
      var st2 := if st1.panic then Synchronized(src, st1) else st1;
      StatementsFrom(src, st2, done + [s])
  }

  /** What `parseModule` returns: the issues when any was reported, else the module. */
  datatype Outcome = Rejected(issues: seq<Reporting.Issue>) | Accepted(program: Module)

  /** `parseModule`, from a parser that has not consumed anything yet. */
  function ModuleOf(src: string, st: PState): (r: (Outcome, PState))
    requires st.pos <= |src|
  {
    var st1 := Advance(src, st);
    var (statements, st2) := StatementsFrom(src, st1, []);
    var st3 := Expect(src, st2, Eof, "Expected end of input.");
    (if |st3.issues| != 0 then Rejected(st3.issues) else Accepted(Module(statements)), st3)
  }

  /** Parsing a whole text with a fresh reporter. */
  function Parse(src: string): Outcome
  {
    ModuleOf(src, Initial([])).0
  }
}
