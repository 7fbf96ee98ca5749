/**
 * What the parser promises, proved on the functions of `ParseModel`.
 *
 * - Every expression parser returns a tree the grammar derives at its level (`Shaped`):
 *   precedence and left-associativity.
 * - When the parser is not panicking afterwards, the tree's words are exactly the words of
 *   the tokens it consumed, in order.
 * - Issues only grow, panic mode is only left by `synchronize`, and at most one issue is
 *   reported between two synchronizations.
 */
module ParseLemmas {
  import opened Wrappers
  import opened Tokens
  import opened Scanning
  import opened ScanningLemmas
  import opened Ast
  import opened Grammar
  import opened ParseModel
  import Reporting

  /**
   * How the state may change across any parsing step other than `synchronize`: consumed
   * tokens and issues are only appended to, panic mode is never left, and exactly one issue
   * is added when panic mode is entered and none otherwise.
   */
  ghost predicate Grows(st: PState, r: PState)
  {
    && st.trail <= r.trail
    && st.issues <= r.issues
    && (st.panic ==> r.panic)
    && |r.issues| == |st.issues| + (if r.panic && !st.panic then 1 else 0)
  }

  lemma GrowsTrans(a: PState, b: PState, c: PState)
    requires Grows(a, b) && Grows(b, c)
    ensures Grows(a, c)
  {
  }

  /**
   * The parser is in step with the scanner: the tokens consumed, then the current token
   * unless it is end-of-input, then the tokens the scanner has yet to return are the whole
   * token stream. At end of input nothing is left, and scanning again returns the same token.
   */
  ghost predicate Follows(src: string, st: PState)
  {
    && st.pos <= |src| && st.current.Some?
    && if AtEof(st) then
         && st.trail == TokenStream(src, 0, 1)
         && ScanAt(src, st.pos, st.line) == Scan(st.current.value, st.pos, st.line)
       else st.trail + [st.current.value] + TokenStream(src, st.pos, st.line) == TokenStream(src, 0, 1)
  }

  /** A step that ends outside panic mode keeps the parser in step with the scanner. */
  ghost predicate Step(src: string, st: PState, r: PState)
  {
    && Grows(st, r)
    && (Follows(src, st) && !r.panic ==> Follows(src, r))
  }

  lemma StepTrans(src: string, a: PState, b: PState, c: PState)
    requires Step(src, a, b) && Step(src, b, c)
    ensures Step(src, a, c)
  {
  }

  lemma {:induction false} WordsConcat(a: seq<Token>, b: seq<Token>)
    ensures Words(a + b) == Words(a) + Words(b)
    decreases |b|
  {
    if b != [] {
      var b' := b[..|b| - 1];
      assert (a + b)[..|a + b| - 1] == a + b';
      assert (a + b)[|a + b| - 1] == b[|b| - 1];
      WordsConcat(a, b');
      assert Words(b) == Words(b') + [WordOf(b[|b| - 1])];
    } else {
      assert a + b == a;
    }
  }

  /** The words consumed from `a` to `c` are those from `a` to `b`, then those from `b` to `c`. */
  lemma WordsSince(a: seq<Token>, b: seq<Token>, c: seq<Token>)
    requires a <= b <= c
    ensures Words(c[|a|..]) == Words(b[|a|..]) + Words(c[|b|..])
  {
    assert c[|a|..] == b[|a|..] + c[|b|..];
    WordsConcat(b[|a|..], c[|b|..]);
  }

  /** `error` never moves the parser, so it keeps it in step with the scanner. */
  lemma ReportGrows(src: string, st: PState, message: string, token: Option<Token>)
    requires token.Some? || st.current.Some? || st.previous.Some?
    ensures var r := Report(st, message, token);
      Step(src, st, r) && r.panic && r.trail == st.trail
  {
  }

  lemma {:induction false} PullGrows(src: string, st: PState)
    requires st.pos <= |src|
    ensures Grows(st, Pull(src, st))
    decreases |src| - st.pos
  {
    var sc := ScanAt(src, st.pos, st.line);
    var scanned := st.(pos := sc.next, line := sc.line, current := Some(sc.token));
    if sc.token.kind == Error {
      var reported := Report(scanned, sc.token.lexeme, None);
      ReportGrows(src, scanned, sc.token.lexeme, None);
      PullGrows(src, reported);
      GrowsTrans(st, reported, Pull(src, reported));
    }
  }

  /** In panic mode every scanner error met while pulling is skipped without a report. */
  lemma {:induction false} PullSilentInPanic(src: string, st: PState)
    requires st.pos <= |src| && st.panic
    ensures var r := Pull(src, st);
      r.issues == st.issues && r.panic
    decreases |src| - st.pos
  {
    var sc := ScanAt(src, st.pos, st.line);
    var scanned := st.(pos := sc.next, line := sc.line, current := Some(sc.token));
    if sc.token.kind == Error {
      assert Report(scanned, sc.token.lexeme, None) == scanned;
      PullSilentInPanic(src, scanned);
    }
  }

  /**
   * Outside panic mode, pulling reports the first token scanned when it is an error token,
   * with its lexeme as the message, and skips any error tokens after it without a report.
   */
  lemma PullReportsFirstError(src: string, st: PState)
    requires st.pos <= |src| && !st.panic
    ensures var t := ScanAt(src, st.pos, st.line).token;
      var r := Pull(src, st);
      && r.issues == st.issues + (if t.kind == Error then [Reporting.Issue(t.lexeme, t, Reporting.Error)] else [])
      && (r.panic <==> t.kind == Error)
  {
    var sc := ScanAt(src, st.pos, st.line);
    var scanned := st.(pos := sc.next, line := sc.line, current := Some(sc.token));
    if sc.token.kind == Error {
      PullSilentInPanic(src, Report(scanned, sc.token.lexeme, None));
    }
  }

  /**
   * Scanning the next token keeps the parser in step with the scanner unless a scanner error
   * is met, which puts the parser in panic mode.
   */
  lemma PullFollows(src: string, st: PState)
    requires st.pos <= |src| && st.trail + TokenStream(src, st.pos, st.line) == TokenStream(src, 0, 1)
    ensures var r := Pull(src, st);
      !r.panic ==> Follows(src, r)
  {
    var sc := ScanAt(src, st.pos, st.line);
    var scanned := st.(pos := sc.next, line := sc.line, current := Some(sc.token));
    if sc.token.kind == Error {
      var reported := Report(scanned, sc.token.lexeme, None);
      assert Pull(src, st) == Pull(src, reported);
      PullGrows(src, reported);
    } else {
      assert Pull(src, st) == scanned;
      StreamStep(src, st.pos, st.line);
      if sc.token.kind == Eof {
        EndOfInputRepeats(src, st.pos, st.line);
        assert AtEof(scanned);
      } else {
        assert !AtEof(scanned);
      }
    }
  }

  /** `consume` appends the token it consumes to the consumed tokens and keeps `Grows`. */
  lemma AdvanceGrows(src: string, st: PState)
    requires st.pos <= |src|
    ensures var r := Advance(src, st);
      Grows(st, r) && r.trail == st.trail + Consumed(st.current)
  {
    var st' := st.(previous := st.current, trail := st.trail + Consumed(st.current));
    PullGrows(src, st');
  }

  /** Consuming a token that is not end-of-input is a step. */
  lemma AdvanceStep(src: string, st: PState)
    requires st.pos <= |src| && st.current.Some? && !AtEof(st)
    ensures var r := Advance(src, st);
      Step(src, st, r) && r.trail == st.trail + [st.current.value]
  {
    AdvanceGrows(src, st);
    var st' := st.(previous := st.current, trail := st.trail + Consumed(st.current));
    if Follows(src, st) {
      assert st'.trail + TokenStream(src, st.pos, st.line) == TokenStream(src, 0, 1);
      PullFollows(src, st');
    }
  }

  /** Consuming the current token adds its one word. */
  lemma AdvanceWord(src: string, st: PState)
    requires Ready(src, st) && !AtEof(st)
    ensures var r := Advance(src, st);
      && Step(src, st, r)
      && r.trail[|st.trail|..] == [st.current.value]
      && Words(r.trail[|st.trail|..]) == [WordOf(st.current.value)]
  {
    AdvanceStep(src, st);
    assert Words([st.current.value]) == Words([]) + [WordOf(st.current.value)];
  }

  /**
   * `consume(kind, message)` for a kind other than end-of-input: it consumes one token, and
   * when it does not panic that token has the expected kind.
   */
  lemma ExpectFacts(src: string, st: PState, kind: TokenKind, message: string)
    requires st.pos <= |src| && st.current.Some? && kind != Eof
    ensures var r := Expect(src, st, kind, message);
      && Step(src, st, r) && r.trail == st.trail + [st.current.value]
      && (!r.panic ==> st.current.value.kind == kind)
  {
    var r := Advance(src, st);
    AdvanceGrows(src, st);
    if !AtEof(st) {
      AdvanceStep(src, st);
    }
    if r.previous.value.kind != kind {
      ReportGrows(src, r, message, r.previous);
    }
  }

  /** The final `consume(EOF, ...)` of `parseModule` only adds issues. */
  lemma ExpectGrowsEof(src: string, st: PState)
    requires st.pos <= |src| && st.current.Some?
    ensures st.issues <= Expect(src, st, Eof, "Expected end of input.").issues
  {
    var r := Advance(src, st);
    AdvanceGrows(src, st);
    if r.previous.value.kind != Eof {
      ReportGrows(src, r, "Expected end of input.", r.previous);
    }
  }

  /** `parsePrimary` builds the leaf of a literal token, and reports any other token. */
  lemma PrimaryLeaf(src: string, st: PState)
    requires Ready(src, st)
    ensures var t := st.current.value;
      && (Leaf(t).Some? ==> PrimaryOf(src, st) == (Leaf(t).value, Advance(src, st)))
      && (Leaf(t).None? ==> PrimaryOf(src, st) == (NullLit, Report(st, "Expected expression.", None)))
      && (Leaf(t).Some? ==> Leaf(t).value.IsLeaf() && t.kind != Eof)
  {
    LeafKinds(st.current.value);
  }

  /** The literal tokens are exactly those with a leaf, and a leaf is never end-of-input. */
  lemma LeafKinds(t: Token)
    ensures Leaf(t).Some? <==> t.kind in {False, True, Null, Number, String}
    ensures Leaf(t).Some? ==> Leaf(t).value.IsLeaf() && t.kind != Eof
  {
    if t.kind !in {False, True, Null, Number, String} {
      assert Leaf(t).None?;
    }
  }

  /** A primary is a leaf; when it does not panic, it is the leaf of the one token consumed. */
  lemma PrimaryFacts(src: string, st: PState)
    requires Ready(src, st)
    ensures var (e, r) := PrimaryOf(src, st);
      && Step(src, st, r) && Shaped(e, Prefixed)
      && (!r.panic ==> Flatten(e) == Words(r.trail[|st.trail|..]))
  {
    var t := st.current.value;
    PrimaryLeaf(src, st);
    if Leaf(t).Some? {
      AdvanceWord(src, st);
    } else {
      ReportGrows(src, st, "Expected expression.", None);
    }
  }

  /** No operator token is a literal or end-of-input. */
  lemma OperatorNotLeaf(l: Level, t: Token)
    requires t.kind in Ops(l)
    ensures Leaf(t).None? && t.kind != Eof
  {
    match l
    case Equality =>
    case Comparison =>
    case Term =>
    case Factor =>
    case Prefixed =>
  }

  /** A prefix operator over a right operand that has the unary facts has them too. */
  lemma PrefixStep(src: string, st: PState)
    requires Ready(src, st) && st.current.value.kind in Ops(Prefixed)
    requires var st1 := Advance(src, st);
      var (right, st2) := UnaryOf(src, st1);
      && Step(src, st1, st2) && Shaped(right, Prefixed)
      && (!st2.panic ==> Flatten(right) == Words(st2.trail[|st1.trail|..]))
    ensures var (e, r) := UnaryOf(src, st);
      && Step(src, st, r) && Shaped(e, Prefixed)
      && (!r.panic ==> Flatten(e) == Words(r.trail[|st.trail|..]))
  {
    var t := st.current.value;
    OperatorNotLeaf(Prefixed, t);
    var st1 := Advance(src, st);
    AdvanceWord(src, st);
    var (right, st2) := UnaryOf(src, st1);
    StepTrans(src, st, st1, st2);
    assert UnaryOf(src, st) == (Prefix(t.kind, right), st2);
    if !st2.panic {
      WordsSince(st.trail, st1.trail, st2.trail);
      assert Words(st2.trail[|st.trail|..]) == [Op(t.kind)] + Flatten(right);
    }
  }

  /** The unary parser's tree is a chain of prefix operators over a primary. */
  lemma {:induction false} UnaryFacts(src: string, st: PState)
    requires Ready(src, st)
    ensures var (e, r) := UnaryOf(src, st);
      && Step(src, st, r) && Shaped(e, Prefixed)
      && (!r.panic ==> Flatten(e) == Words(r.trail[|st.trail|..]))
    decreases Progress(src, st), 0, 0
  {
    if st.current.value.kind in Ops(Prefixed) {
      OperatorNotEof(Prefixed, st.current.value.kind);
      UnaryFacts(src, Advance(src, st));
      PrefixStep(src, st);
    } else {
      PrimaryFacts(src, st);
    }
  }

  lemma {:induction false} OperandFacts(src: string, level: Level, st: PState)
    requires Ready(src, st) && level != Prefixed
    ensures var (e, r) := OperandOf(src, level, st);
      && Step(src, st, r) && Shaped(e, Next(level))
      && (!r.panic ==> Flatten(e) == Words(r.trail[|st.trail|..]))
    decreases Progress(src, st), Rank(level), 1
  {
    if level == Factor {
      UnaryFacts(src, st);
    } else {
      InfixFacts(src, Next(level), st);
    }
  }

  /** `parseInfix` at a level returns a tree of that level whose words are the tokens consumed. */
  lemma {:induction false} InfixFacts(src: string, level: Level, st: PState)
    requires Ready(src, st) && level != Prefixed
    ensures var (e, r) := InfixOf(src, level, st);
      && Step(src, st, r) && Shaped(e, level)
      && (!r.panic ==> Flatten(e) == Words(r.trail[|st.trail|..]))
    decreases Progress(src, st), Rank(level), 2
  {
    var (left, st1) := OperandOf(src, level, st);
    OperandFacts(src, level, st);
    assert Shaped(left, level);
    TailFacts(src, level, left, st1, |st.trail|);
    StepTrans(src, st, st1, InfixOf(src, level, st).1);
  }

  /** One round of the `parseInfix` loop: the operator and its right operand join the words. */
  lemma JoinWords(left: Expression, t: Token, right: Expression, a: seq<Token>, b: seq<Token>, c: seq<Token>, from: nat)
    requires from <= |a| && a <= b <= c && b == a + [t] && Leaf(t).None?
    requires Flatten(left) == Words(a[from..]) && Flatten(right) == Words(c[|b|..])
    ensures Flatten(Infix(left, t.kind, right)) == Words(c[from..])
  {
    assert b[from..] == a[from..] + [t];
    assert Words([t]) == Words([]) + [WordOf(t)];
    WordsConcat(a[from..], [t]);
    WordsSince(a[..from], b, c);
  }

  /** One round of the `parseInfix` loop keeps the shape of the tree and its words. */
  lemma TailStep(src: string, level: Level, left: Expression, st: PState, from: nat)
    requires Ready(src, st) && level != Prefixed && st.current.value.kind in Ops(level)
    requires Shaped(left, level) && from <= |st.trail|
    requires !st.panic ==> Flatten(left) == Words(st.trail[from..])
    requires var st1 := Advance(src, st);
      var (right, st2) := OperandOf(src, level, st1);
      && Step(src, st1, st2) && Shaped(right, Next(level))
      && (!st2.panic ==> Flatten(right) == Words(st2.trail[|st1.trail|..]))
    ensures var st1 := Advance(src, st);
      var (right, st2) := OperandOf(src, level, st1);
      var e := Infix(left, st.current.value.kind, right);
      && Step(src, st, st2) && Shaped(e, level) && from <= |st2.trail|
      && (!st2.panic ==> Flatten(e) == Words(st2.trail[from..]))
  {
    var t := st.current.value;
    OperatorNotLeaf(level, t);
    var st1 := Advance(src, st);
    AdvanceStep(src, st);
    var (right, st2) := OperandOf(src, level, st1);
    StepTrans(src, st, st1, st2);
    if !st2.panic {
      JoinWords(left, t, right, st.trail, st1.trail, st2.trail, from);
    }
  }

  /** One round of the `parseInfix` loop consumes input and leaves the rest of the loop to run. */
  lemma TailUnfold(src: string, level: Level, left: Expression, st: PState)
    requires Ready(src, st) && level != Prefixed && st.current.value.kind in Ops(level)
    ensures var st1 := Advance(src, st);
      var (right, st2) := OperandOf(src, level, st1);
      && Progress(src, st2) <= Progress(src, st1) < Progress(src, st)
      && InfixTail(src, level, left, st) == InfixTail(src, level, Infix(left, st.current.value.kind, right), st2)
  {
    OperatorNotEof(level, st.current.value.kind);
  }

  /**
   * The loop of `parseInfix`: given a tree of the level whose words are those consumed since
   * `from`, each further operator makes it the left operand, so the result is again a tree of
   * the level whose words are those consumed since `from`.
   */
  lemma {:induction false} TailFacts(src: string, level: Level, left: Expression, st: PState, from: nat)
    requires Ready(src, st) && level != Prefixed
    requires Shaped(left, level) && from <= |st.trail|
    requires !st.panic ==> Flatten(left) == Words(st.trail[from..])
    ensures var (e, r) := InfixTail(src, level, left, st);
      && Step(src, st, r) && Shaped(e, level)
      && (!r.panic ==> Flatten(e) == Words(r.trail[from..]))
    decreases Progress(src, st), Rank(level), 0
  {
    if st.current.value.kind in Ops(level) {
      var st1 := Advance(src, st);
      TailUnfold(src, level, left, st);
      OperandFacts(src, level, st1);
      TailStep(src, level, left, st, from);
      var next := OperandOf(src, level, st1);
      var e := Infix(left, st.current.value.kind, next.0);
      TailFacts(src, level, e, next.1, from);
      StepTrans(src, st, next.1, InfixTail(src, level, e, next.1).1);
    }
  }

  // ---------------------------------------------------------------- statements

  /** The words of a statement: `print`, if it is a print statement, the expression, then `;`. */
  ghost function StatementWords(s: Statement): seq<Word>
  {
    (if s.PrintStmt? then [Op(Print)] else []) + Flatten(s.expression) + [Op(Semicolon)]
  }

  /** The words of a series of statements, one after the other. */
  ghost function ModuleWords(ss: seq<Statement>): seq<Word>
  {
    if ss == [] then [] else StatementWords(ss[0]) + ModuleWords(ss[1..])
  }

  /** An expression, then `;`: what the two statement parsers have in common. */
  lemma TerminatedFacts(src: string, st: PState, message: string)
    requires Ready(src, st)
    ensures var x := ExpressionOf(src, st);
      var r := Expect(src, x.1, Semicolon, message);
      && Step(src, st, r)
      && (!r.panic ==> Shaped(x.0, Equality) && Words(r.trail[|st.trail|..]) == Flatten(x.0) + [Op(Semicolon)])
  {
    var x := ExpressionOf(src, st);
    InfixFacts(src, Equality, st);
    var r := Expect(src, x.1, Semicolon, message);
    ExpectFacts(src, x.1, Semicolon, message);
    StepTrans(src, st, x.1, r);
    if !r.panic {
      AppendWord(st.trail, x.1.trail, x.1.current.value);
    }
  }

  /** Consuming one more token adds its word to the words consumed since `a`. */
  lemma AppendWord(a: seq<Token>, b: seq<Token>, t: Token)
    requires a <= b
    ensures Words((b + [t])[|a|..]) == Words(b[|a|..]) + [WordOf(t)]
  {
    assert (b + [t])[|a|..] == b[|a|..] + [t];
  }

  /** `parsePrintStatement`, after the `print` keyword has been consumed. */
  lemma PrintStatementFacts(src: string, st: PState)
    requires Ready(src, st)
    ensures var r := PrintStatementOf(src, st);
      && Step(src, st, r.1) && r.0.PrintStmt?
      && (!r.1.panic ==> Shaped(r.0.expression, Equality) && Words(r.1.trail[|st.trail|..]) == Flatten(r.0.expression) + [Op(Semicolon)])
  {
    TerminatedFacts(src, st, "Expected ';' after value.");
  }

  lemma ExpressionStatementFacts(src: string, st: PState)
    requires Ready(src, st)
    ensures var r := ExpressionStatementOf(src, st);
      && Step(src, st, r.1) && r.0.ExpressionStmt?
      && (!r.1.panic ==> Shaped(r.0.expression, Equality) && Words(r.1.trail[|st.trail|..]) == StatementWords(r.0))
  {
    TerminatedFacts(src, st, "Expected ';' after expression.");
    ExpressionStatementWords(ExpressionStatementOf(src, st).0.expression);
  }

  lemma ExpressionStatementWords(e: Expression)
    ensures StatementWords(ExpressionStmt(e)) == Flatten(e) + [Op(Semicolon)]
  {
    AppendEmpty([], Flatten(e));
  }

  /**
   * A statement parsed without panicking is a tree of the equality level, and its words are
   * exactly the words of the tokens consumed for it, the closing `;` included.
   */
  lemma StatementFacts(src: string, st: PState)
    requires Ready(src, st)
    ensures var r := StatementOf(src, st);
      && Step(src, st, r.1)
      && (!r.1.panic ==> Shaped(r.0.expression, Equality) && Words(r.1.trail[|st.trail|..]) == StatementWords(r.0))
  {
    if st.current.value.kind == Print {
      PrintKeywordFacts(src, st);
    } else {
      ExpressionStatementFacts(src, st);
    }
  }

  /** The `print` branch of `StatementFacts`: the keyword's word comes first. */
  lemma PrintKeywordFacts(src: string, st: PState)
    requires Ready(src, st) && st.current.value.kind == Print
    ensures var r := PrintStatementOf(src, Advance(src, st));
      && Step(src, st, r.1)
      && (!r.1.panic ==> Shaped(r.0.expression, Equality) && Words(r.1.trail[|st.trail|..]) == StatementWords(r.0))
  {
    var st1 := Advance(src, st);
    AdvanceWord(src, st);
    PrintStatementFacts(src, st1);
    var r := PrintStatementOf(src, st1);
    StepTrans(src, st, st1, r.1);
    if !r.1.panic {
      WordsSince(st.trail, st1.trail, r.1.trail);
    }
  }

  /** Where `synchronize` may stop: at end of input, after a `;`, or before a statement keyword. */
  ghost predicate Boundary(st: PState)
    requires st.current.Some? && st.previous.Some?
  {
    AtEof(st) || st.previous.value.kind == Semicolon || st.current.value.kind in StatementStarts
  }

  /** The loop of `synchronize` ends at a boundary, having only consumed tokens and added issues. */
  lemma {:induction false} SkipGrows(src: string, st: PState)
    requires Ready(src, st) && st.previous.Some?
    ensures var r := SkipToBoundary(src, st);
      Grows(st, r) && Boundary(r) && (r.trail == st.trail <==> Boundary(st))
    decreases Progress(src, st)
  {
    if !Boundary(st) {
      var st1 := Advance(src, st);
      AdvanceGrows(src, st);
      SkipGrows(src, st1);
      assert SkipToBoundary(src, st) == SkipToBoundary(src, st1);
      GrowsTrans(st, st1, SkipToBoundary(src, st1));
    }
  }

  /** The tokens the loop of `synchronize` skips. */
  ghost function Skipped(src: string, st: PState): seq<Token>
    requires Ready(src, st) && st.previous.Some?
  {
    SkipGrows(src, st);
    SkipToBoundary(src, st).trail[|st.trail|..]
  }

  /** Tokens `synchronize` may skip: no end-of-input, no statement keyword, and a `;` only last. */
  ghost predicate Skippable(ts: seq<Token>)
  {
    && (forall k | 0 <= k < |ts| :: ts[k].kind != Eof && ts[k].kind !in StatementStarts)
    && (forall k | 0 <= k < |ts| - 1 :: ts[k].kind != Semicolon)
  }

  lemma SkippableCons(t: Token, rest: seq<Token>)
    requires t.kind != Eof && t.kind !in StatementStarts && (rest != [] ==> t.kind != Semicolon)
    requires Skippable(rest)
    ensures Skippable([t] + rest)
  {
  }

  lemma SliceStep(a: seq<Token>, t: Token, c: seq<Token>)
    requires a + [t] <= c
    ensures c[|a|..] == [t] + c[|a| + 1..]
  {
  }

  /** The loop of `synchronize` stops at the first boundary. */
  lemma {:induction false} SkipFirstBoundary(src: string, st: PState)
    requires Ready(src, st) && st.previous.Some?
    ensures Skippable(Skipped(src, st))
    decreases Progress(src, st)
  {
    if !Boundary(st) {
      var t := st.current.value;
      var st1 := Advance(src, st);
      AdvanceGrows(src, st);
      SkipGrows(src, st1);
      SkipFirstBoundary(src, st1);
      var r := SkipToBoundary(src, st1);
      assert SkipToBoundary(src, st) == r;
      SliceStep(st.trail, t, r.trail);
      SkippableCons(t, Skipped(src, st1));
    } else {
      assert Skipped(src, st) == [];
    }
  }

  /** The state after one round of the loop of `parseModule`: a statement, then `synchronize` if it panicked. */
  ghost function AfterRound(src: string, st: PState): (r: PState)
    requires Ready(src, st)
    ensures Ready(src, r)
  {
    var x := StatementOf(src, st);
    if x.1.panic then Synchronized(src, x.1) else x.1
  }

  /**
   * One round of the loop of `parseModule` consumes input; when it adds no issue, it did not
   * panic, and the statement has the statement facts.
   */
  lemma RoundFacts(src: string, st: PState)
    requires Ready(src, st) && !AtEof(st)
    ensures var s := StatementOf(src, st).0;
      var r := AfterRound(src, st);
      && st.issues <= r.issues && st.trail <= r.trail && Progress(src, r) < Progress(src, st)
      && (Follows(src, st) && !st.panic && r.issues == st.issues ==>
            && Follows(src, r) && !r.panic
            && Shaped(s.expression, Equality) && Words(r.trail[|st.trail|..]) == StatementWords(s))
  {
    var x := StatementOf(src, st);
    StatementFacts(src, st);
    if x.1.panic {
      SkipGrows(src, x.1.(panic := false));
    }
  }

  lemma RoundUnfold(src: string, st: PState, done: seq<Statement>)
    requires Ready(src, st) && !AtEof(st)
    ensures StatementsFrom(src, st, done) == StatementsFrom(src, AfterRound(src, st), done + [StatementOf(src, st).0])
  {
  }

  /** Every statement is an equality-level tree. */
  ghost predicate AllShaped(ss: seq<Statement>)
  {
    forall k | 0 <= k < |ss| :: Shaped(ss[k].expression, Equality)
  }

  lemma Squeeze<T>(a: seq<T>, b: seq<T>, c: seq<T>)
    requires a <= b <= c && a == c
    ensures b == a
  {
  }

  /** Once the statements collected so far and one more are a prefix, the rest starts with that one. */
  lemma PeelStatement(ss: seq<Statement>, done: seq<Statement>, s: Statement)
    requires done + [s] <= ss
    ensures ss[|done|..] == [s] + ss[|done| + 1..]
  {
  }

  lemma StatementsCons(s: Statement, rest: seq<Statement>)
    requires Shaped(s.expression, Equality) && AllShaped(rest)
    ensures AllShaped([s] + rest) && ModuleWords([s] + rest) == StatementWords(s) + ModuleWords(rest)
  {
    assert ([s] + rest)[1..] == rest;
  }

  /** The loop of `parseModule` only adds issues, consumes tokens and collects statements. */
  lemma {:induction false} StatementsGrow(src: string, st: PState, done: seq<Statement>)
    requires Ready(src, st)
    ensures var r := StatementsFrom(src, st, done);
      st.issues <= r.1.issues && st.trail <= r.1.trail && done <= r.0
    decreases Progress(src, st)
  {
    if !AtEof(st) {
      var s := StatementOf(src, st).0;
      var st2 := AfterRound(src, st);
      RoundFacts(src, st);
      RoundUnfold(src, st, done);
      StatementsGrow(src, st2, done + [s]);
    }
  }

  /**
   * What the loop of `parseModule` promises from `st`, having collected `done`, about its
   * result `r`: when it adds no issue, it ends without panicking, every statement it collects
   * is an equality-level tree, and their words are the words consumed.
   */
  ghost predicate LoopFacts(src: string, st: PState, done: seq<Statement>, r: (seq<Statement>, PState))
  {
    && done <= r.0 && st.trail <= r.1.trail
    && (Follows(src, st) && !st.panic && r.1.issues == st.issues ==>
          && Follows(src, r.1) && !r.1.panic && AllShaped(r.0[|done|..])
          && Words(r.1.trail[|st.trail|..]) == ModuleWords(r.0[|done|..]))
  }

  /** One round of the loop, given what the rest of the loop promises. */
  lemma StatementsStep(src: string, st: PState, done: seq<Statement>)
    requires Ready(src, st) && !AtEof(st)
    requires var s := StatementOf(src, st).0;
      var st2 := AfterRound(src, st);
      LoopFacts(src, st2, done + [s], StatementsFrom(src, st2, done + [s]))
    ensures LoopFacts(src, st, done, StatementsFrom(src, st, done))
  {
    var r := StatementsFrom(src, st, done);
    var s := StatementOf(src, st).0;
    var st2 := AfterRound(src, st);
    RoundFacts(src, st);
    RoundUnfold(src, st, done);
    StatementsGrow(src, st2, done + [s]);
    if Follows(src, st) && !st.panic && r.1.issues == st.issues {
      Squeeze(st.issues, st2.issues, r.1.issues);
      WordsSince(st.trail, st2.trail, r.1.trail);
      PeelStatement(r.0, done, s);
      StatementsCons(s, r.0[|done| + 1..]);
    }
  }

  lemma {:induction false} StatementsFacts(src: string, st: PState, done: seq<Statement>)
    requires Ready(src, st)
    ensures LoopFacts(src, st, done, StatementsFrom(src, st, done))
    decreases Progress(src, st)
  {
    if AtEof(st) {
      var r := StatementsFrom(src, st, done);
      assert r.0[|done|..] == [];
    } else {
      var s := StatementOf(src, st).0;
      var st2 := AfterRound(src, st);
      RoundFacts(src, st);
      StatementsFacts(src, st2, done + [s]);
      StatementsStep(src, st, done);
    }
  }

  /**
   * The parser's main promise: an accepted text is a series of statements, each an
   * equality-level tree, whose words in order are exactly the words of the text's tokens.
   * So the tree shapes give the precedence and associativity, and no token is dropped,
   * repeated or reordered.
   */
  lemma AcceptedParse(src: string, program: Module)
    requires Parse(src) == Accepted(program)
    ensures AllShaped(program.statements)
    ensures ModuleWords(program.statements) == Words(TokenStream(src, 0, 1))
  {
    FinalConsumeSilent(src, Initial([]));
    CleanModule(src);
  }

  /** The statements loop of a fresh parser, when it reports nothing, collects the whole token stream. */
  lemma CleanModule(src: string)
    ensures var x := StatementsFrom(src, Advance(src, Initial([])), []);
      |x.1.issues| == 0 ==> AllShaped(x.0) && ModuleWords(x.0) == Words(TokenStream(src, 0, 1))
  {
    var st1 := Advance(src, Initial([]));
    var x := StatementsFrom(src, st1, []);
    StatementsGrow(src, st1, []);
    StartFollows(src);
    StatementsFacts(src, st1, []);
    assert x.0[0..] == x.0;
    assert x.1.trail[0..] == x.1.trail;
  }

  lemma AppendEmpty<T>(a: seq<T>, b: seq<T>)
    requires a == []
    ensures a + b == b
  {
  }

  /** The first `consume` of `parseModule`: when it reports nothing, the parser follows the scan. */
  lemma StartFollows(src: string)
    ensures var st1 := Advance(src, Initial([]));
      st1.issues == [] ==> Follows(src, st1) && !st1.panic && st1.trail == []
  {
    var st0 := Initial([]);
    var st := PState(0, 1, None, None, false, [], []);
    assert st0.(previous := st0.current, trail := st0.trail + Consumed(st0.current)) == st;
    assert Advance(src, st0) == Pull(src, st);
    AppendEmpty(st.trail, TokenStream(src, 0, 1));
    PullGrows(src, st);
    PullFollows(src, st);
  }

  /** Once the current token is end-of-input, the lexer's cursor is at the end of the text. */
  ghost predicate Settled(src: string, st: PState)
  {
    AtEof(st) ==> st.pos == |src|
  }

  lemma {:induction false} PullSettles(src: string, st: PState)
    requires st.pos <= |src|
    ensures Settled(src, Pull(src, st))
    decreases |src| - st.pos
  {
    var sc := ScanAt(src, st.pos, st.line);
    ScanAtCovers(src, st.pos, st.line);
    if sc.token.kind == Error {
      var scanned := st.(pos := sc.next, line := sc.line, current := Some(sc.token));
      PullSettles(src, Report(scanned, sc.token.lexeme, None));
    }
  }

  lemma ExpectSettles(src: string, st: PState, kind: TokenKind, message: string)
    requires st.pos <= |src| && st.current.Some?
    ensures Settled(src, Expect(src, st, kind, message))
  {
    PullSettles(src, st.(previous := st.current, trail := st.trail + Consumed(st.current)));
  }

  lemma StatementSettles(src: string, st: PState)
    requires Ready(src, st)
    ensures Settled(src, StatementOf(src, st).1)
  {
    if st.current.value.kind == Print {
      var st1 := Advance(src, st);
      ExpectSettles(src, ExpressionOf(src, st1).1, Semicolon, "Expected ';' after value.");
    } else {
      ExpectSettles(src, ExpressionOf(src, st).1, Semicolon, "Expected ';' after expression.");
    }
  }

  lemma {:induction false} SkipSettles(src: string, st: PState)
    requires Ready(src, st) && st.previous.Some? && Settled(src, st)
    ensures Settled(src, SkipToBoundary(src, st))
    decreases Progress(src, st)
  {
    if !AtEof(st) && st.previous.value.kind != Semicolon && st.current.value.kind !in StatementStarts {
      var st1 := Advance(src, st);
      PullSettles(src, st.(previous := st.current, trail := st.trail + Consumed(st.current)));
      SkipSettles(src, st1);
    }
  }

  lemma {:induction false} StatementsSettle(src: string, st: PState, done: seq<Statement>)
    requires Ready(src, st) && Settled(src, st)
    ensures Settled(src, StatementsFrom(src, st, done).1)
    decreases Progress(src, st)
  {
    if !AtEof(st) {
      var x := StatementOf(src, st);
      StatementSettles(src, st);
      if x.1.panic {
        SkipSettles(src, x.1.(panic := false));
      }
      RoundUnfold(src, st, done);
      StatementsSettle(src, AfterRound(src, st), done + [x.0]);
    }
  }

  /** Consuming end-of-input at the end of the text reports nothing and stays at end-of-input. */
  lemma EndConsumeSilent(src: string, st: PState)
    requires Ready(src, st) && AtEof(st) && Settled(src, st)
    ensures var r := Expect(src, st, Eof, "Expected end of input.");
      r.issues == st.issues && r.panic == st.panic && AtEof(r)
  {
    var sc := ScanAt(src, st.pos, st.line);
    assert sc.token.kind == Eof;
  }

  /**
   * `parseModule`'s closing `consume(eof, ...)` never reports: the loop only ends at
   * end-of-input, so the module is rejected exactly when the statements loop reported an issue.
   */
  lemma FinalConsumeSilent(src: string, st: PState)
    requires st.pos <= |src|
    ensures var x := StatementsFrom(src, Advance(src, st), []);
      var r := ModuleOf(src, st);
      && r.1.issues == x.1.issues
      && (r.0.Rejected? <==> |x.1.issues| != 0)
      && (r.0.Accepted? ==> r.0.program == Module(x.0))
  {
    var st1 := Advance(src, st);
    PullSettles(src, st.(previous := st.current, trail := st.trail + Consumed(st.current)));
    StatementsSettle(src, st1, []);
    EndConsumeSilent(src, StatementsFrom(src, st1, []).1);
  }
}
