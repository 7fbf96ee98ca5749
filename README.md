# A verified model of a small language front end

This project models the front end of a small scripting language, written in TypeScript:

- **Lexer.** A pull-based scanner. Each `scanToken` call skips blanks, newlines and `//`
  comments, then returns one token: punctuation, a one- or two-character operator, a
  number, a string, an identifier or keyword, an error token carrying a message, or
  end-of-input, which repeats. The lexer is modelled with the two defects listed under
  "## Findings" corrected: a `//` comment is skipped together with the newline after it,
  and only the keyword table's own entries are keywords. Each defect's behaviour as written
  is modelled and exhibited separately.
- **Parser.** A recursive-descent parser for `print` statements and expression statements.
  Its expression grammar runs equality, comparison, term, factor, unary and primary. Every
  binary level shares one left-associative infix loop. Panic mode reports only the first
  error of a statement, and `synchronize` skips to the next statement boundary.
- **Reporters.** `JsonReporter` is an append-only list of issues. `PrettyReporter` renders
  `[line N] Error at 'x': message` lines.
- **Data.** The token kinds and token record, the syntax tree, and the character classes.
- **AST printer.** It writes trees as S-expressions.

## How the model is built

The lexer, the parser and the reporters update their fields in place, so they are Dafny
classes: `Lexing.Lexer`, `Parsing.Parser`, `Reporting.JsonReporter` and
`Reporting.PrettyReporter`. Their loops carry invariants.

Each method is proved equal to a pure function:

- the lexer's methods to the functions of module `Scanning`;
- the parser's methods to the functions over the state record `ParseModel.PState`.

What the source promises is proved about those functions, in modules `ScanningLemmas` and
`ParseLemmas`.

The parser's central results:

- **Bookkeeping.** Every parse step only consumes tokens and appends issues (`Step`,
  `Grows`). While no error has occurred, the tokens consumed, then the current token, then
  the rest of the scan, make up the whole token stream (`Follows`).
- **Trees.** A parse that reports no issue builds, for every statement, a tree of the
  equality level of the grammar (`Grammar.Shaped`). Reading its words left to right gives
  exactly the words of the tokens consumed. So an accepted text's statements, flattened,
  are its token stream (`ParseLemmas.AcceptedParse`). The tree shapes encode precedence and
  left associativity, and no token is dropped, duplicated or reordered.

The AST printer is pure functions. Its partner is a reader of the printed notation:
reading a printed tree gives the tree back, with its numbers in canonical spelling.

Modules:

| Module | Contents |
|---|---|
| `Wrappers` | `Option` |
| `Tokens` | kinds and tokens |
| `Chars` | character classes |
| `Scanning`, `ScanningLemmas`, `Lexing` | the lexer |
| `Reporting` | the reporters |
| `Ast` | the syntax tree |
| `Grammar` | precedence levels, tree shapes and words |
| `ParseModel`, `ParseLemmas`, `Parsing` | the parser |
| `AstPrinter` | the printer |

## Model

| member | source | states |
|---|---|---|
| Tokens.KindGroups | src/lexer/token.ts:1-50 | every kind is one of the 40 enum members, in exactly one group: 11 single-character, 8 one-or-two-character, 3 literals, 16 keywords, error, eof |
| Tokens.KindNameRoundTrip | src/lexer/token.ts:1-50 | each kind's string value is its member name, and looking that name up gives the kind back |
| Tokens.KindNameInjective | src/lexer/token.ts:1-50 | two kinds have the same string value only if they are the same kind |
| Chars.DigitIsDigitChar | src/lexer/chars.ts:54-56 | `isDigit` accepts exactly the ten characters `0` to `9` |
| Chars.AlphaIsLetterOrUnderscore | src/lexer/chars.ts:62-68 | `isAlpha` accepts exactly the 52 ASCII letters and `_` |
| Chars.DigitIsNotAlpha | src/lexer/chars.ts:54-76 | no character is both a digit and alphabetic; `isAlphanumeric` accepts letters, `_` and digits |
| Lexing.Lexer.constructor | src/lexer/lexer.ts:36-41 | a new lexer is at position 0 on line 1, with the whole token stream still ahead |
| Lexing.Lexer.ScanToken | src/lexer/lexer.ts:46-107 | the token, the new cursor and the new line are those of one scan from the old cursor, with the comment skip and keyword lookup corrected as under Findings; the returned tokens, followed by the stream still to come, remain the source's whole token stream |
| Lexing.Lexer.ScanLexeme | src/lexer/lexer.ts:49-106 | the end-of-input check and the dispatch on the first character give the classification `Scanning.Classify` defines |
| Lexing.Lexer.MakeToken | src/lexer/lexer.ts:115-123 | the token's lexeme is the source text from `start` to the cursor, and its length is that distance |
| Lexing.Lexer.MakeErrorToken | src/lexer/lexer.ts:129-138 | an error token spans from `start` to the cursor but carries the message as its lexeme |
| Lexing.Lexer.MakeString | src/lexer/lexer.ts:144-158 | scans to the closing quote, counting newlines, and gives "Unterminated string" at the end of the text |
| Lexing.Lexer.ScanStringBody | src/lexer/lexer.ts:146-150 | the loop stops at the first double quote or at the end of the text, and the line counter grows by the newlines passed over |
| Lexing.Lexer.MakeNumber | src/lexer/lexer.ts:164-178 | scans digits, then a `.` and digits only when a digit follows the `.` |
| Lexing.Lexer.MakeIdentifierOrKeyword | src/lexer/lexer.ts:185-197 | scans letters, `_` and digits, and the kind is the keyword table's entry for that text, else identifier |
| Lexing.Lexer.Peek | src/lexer/lexer.ts:213-215 | a character exactly when the cursor is inside the text, and then the character under the cursor |
| Lexing.Lexer.PeekNext | src/lexer/lexer.ts:220-223 | the character after the cursor exactly when there is one |
| Lexing.Lexer.Advance | src/lexer/lexer.ts:228-231 | returns the character under the cursor and moves one past it; it is only called inside the text |
| Lexing.Lexer.Match | src/lexer/lexer.ts:238-244 | consumes one character exactly when it is the expected one |
| Lexing.Lexer.SkipWhitespace | src/lexer/lexer.ts:249-283 | skips blanks, newlines (counting them) and `//` comments; the corrected behaviour is described under Findings |
| Scanning.WordKind | src/lexer/lexer.ts:192-194 | a word is an identifier exactly when the keyword table has no entry for it |
| Scanning.WordKindAsWritten | src/lexer/lexer.ts:3-18 | the lookup as written yields an inherited member, not a kind, exactly for the names every object inherits that are not keywords |
| ScanningLemmas.SkipTriviaStops | src/lexer/lexer.ts:249-283 | skipping stops at the end or at a character that is not trivia, and the line grows by the newlines passed |
| ScanningLemmas.CommentThenNewlineAsWritten | src/lexer/lexer.ts:267-281 | as written, a comment followed by a newline leaves the newline, which the next scan turns into "Unexpected character"; the corrected skip goes past it and counts it |
| ScanningLemmas.OperatorToken | src/lexer/lexer.ts:85-100 | `!`, `=`, `<`, `>` give the two-character kind exactly when `=` follows, else the one-character kind; the lexeme is the operator's spelling |
| ScanningLemmas.SingleCharToken | src/lexer/lexer.ts:61-83 | each single-character token is exactly its character, and the cursor moves by one |
| ScanningLemmas.KeywordSpelling | src/lexer/lexer.ts:3-18 | every table entry maps a keyword's own spelling to that keyword; `and` and `or` are not entries |
| ScanningLemmas.KeywordsComplete | src/lexer/lexer.ts:3-18 | every keyword except `and` and `or` is in the table under its spelling |
| ScanningLemmas.WordToken | src/lexer/lexer.ts:185-197 | an identifier or keyword is a maximal run of letters, `_` and digits, and its kind is the table's exact-match entry, else identifier |
| ScanningLemmas.NumberToken | src/lexer/lexer.ts:164-178 | a number is one or more digits at its front, and its lexeme is the text it covers |
| ScanningLemmas.NumberFraction | src/lexer/lexer.ts:168-175 | a number has a fraction exactly when a digit follows the `.` after its digits, and it stops where its digits stop |
| ScanningLemmas.StringToken | src/lexer/lexer.ts:144-158 | a string lexeme runs from quote to quote, both included, with no quote between; the line grows by the newlines inside; without a closing quote it is an error running to the end |
| ScanningLemmas.UnterminatedString | src/lexer/lexer.ts:146-154 | a string is unterminated exactly when no quote follows the opening one |
| ScanningLemmas.ClassifyDispatch | src/lexer/lexer.ts:55-59 | a letter starts a word, a digit a number, a quote a string |
| ScanningLemmas.UnexpectedToken | src/lexer/lexer.ts:61-106 | "Unexpected character" comes exactly for a character that starts no token, and it covers that one character |
| ScanningLemmas.ErrorMessages | src/lexer/lexer.ts:129-154 | an error token carries "Unexpected character" or "Unterminated string" |
| ScanningLemmas.ClassifyCovers | src/lexer/lexer.ts:46-123 | the token starts where the scan starts and ends at the cursor; end-of-input comes exactly at the end of the text, with an empty lexeme; every other scan consumes input; a non-error lexeme is the text covered |
| ScanningLemmas.ScanAtCovers | src/lexer/lexer.ts:46-55 | a scan's token starts where trivia skipping stops |
| ScanningLemmas.StreamStep | src/lexer/lexer.ts:46-53 | the token stream is the first scan's token followed by the stream from where that scan stops |
| ScanningLemmas.ResumeStep | src/lexer/lexer.ts:46-53 | the tokens returned so far, followed by the stream still to come, stay the whole stream after one more scan |
| ScanningLemmas.EndOfInputRepeats | src/lexer/lexer.ts:49-53 | once a scan returns end-of-input, scanning again returns the same token and moves nothing |
| ScanningLemmas.StreamInOrder | src/lexer/lexer.ts:115-123 | the tokens of the stream lie in order inside the text, without overlap, and each non-error lexeme is the text it covers |
| ScanningLemmas.InheritedWordAsWritten | src/lexer/lexer.ts:192-194 | as written, the identifier `constructor` gets an inherited member instead of a kind; corrected, it is an identifier |
| Reporting.JsonReporter.constructor | src/parser/reporter.ts:23-25 | a new reporter has no issues and `hadError` is false |
| Reporting.JsonReporter.Error | src/parser/reporter.ts:27-37 | appends exactly one issue of severity error, keeps the earlier ones, and `hadError` holds |
| Reporting.JsonReporter.Warn | src/parser/reporter.ts:39-46 | appends exactly one issue of severity warning, and `hadError` holds, since warnings count too |
| Reporting.JsonReporter.GetIssues | src/parser/reporter.ts:48-50 | returns the issues in the order reported |
| Reporting.NatToStringRoundTrip | src/parser/reporter.ts:65 | the decimal rendering of a line number reads back as that number |
| Reporting.LineLabelRead | src/parser/reporter.ts:65 | the `[line N]` label reads back as N, whatever follows it |
| Reporting.ErrorTextParts | src/parser/reporter.ts:64-76 | an error line names the token's line and ends with the message; for a scanner error it has no "at" part |
| Reporting.WarningTextParts | src/parser/reporter.ts:80-86 | a warning line names the token's line and ends with the message; at end of input it says "at end of file" |
| Reporting.PrettyReporter.constructor | src/parser/reporter.ts:60-62 | starts without an error and with nothing written |
| Reporting.PrettyReporter.Error | src/parser/reporter.ts:64-78 | writes exactly the error line for the message and token, and sets the flag |
| Reporting.PrettyReporter.Warn | src/parser/reporter.ts:80-88 | writes exactly the warning line for the message and token, and sets the flag |
| Parsing.FirstIndex | src/parser/parser.ts:246-253 | finds the first position of the kind in the list, and reaches the end exactly when the kind is not in it |
| Parsing.Parser.constructor | src/parser/parser.ts:55-59 | a new parser has no previous or current token and is not in panic mode |
| Parsing.Parser.ParseModule | src/parser/parser.ts:61-83 | the parser ends in the state `ParseModel.ModuleOf` computes; it returns the reporter exactly when issues were reported, and otherwise the module of statements in source order; its tokens come from the corrected lexer |
| Parsing.Parser.ParseDeclaration | src/parser/parser.ts:87-90 | parses a statement |
| Parsing.Parser.ParseStatement | src/parser/parser.ts:92-98 | after `print`, a print statement; otherwise an expression statement |
| Parsing.Parser.ParsePrintStatement | src/parser/parser.ts:100-104 | an expression, then a `;`, else "Expected ';' after value." |
| Parsing.Parser.ParseExpressionStatement | src/parser/parser.ts:106-110 | an expression, then a `;`, else "Expected ';' after expression." |
| Parsing.Parser.ParseExpression | src/parser/parser.ts:116-118 | an equality-level expression |
| Parsing.Parser.ParseInfix | src/parser/parser.ts:193-202 | an operand, then each further operator of the level wraps the tree built so far as its left child |
| Parsing.Parser.ParseOperand | src/parser/parser.ts:120-151 | each binary level's operands are parsed by the next tighter level, and factor's by the unary parser |
| Parsing.Parser.ParseUnary | src/parser/parser.ts:153-160 | `!` and `-` prefix a unary expression, right-recursively; otherwise a primary |
| Parsing.Parser.ParsePrimary | src/parser/parser.ts:162-180 | a literal token becomes its leaf; anything else reports "Expected expression." and gives a null node without consuming |
| Parsing.Parser.Consume | src/parser/parser.ts:215-225 | previous becomes the old current; outside panic mode the first scanner error is reported with its lexeme, and any others are skipped without a report; the new current is not an error |
| Parsing.Parser.Expect | src/parser/parser.ts:215-239 | consumes, then reports the message against the consumed token when its kind is not the expected one |
| Parsing.Parser.Match | src/parser/parser.ts:246-253 | consumes and returns the current token exactly when its kind is in the list; otherwise nothing changes |
| Parsing.Parser.Synchronize | src/parser/parser.ts:259-283 | clears panic mode, then consumes until end of input, a consumed `;` or a statement keyword |
| Parsing.Parser.Error | src/parser/parser.ts:289-300 | does nothing while panicking; otherwise it reports once, against the given token, else the current one, else the previous one, and enters panic mode |
| ParseModel.Pull | src/parser/parser.ts:218-225 | the new current token is not an error, the cursor does not go back, and it moves forward unless the token is end-of-input |
| ParseModel.Advance | src/parser/parser.ts:215-225 | previous becomes the old current; the parser's measure never grows, and falls when the old current was not end-of-input |
| ParseLemmas.ReportGrows | src/parser/parser.ts:289-300 | an error report adds at most one issue, and only outside panic mode; panic mode holds afterwards; no token is consumed |
| ParseLemmas.PullFollows | src/parser/parser.ts:218-225 | when no error is pending, the tokens consumed, then the current token, then the rest of the scan make up the whole token stream |
| ParseLemmas.PullSilentInPanic | src/parser/parser.ts:289-291 | `error` returns at once in panic mode, so the scanning loop of `consume` (lines 220-225) skips every error token and reports nothing |
| ParseLemmas.PullReportsFirstError | src/parser/parser.ts:220-225 | outside panic mode the scanning loop appends exactly one issue, the first scanned token's lexeme against that token, when that token is an error, and none otherwise; panic mode is entered exactly then |
| ParseLemmas.AdvanceStep | src/parser/parser.ts:215-225 | consuming appends exactly the old current token to the tokens consumed |
| ParseLemmas.ExpectFacts | src/parser/parser.ts:229-238 | the typed consume always consumes, and a step that does not panic consumed the expected kind |
| ParseLemmas.PrimaryLeaf | src/parser/parser.ts:162-180 | a literal gives its leaf and consumes it; any other token gives a null node and the report "Expected expression." |
| ParseLemmas.LeafKinds | src/parser/parser.ts:162-180 | exactly `false`, `true`, `null`, numbers and strings are literal leaves, and no leaf is the end-of-input token |
| ParseLemmas.PrimaryFacts | src/parser/parser.ts:162-180 | a primary is a leaf, and without panic it is the leaf of the one token consumed |
| ParseLemmas.UnaryFacts | src/parser/parser.ts:153-160 | a unary expression is a prefix chain over a leaf, and without panic its words are the tokens consumed |
| ParseLemmas.OperandFacts | src/parser/parser.ts:120-151 | an operand is a tree of the next tighter level |
| ParseLemmas.InfixFacts | src/parser/parser.ts:193-202 | a binary level's result has that level's left-associative shape, and without panic its words are the tokens consumed |
| ParseLemmas.TailFacts | src/parser/parser.ts:195-199 | each iteration of the infix loop keeps the tree left-associative at its level, and keeps its words equal to the tokens consumed |
| ParseLemmas.TerminatedFacts | src/parser/parser.ts:100-110 | an expression then `;`: without panic the expression is an equality tree, and the consumed words are its words then `;` |
| ParseLemmas.StatementFacts | src/parser/parser.ts:92-110 | a statement parsed without panic is an equality tree, and its words, `print` and `;` included, are the tokens consumed |
| ParseLemmas.SkipGrows | src/parser/parser.ts:259-283 | synchronizing stops at a boundary, and consumes nothing exactly when it starts at one |
| ParseLemmas.SkipFirstBoundary | src/parser/parser.ts:259-283 | the tokens skipped hold no statement keyword and no end-of-input, and a `;` only as the last one: synchronizing stops at the first boundary |
| ParseLemmas.RoundFacts | src/parser/parser.ts:66-72 | one iteration of the module loop consumes input; when it adds no issue, it leaves panic mode off and its statement has the statement facts |
| ParseLemmas.StatementsGrow | src/parser/parser.ts:66-72 | the module loop only adds issues, consumes tokens and appends statements |
| ParseLemmas.StatementsFacts | src/parser/parser.ts:66-72 | a module loop that adds no issue ends without panic, every statement is an equality tree, and their words in order are the tokens consumed |
| ParseLemmas.EndConsumeSilent | src/parser/parser.ts:74 | once the loop has stopped at the end of the text, `consume(eof, "Expected end of input.")` reports nothing and leaves the parser in the same panic state |
| ParseLemmas.FinalConsumeSilent | src/parser/parser.ts:74-83 | the closing `consume(eof, …)` adds no issue, so the module is rejected exactly when the loop reported something |
| ParseLemmas.CleanModule | src/parser/parser.ts:61-83 | when the statement loop of a module reports no issue, every statement is an equality tree and their words in order are the words of all the text's tokens |
| ParseLemmas.AcceptedParse | src/parser/parser.ts:61-83 | every statement of an accepted text is an equality tree, and the statements' words in order are exactly the words of the text's tokens, as the corrected lexer scans them |
| AstPrinter.NumberTextCanonical | src/parser/debug.ts:18-19 | the rendering of a number literal is a numeral without superfluous zeros |
| AstPrinter.CanonicalFixed | src/parser/debug.ts:18-19 | a numeral in that canonical form renders as itself |
| AstPrinter.NumberTextIdempotent | src/parser/debug.ts:18-19 | rendering a rendered number changes nothing |
| AstPrinter.KindNameIsWord | src/lexer/token.ts:3-49 | every kind's string value is a nonempty run of letters, so an operator's name in the printed text ends at the following space |
| AstPrinter.ReadPrinted | src/parser/debug.ts:6-25 | reading a printed expression gives back the tree, with numbers in canonical spelling, and leaves the text after it |
| AstPrinter.ReadPrintedStatement | src/parser/debug.ts:27-36 | reading a printed statement gives back the statement, with numbers in canonical spelling |

## Left out

- Console output. `PrettyReporter` writes its lines to the error console. The model keeps
  the lines written as a sequence, `written`.
- The pluggable `Reporter` interface. The parser is modelled with the default
  `JsonReporter` only. Dafny traits are not used here, so the parser cannot be given a
  `PrettyReporter`.
- `JsonReporter.getIssues` returns the live array, which a caller could mutate. The model
  returns the sequence as a value, so that aliasing is not captured.
- `Number(lexeme)`. A number node keeps its lexeme instead of an IEEE-754 double.
- AstPrinter.NumberText: models `toString` of a number as dropping superfluous zeros only.
  This is what `toString` does for numerals from 10^-6 up to 10^21 with at most 15
  significant digits. Below 10^-6 `toString` switches to exponent notation (`1e-7` for
  `0.0000001`), and the model keeps the fixed form. Rounding of longer numerals is not
  modelled either.
- The regular expressions behind the lexer's own `isDigit` and `isAlpha`. They are modelled
  by the `chars.ts` predicates, which accept the same single characters.
- Strings are sequences of characters. UTF-16 code units and surrogate pairs are not
  modelled.
- The `default: throw` branches of the printer cannot be reached, because the tree
  datatypes are closed and the matches are exhaustive.
- `src/lexer/debug.ts` (a token-printing loop), `test.ts` (a demo driver) and the tests
  under `tests/` are not part of this model.
- The four binary expression parsers, `parseEquality` to `parseFactor`, become one
  `ParseInfix(level)` plus `ParseOperand(level)`. `Grammar.Ops` lists each level's
  operators in the source's order.
- `match`'s loop over its kinds is the method `Parsing.FirstIndex`.
- Parsing.Parser.Expect: requires a current token, since the source dereferences it.
  Parsing.Parser.Synchronize requires a previous token for the same reason. Both always
  hold where the parser calls them.
- A string node keeps its whole lexeme, quotes included: `substring(0, length)` at
  `parser.ts:172-174`.
- Lexing.Lexer.ScanToken: the class, and every result in `ParseLemmas` built on
  `Scanning.TokenStream`, follow the corrected comment skip and keyword lookup of
  "## Findings". As written, a `//` comment followed by a newline makes `scanToken` return
  an "Unexpected character" token for that newline. So a text such as `1; // c` followed by
  a newline and `2;` is rejected by the program but accepted by the model. Words such as
  `constructor` get an inherited member as their kind. The as-written behaviour is
  modelled only by `Scanning.SkipTriviaAsWritten` and `Scanning.WordKindAsWritten`.
- The parser builds tree nodes with `new NumberExpression(…)`, `new BinaryExpression(…)`
  and the like (`parser.ts:103`, `109`, `157`, `163-179`, `198`). `ast.ts:28-75` declares
  these names only as `interface`s, which do not exist at run time. So the TypeScript
  compiler rejects these calls, and unchecked JavaScript would throw a `ReferenceError`.
  The model builds the node shapes `ast.ts` declares, as datatype variants, in place of
  these `new` calls.
- `lexer.ts` names token kinds in upper case (`TokenType.EOF`), but `token.ts` declares
  them in lower case. The model uses the single set of kinds `token.ts` declares.
- A token's `start` and `length` in the source are measured in characters, with no
  32-bit bound.

## Findings

| source | as written | input that shows it | evidently intended | confidence | as-written member | corrected member |
|---|---|---|---|---|---|---|
| src/lexer/lexer.ts:267-281 | after a `//` comment, the `case "/"` block falls through to `default: return`, so `skipWhitespace` returns in front of the comment's newline; `scanToken` then consumes that newline as a token | `// c` followed by a newline and `1`: the first scan returns an "Unexpected character" error token for the newline, and the line counter stays 1 | the comment case goes on looping, so the newline is skipped and counted like any other | high, not executed | ScanningLemmas.CommentThenNewlineAsWritten | ScanningLemmas.SkipTriviaStops |
| src/lexer/lexer.ts:3-18, 192-194 | `KEYWORDS` is a plain object literal, so `KEYWORDS[lexeme]` finds members inherited from `Object.prototype`, and `?? TokenType.IDENTIFIER` keeps them since they are not nullish | the identifier `constructor` (also `toString`, `valueOf`, …) gets a function as its token type instead of `identifier` | only the table's own entries are keywords, and every other word is an identifier | high, not executed | ScanningLemmas.InheritedWordAsWritten | ScanningLemmas.WordToken |
