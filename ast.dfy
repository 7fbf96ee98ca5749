/**
 * The syntax tree the parser builds: closed sum types for expressions and statements, and a
 * module holding its statements in source order.
 */
module Ast {
  import opened Tokens

  /**
   * An expression. A number keeps the text of its literal and a string keeps its lexeme,
   * quotes included.
   */
  datatype Expression =
    | Infix(left: Expression, operator: TokenKind, right: Expression)
    | Prefix(operator: TokenKind, right: Expression)
    | BoolLit(truth: bool)
    | NullLit
    | NumberLit(literal: string)
    | StringLit(value: string)
  {
    /** A leaf holds no sub-expression. */
    predicate IsLeaf()
    {
      !Infix? && !Prefix?
    }
  }

  datatype Statement =
    | PrintStmt(expression: Expression)
    | ExpressionStmt(expression: Expression)

  datatype Module = Module(statements: seq<Statement>)
}
