/**
 * The expression grammar the parser implements, stated as a predicate on trees, and the
 * words a tree is made of.
 *
 * Precedence runs equality < comparison < term < factor < unary. Each binary level is
 * left-associative: its right operand is a tree of the next level, its left operand a tree
 * of the same level. A tree of a higher level is also a tree of every lower one.
 */
module Grammar {
  import opened Wrappers
  import opened Tokens
  import opened Ast

  datatype Level = Equality | Comparison | Term | Factor | Prefixed

  /** How far a level is from the literals: the prefix level is 0, equality is 4. */
  function Rank(l: Level): nat
  {
    match l
    case Equality => 4
    case Comparison => 3
    case Term => 2
    case Factor => 1
    case Prefixed => 0
  }

  /** The level that binds one step tighter. */
  function Next(l: Level): (n: Level)
    requires l != Prefixed
    ensures Rank(n) + 1 == Rank(l)
  {
    match l
    case Equality => Comparison
    case Comparison => Term
    case Term => Factor
    case Factor => Prefixed
  }

  /** The operators of each level, in the order the parser tries them; at the prefix level, the prefix operators. */
  function Ops(l: Level): seq<TokenKind>
  {
    match l
    case Equality => [BangEqual, EqualEqual]
    case Comparison => [Greater, GreaterEqual, Less, LessEqual]
    case Term => [Minus, Plus]
    case Factor => [Slash, Star]
    case Prefixed => [Bang, Minus]
  }

  /** No operator of any level is end-of-input, so matching one always consumes input. */
  lemma OperatorNotEof(l: Level, k: TokenKind)
    requires k in Ops(l)
    ensures k != Eof
  {
    match l
    case Equality =>
    case Comparison =>
    case Term =>
    case Factor =>
    case Prefixed =>
  }

  /** `e` is a tree the grammar derives at level `l`. */
  predicate Shaped(e: Expression, l: Level)
    decreases e, Rank(l)
  {
    if l == Prefixed then
      e.IsLeaf() || (e.Prefix? && e.operator in Ops(Prefixed) && Shaped(e.right, Prefixed))
    else
      (e.Infix? && e.operator in Ops(l) && Shaped(e.left, l) && Shaped(e.right, Next(l)))
      || Shaped(e, Next(l))
  }

  /** A word of an expression's text: an operator or a literal. */
  datatype Word = Op(kind: TokenKind) | Atom(leaf: Expression)

  /** The words of a tree, left to right. */
  function Flatten(e: Expression): seq<Word>
  {
    match e
    case Infix(left, op, right) => Flatten(left) + [Op(op)] + Flatten(right)
    case Prefix(op, right) => [Op(op)] + Flatten(right)
    case _ => [Atom(e)]
  }

  /** The leaf a literal token stands for: its text for numbers and strings. */
  function Leaf(t: Token): Option<Expression>
  {
    match t.kind
    case False => Some(BoolLit(false))
    case True => Some(BoolLit(true))
    case Null => Some(NullLit)
    case Number => Some(NumberLit(t.lexeme))
    case String => Some(StringLit(t.lexeme))
    case _ => None
  }

  function WordOf(t: Token): Word
  {
    if Leaf(t).Some? then Atom(Leaf(t).value) else Op(t.kind)
  }

  function Words(ts: seq<Token>): (ws: seq<Word>)
    ensures |ws| == |ts|
  {
    if ts == [] then [] else Words(ts[..|ts| - 1]) + [WordOf(ts[|ts| - 1])]
  }
}
