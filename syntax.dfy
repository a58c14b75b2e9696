/** The expression tree built by the parser and reduced by the evaluator. */
module Syntax {
  import opened Chars
  import opened Tokens

  datatype Ast =
    | Number(token: Token, value: int)
    | UnaryOperator(op: Token, child: Ast)
    | BinaryOperator(left: Ast, op: Token, right: Ast)

  /** The operator kinds a binary node may carry. */
  predicate IsBinaryKind(k: Kind) {
    k == Plus || k == Minus || k == Star || k == Slash
  }

  /** The trees on which the evaluator never reaches an `unreachable!()` arm: unary
      nodes carry Minus and binary nodes carry one of the four arithmetic operators. */
  predicate WellFormed(e: Ast) {
    match e
    case Number(_, _) => true
    case UnaryOperator(op, child) => op.kind == Minus && WellFormed(child)
    case BinaryOperator(left, op, right) => IsBinaryKind(op.kind) && WellFormed(left) && WellFormed(right)
  }

  /** The trees the parser builds from scanner tokens: well-formed, every token as the
      scanner spells it, and every number the decimal value of its lexeme. */
  predicate Canonical(e: Ast) {
    match e
    case Number(t, v) => t.kind == Integer && CanonicalToken(t) && v == DecimalValue(t.lexeme)
    case UnaryOperator(op, child) => op == Token(Minus, "-") && Canonical(child)
    case BinaryOperator(left, op, right) =>
      IsBinaryKind(op.kind) && CanonicalToken(op) && Canonical(left) && Canonical(right)
  }

  /** Everything the parser builds is within the evaluator's domain. */
  lemma {:induction false} CanonicalIsWellFormed(e: Ast)
    requires Canonical(e)
    ensures WellFormed(e)
  {
    match e
    case Number(_, _) =>
    case UnaryOperator(_, child) => CanonicalIsWellFormed(child);
    case BinaryOperator(left, _, right) =>
      CanonicalIsWellFormed(left);
      CanonicalIsWellFormed(right);
  }
}
