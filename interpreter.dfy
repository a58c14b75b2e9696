/** The tree-walking evaluator. */
module Interpreter {
  import opened Tokens
  import opened Syntax

  function Abs(x: int): nat {
    if x < 0 then -x else x
  }

  /** Rust's `/` on `i64`: the quotient rounded toward zero (Dafny's own `/` is
      Euclidean). */
  function Div(a: int, b: int): int
    requires b != 0
  {
    if (a < 0) == (b < 0) then Abs(a) / Abs(b) else -(Abs(a) / Abs(b))
  }

  /** The remainder a truncating division leaves is smaller than the divisor and has
      the sign of the dividend, and the quotient never overshoots the dividend. */
  lemma DivTruncates(a: int, b: int)
    requires b != 0
    ensures Abs(a - Div(a, b) * b) < Abs(b)
    ensures a - Div(a, b) * b == 0 || (a - Div(a, b) * b < 0 <==> a < 0)
    ensures Abs(Div(a, b) * b) <= Abs(a)
  {
    var p, m := DivProduct(a, b);
    SignedRemainder(a, b, Div(a, b) * b, p, m);
  }

  /** The product of the truncated quotient and the divisor is the largest multiple
      of the divisor's magnitude not above the dividend's, signed like the dividend. */
  lemma DivProduct(a: int, b: int) returns (p: int, m: int)
    requires b != 0
    ensures Abs(a) == p + m && 0 <= m < Abs(b) && 0 <= p
    ensures Div(a, b) * b == if a < 0 then -p else p
  {
    var n, d := Abs(a), Abs(b);
    var q0 := n / d;
    EuclideanParts(n, d);
    SignedProduct(q0, d, a < 0, b < 0, Div(a, b), b);
    p, m := q0 * d, n % d;
  }

  /** Dafny's quotient and remainder of naturals. */
  lemma EuclideanParts(n: int, d: int)
    requires 0 <= n && 0 < d
    ensures n == (n / d) * d + n % d && 0 <= n % d < d && 0 <= (n / d) * d
  {
    NonNegativeProduct(n / d, d);
  }

  /** The remainder step of a truncating division, with the product `qb` already known
      to be `p` signed like the dividend. */
  lemma SignedRemainder(a: int, b: int, qb: int, p: int, m: int)
    requires b != 0 && Abs(a) == p + m && 0 <= m < Abs(b) && 0 <= p
    requires qb == if a < 0 then -p else p
    ensures Abs(a - qb) < Abs(b)
    ensures a - qb == 0 || (a - qb < 0 <==> a < 0)
    ensures Abs(qb) <= Abs(a)
  {
  }

  lemma NonNegativeProduct(x: int, y: int)
    requires 0 <= x && 0 <= y
    ensures 0 <= x * y
  {
  }

  /** `u * v` where `u` and `v` are `x` and `y` with signs flipped as given. */
  lemma SignedProduct(x: int, y: int, negateX: bool, negateY: bool, u: int, v: int)
    requires u == if negateX == negateY then x else -x
    requires v == if negateY then -y else y
    ensures u * v == if negateX then -(x * y) else x * y
  {
    if negateY {
      assert (-x) * (-y) == x * y;
      assert x * (-y) == -(x * y);
    } else {
      assert (-x) * y == -(x * y);
    }
  }

  /** Negating the dividend or the divisor negates the truncated quotient (false
      for Euclidean or floor division: -7 / 2 is -4 there, -3 here). */
  lemma DivNegation(a: int, b: int)
    requires b != 0
    ensures Div(-a, b) == -Div(a, b)
    ensures Div(a, -b) == -Div(a, b)
  {
  }

  /** Every division in the tree has a non-zero divisor: the evaluator's own
      precondition, since Rust aborts on division by zero. */
  predicate SafeDivisions(e: Ast)
    requires WellFormed(e)
    decreases e, 0
  {
    match e
    case Number(_, _) => true
    case UnaryOperator(_, child) => SafeDivisions(child)
    case BinaryOperator(left, op, right) =>
      SafeDivisions(left) && SafeDivisions(right) && (op.kind == Slash ==> InterpretNode(right) != 0)
  }

  /** `interpret_node`: a structural recursion over the tree. */
  function InterpretNode(e: Ast): int
    requires WellFormed(e) && SafeDivisions(e)
    decreases e, 1
  {
    match e
    case Number(_, value) => value
    case UnaryOperator(op, child) =>
      (match op.kind
       case Minus => -InterpretNode(child)
       case _ => assert false; 0)
    case BinaryOperator(left, op, right) =>
      Apply(op.kind, InterpretNode(left), InterpretNode(right))
  }

  /** The arithmetic of one binary operator node: `+`, `-` and `*` on integers,
      `/` truncating toward zero. */
  function Apply(k: Kind, x: int, y: int): int
    requires IsBinaryKind(k) && (k == Slash ==> y != 0)
  {
    match k
    case Plus => x + y
    case Minus => x - y
    case Star => x * y
    case Slash => Div(x, y)
  }

  /** A binary node over evaluable children is evaluable exactly when it does not
      divide by zero, and then it applies its operator to the children's values. */
  lemma BinaryValue(left: Ast, op: Token, right: Ast)
    requires IsBinaryKind(op.kind) && WellFormed(left) && WellFormed(right)
    requires SafeDivisions(left) && SafeDivisions(right)
    ensures WellFormed(BinaryOperator(left, op, right))
    ensures SafeDivisions(BinaryOperator(left, op, right)) <==> (op.kind == Slash ==> InterpretNode(right) != 0)
    ensures SafeDivisions(BinaryOperator(left, op, right)) ==>
      InterpretNode(BinaryOperator(left, op, right)) == Apply(op.kind, InterpretNode(left), InterpretNode(right))
  {
  }

  /** `k` unary minus operators in front of `e`. */
  function Negated(k: nat, e: Ast): (n: Ast)
    ensures WellFormed(e) ==> WellFormed(n)
    ensures WellFormed(e) ==> (SafeDivisions(n) <==> SafeDivisions(e))
  {
    if k == 0 then e else UnaryOperator(Token(Minus, "-"), Negated(k - 1, e))
  }

  /** Unary minus nests: an even number of them is the identity, an odd number negates. */
  lemma {:induction false} NegationNests(k: nat, e: Ast)
    requires WellFormed(e) && SafeDivisions(e)
    ensures InterpretNode(Negated(k, e)) == if k % 2 == 0 then InterpretNode(e) else -InterpretNode(e)
  {
    if k > 0 {
      NegationNests(k - 1, e);
    }
  }
}
