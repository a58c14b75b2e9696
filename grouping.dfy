/** How the grammar groups operators, stated for every input of a given shape rather
    than for one line: unary minus nests to the right, operators of one level fold to
    the left, and `*` `/` bind tighter than `+` `-`. */
module Grouping {
  import opened Chars
  import opened Tokens
  import opened Errors
  import opened Syntax
  import opened Grammar
  import opened Steps
  import opened Interpreter
  import opened Pipeline

  /** A Number node the parser builds evaluates to the decimal value of its digits. */
  lemma NumberValue(digits: string)
    requires IsDigits(digits)
    ensures WellFormed(NumberOf(digits)) && SafeDivisions(NumberOf(digits))
    ensures InterpretNode(NumberOf(digits)) == DecimalValue(digits) as int
  {
  }

  /** `k` minus signs. */
  function Minuses(k: nat): (s: string)
    ensures |s| == k && forall i :: 0 <= i < k ==> s[i] == '-'
  {
    if k == 0 then [] else Minuses(k - 1) + "-"
  }

  /** The states the scanner passes through on `k` minus signs followed by digits:
      a Minus lookahead for each sign, then the number. */
  function MinusState(k: nat, digits: string, i: nat): PState
    requires i <= k
  {
    if i < k then PState(i + 1, OperatorToken(Minus)) else PState(k + |digits|, Token(Integer, digits))
  }

  /** Scanning from position `i` of `k` minus signs and digits yields the `i`-th state. */
  lemma LoadMinuses(s: string, k: nat, digits: string, i: nat)
    requires IsDigits(digits) && s == Minuses(k) + digits && i <= k
    ensures Load(s, i) == Ok(MinusState(k, digits, i))
  {
    if i < k {
      assert s[i] == '-';
      LoadSymbol(s, i, i, Minus);
    } else {
      assert s == Minuses(k) + digits + [];
      LoadDigitsIn(Minuses(k), digits, []);
    }
  }

  /** From its `i`-th token on, a line of `k` minus signs and digits is a factor: the
      number under the remaining `k - i` minus signs. */
  lemma {:induction false} FactorOfMinuses(s: string, k: nat, digits: string, i: nat)
    requires IsDigits(digits) && s == Minuses(k) + digits && i <= k
    ensures Fits(s, MinusState(k, digits, i))
    ensures Factor(s, MinusState(k, digits, i)) == Ok((Negated(k - i, NumberOf(digits)), PState(|s|, Token(Eof, ""))))
    decreases k - i
  {
    var end := PState(|s|, Token(Eof, ""));
    assert Load(s, |s|) == Ok(end);
    if i < k {
      var next := MinusState(k, digits, i + 1);
      LoadMinuses(s, k, digits, i + 1);
      FactorOfMinuses(s, k, digits, i + 1);
      FactorNegate(s, MinusState(k, digits, i), next, Negated(k - i - 1, NumberOf(digits)), end);
    } else {
      FactorNumber(s, MinusState(k, digits, i), end);
    }
  }

  /** `k` leading minus signs nest `k` unary nodes over the number, outermost first. */
  lemma ParseLeadingMinuses(k: nat, digits: string)
    requires IsDigits(digits)
    ensures ParseSource(Minuses(k) + digits) == Ok(Negated(k, NumberOf(digits)))
  {
    var s := Minuses(k) + digits;
    var end := PState(|s|, Token(Eof, ""));
    var first := MinusState(k, digits, 0);
    LoadMinuses(s, k, digits, 0);
    FactorOfMinuses(s, k, digits, 0);
    LoneFactor(s, first, Negated(k, NumberOf(digits)), end);
    WholeParse(s, first, Negated(k, NumberOf(digits)), end);
  }

  /** `k` minus signs over a number evaluate to the number when `k` is even and to its
      negation when `k` is odd. */
  lemma MinusesValue(k: nat, digits: string)
    requires IsDigits(digits)
    ensures WellFormed(Negated(k, NumberOf(digits))) && SafeDivisions(Negated(k, NumberOf(digits)))
    ensures InterpretNode(Negated(k, NumberOf(digits)))
         == if k % 2 == 0 then DecimalValue(digits) as int else -(DecimalValue(digits) as int)
  {
    NumberValue(digits);
    NegationNests(k, NumberOf(digits));
  }

  /** A line of `k` minus signs and a number evaluates to the number when `k` is even
      and to its negation when `k` is odd: `"--5"` is 5 and `"---5"` is -5. */
  lemma LeadingMinuses(k: nat, digits: string)
    requires IsDigits(digits)
    ensures Computable(Minuses(k) + digits)
    ensures Run(Minuses(k) + digits) == Ok(if k % 2 == 0 then DecimalValue(digits) as int else -(DecimalValue(digits) as int))
  {
    ParseLeadingMinuses(k, digits);
    MinusesValue(k, digits);
    RunParsed(Minuses(k) + digits, Negated(k, NumberOf(digits)));
  }

  /** The operators that `term` folds. */
  predicate Multiplicative(k: Kind) {
    k == Star || k == Slash
  }

  /** The operators that `expr` folds. */
  predicate Additive(k: Kind) {
    k == Plus || k == Minus
  }

  /** The tree of `a o1 b o2 c`: grouped to the right only when the second operator
      binds tighter than the first, grouped to the left otherwise. */
  function ThreeOperandTree(a: string, o1: Kind, b: string, o2: Kind, c: string): Ast
    requires IsDigits(a) && IsDigits(b) && IsDigits(c)
    requires IsBinaryKind(o1) && IsBinaryKind(o2)
  {
    var (na, nb, nc) := (NumberOf(a), NumberOf(b), NumberOf(c));
    var (t1, t2) := (OperatorToken(o1), OperatorToken(o2));
    if Additive(o1) && Multiplicative(o2) then BinaryOperator(na, t1, BinaryOperator(nb, t2, nc))
    else BinaryOperator(BinaryOperator(na, t1, nb), t2, nc)
  }

  /** The first operand of `a o1 b o2 c`, written without spaces, scans as one number. */
  lemma FirstOperandLoads(s: string, a: string, o1: Kind, b: string, o2: Kind, c: string)
    requires IsDigits(a)
    requires IsBinaryKind(o1) && IsBinaryKind(o2)
    requires s == a + [Symbol(o1)] + b + [Symbol(o2)] + c
    ensures Load(s, 0) == Ok(PState(|a|, Token(Integer, a)))
  {
    var post := [Symbol(o1)] + b + [Symbol(o2)] + c;
    assert s == [] + a + post;
    LoadDigitsIn([], a, post);
  }

  /** The second operand of `a o1 b o2 c` scans as one number. */
  lemma SecondOperandLoads(s: string, a: string, o1: Kind, b: string, o2: Kind, c: string)
    requires IsDigits(b)
    requires IsBinaryKind(o1) && IsBinaryKind(o2)
    requires s == a + [Symbol(o1)] + b + [Symbol(o2)] + c
    ensures Load(s, |a| + 1) == Ok(PState(|a| + 1 + |b|, Token(Integer, b)))
  {
    var (pre, post) := (a + [Symbol(o1)], [Symbol(o2)] + c);
    assert s == pre + b + post;
    LoadDigitsIn(pre, b, post);
  }

  /** The third operand of `a o1 b o2 c` scans as one number that ends the line. */
  lemma ThirdOperandLoads(s: string, a: string, o1: Kind, b: string, o2: Kind, c: string)
    requires IsDigits(c)
    requires IsBinaryKind(o1) && IsBinaryKind(o2)
    requires s == a + [Symbol(o1)] + b + [Symbol(o2)] + c
    ensures Load(s, |a| + |b| + 2) == Ok(PState(|s|, Token(Integer, c)))
  {
    var pre := a + [Symbol(o1)] + b + [Symbol(o2)];
    assert s == pre + c + [];
    LoadDigitsIn(pre, c, []);
  }

  /** The first operator of `a o1 b o2 c` scans as its one-character token. */
  lemma FirstOperatorLoads(s: string, a: string, o1: Kind, b: string, o2: Kind, c: string)
    requires IsBinaryKind(o1) && IsBinaryKind(o2)
    requires s == a + [Symbol(o1)] + b + [Symbol(o2)] + c
    ensures Load(s, |a|) == Ok(PState(|a| + 1, OperatorToken(o1)))
  {
    var post := b + [Symbol(o2)] + c;
    assert s == a + [Symbol(o1)] + post;
    LoadSymbolIn(a, o1, post);
  }

  /** The second operator of `a o1 b o2 c` scans as its one-character token. */
  lemma SecondOperatorLoads(s: string, a: string, o1: Kind, b: string, o2: Kind, c: string)
    requires IsBinaryKind(o1) && IsBinaryKind(o2)
    requires s == a + [Symbol(o1)] + b + [Symbol(o2)] + c
    ensures Load(s, |a| + 1 + |b|) == Ok(PState(|a| + |b| + 2, OperatorToken(o2)))
  {
    var pre := a + [Symbol(o1)] + b;
    assert s == pre + [Symbol(o2)] + c;
    LoadSymbolIn(pre, o2, c);
  }

  /** Three factors separated by two operators, the second of any level: when the first
      operator is `*` or `/`, the term folds the first two factors before anything else. */
  lemma FoldAfterProduct(s: string, stA: PState, st1: PState, stB: PState, st2: PState, stC: PState, end: PState,
                         na: Ast, nb: Ast, nc: Ast)
    requires Fits(s, stA) && Fits(s, st1) && Fits(s, st2)
    requires Factor(s, stA) == Ok((na, st1)) && Advance(s, st1) == Ok((st1.current, stB))
    requires Factor(s, stB) == Ok((nb, st2)) && Advance(s, st2) == Ok((st2.current, stC))
    requires Factor(s, stC) == Ok((nc, end)) && end.current.kind == Eof
    requires Multiplicative(st1.current.kind) && IsBinaryKind(st2.current.kind)
    ensures Expr(s, stA) == Ok((BinaryOperator(BinaryOperator(na, st1.current, nb), st2.current, nc), end))
  {
    var (t1, t2) := (st1.current, st2.current);
    var left := BinaryOperator(na, t1, nb);
    TermOf(s, stA, na, st1);
    TermRestStep(s, st1, na, t1, stB, nb, st2);
    if Multiplicative(t2.kind) {
      TermRestStep(s, st2, left, t2, stC, nc, end);
      ExprOf(s, stA, BinaryOperator(left, t2, nc), end);
    } else {
      ExprOf(s, stA, left, st2);
      LoneFactor(s, stC, nc, end);
      ExprRestStep(s, st2, left, t2, stC, nc, end);
    }
  }

  /** Three factors separated by two operators, the first `+` or `-`: the expression
      takes the whole term after it when the second operator is `*` or `/`, and folds
      the first two factors first otherwise. */
  lemma FoldAfterSum(s: string, stA: PState, st1: PState, stB: PState, st2: PState, stC: PState, end: PState,
                     na: Ast, nb: Ast, nc: Ast)
    requires Fits(s, stA) && Fits(s, st1) && Fits(s, stB) && Fits(s, st2)
    requires Factor(s, stA) == Ok((na, st1)) && Advance(s, st1) == Ok((st1.current, stB))
    requires Factor(s, stB) == Ok((nb, st2)) && Advance(s, st2) == Ok((st2.current, stC))
    requires Factor(s, stC) == Ok((nc, end)) && end.current.kind == Eof
    requires Additive(st1.current.kind) && IsBinaryKind(st2.current.kind)
    ensures Expr(s, stA) == Ok((
      if Multiplicative(st2.current.kind) then BinaryOperator(na, st1.current, BinaryOperator(nb, st2.current, nc))
      else BinaryOperator(BinaryOperator(na, st1.current, nb), st2.current, nc), end))
  {
    var (t1, t2) := (st1.current, st2.current);
    TermOf(s, stA, na, st1);
    ExprOf(s, stA, na, st1);
    TermOf(s, stB, nb, st2);
    if Multiplicative(t2.kind) {
      TermRestStep(s, st2, nb, t2, stC, nc, end);
      ExprRestStep(s, st1, na, t1, stB, BinaryOperator(nb, t2, nc), end);
    } else {
      ExprRestStep(s, st1, na, t1, stB, nb, st2);
      LoneFactor(s, stC, nc, end);
      ExprRestStep(s, st2, BinaryOperator(na, t1, nb), t2, stC, nc, end);
    }
  }

  /** An operator lookahead followed by a number: the operator is handed out, and the
      number is a factor. */
  lemma OperatorThenNumber(s: string, st: PState, next: PState, after: PState)
    requires Fits(s, st) && Load(s, st.pos) == Ok(next) && next.current.kind == Integer
    requires Load(s, next.pos) == Ok(after)
    ensures Fits(s, next) && Advance(s, st) == Ok((st.current, next))
    ensures Factor(s, next) == Ok((Number(next.current, DecimalValue(next.current.lexeme)), after))
  {
    AdvanceLoaded(s, st, next);
    FactorNumber(s, next, after);
  }

  /** The single steps over three number tokens with an operator token between each two:
      each number is a factor, and each operator is handed out. */
  lemma {:induction false} ThreeOperandSteps(s: string, stA: PState, st1: PState, stB: PState, st2: PState, stC: PState, end: PState)
    requires Fits(s, stA)
    requires stA.current.kind == Integer && stB.current.kind == Integer && stC.current.kind == Integer
    requires Load(s, stA.pos) == Ok(st1) && Load(s, st1.pos) == Ok(stB) && Load(s, stB.pos) == Ok(st2)
    requires Load(s, st2.pos) == Ok(stC) && Load(s, stC.pos) == Ok(end)
    ensures Fits(s, st1) && Fits(s, stB) && Fits(s, st2)
    ensures Factor(s, stA) == Ok((NumberOf(stA.current.lexeme), st1))
    ensures Advance(s, st1) == Ok((st1.current, stB))
    ensures Factor(s, stB) == Ok((NumberOf(stB.current.lexeme), st2))
    ensures Advance(s, st2) == Ok((st2.current, stC))
    ensures Factor(s, stC) == Ok((NumberOf(stC.current.lexeme), end))
  {
    FactorNumber(s, stA, st1);
    OperatorThenNumber(s, st1, stB, st2);
    OperatorThenNumber(s, st2, stC, end);
  }

  /** Three number tokens with an operator token between each two, then the end of the
      line: the expression from the first number spans all of them, grouped as
      `ThreeOperandTree` says. */
  lemma ThreeOperandExpr(s: string, stA: PState, st1: PState, stB: PState, st2: PState, stC: PState, end: PState,
                         o1: Kind, o2: Kind)
    requires Fits(s, stA) && IsBinaryKind(o1) && IsBinaryKind(o2)
    requires stA.current.kind == Integer && stB.current.kind == Integer && stC.current.kind == Integer
    requires st1.current == OperatorToken(o1) && st2.current == OperatorToken(o2) && end.current.kind == Eof
    requires Load(s, stA.pos) == Ok(st1) && Load(s, st1.pos) == Ok(stB) && Load(s, stB.pos) == Ok(st2)
    requires Load(s, st2.pos) == Ok(stC) && Load(s, stC.pos) == Ok(end)
    ensures IsDigits(stA.current.lexeme) && IsDigits(stB.current.lexeme) && IsDigits(stC.current.lexeme)
    ensures Expr(s, stA) == Ok((ThreeOperandTree(stA.current.lexeme, o1, stB.current.lexeme, o2, stC.current.lexeme), end))
  {
    var (na, nb, nc) := (NumberOf(stA.current.lexeme), NumberOf(stB.current.lexeme), NumberOf(stC.current.lexeme));
    ThreeOperandSteps(s, stA, st1, stB, st2, stC, end);
    if Multiplicative(o1) {
      FoldAfterProduct(s, stA, st1, stB, st2, stC, end, na, nb, nc);
    } else {
      FoldAfterSum(s, stA, st1, stB, st2, stC, end, na, nb, nc);
    }
  }

  /** The derivation of `a o1 b o2 c` from its tokens. */
  lemma ThreeOperandDerivation(s: string, a: string, o1: Kind, b: string, o2: Kind, c: string)
    requires IsDigits(a) && IsDigits(b) && IsDigits(c)
    requires IsBinaryKind(o1) && IsBinaryKind(o2)
    requires |s| == |a| + |b| + |c| + 2
    requires Load(s, 0) == Ok(PState(|a|, Token(Integer, a)))
    requires Load(s, |a|) == Ok(PState(|a| + 1, OperatorToken(o1)))
    requires Load(s, |a| + 1) == Ok(PState(|a| + 1 + |b|, Token(Integer, b)))
    requires Load(s, |a| + 1 + |b|) == Ok(PState(|a| + |b| + 2, OperatorToken(o2)))
    requires Load(s, |a| + |b| + 2) == Ok(PState(|s|, Token(Integer, c)))
    ensures ParseSource(s) == Ok(ThreeOperandTree(a, o1, b, o2, c))
  {
    var stA := PState(|a|, Token(Integer, a));
    var st1 := PState(|a| + 1, OperatorToken(o1));
    var stB := PState(|a| + 1 + |b|, Token(Integer, b));
    var st2 := PState(|a| + |b| + 2, OperatorToken(o2));
    var stC := PState(|s|, Token(Integer, c));
    var end := PState(|s|, Token(Eof, ""));
    assert Load(s, |s|) == Ok(end);
    ThreeOperandExpr(s, stA, st1, stB, st2, stC, end, o1, o2);
    WholeParse(s, stA, ThreeOperandTree(a, o1, b, o2, c), end);
  }

  /** Precedence and associativity: `a o1 b o2 c` groups `b o2 c` first exactly when
      `o1` is `+` or `-` and `o2` is `*` or `/`; in every other case, including two
      operators of the same level, it groups `a o1 b` first. */
  lemma ThreeOperands(a: string, o1: Kind, b: string, o2: Kind, c: string)
    requires IsDigits(a) && IsDigits(b) && IsDigits(c)
    requires IsBinaryKind(o1) && IsBinaryKind(o2)
    ensures ParseSource(a + [Symbol(o1)] + b + [Symbol(o2)] + c) == Ok(ThreeOperandTree(a, o1, b, o2, c))
  {
    var s := a + [Symbol(o1)] + b + [Symbol(o2)] + c;
    FirstOperandLoads(s, a, o1, b, o2, c);
    FirstOperatorLoads(s, a, o1, b, o2, c);
    SecondOperandLoads(s, a, o1, b, o2, c);
    SecondOperatorLoads(s, a, o1, b, o2, c);
    ThirdOperandLoads(s, a, o1, b, o2, c);
    ThreeOperandDerivation(s, a, o1, b, o2, c);
  }

  /** The tree of `a o1 b o2 c` has no zero divisor when neither operand after a `/`
      is zero, and it evaluates by applying the operators in its grouping. */
  lemma ThreeOperandTreeValue(a: string, o1: Kind, b: string, o2: Kind, c: string)
    requires IsDigits(a) && IsDigits(b) && IsDigits(c)
    requires IsBinaryKind(o1) && IsBinaryKind(o2)
    requires o1 == Slash ==> DecimalValue(b) != 0
    requires o2 == Slash ==> DecimalValue(c) != 0
    ensures WellFormed(ThreeOperandTree(a, o1, b, o2, c)) && SafeDivisions(ThreeOperandTree(a, o1, b, o2, c))
    ensures var (x, y, z) := (DecimalValue(a) as int, DecimalValue(b) as int, DecimalValue(c) as int);
      InterpretNode(ThreeOperandTree(a, o1, b, o2, c))
      == if Additive(o1) && Multiplicative(o2) then Apply(o1, x, Apply(o2, y, z)) else Apply(o2, Apply(o1, x, y), z)
  {
    var (na, nb, nc) := (NumberOf(a), NumberOf(b), NumberOf(c));
    var (t1, t2) := (OperatorToken(o1), OperatorToken(o2));
    NumberValue(a);
    NumberValue(b);
    NumberValue(c);
    if Additive(o1) && Multiplicative(o2) {
      BinaryValue(nb, t2, nc);
      BinaryValue(na, t1, BinaryOperator(nb, t2, nc));
    } else {
      BinaryValue(na, t1, nb);
      BinaryValue(BinaryOperator(na, t1, nb), t2, nc);
    }
  }

  /** The value of `a o1 b o2 c`: `o2` is applied first exactly when it binds tighter
      than `o1`, and the operators of one level are applied from left to right. */
  lemma ThreeOperandValue(a: string, o1: Kind, b: string, o2: Kind, c: string)
    requires IsDigits(a) && IsDigits(b) && IsDigits(c)
    requires IsBinaryKind(o1) && IsBinaryKind(o2)
    requires o1 == Slash ==> DecimalValue(b) != 0
    requires o2 == Slash ==> DecimalValue(c) != 0
    ensures Computable(a + [Symbol(o1)] + b + [Symbol(o2)] + c)
    ensures var (x, y, z) := (DecimalValue(a) as int, DecimalValue(b) as int, DecimalValue(c) as int);
      Run(a + [Symbol(o1)] + b + [Symbol(o2)] + c)
      == Ok(if Additive(o1) && Multiplicative(o2) then Apply(o1, x, Apply(o2, y, z)) else Apply(o2, Apply(o1, x, y), z))
  {
    var s := a + [Symbol(o1)] + b + [Symbol(o2)] + c;
    var e := ThreeOperandTree(a, o1, b, o2, c);
    ThreeOperands(a, o1, b, o2, c);
    ThreeOperandTreeValue(a, o1, b, o2, c);
    RunParsed(s, e);
  }
}
