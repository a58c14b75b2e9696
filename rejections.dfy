/** The errors the parser reports: the offending lookahead, the scanner position just
    past it, and the whole set of kinds that would have been accepted there. */
module Rejections {
  import opened Chars
  import opened Tokens
  import opened Errors
  import opened Syntax
  import opened Grammar
  import opened Steps
  import opened Pipeline

  /** The kinds that can follow an operand but cannot start a factor. */
  predicate Stray(k: Kind) {
    k == Plus || k == Star || k == Slash || k == RParen
  }

  /** A factor that fails makes the term and the expression starting there fail the same way. */
  lemma FactorFails(s: string, st: PState)
    requires Fits(s, st) && Factor(s, st).Err?
    ensures Term(s, st) == Err(Factor(s, st).error)
    ensures Expr(s, st) == Err(Factor(s, st).error)
  {
  }

  /** The tokens of `a o1 o2 rest` up to `o2`. */
  lemma MissingOperandTokens(s: string, a: string, o1: Kind, o2: Kind, rest: string)
    requires IsDigits(a) && IsBinaryKind(o1) && Stray(o2)
    requires s == a + [Symbol(o1)] + [Symbol(o2)] + rest
    ensures Load(s, 0) == Ok(PState(|a|, Token(Integer, a)))
    ensures Load(s, |a|) == Ok(PState(|a| + 1, OperatorToken(o1)))
    ensures Load(s, |a| + 1) == Ok(PState(|a| + 2, OperatorToken(o2)))
  {
    var (s1, s2) := ([Symbol(o1)], [Symbol(o2)]);
    assert Load(s, 0) == Ok(PState(|a|, Token(Integer, a))) by {
      assert s == [] + a + (s1 + s2 + rest);
      LoadDigitsIn([], a, s1 + s2 + rest);
    }
    assert Load(s, |a|) == Ok(PState(|a| + 1, OperatorToken(o1))) by {
      assert s == a + s1 + (s2 + rest);
      LoadSymbolIn(a, o1, s2 + rest);
    }
    assert s == (a + s1) + s2 + rest;
    LoadSymbolIn(a + s1, o2, rest);
  }

  /** The failing derivation of `a o1 o2 rest` from its tokens. */
  lemma MissingOperandDerivation(s: string, a: string, o1: Kind, o2: Kind)
    requires IsDigits(a) && IsBinaryKind(o1) && Stray(o2) && |a| + 2 <= |s|
    requires Load(s, 0) == Ok(PState(|a|, Token(Integer, a)))
    requires Load(s, |a|) == Ok(PState(|a| + 1, OperatorToken(o1)))
    requires Load(s, |a| + 1) == Ok(PState(|a| + 2, OperatorToken(o2)))
    ensures ParseSource(s) == Err(UnexpectedToken(OperatorToken(o2), |a| + 2, FactorStart))
  {
    var stA := PState(|a|, Token(Integer, a));
    var st1 := PState(|a| + 1, OperatorToken(o1));
    var st2 := PState(|a| + 2, OperatorToken(o2));
    var err := UnexpectedToken(OperatorToken(o2), |a| + 2, FactorStart);
    FactorNumber(s, stA, st1);
    AdvanceLoaded(s, st1, st2);
    assert Factor(s, st2) == Err(err);
    TermOf(s, stA, NumberOf(a), st1);
    if o1 == Star || o1 == Slash {
      assert TermRest(s, st1, NumberOf(a)) == Err(err);
    } else {
      assert Term(s, stA) == Ok((NumberOf(a), st1));
      ExprOf(s, stA, NumberOf(a), st1);
      FactorFails(s, st2);
      assert ExprRest(s, st1, NumberOf(a)) == Err(err);
    }
    assert Expr(s, stA) == Err(err);
  }

  /** An operator directly followed by a token that cannot start a factor: the line
      `a o1 o2 rest` fails on `o2`, at the position just past it, expecting exactly
      `Integer`, `Minus` or `LParen`. */
  lemma MissingOperand(a: string, o1: Kind, o2: Kind, rest: string)
    requires IsDigits(a) && IsBinaryKind(o1) && Stray(o2)
    ensures ParseSource(a + [Symbol(o1)] + [Symbol(o2)] + rest)
         == Err(UnexpectedToken(OperatorToken(o2), |a| + 2, FactorStart))
  {
    var s := a + [Symbol(o1)] + [Symbol(o2)] + rest;
    MissingOperandTokens(s, a, o1, o2, rest);
    MissingOperandDerivation(s, a, o1, o2);
  }

  /** The error case of the tests: `"3-*1"` fails on `*` at position 3, expecting
      `Integer`, `Minus` or `LParen`, and the pipeline passes that error through. */
  lemma StrayStar(s: string)
    requires s == "3-*1"
    ensures Start(s).Ok?
    ensures ParseSource(s) == Err(UnexpectedToken(Token(Star, "*"), 3, [Integer, Minus, LParen]))
    ensures Computable(s) && Run(s) == ParseSource(s).PropagateFailure()
  {
    assert s == "3" + [Symbol(Minus)] + [Symbol(Star)] + "1";
    MissingOperand("3", Minus, Star, "1");
  }

  /** A complete expression followed by a token that cannot continue it: `a)` fails on
      the `)` expecting only the end of the line. */
  lemma TrailingToken(a: string)
    requires IsDigits(a)
    ensures ParseSource(a + ")") == Err(UnexpectedToken(Token(RParen, ")"), |a| + 1, [Eof]))
  {
    var s := a + ")";
    var stA := PState(|a|, Token(Integer, a));
    var st1 := PState(|a| + 1, Token(RParen, ")"));
    assert Load(s, 0) == Ok(stA) by {
      assert s == [] + a + ")";
      LoadDigitsIn([], a, ")");
    }
    assert Load(s, |a|) == Ok(st1) by {
      assert s == a + [Symbol(RParen)] + [];
      LoadSymbolIn(a, RParen, []);
    }
    FactorNumber(s, stA, st1);
    LoneFactor(s, stA, NumberOf(a), st1);
  }
}
