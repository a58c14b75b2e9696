/** Single steps of the parser functions: what one scan, one grammar rule or one round
    of a loop yields once the steps below it are known.  Concrete lines and printed
    trees are read back by chaining these. */
module Steps {
  import opened Chars
  import opened Tokens
  import opened Errors
  import opened Syntax
  import opened Lexing
  import opened Grammar

  /** The Number node the parser builds from a run of digits. */
  function NumberOf(digits: string): (n: Ast)
    requires IsDigits(digits)
    ensures Canonical(n)
  {
    Number(Token(Integer, digits), DecimalValue(digits))
  }

  /** The token the scanner produces for an operator character. */
  function OperatorToken(k: Kind): (t: Token)
    requires IsSymbolKind(k)
    ensures t.kind == k && CanonicalToken(t)
  {
    Token(k, [Symbol(k)])
  }

  /** A symbol character after the whitespace that starts at `i` loads as that symbol's
      token, one character long. */
  lemma LoadSymbol(s: string, i: nat, j: nat, k: Kind)
    requires i <= j < |s| && SkipSpaces(s, i) == j
    requires IsSymbolKind(k) && s[j] == Symbol(k)
    ensures Load(s, i) == Ok(PState(j + 1, Token(k, [Symbol(k)])))
  {
    assert SymbolKind(s[j]) == Some(k);
  }

  /** A maximal run of digits after the whitespace that starts at `i` loads as one
      Integer token. */
  lemma LoadNumber(s: string, i: nat, j: nat, lexeme: string)
    requires i <= j <= |s| && SkipSpaces(s, i) == j
    requires IsDigits(lexeme) && j + |lexeme| <= |s| && s[j..j + |lexeme|] == lexeme
    requires j + |lexeme| < |s| ==> !IsAsciiDigit(s[j + |lexeme|])
    ensures Load(s, i) == Ok(PState(j + |lexeme|, Token(Integer, lexeme)))
  {
    assert s[j] == lexeme[0];
    forall k | j <= k < j + |lexeme|
      ensures IsAsciiDigit(s[k])
    {
      assert s[k] == lexeme[k - j];
    }
    DigitsEndOfRun(s, j, j + |lexeme|);
  }

  /** A run of digits between `pre` and a non-digit loads as one Integer token. */
  lemma LoadDigitsIn(pre: string, digits: string, post: string)
    requires IsDigits(digits) && (post != [] ==> !IsAsciiDigit(post[0]))
    ensures Load(pre + digits + post, |pre|) == Ok(PState(|pre| + |digits|, Token(Integer, digits)))
  {
    var s := pre + digits + post;
    var j := |pre| + |digits|;
    assert s[|pre|..j] == digits;
    assert s[|pre|] == digits[0];
    assert j < |s| ==> s[j] == post[0];
    LoadNumber(s, |pre|, |pre|, digits);
  }

  /** A symbol character after `pre` loads as that symbol's token. */
  lemma LoadSymbolIn(pre: string, k: Kind, post: string)
    requires IsSymbolKind(k)
    ensures Load(pre + [Symbol(k)] + post, |pre|) == Ok(PState(|pre| + 1, Token(k, [Symbol(k)])))
  {
    var s := pre + [Symbol(k)] + post;
    assert s[|pre|] == Symbol(k);
    LoadSymbol(s, |pre|, |pre|, k);
  }

  /** `Advance` is the scan from the lookahead's end. */
  lemma AdvanceLoaded(s: string, st: PState, next: PState)
    requires Fits(s, st) && Load(s, st.pos) == Ok(next)
    ensures Advance(s, st) == Ok((st.current, next))
  {
  }

  /** An Integer lookahead is a whole factor: its number. */
  lemma FactorNumber(s: string, st: PState, next: PState)
    requires Fits(s, st) && st.current.kind == Integer && Load(s, st.pos) == Ok(next)
    ensures Factor(s, st) == Ok((Number(st.current, DecimalValue(st.current.lexeme)), next))
  {
  }

  /** A Minus lookahead negates the factor that follows it. */
  lemma FactorNegate(s: string, st: PState, mid: PState, child: Ast, after: PState)
    requires Fits(s, st) && st.current.kind == Minus && Load(s, st.pos) == Ok(mid)
    requires Fits(s, mid) && Factor(s, mid) == Ok((child, after))
    ensures Factor(s, st) == Ok((UnaryOperator(st.current, child), after))
  {
  }

  /** An LParen lookahead, an expression and an RParen make a factor: the expression. */
  lemma FactorParenthesised(s: string, st: PState, mid: PState, inner: Ast, close: PState, after: PState)
    requires Fits(s, st) && st.current.kind == LParen && Load(s, st.pos) == Ok(mid)
    requires Fits(s, mid) && Expr(s, mid) == Ok((inner, close))
    requires close.current.kind == RParen && Load(s, close.pos) == Ok(after)
    ensures Factor(s, st) == Ok((inner, after))
  {
    AdvanceLoaded(s, close, after);
  }

  /** A term is its first factor followed by the `term` loop. */
  lemma TermOf(s: string, st: PState, first: Ast, mid: PState)
    requires Fits(s, st) && Factor(s, st) == Ok((first, mid))
    ensures Term(s, st) == TermRest(s, mid, first)
  {
  }

  /** An expression is its first term followed by the `expr` loop. */
  lemma ExprOf(s: string, st: PState, first: Ast, mid: PState)
    requires Fits(s, st) && Term(s, st) == Ok((first, mid))
    ensures Expr(s, st) == ExprRest(s, mid, first)
  {
  }

  /** One round of the `term` loop. */
  lemma TermRestStep(s: string, st: PState, acc: Ast, op: Token, mid: PState, right: Ast, after: PState)
    requires Fits(s, st) && TryMatch(st, [Star, Slash])
    requires Advance(s, st) == Ok((op, mid))
    requires Factor(s, mid) == Ok((right, after))
    ensures TermRest(s, st, acc) == TermRest(s, after, BinaryOperator(acc, op, right))
  {
  }

  /** One round of the `expr` loop. */
  lemma ExprRestStep(s: string, st: PState, acc: Ast, op: Token, mid: PState, right: Ast, after: PState)
    requires Fits(s, st) && TryMatch(st, [Plus, Minus])
    requires Advance(s, st) == Ok((op, mid))
    requires Term(s, mid) == Ok((right, after))
    ensures ExprRest(s, st, acc) == ExprRest(s, after, BinaryOperator(acc, op, right))
  {
  }

  /** A factor followed by a token that continues neither loop is a whole term and a
      whole expression. */
  lemma LoneFactor(s: string, st: PState, f: Ast, after: PState)
    requires Fits(s, st) && Factor(s, st) == Ok((f, after))
    requires !TryMatch(after, [Star, Slash]) && !TryMatch(after, [Plus, Minus])
    ensures Term(s, st) == Ok((f, after))
    ensures Expr(s, st) == Ok((f, after))
  {
  }

  /** A line whose first token starts an expression that Eof follows parses to it. */
  lemma WholeParse(s: string, st: PState, e: Ast, end: PState)
    requires Start(s) == Ok(st) && Expr(s, st) == Ok((e, end))
    requires end.current.kind == Eof
    ensures ParseSource(s) == Ok(e)
  {
    AdvanceLoaded(s, end, end);
  }
}
