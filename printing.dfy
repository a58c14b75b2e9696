/** A printer for expression trees, and the proof that the parser reads back exactly
    the tree that was printed.  The round trip pins down how the grammar groups
    operators: a printed tree keeps its shape, its tokens and its number values. */
module Printing {
  import opened Chars
  import opened Tokens
  import opened Errors
  import opened Syntax
  import opened Grammar
  import opened Steps

  /** The source line of a tree: a number is its lexeme, a unary minus is written in
      front of its operand, and every binary node is written inside parentheses. */
  function Show(e: Ast): string {
    match e
    case Number(t, _) => t.lexeme
    case UnaryOperator(op, child) => op.lexeme + Show(child)
    case BinaryOperator(left, op, right) => "(" + Show(left) + op.lexeme + Show(right) + ")"
  }

  /** Where the printed form of a canonical tree ends when it starts at `i`. */
  function End(i: nat, e: Ast): (r: nat)
    ensures i <= r
    decreases e
  {
    match e
    case Number(t, _) => i + |t.lexeme|
    case UnaryOperator(_, child) => End(i + 1, child)
    case BinaryOperator(left, _, right) => End(End(i + 1, left) + 1, right) + 1
  }

  /** `s` holds the printed form of `e` from `i` on, piece by piece: the lexemes of
      the numbers, and the operator and parenthesis characters. */
  predicate PrintedAt(s: string, i: nat, e: Ast)
    decreases e
  {
    match e
    case Number(t, _) => i + |t.lexeme| <= |s| && s[i..i + |t.lexeme|] == t.lexeme
    case UnaryOperator(_, child) => i < |s| && s[i] == '-' && PrintedAt(s, i + 1, child)
    case BinaryOperator(left, op, right) =>
      var b := End(i + 1, left);
      var d := End(b + 1, right);
      && d < |s| && s[i] == '(' && PrintedAt(s, i + 1, left)
      && IsSymbolKind(op.kind) && s[b] == Symbol(op.kind)
      && PrintedAt(s, b + 1, right) && s[d] == ')'
  }

  /** `s` holds `w` from `i` on. */
  predicate Holds(s: string, i: nat, w: string) {
    i + |w| <= |s| && s[i..i + |w|] == w
  }

  /** A line holding `a + b` at `i` holds `a` there and `b` from `j`, where `a` ends. */
  lemma Split(s: string, i: nat, a: string, b: string, j: nat)
    requires Holds(s, i, a + b) && j == i + |a|
    ensures Holds(s, i, a) && Holds(s, j, b)
  {
    forall k | 0 <= k < |a|
      ensures s[i..i + |a|][k] == a[k]
    {
      assert s[i + k] == s[i..i + |a + b|][k];
    }
    forall k | 0 <= k < |b|
      ensures s[j..j + |b|][k] == b[k]
    {
      assert s[j + k] == s[i..i + |a + b|][|a| + k];
    }
  }

  /** A line holding `[c]` at `i` has `c` at `i`. */
  lemma Single(s: string, i: nat, c: char)
    requires Holds(s, i, [c])
    ensures i < |s| && s[i] == c
  {
    assert s[i] == s[i..i + 1][0];
  }

  /** The printed form of a canonical tree starting at `i` ends `|Show(e)|` later. */
  lemma {:induction false} EndIsLength(i: nat, e: Ast)
    requires Canonical(e)
    ensures End(i, e) == i + |Show(e)|
    decreases e
  {
    match e
    case Number(_, _) =>
    case UnaryOperator(_, child) =>
      EndIsLength(i + 1, child);
    case BinaryOperator(left, _, right) =>
      EndIsLength(i + 1, left);
      EndIsLength(End(i + 1, left) + 1, right);
  }

  /** A line holding the printed form of a canonical tree at `i` holds it piece by piece. */
  lemma {:induction false} ShowIsPrinted(s: string, i: nat, e: Ast)
    requires Canonical(e) && Holds(s, i, Show(e))
    ensures PrintedAt(s, i, e)
    decreases e
  {
    match e
    case Number(_, _) =>
    case UnaryOperator(op, child) =>
      Split(s, i, op.lexeme, Show(child), i + 1);
      Single(s, i, '-');
      ShowIsPrinted(s, i + 1, child);
    case BinaryOperator(left, op, right) =>
      var b := End(i + 1, left);
      var d := End(b + 1, right);
      EndIsLength(i + 1, left);
      EndIsLength(b + 1, right);
      Parenthesised(s, i, Show(left), op.lexeme, Show(right), b, d);
      ShowIsPrinted(s, i + 1, left);
      ShowIsPrinted(s, b + 1, right);
  }

  /** The pieces of a parenthesised line `( wl w wr )` held at `i`, where `w` is one
      character: `b` and `d` are the positions of `w` and of the closing parenthesis. */
  lemma Parenthesised(s: string, i: nat, wl: string, w: string, wr: string, b: nat, d: nat)
    requires Holds(s, i, "(" + wl + w + wr + ")") && |w| == 1
    requires b == i + 1 + |wl| && d == b + 1 + |wr|
    ensures d < |s| && s[i] == '(' && Holds(s, i + 1, wl)
    ensures s[b] == w[0] && Holds(s, b + 1, wr) && s[d] == ')'
  {
    var w1 := "(" + wl;
    var w2 := w1 + w;
    var w3 := w2 + wr;
    Split(s, i, w3, ")", d);
    Single(s, d, ')');
    Split(s, i, w2, wr, b + 1);
    Split(s, i, w1, w, b);
    assert w == [w[0]];
    Single(s, b, w[0]);
    Split(s, i, "(", wl, i + 1);
    Single(s, i, '(');
  }

  /** A printed number at `i` loads as its own Integer token. */
  lemma NumberLoads(s: string, i: nat, lexeme: string)
    requires IsDigits(lexeme) && i + |lexeme| <= |s| && s[i..i + |lexeme|] == lexeme
    requires i + |lexeme| < |s| ==> !IsAsciiDigit(s[i + |lexeme|])
    ensures Load(s, i) == Ok(PState(i + |lexeme|, Token(Integer, lexeme)))
  {
    assert s[i] == lexeme[0];
    LoadNumber(s, i, i, lexeme);
  }

  /** A printed tree starts with a token the scanner accepts. */
  lemma LoadPrinted(s: string, i: nat, e: Ast) returns (st: PState)
    requires Canonical(e) && PrintedAt(s, i, e) && End(i, e) <= |s|
    requires End(i, e) < |s| ==> !IsAsciiDigit(s[End(i, e)])
    ensures Load(s, i) == Ok(st)
  {
    match e
    case Number(t, _) =>
      NumberLoads(s, i, t.lexeme);
      st := PState(i + |t.lexeme|, Token(Integer, t.lexeme));
    case UnaryOperator(_, _) =>
      LoadSymbol(s, i, i, Minus);
      st := PState(i + 1, Token(Minus, [Symbol(Minus)]));
    case BinaryOperator(_, _, _) =>
      LoadSymbol(s, i, i, LParen);
      st := PState(i + 1, Token(LParen, [Symbol(LParen)]));
  }

  /** The parser's path through `( left op right )` once each operand is known to be
      read back: the operator binds the two operands whatever its precedence, because
      the closing parenthesis ends both loops. */
  lemma ParenthesisedFactor(s: string, left: Ast, op: Token, right: Ast,
                            open: PState, atLeft: PState, atOp: PState, atRight: PState,
                            atClose: PState, after: PState)
    requires Fits(s, open) && Fits(s, atOp) && Fits(s, atClose)
    requires IsBinaryKind(op.kind)
    requires open.current.kind == LParen && Load(s, open.pos) == Ok(atLeft)
    requires Fits(s, atLeft) && Factor(s, atLeft) == Ok((left, atOp))
    requires atOp.current == op && Load(s, atOp.pos) == Ok(atRight)
    requires Fits(s, atRight) && Factor(s, atRight) == Ok((right, atClose))
    requires atClose.current.kind == RParen && Load(s, atClose.pos) == Ok(after)
    ensures Factor(s, open) == Ok((BinaryOperator(left, op, right), after))
  {
    var e := BinaryOperator(left, op, right);
    AdvanceLoaded(s, open, atLeft);
    AdvanceLoaded(s, atOp, atRight);
    AdvanceLoaded(s, atClose, after);
    if op.kind == Star || op.kind == Slash {
      TermRestStep(s, atOp, left, op, atRight, right, atClose);
      assert Term(s, atLeft) == Ok((e, atClose));
      assert Expr(s, atLeft) == Ok((e, atClose));
    } else {
      LoneFactor(s, atRight, right, atClose);
      ExprRestStep(s, atOp, left, op, atRight, right, atClose);
      assert Term(s, atLeft) == Ok((left, atOp));
      assert Expr(s, atLeft) == Ok((e, atClose));
    }
  }

  /** `e` is printed at `i` on `s`, `st` is the state scanned at `i`, and `after` the
      state scanned right after the printed form. */
  predicate Placed(s: string, i: nat, e: Ast, st: PState, after: PState) {
    && Canonical(e) && PrintedAt(s, i, e) && End(i, e) <= |s|
    && (End(i, e) < |s| ==> !IsAsciiDigit(s[End(i, e)]))
    && Load(s, i) == Ok(st) && Load(s, End(i, e)) == Ok(after)
  }

  /** `Factor` reads a printed tree back from any line holding it at `i`: from the
      token scanned at `i` it builds the tree and stops at the token scanned right
      after it. */
  lemma {:induction false} FactorPrinted(s: string, i: nat, e: Ast, st: PState, after: PState)
    requires Placed(s, i, e, st, after)
    ensures Factor(s, st) == Ok((e, after))
    decreases e, 3
  {
    match e
    case Number(t, _) =>
      NumberLoads(s, i, t.lexeme);
      AdvanceLoaded(s, st, after);
    case UnaryOperator(_, child) =>
      UnaryPrinted(s, i, child, st, after);
    case BinaryOperator(left, op, right) =>
      BinaryPrinted(s, i, left, op, right, st, after);
  }

  /** The unary case of `FactorPrinted`. */
  lemma {:induction false} UnaryPrinted(s: string, i: nat, child: Ast, st: PState, after: PState)
    requires Placed(s, i, UnaryOperator(Token(Minus, "-"), child), st, after)
    ensures Factor(s, st) == Ok((UnaryOperator(Token(Minus, "-"), child), after))
    decreases UnaryOperator(Token(Minus, "-"), child), 2
  {
    var atChild := UnaryLoads(s, i, child, st, after);
    FactorPrinted(s, i + 1, child, atChild, after);
    AdvanceLoaded(s, st, atChild);
  }

  /** The tokens a printed unary node scans as: its minus sign and its operand. */
  lemma UnaryLoads(s: string, i: nat, child: Ast, st: PState, after: PState) returns (atChild: PState)
    requires Placed(s, i, UnaryOperator(Token(Minus, "-"), child), st, after)
    ensures Placed(s, i + 1, child, atChild, after)
    ensures Fits(s, st) && st.current == Token(Minus, "-") && Load(s, st.pos) == Ok(atChild)
  {
    LoadSymbol(s, i, i, Minus);
    atChild := LoadPrinted(s, i + 1, child);
  }

  /** The binary case of `FactorPrinted`. */
  lemma {:induction false} BinaryPrinted(s: string, i: nat, left: Ast, op: Token, right: Ast,
                                         st: PState, after: PState)
    requires Placed(s, i, BinaryOperator(left, op, right), st, after)
    ensures Factor(s, st) == Ok((BinaryOperator(left, op, right), after))
    decreases BinaryOperator(left, op, right), 2
  {
    var atLeft, atOp := LeftLoads(s, i, left, op, right, st, after);
    var atRight, atClose := RightLoads(s, i, left, op, right, st, after);
    BinaryAssembled(s, i, left, op, right, st, atLeft, atOp, atRight, atClose, after);
  }

  /** A binary node is read back once its tokens are known. */
  lemma {:induction false} BinaryAssembled(s: string, i: nat, left: Ast, op: Token, right: Ast,
                                           st: PState, atLeft: PState, atOp: PState, atRight: PState,
                                           atClose: PState, after: PState)
    requires Placed(s, i + 1, left, atLeft, atOp)
    requires Placed(s, End(i + 1, left) + 1, right, atRight, atClose)
    requires Fits(s, st) && Fits(s, atOp) && Fits(s, atClose) && IsBinaryKind(op.kind)
    requires st.current.kind == LParen && Load(s, st.pos) == Ok(atLeft)
    requires atOp.current == op && Load(s, atOp.pos) == Ok(atRight)
    requires atClose.current.kind == RParen && Load(s, atClose.pos) == Ok(after)
    ensures Factor(s, st) == Ok((BinaryOperator(left, op, right), after))
    decreases BinaryOperator(left, op, right), 1
  {
    OperandsPrinted(s, i, left, op, right, atLeft, atOp, atRight, atClose);
    ParenthesisedFactor(s, left, op, right, st, atLeft, atOp, atRight, atClose, after);
  }

  /** Both operands of a printed binary node are read back. */
  lemma {:induction false} OperandsPrinted(s: string, i: nat, left: Ast, op: Token, right: Ast,
                                           atLeft: PState, atOp: PState, atRight: PState, atClose: PState)
    requires Placed(s, i + 1, left, atLeft, atOp)
    requires Placed(s, End(i + 1, left) + 1, right, atRight, atClose)
    ensures Factor(s, atLeft) == Ok((left, atOp)) && Factor(s, atRight) == Ok((right, atClose))
    decreases BinaryOperator(left, op, right), 0
  {
    FactorPrinted(s, End(i + 1, left) + 1, right, atRight, atClose);
    FactorPrinted(s, i + 1, left, atLeft, atOp);
  }

  /** The tokens a printed binary node scans as up to its operator: the opening
      parenthesis, the left operand, and the operator. */
  lemma LeftLoads(s: string, i: nat, left: Ast, op: Token, right: Ast, st: PState, after: PState)
    returns (atLeft: PState, atOp: PState)
    requires Placed(s, i, BinaryOperator(left, op, right), st, after)
    ensures Placed(s, i + 1, left, atLeft, atOp) && atOp == PState(End(i + 1, left) + 1, op)
    ensures Fits(s, st) && Fits(s, atOp) && IsBinaryKind(op.kind)
    ensures st.current.kind == LParen && Load(s, st.pos) == Ok(atLeft)
  {
    LoadSymbol(s, i, i, LParen);
    LoadSymbol(s, End(i + 1, left), End(i + 1, left), op.kind);
    atLeft := LoadPrinted(s, i + 1, left);
    atOp := PState(End(i + 1, left) + 1, op);
  }

  /** The tokens a printed binary node scans as after its operator: the right operand
      and the closing parenthesis. */
  lemma RightLoads(s: string, i: nat, left: Ast, op: Token, right: Ast, st: PState, after: PState)
    returns (atRight: PState, atClose: PState)
    requires Placed(s, i, BinaryOperator(left, op, right), st, after)
    ensures Placed(s, End(i + 1, left) + 1, right, atRight, atClose)
    ensures Fits(s, atClose) && atClose.current.kind == RParen && Load(s, atClose.pos) == Ok(after)
  {
    var b := End(i + 1, left);
    atClose := ClosingLoads(s, i, left, op, right, st, after);
    atRight := LoadPrinted(s, b + 1, right);
  }

  /** The closing parenthesis of a printed binary node scans as one token, and the
      token after it is the one after the whole node. */
  lemma ClosingLoads(s: string, i: nat, left: Ast, op: Token, right: Ast, st: PState, after: PState)
    returns (atClose: PState)
    requires Placed(s, i, BinaryOperator(left, op, right), st, after)
    ensures var d := End(End(i + 1, left) + 1, right);
      d < |s| && s[d] == ')' && Load(s, d) == Ok(atClose)
    ensures Fits(s, atClose) && atClose.current.kind == RParen && Load(s, atClose.pos) == Ok(after)
  {
    var d := End(End(i + 1, left) + 1, right);
    assert End(i, BinaryOperator(left, op, right)) == d + 1;
    LoadSymbol(s, d, d, RParen);
    atClose := PState(d + 1, Token(RParen, [Symbol(RParen)]));
  }


  /** Printing then parsing gives back the tree: every tree the parser can build is
      the parse of its own printed form. */
  lemma RoundTrip(e: Ast)
    requires Canonical(e)
    ensures ParseSource(Show(e)) == Ok(e)
  {
    var s := Show(e);
    assert Holds(s, 0, s);
    EndIsLength(0, e);
    ShowIsPrinted(s, 0, e);
    var first := LoadPrinted(s, 0, e);
    var last := PState(|s|, Token(Eof, ""));
    assert Load(s, |s|) == Ok(last);
    WholeLine(s, e, first, last);
  }

  /** The end of `Parse` once the factor is known to span the whole line. */
  lemma WholeLine(s: string, e: Ast, first: PState, last: PState)
    requires Placed(s, 0, e, first, last) && End(0, e) == |s|
    ensures ParseSource(s) == Ok(e)
  {
    FactorPrinted(s, 0, e, first, last);
    LoneFactor(s, first, e, last);
    AdvanceLoaded(s, last, last);
    assert Parse(s, first) == Ok((e, last));
  }
}
