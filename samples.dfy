/** The lines of the end-to-end tests of the calculator, read and evaluated.  Each
    line is first scanned token by token, then the parser functions are unfolded
    along the derivation the grammar gives it, and finally the tree is evaluated. */
module Samples {
  import opened Chars
  import opened Tokens
  import opened Errors
  import opened Syntax
  import opened Lexing
  import opened Grammar
  import opened Steps
  import opened Interpreter
  import opened Pipeline

  /** The tokens of `"3"`. */
  lemma SingleNumberTokens(s: string)
    requires s == "3"
    ensures Load(s, 0) == Ok(PState(1, Token(Integer, "3")))
    ensures Load(s, 1) == Ok(PState(1, Token(Eof, "")))
  {
    assert s[0..1] == "3";
    LoadNumber(s, 0, 0, "3");
  }

  /** The derivation of `"3"` */
  lemma SingleNumberParse(s: string)
    requires s == "3"
    ensures ParseSource(s) == Ok(Number(Token(Integer, "3"), 3))
  {
    SingleNumberTokens(s);
    var st0 := PState(1, Token(Integer, "3"));
    var st1 := PState(1, Token(Eof, ""));
    var t1 := Number(Token(Integer, "3"), 3);
    FactorNumber(s, st0, st1);
    TermOf(s, st0, t1, st1);
    ExprOf(s, st0, t1, st1);
    WholeParse(s, st0, t1, st1);
  }

  /** `"3"` is a single number and evaluates to 3. */
  lemma SingleNumber(s: string)
    requires s == "3"
    ensures ParseSource(s) == Ok(Number(Token(Integer, "3"), 3))
    ensures Computable(s) && Run(s) == Ok(3)
  {
    SingleNumberParse(s);
    var t1 := Number(Token(Integer, "3"), 3);
    assert SafeDivisions(t1) && InterpretNode(t1) == 3;
  }

  /** Tokens 1 to 2 of `"-5"`. */
  lemma NegativeNumberTokens1(s: string)
    requires s == "-5"
    ensures Load(s, 0) == Ok(PState(1, Token(Minus, "-")))
    ensures Load(s, 1) == Ok(PState(2, Token(Integer, "5")))
  {
    LoadSymbol(s, 0, 0, Minus);
    assert s[1..2] == "5";
    LoadNumber(s, 1, 1, "5");
  }

  /** Tokens 3 to 3 of `"-5"`. */
  lemma NegativeNumberTokens2(s: string)
    requires s == "-5"
    ensures Load(s, 2) == Ok(PState(2, Token(Eof, "")))
  {
  }

  /** The derivation of `"-5"` */
  lemma NegativeNumberParse(s: string)
    requires s == "-5"
    ensures ParseSource(s) == Ok(UnaryOperator(Token(Minus, "-"), Number(Token(Integer, "5"), 5)))
  {
    NegativeNumberTokens1(s);
    NegativeNumberTokens2(s);
    var st0 := PState(1, Token(Minus, "-"));
    var st1 := PState(2, Token(Integer, "5"));
    var st2 := PState(2, Token(Eof, ""));
    var t1 := Number(Token(Integer, "5"), 5);
    FactorNumber(s, st1, st2);
    var t2 := UnaryOperator(Token(Minus, "-"), t1);
    FactorNegate(s, st0, st1, t1, st2);
    TermOf(s, st0, t2, st2);
    ExprOf(s, st0, t2, st2);
    WholeParse(s, st0, t2, st2);
  }

  /** `"-5"` is a unary minus over 5 and evaluates to -5. */
  lemma NegativeNumber(s: string)
    requires s == "-5"
    ensures ParseSource(s) == Ok(UnaryOperator(Token(Minus, "-"), Number(Token(Integer, "5"), 5)))
    ensures Computable(s) && Run(s) == Ok(-5)
  {
    NegativeNumberParse(s);
    var t1 := Number(Token(Integer, "5"), 5);
    var t2 := UnaryOperator(Token(Minus, "-"), t1);
    assert SafeDivisions(t1) && InterpretNode(t1) == 5;
    assert SafeDivisions(t2) && InterpretNode(t2) == -5;
  }

  /** Tokens 1 to 2 of `"1 * -7"`. */
  lemma NegatedRightOperandTokens1(s: string)
    requires s == "1 * -7"
    ensures Load(s, 0) == Ok(PState(1, Token(Integer, "1")))
    ensures Load(s, 1) == Ok(PState(3, Token(Star, "*")))
  {
    assert s[0..1] == "1";
    LoadNumber(s, 0, 0, "1");
    LoadSymbol(s, 1, 2, Star);
  }

  /** Tokens 3 to 4 of `"1 * -7"`. */
  lemma NegatedRightOperandTokens2(s: string)
    requires s == "1 * -7"
    ensures Load(s, 3) == Ok(PState(5, Token(Minus, "-")))
    ensures Load(s, 5) == Ok(PState(6, Token(Integer, "7")))
  {
    LoadSymbol(s, 3, 4, Minus);
    assert s[5..6] == "7";
    LoadNumber(s, 5, 5, "7");
  }

  /** Tokens 5 to 5 of `"1 * -7"`. */
  lemma NegatedRightOperandTokens3(s: string)
    requires s == "1 * -7"
    ensures Load(s, 6) == Ok(PState(6, Token(Eof, "")))
  {
  }

  /** The derivation of `"1 * -7"` */
  lemma NegatedRightOperandParse(s: string)
    requires s == "1 * -7"
    ensures ParseSource(s) == Ok(BinaryOperator(Number(Token(Integer, "1"), 1), Token(Star, "*"), UnaryOperator(Token(Minus, "-"), Number(Token(Integer, "7"), 7))))
  {
    NegatedRightOperandTokens1(s);
    NegatedRightOperandTokens2(s);
    NegatedRightOperandTokens3(s);
    var st0 := PState(1, Token(Integer, "1"));
    var st1 := PState(3, Token(Star, "*"));
    var st2 := PState(5, Token(Minus, "-"));
    var st3 := PState(6, Token(Integer, "7"));
    var st4 := PState(6, Token(Eof, ""));
    var t1 := Number(Token(Integer, "1"), 1);
    FactorNumber(s, st0, st1);
    TermOf(s, st0, t1, st1);
    var t2 := Number(Token(Integer, "7"), 7);
    FactorNumber(s, st3, st4);
    var t3 := UnaryOperator(Token(Minus, "-"), t2);
    FactorNegate(s, st2, st3, t2, st4);
    TermRestStep(s, st1, t1, Token(Star, "*"), st2, t3, st4);
    var t4 := BinaryOperator(t1, Token(Star, "*"), t3);
    ExprOf(s, st0, t4, st4);
    WholeParse(s, st0, t4, st4);
  }

  /** `"1 * -7"`: a unary minus may start the right operand of `*`; evaluates to -7. */
  lemma NegatedRightOperand(s: string)
    requires s == "1 * -7"
    ensures ParseSource(s) == Ok(BinaryOperator(Number(Token(Integer, "1"), 1), Token(Star, "*"), UnaryOperator(Token(Minus, "-"), Number(Token(Integer, "7"), 7))))
    ensures Computable(s) && Run(s) == Ok(-7)
  {
    NegatedRightOperandParse(s);
    var t1 := Number(Token(Integer, "1"), 1);
    var t2 := Number(Token(Integer, "7"), 7);
    var t3 := UnaryOperator(Token(Minus, "-"), t2);
    var t4 := BinaryOperator(t1, Token(Star, "*"), t3);
    assert SafeDivisions(t1) && InterpretNode(t1) == 1;
    assert SafeDivisions(t2) && InterpretNode(t2) == 7;
    assert SafeDivisions(t3) && InterpretNode(t3) == -7;
    assert SafeDivisions(t4) && InterpretNode(t4) == -7;
  }

  /** Tokens 1 to 2 of `"7 - 8 / 4"`. */
  lemma QuotientBeforeDifferenceTokens1(s: string)
    requires s == "7 - 8 / 4"
    ensures Load(s, 0) == Ok(PState(1, Token(Integer, "7")))
    ensures Load(s, 1) == Ok(PState(3, Token(Minus, "-")))
  {
    assert s[0..1] == "7";
    LoadNumber(s, 0, 0, "7");
    LoadSymbol(s, 1, 2, Minus);
  }

  /** Tokens 3 to 4 of `"7 - 8 / 4"`. */
  lemma QuotientBeforeDifferenceTokens2(s: string)
    requires s == "7 - 8 / 4"
    ensures Load(s, 3) == Ok(PState(5, Token(Integer, "8")))
    ensures Load(s, 5) == Ok(PState(7, Token(Slash, "/")))
  {
    assert s[4..5] == "8";
    LoadNumber(s, 3, 4, "8");
    LoadSymbol(s, 5, 6, Slash);
  }

  /** Tokens 5 to 6 of `"7 - 8 / 4"`. */
  lemma QuotientBeforeDifferenceTokens3(s: string)
    requires s == "7 - 8 / 4"
    ensures Load(s, 7) == Ok(PState(9, Token(Integer, "4")))
    ensures Load(s, 9) == Ok(PState(9, Token(Eof, "")))
  {
    assert s[8..9] == "4";
    LoadNumber(s, 7, 8, "4");
  }

  /** The derivation of `"7 - 8 / 4"` */
  lemma QuotientBeforeDifferenceParse(s: string)
    requires s == "7 - 8 / 4"
    ensures ParseSource(s) == Ok(BinaryOperator(Number(Token(Integer, "7"), 7), Token(Minus, "-"), BinaryOperator(Number(Token(Integer, "8"), 8), Token(Slash, "/"), Number(Token(Integer, "4"), 4))))
  {
    QuotientBeforeDifferenceTokens1(s);
    QuotientBeforeDifferenceTokens2(s);
    QuotientBeforeDifferenceTokens3(s);
    var st0 := PState(1, Token(Integer, "7"));
    var st1 := PState(3, Token(Minus, "-"));
    var st2 := PState(5, Token(Integer, "8"));
    var st3 := PState(7, Token(Slash, "/"));
    var st4 := PState(9, Token(Integer, "4"));
    var st5 := PState(9, Token(Eof, ""));
    var t1 := Number(Token(Integer, "7"), 7);
    FactorNumber(s, st0, st1);
    TermOf(s, st0, t1, st1);
    ExprOf(s, st0, t1, st1);
    var t2 := Number(Token(Integer, "8"), 8);
    FactorNumber(s, st2, st3);
    TermOf(s, st2, t2, st3);
    var t3 := Number(Token(Integer, "4"), 4);
    FactorNumber(s, st4, st5);
    TermRestStep(s, st3, t2, Token(Slash, "/"), st4, t3, st5);
    var t4 := BinaryOperator(t2, Token(Slash, "/"), t3);
    ExprRestStep(s, st1, t1, Token(Minus, "-"), st2, t4, st5);
    var t5 := BinaryOperator(t1, Token(Minus, "-"), t4);
    WholeParse(s, st0, t5, st5);
  }

  /** `"7 - 8 / 4"`: the division is grouped below the subtraction; evaluates to 5. */
  lemma QuotientBeforeDifference(s: string)
    requires s == "7 - 8 / 4"
    ensures ParseSource(s) == Ok(BinaryOperator(Number(Token(Integer, "7"), 7), Token(Minus, "-"), BinaryOperator(Number(Token(Integer, "8"), 8), Token(Slash, "/"), Number(Token(Integer, "4"), 4))))
    ensures Computable(s) && Run(s) == Ok(5)
  {
    QuotientBeforeDifferenceParse(s);
    var t1 := Number(Token(Integer, "7"), 7);
    var t2 := Number(Token(Integer, "8"), 8);
    var t3 := Number(Token(Integer, "4"), 4);
    var t4 := BinaryOperator(t2, Token(Slash, "/"), t3);
    var t5 := BinaryOperator(t1, Token(Minus, "-"), t4);
    assert SafeDivisions(t1) && InterpretNode(t1) == 7;
    assert SafeDivisions(t2) && InterpretNode(t2) == 8;
    assert SafeDivisions(t3) && InterpretNode(t3) == 4;
    assert SafeDivisions(t4) && InterpretNode(t4) == 2;
    assert SafeDivisions(t5) && InterpretNode(t5) == 5;
  }

  /** Tokens 1 to 3 of `"2 + 7 * 4"`. */
  lemma ProductBeforeSumTokens1(s: string)
    requires s == "2 + 7 * 4"
    ensures Load(s, 0) == Ok(PState(1, Token(Integer, "2")))
    ensures Load(s, 1) == Ok(PState(3, Token(Plus, "+")))
    ensures Load(s, 3) == Ok(PState(5, Token(Integer, "7")))
  {
    assert s[0..1] == "2";
    LoadNumber(s, 0, 0, "2");
    LoadSymbol(s, 1, 2, Plus);
    assert s[4..5] == "7";
    LoadNumber(s, 3, 4, "7");
  }

  /** Tokens 4 to 6 of `"2 + 7 * 4"`. */
  lemma ProductBeforeSumTokens2(s: string)
    requires s == "2 + 7 * 4"
    ensures Load(s, 5) == Ok(PState(7, Token(Star, "*")))
    ensures Load(s, 7) == Ok(PState(9, Token(Integer, "4")))
    ensures Load(s, 9) == Ok(PState(9, Token(Eof, "")))
  {
    LoadSymbol(s, 5, 6, Star);
    assert s[8..9] == "4";
    LoadNumber(s, 7, 8, "4");
  }

  /** The derivation of `"2 + 7 * 4"` */
  lemma ProductBeforeSumParse(s: string)
    requires s == "2 + 7 * 4"
    ensures ParseSource(s) == Ok(BinaryOperator(Number(Token(Integer, "2"), 2), Token(Plus, "+"), BinaryOperator(Number(Token(Integer, "7"), 7), Token(Star, "*"), Number(Token(Integer, "4"), 4))))
  {
    ProductBeforeSumTokens1(s);
    ProductBeforeSumTokens2(s);
    var st0 := PState(1, Token(Integer, "2"));
    var st1 := PState(3, Token(Plus, "+"));
    var st2 := PState(5, Token(Integer, "7"));
    var st3 := PState(7, Token(Star, "*"));
    var st4 := PState(9, Token(Integer, "4"));
    var st5 := PState(9, Token(Eof, ""));
    var t1 := Number(Token(Integer, "2"), 2);
    FactorNumber(s, st0, st1);
    TermOf(s, st0, t1, st1);
    ExprOf(s, st0, t1, st1);
    var t2 := Number(Token(Integer, "7"), 7);
    FactorNumber(s, st2, st3);
    TermOf(s, st2, t2, st3);
    var t3 := Number(Token(Integer, "4"), 4);
    FactorNumber(s, st4, st5);
    TermRestStep(s, st3, t2, Token(Star, "*"), st4, t3, st5);
    var t4 := BinaryOperator(t2, Token(Star, "*"), t3);
    ExprRestStep(s, st1, t1, Token(Plus, "+"), st2, t4, st5);
    var t5 := BinaryOperator(t1, Token(Plus, "+"), t4);
    WholeParse(s, st0, t5, st5);
  }

  /** `"2 + 7 * 4"`: the product is grouped below the sum; evaluates to 30. */
  lemma ProductBeforeSum(s: string)
    requires s == "2 + 7 * 4"
    ensures ParseSource(s) == Ok(BinaryOperator(Number(Token(Integer, "2"), 2), Token(Plus, "+"), BinaryOperator(Number(Token(Integer, "7"), 7), Token(Star, "*"), Number(Token(Integer, "4"), 4))))
    ensures Computable(s) && Run(s) == Ok(30)
  {
    ProductBeforeSumParse(s);
    var t1 := Number(Token(Integer, "2"), 2);
    var t2 := Number(Token(Integer, "7"), 7);
    var t3 := Number(Token(Integer, "4"), 4);
    var t4 := BinaryOperator(t2, Token(Star, "*"), t3);
    var t5 := BinaryOperator(t1, Token(Plus, "+"), t4);
    assert SafeDivisions(t1) && InterpretNode(t1) == 2;
    assert SafeDivisions(t2) && InterpretNode(t2) == 7;
    assert SafeDivisions(t3) && InterpretNode(t3) == 4;
    assert SafeDivisions(t4) && InterpretNode(t4) == 28;
    assert SafeDivisions(t5) && InterpretNode(t5) == 30;
  }

  /** Tokens 1 to 2 of `"7 + (((3 + 2)))"`. */
  lemma NestedParenthesesTokens1(s: string)
    requires s == "7 + (((3 + 2)))"
    ensures Load(s, 0) == Ok(PState(1, Token(Integer, "7")))
    ensures Load(s, 1) == Ok(PState(3, Token(Plus, "+")))
  {
    assert s[0..1] == "7";
    LoadNumber(s, 0, 0, "7");
    LoadSymbol(s, 1, 2, Plus);
  }

  /** Tokens 3 to 4 of `"7 + (((3 + 2)))"`. */
  lemma NestedParenthesesTokens2(s: string)
    requires s == "7 + (((3 + 2)))"
    ensures Load(s, 3) == Ok(PState(5, Token(LParen, "(")))
    ensures Load(s, 5) == Ok(PState(6, Token(LParen, "(")))
  {
    LoadSymbol(s, 3, 4, LParen);
    LoadSymbol(s, 5, 5, LParen);
  }

  /** Tokens 5 to 6 of `"7 + (((3 + 2)))"`. */
  lemma NestedParenthesesTokens3(s: string)
    requires s == "7 + (((3 + 2)))"
    ensures Load(s, 6) == Ok(PState(7, Token(LParen, "(")))
    ensures Load(s, 7) == Ok(PState(8, Token(Integer, "3")))
  {
    LoadSymbol(s, 6, 6, LParen);
    assert s[7..8] == "3";
    LoadNumber(s, 7, 7, "3");
  }

  /** Tokens 7 to 8 of `"7 + (((3 + 2)))"`. */
  lemma NestedParenthesesTokens4(s: string)
    requires s == "7 + (((3 + 2)))"
    ensures Load(s, 8) == Ok(PState(10, Token(Plus, "+")))
    ensures Load(s, 10) == Ok(PState(12, Token(Integer, "2")))
  {
    LoadSymbol(s, 8, 9, Plus);
    assert s[11..12] == "2";
    LoadNumber(s, 10, 11, "2");
  }

  /** Tokens 9 to 10 of `"7 + (((3 + 2)))"`. */
  lemma NestedParenthesesTokens5(s: string)
    requires s == "7 + (((3 + 2)))"
    ensures Load(s, 12) == Ok(PState(13, Token(RParen, ")")))
    ensures Load(s, 13) == Ok(PState(14, Token(RParen, ")")))
  {
    LoadSymbol(s, 12, 12, RParen);
    LoadSymbol(s, 13, 13, RParen);
  }

  /** Tokens 11 to 12 of `"7 + (((3 + 2)))"`. */
  lemma NestedParenthesesTokens6(s: string)
    requires s == "7 + (((3 + 2)))"
    ensures Load(s, 14) == Ok(PState(15, Token(RParen, ")")))
    ensures Load(s, 15) == Ok(PState(15, Token(Eof, "")))
  {
    LoadSymbol(s, 14, 14, RParen);
  }

  /** The derivation of `"7 + (((3 + 2)))"` */
  lemma NestedParenthesesParse(s: string)
    requires s == "7 + (((3 + 2)))"
    ensures ParseSource(s) == Ok(BinaryOperator(Number(Token(Integer, "7"), 7), Token(Plus, "+"), BinaryOperator(Number(Token(Integer, "3"), 3), Token(Plus, "+"), Number(Token(Integer, "2"), 2))))
  {
    NestedParenthesesTokens1(s);
    NestedParenthesesTokens2(s);
    NestedParenthesesTokens3(s);
    NestedParenthesesTokens4(s);
    NestedParenthesesTokens5(s);
    NestedParenthesesTokens6(s);
    var st0 := PState(1, Token(Integer, "7"));
    var st1 := PState(3, Token(Plus, "+"));
    var st2 := PState(5, Token(LParen, "("));
    var st3 := PState(6, Token(LParen, "("));
    var st4 := PState(7, Token(LParen, "("));
    var st5 := PState(8, Token(Integer, "3"));
    var st6 := PState(10, Token(Plus, "+"));
    var st7 := PState(12, Token(Integer, "2"));
    var st8 := PState(13, Token(RParen, ")"));
    var st9 := PState(14, Token(RParen, ")"));
    var st10 := PState(15, Token(RParen, ")"));
    var st11 := PState(15, Token(Eof, ""));
    var t1 := Number(Token(Integer, "7"), 7);
    FactorNumber(s, st0, st1);
    TermOf(s, st0, t1, st1);
    ExprOf(s, st0, t1, st1);
    var t2 := Number(Token(Integer, "3"), 3);
    FactorNumber(s, st5, st6);
    TermOf(s, st5, t2, st6);
    ExprOf(s, st5, t2, st6);
    var t3 := Number(Token(Integer, "2"), 2);
    FactorNumber(s, st7, st8);
    TermOf(s, st7, t3, st8);
    ExprRestStep(s, st6, t2, Token(Plus, "+"), st7, t3, st8);
    var t4 := BinaryOperator(t2, Token(Plus, "+"), t3);
    FactorParenthesised(s, st4, st5, t4, st8, st9);
    TermOf(s, st4, t4, st9);
    ExprOf(s, st4, t4, st9);
    FactorParenthesised(s, st3, st4, t4, st9, st10);
    TermOf(s, st3, t4, st10);
    ExprOf(s, st3, t4, st10);
    FactorParenthesised(s, st2, st3, t4, st10, st11);
    TermOf(s, st2, t4, st11);
    ExprRestStep(s, st1, t1, Token(Plus, "+"), st2, t4, st11);
    var t5 := BinaryOperator(t1, Token(Plus, "+"), t4);
    WholeParse(s, st0, t5, st11);
  }

  /** `"7 + (((3 + 2)))"`: parentheses add no nodes to the tree; evaluates to 12. */
  lemma NestedParentheses(s: string)
    requires s == "7 + (((3 + 2)))"
    ensures ParseSource(s) == Ok(BinaryOperator(Number(Token(Integer, "7"), 7), Token(Plus, "+"), BinaryOperator(Number(Token(Integer, "3"), 3), Token(Plus, "+"), Number(Token(Integer, "2"), 2))))
    ensures Computable(s) && Run(s) == Ok(12)
  {
    NestedParenthesesParse(s);
    var t1 := Number(Token(Integer, "7"), 7);
    var t2 := Number(Token(Integer, "3"), 3);
    var t3 := Number(Token(Integer, "2"), 2);
    var t4 := BinaryOperator(t2, Token(Plus, "+"), t3);
    var t5 := BinaryOperator(t1, Token(Plus, "+"), t4);
    assert SafeDivisions(t1) && InterpretNode(t1) == 7;
    assert SafeDivisions(t2) && InterpretNode(t2) == 3;
    assert SafeDivisions(t3) && InterpretNode(t3) == 2;
    assert SafeDivisions(t4) && InterpretNode(t4) == 5;
    assert SafeDivisions(t5) && InterpretNode(t5) == 12;
  }

  /** Tokens 1 to 2 of `"14 + 2 * 3 - 6 / 2"`. */
  lemma MixedLevelsTokens1(s: string)
    requires s == "14 + 2 *" + " 3 - 6 /" + " 2"
    ensures Load(s, 0) == Ok(PState(2, Token(Integer, "14")))
    ensures Load(s, 2) == Ok(PState(4, Token(Plus, "+")))
  {
    assert s[0..2] == "14";
    LoadNumber(s, 0, 0, "14");
    LoadSymbol(s, 2, 3, Plus);
  }

  /** Tokens 3 to 4 of `"14 + 2 * 3 - 6 / 2"`. */
  lemma MixedLevelsTokens2(s: string)
    requires s == "14 + 2 *" + " 3 - 6 /" + " 2"
    ensures Load(s, 4) == Ok(PState(6, Token(Integer, "2")))
    ensures Load(s, 6) == Ok(PState(8, Token(Star, "*")))
  {
    assert s[5..6] == "2";
    LoadNumber(s, 4, 5, "2");
    LoadSymbol(s, 6, 7, Star);
  }

  /** Tokens 5 to 6 of `"14 + 2 * 3 - 6 / 2"`. */
  lemma MixedLevelsTokens3(s: string)
    requires s == "14 + 2 *" + " 3 - 6 /" + " 2"
    ensures Load(s, 8) == Ok(PState(10, Token(Integer, "3")))
    ensures Load(s, 10) == Ok(PState(12, Token(Minus, "-")))
  {
    assert s[9..10] == "3";
    LoadNumber(s, 8, 9, "3");
    LoadSymbol(s, 10, 11, Minus);
  }

  /** Tokens 7 to 8 of `"14 + 2 * 3 - 6 / 2"`. */
  lemma MixedLevelsTokens4(s: string)
    requires s == "14 + 2 *" + " 3 - 6 /" + " 2"
    ensures Load(s, 12) == Ok(PState(14, Token(Integer, "6")))
    ensures Load(s, 14) == Ok(PState(16, Token(Slash, "/")))
  {
    assert s[13..14] == "6";
    LoadNumber(s, 12, 13, "6");
    LoadSymbol(s, 14, 15, Slash);
  }

  /** Tokens 9 to 10 of `"14 + 2 * 3 - 6 / 2"`. */
  lemma MixedLevelsTokens5(s: string)
    requires s == "14 + 2 *" + " 3 - 6 /" + " 2"
    ensures Load(s, 16) == Ok(PState(18, Token(Integer, "2")))
    ensures Load(s, 18) == Ok(PState(18, Token(Eof, "")))
  {
    assert s[17..18] == "2";
    LoadNumber(s, 16, 17, "2");
  }

  /** The term of `"14 + 2 * 3 - 6 / 2"` that starts with token 3. */
  lemma MixedLevelsGroup1(s: string)
    requires s == "14 + 2 *" + " 3 - 6 /" + " 2"
    ensures Term(s, PState(6, Token(Integer, "2"))) == Ok((BinaryOperator(Number(Token(Integer, "2"), 2), Token(Star, "*"), Number(Token(Integer, "3"), 3)), PState(12, Token(Minus, "-"))))
  {
    MixedLevelsTokens2(s);
    MixedLevelsTokens3(s);
    var st2 := PState(6, Token(Integer, "2"));
    var st3 := PState(8, Token(Star, "*"));
    var st4 := PState(10, Token(Integer, "3"));
    var st5 := PState(12, Token(Minus, "-"));
    var t2 := Number(Token(Integer, "2"), 2);
    FactorNumber(s, st2, st3);
    TermOf(s, st2, t2, st3);
    var t3 := Number(Token(Integer, "3"), 3);
    FactorNumber(s, st4, st5);
    TermRestStep(s, st3, t2, Token(Star, "*"), st4, t3, st5);
    var t4 := BinaryOperator(t2, Token(Star, "*"), t3);
  }

  /** The term of `"14 + 2 * 3 - 6 / 2"` that starts with token 7. */
  lemma MixedLevelsGroup2(s: string)
    requires s == "14 + 2 *" + " 3 - 6 /" + " 2"
    ensures Term(s, PState(14, Token(Integer, "6"))) == Ok((BinaryOperator(Number(Token(Integer, "6"), 6), Token(Slash, "/"), Number(Token(Integer, "2"), 2)), PState(18, Token(Eof, ""))))
  {
    MixedLevelsTokens4(s);
    MixedLevelsTokens5(s);
    var st6 := PState(14, Token(Integer, "6"));
    var st7 := PState(16, Token(Slash, "/"));
    var st8 := PState(18, Token(Integer, "2"));
    var st9 := PState(18, Token(Eof, ""));
    var t6 := Number(Token(Integer, "6"), 6);
    FactorNumber(s, st6, st7);
    TermOf(s, st6, t6, st7);
    var t7 := Number(Token(Integer, "2"), 2);
    FactorNumber(s, st8, st9);
    TermRestStep(s, st7, t6, Token(Slash, "/"), st8, t7, st9);
    var t8 := BinaryOperator(t6, Token(Slash, "/"), t7);
  }

  /** The last operands of `"14 + 2 * 3 - 6 / 2"`, from token 6 on. */
  lemma MixedLevelsGroup3(s: string)
    requires s == "14 + 2 *" + " 3 - 6 /" + " 2"
    ensures ExprRest(s, PState(12, Token(Minus, "-")), BinaryOperator(Number(Token(Integer, "14"), 14), Token(Plus, "+"), BinaryOperator(Number(Token(Integer, "2"), 2), Token(Star, "*"), Number(Token(Integer, "3"), 3)))) == Ok((BinaryOperator(BinaryOperator(Number(Token(Integer, "14"), 14), Token(Plus, "+"), BinaryOperator(Number(Token(Integer, "2"), 2), Token(Star, "*"), Number(Token(Integer, "3"), 3))), Token(Minus, "-"), BinaryOperator(Number(Token(Integer, "6"), 6), Token(Slash, "/"), Number(Token(Integer, "2"), 2))), PState(18, Token(Eof, ""))))
  {
    MixedLevelsTokens3(s);
    MixedLevelsTokens4(s);
    MixedLevelsTokens5(s);
    var st5 := PState(12, Token(Minus, "-"));
    var st6 := PState(14, Token(Integer, "6"));
    var st9 := PState(18, Token(Eof, ""));
    var t5 := BinaryOperator(Number(Token(Integer, "14"), 14), Token(Plus, "+"), BinaryOperator(Number(Token(Integer, "2"), 2), Token(Star, "*"), Number(Token(Integer, "3"), 3)));
    MixedLevelsGroup2(s);
    var t8 := BinaryOperator(Number(Token(Integer, "6"), 6), Token(Slash, "/"), Number(Token(Integer, "2"), 2));
    ExprRestStep(s, st5, t5, Token(Minus, "-"), st6, t8, st9);
    var t9 := BinaryOperator(t5, Token(Minus, "-"), t8);
  }

  /** The derivation of `"14 + 2 * 3 - 6 / 2"` */
  lemma MixedLevelsParse(s: string)
    requires s == "14 + 2 *" + " 3 - 6 /" + " 2"
    ensures ParseSource(s) == Ok(BinaryOperator(BinaryOperator(Number(Token(Integer, "14"), 14), Token(Plus, "+"), BinaryOperator(Number(Token(Integer, "2"), 2), Token(Star, "*"), Number(Token(Integer, "3"), 3))), Token(Minus, "-"), BinaryOperator(Number(Token(Integer, "6"), 6), Token(Slash, "/"), Number(Token(Integer, "2"), 2))))
  {
    MixedLevelsTokens1(s);
    MixedLevelsTokens2(s);
    MixedLevelsTokens3(s);
    MixedLevelsTokens5(s);
    var st0 := PState(2, Token(Integer, "14"));
    var st1 := PState(4, Token(Plus, "+"));
    var st2 := PState(6, Token(Integer, "2"));
    var st5 := PState(12, Token(Minus, "-"));
    var st9 := PState(18, Token(Eof, ""));
    var t1 := Number(Token(Integer, "14"), 14);
    FactorNumber(s, st0, st1);
    TermOf(s, st0, t1, st1);
    ExprOf(s, st0, t1, st1);
    MixedLevelsGroup1(s);
    var t4 := BinaryOperator(Number(Token(Integer, "2"), 2), Token(Star, "*"), Number(Token(Integer, "3"), 3));
    ExprRestStep(s, st1, t1, Token(Plus, "+"), st2, t4, st5);
    var t5 := BinaryOperator(t1, Token(Plus, "+"), t4);
    MixedLevelsGroup3(s);
    var t9 := BinaryOperator(BinaryOperator(Number(Token(Integer, "14"), 14), Token(Plus, "+"), BinaryOperator(Number(Token(Integer, "2"), 2), Token(Star, "*"), Number(Token(Integer, "3"), 3))), Token(Minus, "-"), BinaryOperator(Number(Token(Integer, "6"), 6), Token(Slash, "/"), Number(Token(Integer, "2"), 2)));
    WholeParse(s, st0, t9, st9);
  }

  /** `"14 + 2 * 3 - 6 / 2"`: both products are operands of the left-leaning sum; evaluates to 17. */
  lemma MixedLevels(s: string)
    requires s == "14 + 2 *" + " 3 - 6 /" + " 2"
    ensures ParseSource(s) == Ok(BinaryOperator(BinaryOperator(Number(Token(Integer, "14"), 14), Token(Plus, "+"), BinaryOperator(Number(Token(Integer, "2"), 2), Token(Star, "*"), Number(Token(Integer, "3"), 3))), Token(Minus, "-"), BinaryOperator(Number(Token(Integer, "6"), 6), Token(Slash, "/"), Number(Token(Integer, "2"), 2))))
    ensures Computable(s) && Run(s) == Ok(17)
  {
    MixedLevelsParse(s);
    var t1 := Number(Token(Integer, "14"), 14);
    var t2 := Number(Token(Integer, "2"), 2);
    var t3 := Number(Token(Integer, "3"), 3);
    var t4 := BinaryOperator(t2, Token(Star, "*"), t3);
    var t5 := BinaryOperator(t1, Token(Plus, "+"), t4);
    var t6 := Number(Token(Integer, "6"), 6);
    var t7 := Number(Token(Integer, "2"), 2);
    var t8 := BinaryOperator(t6, Token(Slash, "/"), t7);
    var t9 := BinaryOperator(t5, Token(Minus, "-"), t8);
    assert SafeDivisions(t1) && InterpretNode(t1) == 14;
    assert SafeDivisions(t2) && InterpretNode(t2) == 2;
    assert SafeDivisions(t3) && InterpretNode(t3) == 3;
    assert SafeDivisions(t4) && InterpretNode(t4) == 6;
    assert SafeDivisions(t5) && InterpretNode(t5) == 20;
    assert SafeDivisions(t6) && InterpretNode(t6) == 6;
    assert SafeDivisions(t7) && InterpretNode(t7) == 2;
    assert SafeDivisions(t8) && InterpretNode(t8) == 3;
    assert SafeDivisions(t9) && InterpretNode(t9) == 17;
  }

  /** Tokens 1 to 2 of `"7 + 3 * (10 / (12 / (3 + 1) - 1))"`. */
  lemma NestedQuotientsTokens1(s: string)
    requires s == "7 + 3 *" + " (10 / (" + "12 / (3" + " + 1) -" + " 1))"
    ensures Load(s, 0) == Ok(PState(1, Token(Integer, "7")))
    ensures Load(s, 1) == Ok(PState(3, Token(Plus, "+")))
  {
    assert s[0..1] == "7";
    LoadNumber(s, 0, 0, "7");
    LoadSymbol(s, 1, 2, Plus);
  }

  /** Tokens 3 to 4 of `"7 + 3 * (10 / (12 / (3 + 1) - 1))"`. */
  lemma NestedQuotientsTokens2(s: string)
    requires s == "7 + 3 *" + " (10 / (" + "12 / (3" + " + 1) -" + " 1))"
    ensures Load(s, 3) == Ok(PState(5, Token(Integer, "3")))
    ensures Load(s, 5) == Ok(PState(7, Token(Star, "*")))
  {
    assert s[4..5] == "3";
    LoadNumber(s, 3, 4, "3");
    LoadSymbol(s, 5, 6, Star);
  }

  /** Tokens 5 to 6 of `"7 + 3 * (10 / (12 / (3 + 1) - 1))"`. */
  lemma NestedQuotientsTokens3(s: string)
    requires s == "7 + 3 *" + " (10 / (" + "12 / (3" + " + 1) -" + " 1))"
    ensures Load(s, 7) == Ok(PState(9, Token(LParen, "(")))
    ensures Load(s, 9) == Ok(PState(11, Token(Integer, "10")))
  {
    LoadSymbol(s, 7, 8, LParen);
    assert s[9..11] == "10";
    LoadNumber(s, 9, 9, "10");
  }

  /** Tokens 7 to 8 of `"7 + 3 * (10 / (12 / (3 + 1) - 1))"`. */
  lemma NestedQuotientsTokens4(s: string)
    requires s == "7 + 3 *" + " (10 / (" + "12 / (3" + " + 1) -" + " 1))"
    ensures Load(s, 11) == Ok(PState(13, Token(Slash, "/")))
    ensures Load(s, 13) == Ok(PState(15, Token(LParen, "(")))
  {
    LoadSymbol(s, 11, 12, Slash);
    LoadSymbol(s, 13, 14, LParen);
  }

  /** Tokens 9 to 10 of `"7 + 3 * (10 / (12 / (3 + 1) - 1))"`. */
  lemma NestedQuotientsTokens5(s: string)
    requires s == "7 + 3 *" + " (10 / (" + "12 / (3" + " + 1) -" + " 1))"
    ensures Load(s, 15) == Ok(PState(17, Token(Integer, "12")))
    ensures Load(s, 17) == Ok(PState(19, Token(Slash, "/")))
  {
    assert s[15..17] == "12";
    LoadNumber(s, 15, 15, "12");
    LoadSymbol(s, 17, 18, Slash);
  }

  /** Tokens 11 to 12 of `"7 + 3 * (10 / (12 / (3 + 1) - 1))"`. */
  lemma NestedQuotientsTokens6(s: string)
    requires s == "7 + 3 *" + " (10 / (" + "12 / (3" + " + 1) -" + " 1))"
    ensures Load(s, 19) == Ok(PState(21, Token(LParen, "(")))
    ensures Load(s, 21) == Ok(PState(22, Token(Integer, "3")))
  {
    LoadSymbol(s, 19, 20, LParen);
    assert s[21..22] == "3";
    LoadNumber(s, 21, 21, "3");
  }

  /** Tokens 13 to 14 of `"7 + 3 * (10 / (12 / (3 + 1) - 1))"`. */
  lemma NestedQuotientsTokens7(s: string)
    requires s == "7 + 3 *" + " (10 / (" + "12 / (3" + " + 1) -" + " 1))"
    ensures Load(s, 22) == Ok(PState(24, Token(Plus, "+")))
    ensures Load(s, 24) == Ok(PState(26, Token(Integer, "1")))
  {
    LoadSymbol(s, 22, 23, Plus);
    assert s[25..26] == "1";
    LoadNumber(s, 24, 25, "1");
  }

  /** Tokens 15 to 16 of `"7 + 3 * (10 / (12 / (3 + 1) - 1))"`. */
  lemma NestedQuotientsTokens8(s: string)
    requires s == "7 + 3 *" + " (10 / (" + "12 / (3" + " + 1) -" + " 1))"
    ensures Load(s, 26) == Ok(PState(27, Token(RParen, ")")))
    ensures Load(s, 27) == Ok(PState(29, Token(Minus, "-")))
  {
    LoadSymbol(s, 26, 26, RParen);
    LoadSymbol(s, 27, 28, Minus);
  }

  /** Tokens 17 to 18 of `"7 + 3 * (10 / (12 / (3 + 1) - 1))"`. */
  lemma NestedQuotientsTokens9(s: string)
    requires s == "7 + 3 *" + " (10 / (" + "12 / (3" + " + 1) -" + " 1))"
    ensures Load(s, 29) == Ok(PState(31, Token(Integer, "1")))
    ensures Load(s, 31) == Ok(PState(32, Token(RParen, ")")))
  {
    assert s[30..31] == "1";
    LoadNumber(s, 29, 30, "1");
    LoadSymbol(s, 31, 31, RParen);
  }

  /** Tokens 19 to 20 of `"7 + 3 * (10 / (12 / (3 + 1) - 1))"`. */
  lemma NestedQuotientsTokens10(s: string)
    requires s == "7 + 3 *" + " (10 / (" + "12 / (3" + " + 1) -" + " 1))"
    ensures Load(s, 32) == Ok(PState(33, Token(RParen, ")")))
    ensures Load(s, 33) == Ok(PState(33, Token(Eof, "")))
  {
    LoadSymbol(s, 32, 32, RParen);
  }

  /** The parenthesised factor of `"7 + 3 * (10 / (12 / (3 + 1) - 1))"` that starts with token 11. */
  lemma NestedQuotientsGroup1(s: string)
    requires s == "7 + 3 *" + " (10 / (" + "12 / (3" + " + 1) -" + " 1))"
    ensures Factor(s, PState(21, Token(LParen, "("))) == Ok((BinaryOperator(Number(Token(Integer, "3"), 3), Token(Plus, "+"), Number(Token(Integer, "1"), 1)), PState(29, Token(Minus, "-"))))
  {
    NestedQuotientsTokens6(s);
    NestedQuotientsTokens7(s);
    NestedQuotientsTokens8(s);
    var st10 := PState(21, Token(LParen, "("));
    var st11 := PState(22, Token(Integer, "3"));
    var st12 := PState(24, Token(Plus, "+"));
    var st13 := PState(26, Token(Integer, "1"));
    var st14 := PState(27, Token(RParen, ")"));
    var st15 := PState(29, Token(Minus, "-"));
    var t5 := Number(Token(Integer, "3"), 3);
    FactorNumber(s, st11, st12);
    TermOf(s, st11, t5, st12);
    ExprOf(s, st11, t5, st12);
    var t6 := Number(Token(Integer, "1"), 1);
    FactorNumber(s, st13, st14);
    TermOf(s, st13, t6, st14);
    ExprRestStep(s, st12, t5, Token(Plus, "+"), st13, t6, st14);
    var t7 := BinaryOperator(t5, Token(Plus, "+"), t6);
    FactorParenthesised(s, st10, st11, t7, st14, st15);
  }

  /** The parenthesised factor of `"7 + 3 * (10 / (12 / (3 + 1) - 1))"` that starts with token 8. */
  lemma NestedQuotientsGroup2(s: string)
    requires s == "7 + 3 *" + " (10 / (" + "12 / (3" + " + 1) -" + " 1))"
    ensures Factor(s, PState(15, Token(LParen, "("))) == Ok((BinaryOperator(BinaryOperator(Number(Token(Integer, "12"), 12), Token(Slash, "/"), BinaryOperator(Number(Token(Integer, "3"), 3), Token(Plus, "+"), Number(Token(Integer, "1"), 1))), Token(Minus, "-"), Number(Token(Integer, "1"), 1)), PState(33, Token(RParen, ")"))))
  {
    NestedQuotientsTokens4(s);
    NestedQuotientsTokens5(s);
    NestedQuotientsTokens6(s);
    NestedQuotientsTokens8(s);
    NestedQuotientsTokens9(s);
    NestedQuotientsTokens10(s);
    var st7 := PState(15, Token(LParen, "("));
    var st8 := PState(17, Token(Integer, "12"));
    var st9 := PState(19, Token(Slash, "/"));
    var st10 := PState(21, Token(LParen, "("));
    var st15 := PState(29, Token(Minus, "-"));
    var st16 := PState(31, Token(Integer, "1"));
    var st17 := PState(32, Token(RParen, ")"));
    var st18 := PState(33, Token(RParen, ")"));
    var t4 := Number(Token(Integer, "12"), 12);
    FactorNumber(s, st8, st9);
    TermOf(s, st8, t4, st9);
    NestedQuotientsGroup1(s);
    var t7 := BinaryOperator(Number(Token(Integer, "3"), 3), Token(Plus, "+"), Number(Token(Integer, "1"), 1));
    TermRestStep(s, st9, t4, Token(Slash, "/"), st10, t7, st15);
    var t8 := BinaryOperator(t4, Token(Slash, "/"), t7);
    ExprOf(s, st8, t8, st15);
    var t9 := Number(Token(Integer, "1"), 1);
    FactorNumber(s, st16, st17);
    TermOf(s, st16, t9, st17);
    ExprRestStep(s, st15, t8, Token(Minus, "-"), st16, t9, st17);
    var t10 := BinaryOperator(t8, Token(Minus, "-"), t9);
    FactorParenthesised(s, st7, st8, t10, st17, st18);
  }

  /** The parenthesised factor of `"7 + 3 * (10 / (12 / (3 + 1) - 1))"` that starts with token 5. */
  lemma NestedQuotientsGroup3(s: string)
    requires s == "7 + 3 *" + " (10 / (" + "12 / (3" + " + 1) -" + " 1))"
    ensures Factor(s, PState(9, Token(LParen, "("))) == Ok((BinaryOperator(Number(Token(Integer, "10"), 10), Token(Slash, "/"), BinaryOperator(BinaryOperator(Number(Token(Integer, "12"), 12), Token(Slash, "/"), BinaryOperator(Number(Token(Integer, "3"), 3), Token(Plus, "+"), Number(Token(Integer, "1"), 1))), Token(Minus, "-"), Number(Token(Integer, "1"), 1))), PState(33, Token(Eof, ""))))
  {
    NestedQuotientsTokens3(s);
    NestedQuotientsTokens4(s);
    NestedQuotientsTokens10(s);
    var st4 := PState(9, Token(LParen, "("));
    var st5 := PState(11, Token(Integer, "10"));
    var st6 := PState(13, Token(Slash, "/"));
    var st7 := PState(15, Token(LParen, "("));
    var st18 := PState(33, Token(RParen, ")"));
    var st19 := PState(33, Token(Eof, ""));
    var t3 := Number(Token(Integer, "10"), 10);
    FactorNumber(s, st5, st6);
    TermOf(s, st5, t3, st6);
    NestedQuotientsGroup2(s);
    var t10 := BinaryOperator(BinaryOperator(Number(Token(Integer, "12"), 12), Token(Slash, "/"), BinaryOperator(Number(Token(Integer, "3"), 3), Token(Plus, "+"), Number(Token(Integer, "1"), 1))), Token(Minus, "-"), Number(Token(Integer, "1"), 1));
    TermRestStep(s, st6, t3, Token(Slash, "/"), st7, t10, st18);
    var t11 := BinaryOperator(t3, Token(Slash, "/"), t10);
    ExprOf(s, st5, t11, st18);
    FactorParenthesised(s, st4, st5, t11, st18, st19);
  }

  /** The term of `"7 + 3 * (10 / (12 / (3 + 1) - 1))"` that starts with token 3. */
  lemma NestedQuotientsGroup4(s: string)
    requires s == "7 + 3 *" + " (10 / (" + "12 / (3" + " + 1) -" + " 1))"
    ensures Term(s, PState(5, Token(Integer, "3"))) == Ok((BinaryOperator(Number(Token(Integer, "3"), 3), Token(Star, "*"), BinaryOperator(Number(Token(Integer, "10"), 10), Token(Slash, "/"), BinaryOperator(BinaryOperator(Number(Token(Integer, "12"), 12), Token(Slash, "/"), BinaryOperator(Number(Token(Integer, "3"), 3), Token(Plus, "+"), Number(Token(Integer, "1"), 1))), Token(Minus, "-"), Number(Token(Integer, "1"), 1)))), PState(33, Token(Eof, ""))))
  {
    NestedQuotientsTokens2(s);
    NestedQuotientsTokens3(s);
    NestedQuotientsTokens10(s);
    var st2 := PState(5, Token(Integer, "3"));
    var st3 := PState(7, Token(Star, "*"));
    var st4 := PState(9, Token(LParen, "("));
    var st19 := PState(33, Token(Eof, ""));
    var t2 := Number(Token(Integer, "3"), 3);
    FactorNumber(s, st2, st3);
    TermOf(s, st2, t2, st3);
    NestedQuotientsGroup3(s);
    var t11 := BinaryOperator(Number(Token(Integer, "10"), 10), Token(Slash, "/"), BinaryOperator(BinaryOperator(Number(Token(Integer, "12"), 12), Token(Slash, "/"), BinaryOperator(Number(Token(Integer, "3"), 3), Token(Plus, "+"), Number(Token(Integer, "1"), 1))), Token(Minus, "-"), Number(Token(Integer, "1"), 1)));
    TermRestStep(s, st3, t2, Token(Star, "*"), st4, t11, st19);
    var t12 := BinaryOperator(t2, Token(Star, "*"), t11);
  }

  /** The derivation of `"7 + 3 * (10 / (12 / (3 + 1) - 1))"` */
  lemma NestedQuotientsParse(s: string)
    requires s == "7 + 3 *" + " (10 / (" + "12 / (3" + " + 1) -" + " 1))"
    ensures ParseSource(s) == Ok(BinaryOperator(Number(Token(Integer, "7"), 7), Token(Plus, "+"), BinaryOperator(Number(Token(Integer, "3"), 3), Token(Star, "*"), BinaryOperator(Number(Token(Integer, "10"), 10), Token(Slash, "/"), BinaryOperator(BinaryOperator(Number(Token(Integer, "12"), 12), Token(Slash, "/"), BinaryOperator(Number(Token(Integer, "3"), 3), Token(Plus, "+"), Number(Token(Integer, "1"), 1))), Token(Minus, "-"), Number(Token(Integer, "1"), 1))))))
  {
    NestedQuotientsTokens1(s);
    NestedQuotientsTokens2(s);
    NestedQuotientsTokens10(s);
    var st0 := PState(1, Token(Integer, "7"));
    var st1 := PState(3, Token(Plus, "+"));
    var st2 := PState(5, Token(Integer, "3"));
    var st19 := PState(33, Token(Eof, ""));
    var t1 := Number(Token(Integer, "7"), 7);
    FactorNumber(s, st0, st1);
    TermOf(s, st0, t1, st1);
    ExprOf(s, st0, t1, st1);
    NestedQuotientsGroup4(s);
    var t12 := BinaryOperator(Number(Token(Integer, "3"), 3), Token(Star, "*"), BinaryOperator(Number(Token(Integer, "10"), 10), Token(Slash, "/"), BinaryOperator(BinaryOperator(Number(Token(Integer, "12"), 12), Token(Slash, "/"), BinaryOperator(Number(Token(Integer, "3"), 3), Token(Plus, "+"), Number(Token(Integer, "1"), 1))), Token(Minus, "-"), Number(Token(Integer, "1"), 1))));
    ExprRestStep(s, st1, t1, Token(Plus, "+"), st2, t12, st19);
    var t13 := BinaryOperator(t1, Token(Plus, "+"), t12);
    WholeParse(s, st0, t13, st19);
  }

  /** `"7 + 3 * (10 / (12 / (3 + 1) - 1))"` evaluates to 22. */
  lemma NestedQuotients(s: string)
    requires s == "7 + 3 *" + " (10 / (" + "12 / (3" + " + 1) -" + " 1))"
    ensures ParseSource(s) == Ok(BinaryOperator(Number(Token(Integer, "7"), 7), Token(Plus, "+"), BinaryOperator(Number(Token(Integer, "3"), 3), Token(Star, "*"), BinaryOperator(Number(Token(Integer, "10"), 10), Token(Slash, "/"), BinaryOperator(BinaryOperator(Number(Token(Integer, "12"), 12), Token(Slash, "/"), BinaryOperator(Number(Token(Integer, "3"), 3), Token(Plus, "+"), Number(Token(Integer, "1"), 1))), Token(Minus, "-"), Number(Token(Integer, "1"), 1))))))
    ensures Computable(s) && Run(s) == Ok(22)
  {
    NestedQuotientsParse(s);
    var t1 := Number(Token(Integer, "7"), 7);
    var t2 := Number(Token(Integer, "3"), 3);
    var t3 := Number(Token(Integer, "10"), 10);
    var t4 := Number(Token(Integer, "12"), 12);
    var t5 := Number(Token(Integer, "3"), 3);
    var t6 := Number(Token(Integer, "1"), 1);
    var t7 := BinaryOperator(t5, Token(Plus, "+"), t6);
    var t8 := BinaryOperator(t4, Token(Slash, "/"), t7);
    var t9 := Number(Token(Integer, "1"), 1);
    var t10 := BinaryOperator(t8, Token(Minus, "-"), t9);
    var t11 := BinaryOperator(t3, Token(Slash, "/"), t10);
    var t12 := BinaryOperator(t2, Token(Star, "*"), t11);
    var t13 := BinaryOperator(t1, Token(Plus, "+"), t12);
    assert SafeDivisions(t1) && InterpretNode(t1) == 7;
    assert SafeDivisions(t2) && InterpretNode(t2) == 3;
    assert SafeDivisions(t3) && InterpretNode(t3) == 10;
    assert SafeDivisions(t4) && InterpretNode(t4) == 12;
    assert SafeDivisions(t5) && InterpretNode(t5) == 3;
    assert SafeDivisions(t6) && InterpretNode(t6) == 1;
    assert SafeDivisions(t7) && InterpretNode(t7) == 4;
    assert SafeDivisions(t8) && InterpretNode(t8) == 3;
    assert SafeDivisions(t9) && InterpretNode(t9) == 1;
    assert SafeDivisions(t10) && InterpretNode(t10) == 2;
    assert SafeDivisions(t11) && InterpretNode(t11) == 5;
    assert SafeDivisions(t12) && InterpretNode(t12) == 15;
    assert SafeDivisions(t13) && InterpretNode(t13) == 22;
  }

  /** Tokens 1 to 2 of `"7 + 3 * (10 / (12 / (4) - 1)) / (2 + 3) - 5 - 3 + (8)"`. */
  lemma LongLineTokens1(s: string)
    requires s == "7 + 3 *" + " (10 / (" + "12 / (4)" + " - 1)) /" + " (2 + 3)" + " - 5 - 3" + " + (8)"
    ensures Load(s, 0) == Ok(PState(1, Token(Integer, "7")))
    ensures Load(s, 1) == Ok(PState(3, Token(Plus, "+")))
  {
    assert s[0..1] == "7";
    LoadNumber(s, 0, 0, "7");
    LoadSymbol(s, 1, 2, Plus);
  }

  /** Tokens 3 to 4 of `"7 + 3 * (10 / (12 / (4) - 1)) / (2 + 3) - 5 - 3 + (8)"`. */
  lemma LongLineTokens2(s: string)
    requires s == "7 + 3 *" + " (10 / (" + "12 / (4)" + " - 1)) /" + " (2 + 3)" + " - 5 - 3" + " + (8)"
    ensures Load(s, 3) == Ok(PState(5, Token(Integer, "3")))
    ensures Load(s, 5) == Ok(PState(7, Token(Star, "*")))
  {
    assert s[4..5] == "3";
    LoadNumber(s, 3, 4, "3");
    LoadSymbol(s, 5, 6, Star);
  }

  /** Tokens 5 to 6 of `"7 + 3 * (10 / (12 / (4) - 1)) / (2 + 3) - 5 - 3 + (8)"`. */
  lemma LongLineTokens3(s: string)
    requires s == "7 + 3 *" + " (10 / (" + "12 / (4)" + " - 1)) /" + " (2 + 3)" + " - 5 - 3" + " + (8)"
    ensures Load(s, 7) == Ok(PState(9, Token(LParen, "(")))
    ensures Load(s, 9) == Ok(PState(11, Token(Integer, "10")))
  {
    LoadSymbol(s, 7, 8, LParen);
    assert s[9..11] == "10";
    LoadNumber(s, 9, 9, "10");
  }

  /** Tokens 7 to 8 of `"7 + 3 * (10 / (12 / (4) - 1)) / (2 + 3) - 5 - 3 + (8)"`. */
  lemma LongLineTokens4(s: string)
    requires s == "7 + 3 *" + " (10 / (" + "12 / (4)" + " - 1)) /" + " (2 + 3)" + " - 5 - 3" + " + (8)"
    ensures Load(s, 11) == Ok(PState(13, Token(Slash, "/")))
    ensures Load(s, 13) == Ok(PState(15, Token(LParen, "(")))
  {
    LoadSymbol(s, 11, 12, Slash);
    LoadSymbol(s, 13, 14, LParen);
  }

  /** Tokens 9 to 10 of `"7 + 3 * (10 / (12 / (4) - 1)) / (2 + 3) - 5 - 3 + (8)"`. */
  lemma LongLineTokens5(s: string)
    requires s == "7 + 3 *" + " (10 / (" + "12 / (4)" + " - 1)) /" + " (2 + 3)" + " - 5 - 3" + " + (8)"
    ensures Load(s, 15) == Ok(PState(17, Token(Integer, "12")))
    ensures Load(s, 17) == Ok(PState(19, Token(Slash, "/")))
  {
    assert s[15..17] == "12";
    LoadNumber(s, 15, 15, "12");
    LoadSymbol(s, 17, 18, Slash);
  }

  /** Tokens 11 to 12 of `"7 + 3 * (10 / (12 / (4) - 1)) / (2 + 3) - 5 - 3 + (8)"`. */
  lemma LongLineTokens6(s: string)
    requires s == "7 + 3 *" + " (10 / (" + "12 / (4)" + " - 1)) /" + " (2 + 3)" + " - 5 - 3" + " + (8)"
    ensures Load(s, 19) == Ok(PState(21, Token(LParen, "(")))
    ensures Load(s, 21) == Ok(PState(22, Token(Integer, "4")))
  {
    LoadSymbol(s, 19, 20, LParen);
    assert s[21..22] == "4";
    LoadNumber(s, 21, 21, "4");
  }

  /** Tokens 13 to 14 of `"7 + 3 * (10 / (12 / (4) - 1)) / (2 + 3) - 5 - 3 + (8)"`. */
  lemma LongLineTokens7(s: string)
    requires s == "7 + 3 *" + " (10 / (" + "12 / (4)" + " - 1)) /" + " (2 + 3)" + " - 5 - 3" + " + (8)"
    ensures Load(s, 22) == Ok(PState(23, Token(RParen, ")")))
    ensures Load(s, 23) == Ok(PState(25, Token(Minus, "-")))
  {
    LoadSymbol(s, 22, 22, RParen);
    LoadSymbol(s, 23, 24, Minus);
  }

  /** Tokens 15 to 16 of `"7 + 3 * (10 / (12 / (4) - 1)) / (2 + 3) - 5 - 3 + (8)"`. */
  lemma LongLineTokens8(s: string)
    requires s == "7 + 3 *" + " (10 / (" + "12 / (4)" + " - 1)) /" + " (2 + 3)" + " - 5 - 3" + " + (8)"
    ensures Load(s, 25) == Ok(PState(27, Token(Integer, "1")))
    ensures Load(s, 27) == Ok(PState(28, Token(RParen, ")")))
  {
    assert s[26..27] == "1";
    LoadNumber(s, 25, 26, "1");
    LoadSymbol(s, 27, 27, RParen);
  }

  /** Tokens 17 to 18 of `"7 + 3 * (10 / (12 / (4) - 1)) / (2 + 3) - 5 - 3 + (8)"`. */
  lemma LongLineTokens9(s: string)
    requires s == "7 + 3 *" + " (10 / (" + "12 / (4)" + " - 1)) /" + " (2 + 3)" + " - 5 - 3" + " + (8)"
    ensures Load(s, 28) == Ok(PState(29, Token(RParen, ")")))
    ensures Load(s, 29) == Ok(PState(31, Token(Slash, "/")))
  {
    LoadSymbol(s, 28, 28, RParen);
    LoadSymbol(s, 29, 30, Slash);
  }

  /** Tokens 19 to 20 of `"7 + 3 * (10 / (12 / (4) - 1)) / (2 + 3) - 5 - 3 + (8)"`. */
  lemma LongLineTokens10(s: string)
    requires s == "7 + 3 *" + " (10 / (" + "12 / (4)" + " - 1)) /" + " (2 + 3)" + " - 5 - 3" + " + (8)"
    ensures Load(s, 31) == Ok(PState(33, Token(LParen, "(")))
    ensures Load(s, 33) == Ok(PState(34, Token(Integer, "2")))
  {
    LoadSymbol(s, 31, 32, LParen);
    assert s[33..34] == "2";
    LoadNumber(s, 33, 33, "2");
  }

  /** Tokens 21 to 22 of `"7 + 3 * (10 / (12 / (4) - 1)) / (2 + 3) - 5 - 3 + (8)"`. */
  lemma LongLineTokens11(s: string)
    requires s == "7 + 3 *" + " (10 / (" + "12 / (4)" + " - 1)) /" + " (2 + 3)" + " - 5 - 3" + " + (8)"
    ensures Load(s, 34) == Ok(PState(36, Token(Plus, "+")))
    ensures Load(s, 36) == Ok(PState(38, Token(Integer, "3")))
  {
    LoadSymbol(s, 34, 35, Plus);
    assert s[37..38] == "3";
    LoadNumber(s, 36, 37, "3");
  }

  /** Tokens 23 to 24 of `"7 + 3 * (10 / (12 / (4) - 1)) / (2 + 3) - 5 - 3 + (8)"`. */
  lemma LongLineTokens12(s: string)
    requires s == "7 + 3 *" + " (10 / (" + "12 / (4)" + " - 1)) /" + " (2 + 3)" + " - 5 - 3" + " + (8)"
    ensures Load(s, 38) == Ok(PState(39, Token(RParen, ")")))
    ensures Load(s, 39) == Ok(PState(41, Token(Minus, "-")))
  {
    LoadSymbol(s, 38, 38, RParen);
    LoadSymbol(s, 39, 40, Minus);
  }

  /** Tokens 25 to 26 of `"7 + 3 * (10 / (12 / (4) - 1)) / (2 + 3) - 5 - 3 + (8)"`. */
  lemma LongLineTokens13(s: string)
    requires s == "7 + 3 *" + " (10 / (" + "12 / (4)" + " - 1)) /" + " (2 + 3)" + " - 5 - 3" + " + (8)"
    ensures Load(s, 41) == Ok(PState(43, Token(Integer, "5")))
    ensures Load(s, 43) == Ok(PState(45, Token(Minus, "-")))
  {
    assert s[42..43] == "5";
    LoadNumber(s, 41, 42, "5");
    LoadSymbol(s, 43, 44, Minus);
  }

  /** Tokens 27 to 28 of `"7 + 3 * (10 / (12 / (4) - 1)) / (2 + 3) - 5 - 3 + (8)"`. */
  lemma LongLineTokens14(s: string)
    requires s == "7 + 3 *" + " (10 / (" + "12 / (4)" + " - 1)) /" + " (2 + 3)" + " - 5 - 3" + " + (8)"
    ensures Load(s, 45) == Ok(PState(47, Token(Integer, "3")))
    ensures Load(s, 47) == Ok(PState(49, Token(Plus, "+")))
  {
    assert s[46..47] == "3";
    LoadNumber(s, 45, 46, "3");
    LoadSymbol(s, 47, 48, Plus);
  }

  /** Tokens 29 to 30 of `"7 + 3 * (10 / (12 / (4) - 1)) / (2 + 3) - 5 - 3 + (8)"`. */
  lemma LongLineTokens15(s: string)
    requires s == "7 + 3 *" + " (10 / (" + "12 / (4)" + " - 1)) /" + " (2 + 3)" + " - 5 - 3" + " + (8)"
    ensures Load(s, 49) == Ok(PState(51, Token(LParen, "(")))
    ensures Load(s, 51) == Ok(PState(52, Token(Integer, "8")))
  {
    LoadSymbol(s, 49, 50, LParen);
    assert s[51..52] == "8";
    LoadNumber(s, 51, 51, "8");
  }

  /** Tokens 31 to 32 of `"7 + 3 * (10 / (12 / (4) - 1)) / (2 + 3) - 5 - 3 + (8)"`. */
  lemma LongLineTokens16(s: string)
    requires s == "7 + 3 *" + " (10 / (" + "12 / (4)" + " - 1)) /" + " (2 + 3)" + " - 5 - 3" + " + (8)"
    ensures Load(s, 52) == Ok(PState(53, Token(RParen, ")")))
    ensures Load(s, 53) == Ok(PState(53, Token(Eof, "")))
  {
    LoadSymbol(s, 52, 52, RParen);
  }

  /** The parenthesised factor of `"7 + 3 * (10 / (12 / (4) - 1)) / (2 + 3) - 5 - 3 + (8)"` that starts with token 11. */
  lemma LongLineGroup1(s: string)
    requires s == "7 + 3 *" + " (10 / (" + "12 / (4)" + " - 1)) /" + " (2 + 3)" + " - 5 - 3" + " + (8)"
    ensures Factor(s, PState(21, Token(LParen, "("))) == Ok((Number(Token(Integer, "4"), 4), PState(25, Token(Minus, "-"))))
  {
    LongLineTokens6(s);
    LongLineTokens7(s);
    var st10 := PState(21, Token(LParen, "("));
    var st11 := PState(22, Token(Integer, "4"));
    var st12 := PState(23, Token(RParen, ")"));
    var st13 := PState(25, Token(Minus, "-"));
    var t5 := Number(Token(Integer, "4"), 4);
    FactorNumber(s, st11, st12);
    TermOf(s, st11, t5, st12);
    ExprOf(s, st11, t5, st12);
    FactorParenthesised(s, st10, st11, t5, st12, st13);
  }

  /** The parenthesised factor of `"7 + 3 * (10 / (12 / (4) - 1)) / (2 + 3) - 5 - 3 + (8)"` that starts with token 8. */
  lemma LongLineGroup2(s: string)
    requires s == "7 + 3 *" + " (10 / (" + "12 / (4)" + " - 1)) /" + " (2 + 3)" + " - 5 - 3" + " + (8)"
    ensures Factor(s, PState(15, Token(LParen, "("))) == Ok((BinaryOperator(BinaryOperator(Number(Token(Integer, "12"), 12), Token(Slash, "/"), Number(Token(Integer, "4"), 4)), Token(Minus, "-"), Number(Token(Integer, "1"), 1)), PState(29, Token(RParen, ")"))))
  {
    LongLineTokens4(s);
    LongLineTokens5(s);
    LongLineTokens6(s);
    LongLineTokens7(s);
    LongLineTokens8(s);
    LongLineTokens9(s);
    var st7 := PState(15, Token(LParen, "("));
    var st8 := PState(17, Token(Integer, "12"));
    var st9 := PState(19, Token(Slash, "/"));
    var st10 := PState(21, Token(LParen, "("));
    var st13 := PState(25, Token(Minus, "-"));
    var st14 := PState(27, Token(Integer, "1"));
    var st15 := PState(28, Token(RParen, ")"));
    var st16 := PState(29, Token(RParen, ")"));
    var t4 := Number(Token(Integer, "12"), 12);
    FactorNumber(s, st8, st9);
    TermOf(s, st8, t4, st9);
    LongLineGroup1(s);
    var t5 := Number(Token(Integer, "4"), 4);
    TermRestStep(s, st9, t4, Token(Slash, "/"), st10, t5, st13);
    var t6 := BinaryOperator(t4, Token(Slash, "/"), t5);
    ExprOf(s, st8, t6, st13);
    var t7 := Number(Token(Integer, "1"), 1);
    FactorNumber(s, st14, st15);
    TermOf(s, st14, t7, st15);
    ExprRestStep(s, st13, t6, Token(Minus, "-"), st14, t7, st15);
    var t8 := BinaryOperator(t6, Token(Minus, "-"), t7);
    FactorParenthesised(s, st7, st8, t8, st15, st16);
  }

  /** The parenthesised factor of `"7 + 3 * (10 / (12 / (4) - 1)) / (2 + 3) - 5 - 3 + (8)"` that starts with token 5. */
  lemma LongLineGroup3(s: string)
    requires s == "7 + 3 *" + " (10 / (" + "12 / (4)" + " - 1)) /" + " (2 + 3)" + " - 5 - 3" + " + (8)"
    ensures Factor(s, PState(9, Token(LParen, "("))) == Ok((BinaryOperator(Number(Token(Integer, "10"), 10), Token(Slash, "/"), BinaryOperator(BinaryOperator(Number(Token(Integer, "12"), 12), Token(Slash, "/"), Number(Token(Integer, "4"), 4)), Token(Minus, "-"), Number(Token(Integer, "1"), 1))), PState(31, Token(Slash, "/"))))
  {
    LongLineTokens3(s);
    LongLineTokens4(s);
    LongLineTokens9(s);
    var st4 := PState(9, Token(LParen, "("));
    var st5 := PState(11, Token(Integer, "10"));
    var st6 := PState(13, Token(Slash, "/"));
    var st7 := PState(15, Token(LParen, "("));
    var st16 := PState(29, Token(RParen, ")"));
    var st17 := PState(31, Token(Slash, "/"));
    var t3 := Number(Token(Integer, "10"), 10);
    FactorNumber(s, st5, st6);
    TermOf(s, st5, t3, st6);
    LongLineGroup2(s);
    var t8 := BinaryOperator(BinaryOperator(Number(Token(Integer, "12"), 12), Token(Slash, "/"), Number(Token(Integer, "4"), 4)), Token(Minus, "-"), Number(Token(Integer, "1"), 1));
    TermRestStep(s, st6, t3, Token(Slash, "/"), st7, t8, st16);
    var t9 := BinaryOperator(t3, Token(Slash, "/"), t8);
    ExprOf(s, st5, t9, st16);
    FactorParenthesised(s, st4, st5, t9, st16, st17);
  }

  /** The parenthesised factor of `"7 + 3 * (10 / (12 / (4) - 1)) / (2 + 3) - 5 - 3 + (8)"` that starts with token 19. */
  lemma LongLineGroup4(s: string)
    requires s == "7 + 3 *" + " (10 / (" + "12 / (4)" + " - 1)) /" + " (2 + 3)" + " - 5 - 3" + " + (8)"
    ensures Factor(s, PState(33, Token(LParen, "("))) == Ok((BinaryOperator(Number(Token(Integer, "2"), 2), Token(Plus, "+"), Number(Token(Integer, "3"), 3)), PState(41, Token(Minus, "-"))))
  {
    LongLineTokens10(s);
    LongLineTokens11(s);
    LongLineTokens12(s);
    var st18 := PState(33, Token(LParen, "("));
    var st19 := PState(34, Token(Integer, "2"));
    var st20 := PState(36, Token(Plus, "+"));
    var st21 := PState(38, Token(Integer, "3"));
    var st22 := PState(39, Token(RParen, ")"));
    var st23 := PState(41, Token(Minus, "-"));
    var t11 := Number(Token(Integer, "2"), 2);
    FactorNumber(s, st19, st20);
    TermOf(s, st19, t11, st20);
    ExprOf(s, st19, t11, st20);
    var t12 := Number(Token(Integer, "3"), 3);
    FactorNumber(s, st21, st22);
    TermOf(s, st21, t12, st22);
    ExprRestStep(s, st20, t11, Token(Plus, "+"), st21, t12, st22);
    var t13 := BinaryOperator(t11, Token(Plus, "+"), t12);
    FactorParenthesised(s, st18, st19, t13, st22, st23);
  }

  /** The term of `"7 + 3 * (10 / (12 / (4) - 1)) / (2 + 3) - 5 - 3 + (8)"` that starts with token 3. */
  lemma LongLineGroup5(s: string)
    requires s == "7 + 3 *" + " (10 / (" + "12 / (4)" + " - 1)) /" + " (2 + 3)" + " - 5 - 3" + " + (8)"
    ensures Term(s, PState(5, Token(Integer, "3"))) == Ok((BinaryOperator(BinaryOperator(Number(Token(Integer, "3"), 3), Token(Star, "*"), BinaryOperator(Number(Token(Integer, "10"), 10), Token(Slash, "/"), BinaryOperator(BinaryOperator(Number(Token(Integer, "12"), 12), Token(Slash, "/"), Number(Token(Integer, "4"), 4)), Token(Minus, "-"), Number(Token(Integer, "1"), 1)))), Token(Slash, "/"), BinaryOperator(Number(Token(Integer, "2"), 2), Token(Plus, "+"), Number(Token(Integer, "3"), 3))), PState(41, Token(Minus, "-"))))
  {
    LongLineTokens2(s);
    LongLineTokens3(s);
    LongLineTokens9(s);
    LongLineTokens10(s);
    LongLineTokens12(s);
    var st2 := PState(5, Token(Integer, "3"));
    var st3 := PState(7, Token(Star, "*"));
    var st4 := PState(9, Token(LParen, "("));
    var st17 := PState(31, Token(Slash, "/"));
    var st18 := PState(33, Token(LParen, "("));
    var st23 := PState(41, Token(Minus, "-"));
    var t2 := Number(Token(Integer, "3"), 3);
    FactorNumber(s, st2, st3);
    TermOf(s, st2, t2, st3);
    LongLineGroup3(s);
    var t9 := BinaryOperator(Number(Token(Integer, "10"), 10), Token(Slash, "/"), BinaryOperator(BinaryOperator(Number(Token(Integer, "12"), 12), Token(Slash, "/"), Number(Token(Integer, "4"), 4)), Token(Minus, "-"), Number(Token(Integer, "1"), 1)));
    TermRestStep(s, st3, t2, Token(Star, "*"), st4, t9, st17);
    var t10 := BinaryOperator(t2, Token(Star, "*"), t9);
    LongLineGroup4(s);
    var t13 := BinaryOperator(Number(Token(Integer, "2"), 2), Token(Plus, "+"), Number(Token(Integer, "3"), 3));
    TermRestStep(s, st17, t10, Token(Slash, "/"), st18, t13, st23);
    var t14 := BinaryOperator(t10, Token(Slash, "/"), t13);
  }

  /** The parenthesised factor of `"7 + 3 * (10 / (12 / (4) - 1)) / (2 + 3) - 5 - 3 + (8)"` that starts with token 29. */
  lemma LongLineGroup6(s: string)
    requires s == "7 + 3 *" + " (10 / (" + "12 / (4)" + " - 1)) /" + " (2 + 3)" + " - 5 - 3" + " + (8)"
    ensures Factor(s, PState(51, Token(LParen, "("))) == Ok((Number(Token(Integer, "8"), 8), PState(53, Token(Eof, ""))))
  {
    LongLineTokens15(s);
    LongLineTokens16(s);
    var st28 := PState(51, Token(LParen, "("));
    var st29 := PState(52, Token(Integer, "8"));
    var st30 := PState(53, Token(RParen, ")"));
    var st31 := PState(53, Token(Eof, ""));
    var t20 := Number(Token(Integer, "8"), 8);
    FactorNumber(s, st29, st30);
    TermOf(s, st29, t20, st30);
    ExprOf(s, st29, t20, st30);
    FactorParenthesised(s, st28, st29, t20, st30, st31);
  }

  /** The last operands of `"7 + 3 * (10 / (12 / (4) - 1)) / (2 + 3) - 5 - 3 + (8)"`, from token 24 on. */
  lemma LongLineGroup7(s: string)
    requires s == "7 + 3 *" + " (10 / (" + "12 / (4)" + " - 1)) /" + " (2 + 3)" + " - 5 - 3" + " + (8)"
    ensures ExprRest(s, PState(41, Token(Minus, "-")), BinaryOperator(Number(Token(Integer, "7"), 7), Token(Plus, "+"), BinaryOperator(BinaryOperator(Number(Token(Integer, "3"), 3), Token(Star, "*"), BinaryOperator(Number(Token(Integer, "10"), 10), Token(Slash, "/"), BinaryOperator(BinaryOperator(Number(Token(Integer, "12"), 12), Token(Slash, "/"), Number(Token(Integer, "4"), 4)), Token(Minus, "-"), Number(Token(Integer, "1"), 1)))), Token(Slash, "/"), BinaryOperator(Number(Token(Integer, "2"), 2), Token(Plus, "+"), Number(Token(Integer, "3"), 3))))) == Ok((BinaryOperator(BinaryOperator(BinaryOperator(BinaryOperator(Number(Token(Integer, "7"), 7), Token(Plus, "+"), BinaryOperator(BinaryOperator(Number(Token(Integer, "3"), 3), Token(Star, "*"), BinaryOperator(Number(Token(Integer, "10"), 10), Token(Slash, "/"), BinaryOperator(BinaryOperator(Number(Token(Integer, "12"), 12), Token(Slash, "/"), Number(Token(Integer, "4"), 4)), Token(Minus, "-"), Number(Token(Integer, "1"), 1)))), Token(Slash, "/"), BinaryOperator(Number(Token(Integer, "2"), 2), Token(Plus, "+"), Number(Token(Integer, "3"), 3)))), Token(Minus, "-"), Number(Token(Integer, "5"), 5)), Token(Minus, "-"), Number(Token(Integer, "3"), 3)), Token(Plus, "+"), Number(Token(Integer, "8"), 8)), PState(53, Token(Eof, ""))))
  {
    LongLineTokens12(s);
    LongLineTokens13(s);
    LongLineTokens14(s);
    LongLineTokens15(s);
    LongLineTokens16(s);
    var st23 := PState(41, Token(Minus, "-"));
    var st24 := PState(43, Token(Integer, "5"));
    var st25 := PState(45, Token(Minus, "-"));
    var st26 := PState(47, Token(Integer, "3"));
    var st27 := PState(49, Token(Plus, "+"));
    var st28 := PState(51, Token(LParen, "("));
    var st31 := PState(53, Token(Eof, ""));
    var t15 := BinaryOperator(Number(Token(Integer, "7"), 7), Token(Plus, "+"), BinaryOperator(BinaryOperator(Number(Token(Integer, "3"), 3), Token(Star, "*"), BinaryOperator(Number(Token(Integer, "10"), 10), Token(Slash, "/"), BinaryOperator(BinaryOperator(Number(Token(Integer, "12"), 12), Token(Slash, "/"), Number(Token(Integer, "4"), 4)), Token(Minus, "-"), Number(Token(Integer, "1"), 1)))), Token(Slash, "/"), BinaryOperator(Number(Token(Integer, "2"), 2), Token(Plus, "+"), Number(Token(Integer, "3"), 3))));
    var t16 := Number(Token(Integer, "5"), 5);
    FactorNumber(s, st24, st25);
    TermOf(s, st24, t16, st25);
    ExprRestStep(s, st23, t15, Token(Minus, "-"), st24, t16, st25);
    var t17 := BinaryOperator(t15, Token(Minus, "-"), t16);
    var t18 := Number(Token(Integer, "3"), 3);
    FactorNumber(s, st26, st27);
    TermOf(s, st26, t18, st27);
    ExprRestStep(s, st25, t17, Token(Minus, "-"), st26, t18, st27);
    var t19 := BinaryOperator(t17, Token(Minus, "-"), t18);
    LongLineGroup6(s);
    var t20 := Number(Token(Integer, "8"), 8);
    TermOf(s, st28, t20, st31);
    ExprRestStep(s, st27, t19, Token(Plus, "+"), st28, t20, st31);
    var t21 := BinaryOperator(t19, Token(Plus, "+"), t20);
  }

  /** The derivation of `"7 + 3 * (10 / (12 / (4) - 1)) / (2 + 3) - 5 - 3 + (8)"` */
  lemma LongLineParse(s: string)
    requires s == "7 + 3 *" + " (10 / (" + "12 / (4)" + " - 1)) /" + " (2 + 3)" + " - 5 - 3" + " + (8)"
    ensures ParseSource(s) == Ok(BinaryOperator(BinaryOperator(BinaryOperator(BinaryOperator(Number(Token(Integer, "7"), 7), Token(Plus, "+"), BinaryOperator(BinaryOperator(Number(Token(Integer, "3"), 3), Token(Star, "*"), BinaryOperator(Number(Token(Integer, "10"), 10), Token(Slash, "/"), BinaryOperator(BinaryOperator(Number(Token(Integer, "12"), 12), Token(Slash, "/"), Number(Token(Integer, "4"), 4)), Token(Minus, "-"), Number(Token(Integer, "1"), 1)))), Token(Slash, "/"), BinaryOperator(Number(Token(Integer, "2"), 2), Token(Plus, "+"), Number(Token(Integer, "3"), 3)))), Token(Minus, "-"), Number(Token(Integer, "5"), 5)), Token(Minus, "-"), Number(Token(Integer, "3"), 3)), Token(Plus, "+"), Number(Token(Integer, "8"), 8)))
  {
    LongLineTokens1(s);
    LongLineTokens2(s);
    LongLineTokens12(s);
    LongLineTokens16(s);
    var st0 := PState(1, Token(Integer, "7"));
    var st1 := PState(3, Token(Plus, "+"));
    var st2 := PState(5, Token(Integer, "3"));
    var st23 := PState(41, Token(Minus, "-"));
    var st31 := PState(53, Token(Eof, ""));
    var t1 := Number(Token(Integer, "7"), 7);
    FactorNumber(s, st0, st1);
    TermOf(s, st0, t1, st1);
    ExprOf(s, st0, t1, st1);
    LongLineGroup5(s);
    var t14 := BinaryOperator(BinaryOperator(Number(Token(Integer, "3"), 3), Token(Star, "*"), BinaryOperator(Number(Token(Integer, "10"), 10), Token(Slash, "/"), BinaryOperator(BinaryOperator(Number(Token(Integer, "12"), 12), Token(Slash, "/"), Number(Token(Integer, "4"), 4)), Token(Minus, "-"), Number(Token(Integer, "1"), 1)))), Token(Slash, "/"), BinaryOperator(Number(Token(Integer, "2"), 2), Token(Plus, "+"), Number(Token(Integer, "3"), 3)));
    ExprRestStep(s, st1, t1, Token(Plus, "+"), st2, t14, st23);
    var t15 := BinaryOperator(t1, Token(Plus, "+"), t14);
    LongLineGroup7(s);
    var t21 := BinaryOperator(BinaryOperator(BinaryOperator(BinaryOperator(Number(Token(Integer, "7"), 7), Token(Plus, "+"), BinaryOperator(BinaryOperator(Number(Token(Integer, "3"), 3), Token(Star, "*"), BinaryOperator(Number(Token(Integer, "10"), 10), Token(Slash, "/"), BinaryOperator(BinaryOperator(Number(Token(Integer, "12"), 12), Token(Slash, "/"), Number(Token(Integer, "4"), 4)), Token(Minus, "-"), Number(Token(Integer, "1"), 1)))), Token(Slash, "/"), BinaryOperator(Number(Token(Integer, "2"), 2), Token(Plus, "+"), Number(Token(Integer, "3"), 3)))), Token(Minus, "-"), Number(Token(Integer, "5"), 5)), Token(Minus, "-"), Number(Token(Integer, "3"), 3)), Token(Plus, "+"), Number(Token(Integer, "8"), 8));
    WholeParse(s, st0, t21, st31);
  }

  /** `"7 + 3 * (10 / (12 / (4) - 1)) / (2 + 3) - 5 - 3 + (8)"`: `*` and `/` fold to the left inside the second operand; evaluates to 10. */
  lemma LongLine(s: string)
    requires s == "7 + 3 *" + " (10 / (" + "12 / (4)" + " - 1)) /" + " (2 + 3)" + " - 5 - 3" + " + (8)"
    ensures ParseSource(s) == Ok(BinaryOperator(BinaryOperator(BinaryOperator(BinaryOperator(Number(Token(Integer, "7"), 7), Token(Plus, "+"), BinaryOperator(BinaryOperator(Number(Token(Integer, "3"), 3), Token(Star, "*"), BinaryOperator(Number(Token(Integer, "10"), 10), Token(Slash, "/"), BinaryOperator(BinaryOperator(Number(Token(Integer, "12"), 12), Token(Slash, "/"), Number(Token(Integer, "4"), 4)), Token(Minus, "-"), Number(Token(Integer, "1"), 1)))), Token(Slash, "/"), BinaryOperator(Number(Token(Integer, "2"), 2), Token(Plus, "+"), Number(Token(Integer, "3"), 3)))), Token(Minus, "-"), Number(Token(Integer, "5"), 5)), Token(Minus, "-"), Number(Token(Integer, "3"), 3)), Token(Plus, "+"), Number(Token(Integer, "8"), 8)))
    ensures Computable(s) && Run(s) == Ok(10)
  {
    LongLineParse(s);
    var t1 := Number(Token(Integer, "7"), 7);
    var t2 := Number(Token(Integer, "3"), 3);
    var t3 := Number(Token(Integer, "10"), 10);
    var t4 := Number(Token(Integer, "12"), 12);
    var t5 := Number(Token(Integer, "4"), 4);
    var t6 := BinaryOperator(t4, Token(Slash, "/"), t5);
    var t7 := Number(Token(Integer, "1"), 1);
    var t8 := BinaryOperator(t6, Token(Minus, "-"), t7);
    var t9 := BinaryOperator(t3, Token(Slash, "/"), t8);
    var t10 := BinaryOperator(t2, Token(Star, "*"), t9);
    var t11 := Number(Token(Integer, "2"), 2);
    var t12 := Number(Token(Integer, "3"), 3);
    var t13 := BinaryOperator(t11, Token(Plus, "+"), t12);
    var t14 := BinaryOperator(t10, Token(Slash, "/"), t13);
    var t15 := BinaryOperator(t1, Token(Plus, "+"), t14);
    var t16 := Number(Token(Integer, "5"), 5);
    var t17 := BinaryOperator(t15, Token(Minus, "-"), t16);
    var t18 := Number(Token(Integer, "3"), 3);
    var t19 := BinaryOperator(t17, Token(Minus, "-"), t18);
    var t20 := Number(Token(Integer, "8"), 8);
    var t21 := BinaryOperator(t19, Token(Plus, "+"), t20);
    assert SafeDivisions(t1) && InterpretNode(t1) == 7;
    assert SafeDivisions(t2) && InterpretNode(t2) == 3;
    assert SafeDivisions(t3) && InterpretNode(t3) == 10;
    assert SafeDivisions(t4) && InterpretNode(t4) == 12;
    assert SafeDivisions(t5) && InterpretNode(t5) == 4;
    assert SafeDivisions(t6) && InterpretNode(t6) == 3;
    assert SafeDivisions(t7) && InterpretNode(t7) == 1;
    assert SafeDivisions(t8) && InterpretNode(t8) == 2;
    assert SafeDivisions(t9) && InterpretNode(t9) == 5;
    assert SafeDivisions(t10) && InterpretNode(t10) == 15;
    assert SafeDivisions(t11) && InterpretNode(t11) == 2;
    assert SafeDivisions(t12) && InterpretNode(t12) == 3;
    assert SafeDivisions(t13) && InterpretNode(t13) == 5;
    assert SafeDivisions(t14) && InterpretNode(t14) == 3;
    assert SafeDivisions(t15) && InterpretNode(t15) == 10;
    assert SafeDivisions(t16) && InterpretNode(t16) == 5;
    assert SafeDivisions(t17) && InterpretNode(t17) == 5;
    assert SafeDivisions(t18) && InterpretNode(t18) == 3;
    assert SafeDivisions(t19) && InterpretNode(t19) == 2;
    assert SafeDivisions(t20) && InterpretNode(t20) == 8;
    assert SafeDivisions(t21) && InterpretNode(t21) == 10;
  }

}
