/** The parser as functions of the source line and a parser state.  Each function is
    one method of the parser: it takes the state before the call and returns the
    tree (or token) and the state after it, or the first error. */
module Grammar {
  import opened Chars
  import opened Tokens
  import opened Errors
  import opened Syntax
  import opened Lexing

  /** The parser state: the scanner's character position and the one lookahead token. */
  datatype PState = PState(pos: nat, current: Token)

  /** A state that can arise on source `s`: the lookahead is a scanner token, and an
      Eof lookahead means the scanner has reached the end of the line. */
  predicate Fits(s: string, st: PState) {
    st.pos <= |s| && CanonicalToken(st.current) && (st.current.kind == Eof ==> st.pos == |s|)
  }

  /** Characters not yet scanned, plus one while the lookahead is not Eof.  Consuming
      a token other than Eof makes it strictly smaller. */
  function Measure(s: string, st: PState): nat
    requires st.pos <= |s|
  {
    |s| - st.pos + (if st.current.kind == Eof then 0 else 1)
  }

  /** `st2` lies at or after `st1` on `s`. */
  predicate NoEarlier(s: string, st1: PState, st2: PState)
    requires Fits(s, st1)
  {
    Fits(s, st2) && st1.pos <= st2.pos && Measure(s, st2) <= Measure(s, st1)
  }

  /** `st2` lies after `st1` on `s`, having consumed at least one token. */
  predicate Later(s: string, st1: PState, st2: PState)
    requires Fits(s, st1)
  {
    Fits(s, st2) && st1.pos <= st2.pos && Measure(s, st2) < Measure(s, st1)
  }

  /** Pair a result with a state, dropping the state on failure. */
  function WithState<T>(r: Result<T>, st: PState): Result<(T, PState)> {
    match r
    case Ok(v) => Ok((v, st))
    case Err(e) => Err(e)
  }

  /** The state after scanning one token from character `i`. */
  function Load(s: string, i: nat): (r: Result<PState>)
    requires i <= |s|
    ensures r.Ok? ==> Fits(s, r.value) && i <= r.value.pos
    ensures r.Ok? && r.value.current.kind != Eof ==> i < r.value.pos
    ensures r.Err? <==> Scan(s, i).Err?
    ensures r.Err? ==> r.error == Scan(s, i).error
    ensures r.Ok? ==> r.value == PState(Scan(s, i).value.1, Scan(s, i).value.0)
  {
    var scanned :- Scan(s, i);
    Ok(PState(scanned.1, scanned.0))
  }

  /** `Parser::new`: prime the lookahead with the first token of the line. */
  function Start(s: string): (r: Result<PState>)
    ensures r.Ok? ==> Fits(s, r.value)
    ensures r.Err? <==> Scan(s, 0).Err?
    ensures r.Err? ==> r.error == Scan(s, 0).error
    ensures r.Ok? ==> r.value == PState(Scan(s, 0).value.1, Scan(s, 0).value.0)
  {
    Load(s, 0)
  }

  /** `Parser::advance`: hand out the lookahead and scan the next one. */
  function Advance(s: string, st: PState): (r: Result<(Token, PState)>)
    requires Fits(s, st)
    ensures r.Ok? ==> r.value.0 == st.current && NoEarlier(s, st, r.value.1)
    ensures r.Ok? && st.current.kind != Eof ==> Later(s, st, r.value.1)
    ensures r.Err? ==> Scan(s, st.pos).Err? && r.error == Scan(s, st.pos).error
    ensures Scan(s, st.pos).Err? ==> r.Err?
  {
    var next :- Load(s, st.pos);
    Ok((st.current, next))
  }

  /** `Parser::try_match`: is the lookahead one of the expected kinds? */
  predicate TryMatch(st: PState, expected: seq<Kind>) {
    st.current.kind in expected
  }

  /** `Parser::eat_alt`: consume the lookahead if it is expected, otherwise report it
      with the scanner position and the whole expected set. */
  function EatAlt(s: string, st: PState, expected: seq<Kind>): (r: Result<(Token, PState)>)
    requires Fits(s, st)
    ensures r.Ok? ==> st.current.kind in expected && r == Advance(s, st)
    ensures st.current.kind in expected ==> r == Advance(s, st)
    ensures st.current.kind !in expected ==> r == Err(UnexpectedToken(st.current, st.pos, expected))
  {
    if TryMatch(st, expected) then Advance(s, st)
    else Err(UnexpectedToken(st.current, st.pos, expected))
  }

  /** `Parser::eat`: `eat_alt` with one expected kind. */
  function Eat(s: string, st: PState, kind: Kind): (r: Result<(Token, PState)>)
    requires Fits(s, st)
    ensures r.Ok? ==> st.current.kind == kind && r == Advance(s, st)
    ensures st.current.kind == kind ==> r == Advance(s, st)
    ensures st.current.kind != kind ==> r == Err(UnexpectedToken(st.current, st.pos, [kind]))
  {
    EatAlt(s, st, [kind])
  }

  /** The kinds that can start a factor, in the order the error reports them. */
  const FactorStart: seq<Kind> := [Integer, Minus, LParen]

  /** `factor := MINUS factor | INTEGER | LPAREN expr RPAREN`. */
  function Factor(s: string, st: PState): (r: Result<(Ast, PState)>)
    requires Fits(s, st)
    ensures r.Ok? ==> Later(s, st, r.value.1) && Canonical(r.value.0)
    ensures st.current.kind !in FactorStart ==> r == Err(UnexpectedToken(st.current, st.pos, FactorStart))
    decreases Measure(s, st), 0
  {
    if st.current.kind == Minus then
      var next :- Advance(s, st);
      var child :- Factor(s, next.1);
      Ok((UnaryOperator(st.current, child.0), child.1))
    else if st.current.kind == Integer then
      var next :- Advance(s, st);
      Ok((Number(st.current, DecimalValue(st.current.lexeme)), next.1))
    else if st.current.kind == LParen then
      var next :- Advance(s, st);
      var inner :- Expr(s, next.1);
      var close :- Eat(s, inner.1, RParen);
      Ok((inner.0, close.1))
    else
      Err(UnexpectedToken(st.current, st.pos, FactorStart))
  }

  /** The loop of `term`: fold `(STAR|SLASH) factor` onto `acc` while the lookahead allows. */
  function TermRest(s: string, st: PState, acc: Ast): (r: Result<(Ast, PState)>)
    requires Fits(s, st)
    ensures r.Ok? ==> NoEarlier(s, st, r.value.1)
    ensures r.Ok? && Canonical(acc) ==> Canonical(r.value.0)
    ensures r.Ok? ==> !TryMatch(r.value.1, [Star, Slash])
    ensures !TryMatch(st, [Star, Slash]) ==> r == Ok((acc, st))
    decreases Measure(s, st), 1
  {
    if TryMatch(st, [Star, Slash]) then
      var op :- Advance(s, st);
      var right :- Factor(s, op.1);
      TermRest(s, right.1, BinaryOperator(acc, op.0, right.0))
    else
      Ok((acc, st))
  }

  /** `term := factor ((STAR|SLASH) factor)*`. */
  function Term(s: string, st: PState): (r: Result<(Ast, PState)>)
    requires Fits(s, st)
    ensures r.Ok? ==> Later(s, st, r.value.1) && Canonical(r.value.0)
    decreases Measure(s, st), 1
  {
    var first :- Factor(s, st);
    TermRest(s, first.1, first.0)
  }

  /** The loop of `expr`: fold `(PLUS|MINUS) term` onto `acc` while the lookahead allows. */
  function ExprRest(s: string, st: PState, acc: Ast): (r: Result<(Ast, PState)>)
    requires Fits(s, st)
    ensures r.Ok? ==> NoEarlier(s, st, r.value.1)
    ensures r.Ok? && Canonical(acc) ==> Canonical(r.value.0)
    ensures r.Ok? ==> !TryMatch(r.value.1, [Plus, Minus])
    ensures !TryMatch(st, [Plus, Minus]) ==> r == Ok((acc, st))
    decreases Measure(s, st), 2
  {
    if TryMatch(st, [Plus, Minus]) then
      var op :- Advance(s, st);
      var right :- Term(s, op.1);
      ExprRest(s, right.1, BinaryOperator(acc, op.0, right.0))
    else
      Ok((acc, st))
  }

  /** `expr := term ((PLUS|MINUS) term)*`. */
  function Expr(s: string, st: PState): (r: Result<(Ast, PState)>)
    requires Fits(s, st)
    ensures r.Ok? ==> Later(s, st, r.value.1) && Canonical(r.value.0)
    decreases Measure(s, st), 2
  {
    var first :- Term(s, st);
    ExprRest(s, first.1, first.0)
  }

  /** `Parser::parse`: an expression followed by the end of the line. */
  function Parse(s: string, st: PState): (r: Result<(Ast, PState)>)
    requires Fits(s, st)
    ensures r.Ok? ==> Canonical(r.value.0) && r.value.1.current.kind == Eof && r.value.1.pos == |s|
    ensures r.Ok? <==> Expr(s, st).Ok? && Expr(s, st).value.1.current.kind == Eof
    ensures Expr(s, st).Ok? && Expr(s, st).value.1.current.kind != Eof ==>
      r == Err(UnexpectedToken(Expr(s, st).value.1.current, Expr(s, st).value.1.pos, [Eof]))
  {
    var e :- Expr(s, st);
    var end :- Eat(s, e.1, Eof);
    Ok((e.0, end.1))
  }

  /** `Parser::new(s)` followed by `parse()`. */
  function ParseSource(s: string): (r: Result<Ast>)
    ensures r.Ok? ==> Canonical(r.value) && WellFormed(r.value)
  {
    var st :- Start(s);
    var p :- Parse(s, st);
    CanonicalIsWellFormed(p.0);
    Ok(p.0)
  }
}
