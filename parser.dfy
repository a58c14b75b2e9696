/** The recursive-descent parser: a scanner plus one lookahead token.  `New` is proved
    to build the state `Grammar.Start` describes, the function `TryMatch` reads only the
    lookahead, and every other method is proved to compute the `Grammar` function of the
    same name from the state it starts in. */
module Parsing {
  import opened Tokens
  import opened Errors
  import opened Syntax
  import opened Lexing
  import Grammar

  class Parser {
    const lexer: Lexer
    var currentToken: Token

    ghost predicate Valid()
      reads this, lexer
    {
      lexer.Valid() && Grammar.Fits(lexer.source, State())
    }

    /** The abstract state: the scanner position and the lookahead. */
    ghost function State(): Grammar.PState
      reads this, lexer
    {
      Grammar.PState(lexer.pos, currentToken)
    }

    ghost function Measure(): nat
      reads this, lexer
      requires Valid()
    {
      Grammar.Measure(lexer.source, State())
    }

    constructor Init(lexer: Lexer, currentToken: Token)
      ensures this.lexer == lexer && this.currentToken == currentToken
    {
      this.lexer := lexer;
      this.currentToken := currentToken;
    }

    /** `Parser::new`: a fresh scanner over `source` and its first token, or the
        scanner's failure unchanged. */
    static method New(source: string) returns (r: Result<Parser>)
      ensures r.Ok? <==> Grammar.Start(source).Ok?
      ensures r.Ok? ==> && fresh(r.value) && fresh(r.value.lexer)
                        && r.value.lexer.source == source && r.value.Valid()
                        && r.value.State() == Grammar.Start(source).value
      ensures r.Err? ==> r.error == Grammar.Start(source).error
    {
      var lexer := new Lexer(source);
      var current :- lexer.NextToken();
      var parser := new Parser.Init(lexer, current);
      return Ok(parser);
    }

    /** `Parser::advance`. */
    method Advance() returns (r: Result<Token>)
      requires Valid()
      modifies this, lexer
      ensures Valid()
      ensures Grammar.WithState(r, State()) == Grammar.Advance(lexer.source, old(State()))
    {
      var token := currentToken;
      var next :- lexer.NextToken();
      currentToken := next;
      return Ok(token);
    }

    /** `Parser::try_match`: reads the lookahead and changes nothing. */
    function TryMatch(expected: seq<Kind>): (matched: bool)
      reads this
      ensures matched <==> currentToken.kind in expected
    {
      currentToken.kind in expected
    }

    /** `Parser::eat_alt`.  On a mismatch the state is left as it was. */
    method EatAlt(expected: seq<Kind>) returns (r: Result<Token>)
      requires Valid()
      modifies this, lexer
      ensures Valid()
      ensures Grammar.WithState(r, State()) == Grammar.EatAlt(lexer.source, old(State()), expected)
      ensures old(currentToken.kind) !in expected ==> State() == old(State())
    {
      if TryMatch(expected) {
        r := Advance();
      } else {
        r := Err(UnexpectedToken(currentToken, lexer.Pos(), expected));
      }
    }

    /** `Parser::eat`. */
    method Eat(expected: Kind) returns (r: Result<Token>)
      requires Valid()
      modifies this, lexer
      ensures Valid()
      ensures Grammar.WithState(r, State()) == Grammar.Eat(lexer.source, old(State()), expected)
      ensures old(currentToken.kind) != expected ==> State() == old(State())
    {
      r := EatAlt([expected]);
    }

    /** `factor := MINUS factor | INTEGER | LPAREN expr RPAREN`. */
    method Factor() returns (r: Result<Ast>)
      requires Valid()
      modifies this, lexer
      ensures Valid()
      ensures Grammar.WithState(r, State()) == Grammar.Factor(lexer.source, old(State()))
      decreases Measure(), 0
    {
      if currentToken.kind == Minus {
        var token := currentToken;
        var minus :- Advance();
        var child :- Factor();
        return Ok(UnaryOperator(token, child));
      } else if currentToken.kind == Kind.Integer {
        var token := currentToken;
        var integer :- Advance();
        return Ok(Number(token, Chars.DecimalValue(token.lexeme)));
      } else if currentToken.kind == LParen {
        var open :- Advance();
        var result :- Expr();
        var close :- Eat(RParen);
        return Ok(result);
      } else {
        return Err(UnexpectedToken(currentToken, lexer.Pos(), [Kind.Integer, Minus, LParen]));
      }
    }

    /** `term := factor ((STAR|SLASH) factor)*`, folded to the left. */
    method Term() returns (r: Result<Ast>)
      requires Valid()
      modifies this, lexer
      ensures Valid()
      ensures Grammar.WithState(r, State()) == Grammar.Term(lexer.source, old(State()))
      decreases Measure(), 1
    {
      var value :- Factor();
      while TryMatch([Star, Slash])
        invariant Valid()
        invariant Grammar.Measure(lexer.source, State()) < Grammar.Measure(lexer.source, old(State()))
        invariant Grammar.TermRest(lexer.source, State(), value) == Grammar.Term(lexer.source, old(State()))
        decreases Measure()
      {
        ghost var before := State();
        var op :- Advance();
        assert op == before.current;
        var right :- Factor();
        value := BinaryOperator(value, op, right);
      }
      return Ok(value);
    }

    /** `expr := term ((PLUS|MINUS) term)*`, folded to the left. */
    method Expr() returns (r: Result<Ast>)
      requires Valid()
      modifies this, lexer
      ensures Valid()
      ensures Grammar.WithState(r, State()) == Grammar.Expr(lexer.source, old(State()))
      decreases Measure(), 2
    {
      var value :- Term();
      while TryMatch([Plus, Minus])
        invariant Valid()
        invariant Grammar.Measure(lexer.source, State()) < Grammar.Measure(lexer.source, old(State()))
        invariant Grammar.ExprRest(lexer.source, State(), value) == Grammar.Expr(lexer.source, old(State()))
        decreases Measure()
      {
        ghost var before := State();
        var op :- Advance();
        assert op == before.current;
        var right :- Term();
        value := BinaryOperator(value, op, right);
      }
      return Ok(value);
    }

    /** `Parser::parse`: an expression, then the end of the line. */
    method Parse() returns (r: Result<Ast>)
      requires Valid()
      modifies this, lexer
      ensures Valid()
      ensures Grammar.WithState(r, State()) == Grammar.Parse(lexer.source, old(State()))
    {
      var result :- Expr();
      var end :- Eat(Eof);
      return Ok(result);
    }
  }
}
