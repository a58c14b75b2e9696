/** The whole line pipeline the tests drive: `Parser::new`, `parse`, then
    `interpret_node` on the tree. */
module Pipeline {
  import opened Errors
  import opened Syntax
  import opened Interpreter
  import Grammar
  import Parsing

  /** The lines on which evaluation does not divide by zero. */
  predicate Computable(s: string) {
    Grammar.ParseSource(s).Ok? ==> SafeDivisions(Grammar.ParseSource(s).value)
  }

  /** The value of a line, or the first scanning or parsing error. */
  function Run(s: string): (r: Result<int>)
    requires Computable(s)
    ensures r.Err? <==> Grammar.ParseSource(s).Err?
    ensures r.Err? ==> r.error == Grammar.ParseSource(s).error
  {
    var e :- Grammar.ParseSource(s);
    Ok(InterpretNode(e))
  }

  /** A line that parses to a tree without a zero divisor runs to that tree's value. */
  lemma RunParsed(s: string, e: Ast)
    requires Grammar.ParseSource(s) == Ok(e) && WellFormed(e) && SafeDivisions(e)
    ensures Computable(s) && Run(s) == Ok(InterpretNode(e))
  {
  }

  /** One line through the parser object and the evaluator.  The result depends on
      the line alone: nothing is carried over from an earlier line. */
  method Interpret(source: string) returns (r: Result<int>)
    requires Computable(source)
    ensures r == Run(source)
  {
    var parser :- Parsing.Parser.New(source);
    var e :- parser.Parse();
    return Ok(InterpretNode(e));
  }
}
