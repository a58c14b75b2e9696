# rs-simple-interpreter in Dafny

A model of the core of `rs-simple-interpreter`, a calculator. It reads one line of
integer arithmetic and prints its value:

```
expr   := term ((PLUS | MINUS) term)*
term   := factor ((STAR | SLASH) factor)*
factor := MINUS factor | INTEGER | LPAREN expr RPAREN
```

There are three stages, and the model follows each in the shape the program gives it.

* **The scanner** (`src/lexer.rs`) is a cursor over the line. It keeps a character
  position, a UTF-8 byte position, the current character and the rest of the
  character stream, and updates them step by step.
  - `Lexing.Lexer` is a class with these fields. Its `Valid` invariant ties them
    together: `pos` counts the characters consumed and `bytePos` is the size of
    their UTF-8 encoding.
  - Its methods `Advance`, `SkipWhitespace`, `Integer` and `NextToken` keep the
    source's `while` loops.
  - `NextToken` is proved to perform `Lexing.Scan`, a pure specification of one
    scanning step.
* **The parser** (`src/parser.rs`) is a recursive-descent parser with one token of
  lookahead.
  - `Parsing.Parser` is a class holding the scanner and the lookahead token.
    `Factor` recurses through state-changing calls; `Term` and `Expr` fold operands
    in `while` loops.
  - Every method except `New` is proved to compute the pure function of the same
    name in module `Grammar`; `New` computes `Grammar.Start`. Those functions work on
    the abstract state: the scanner position and the lookahead.
  - The grammar properties are proved about those functions: left-leaning trees,
    precedence, nested unary minus, exact error tokens and positions, and a
    print/parse round trip.
* **The evaluator** (`src/interpreter.rs`) is a recursive function over the tree.
  - `Interpreter.InterpretNode` is that function. Division truncates toward zero,
    as Rust's `i64` division does.
  - `Pipeline.Run` and `Pipeline.Interpret` chain the scanner, the parser and the
    evaluator over one line, as the program's tests and its read-eval loop do.

Error values follow `src/error.rs:5-15`. `UnexpectedToken` carries the offending
token, the scanner position at the moment of the report, and the expected kinds in
the order the parser lists them. `UnexpectedCharacter` carries the character and its
character position. A position is the scanner's `pos`, which counts characters, not
bytes.

The unit tests in `src/tests.rs` are restated as lemmas about `Pipeline.Run` (module
`Samples` and `Rejections.StrayStar`). Test lines of up to 16 characters are written
as they stand. The three longer lines are written as a concatenation of short string
pieces, which denote the same string; this keeps each character-indexing step small
for the verifier.

## Model

| member | source | states |
|---|---|---|
| `Chars.Utf8Len` | src/lexer.rs:36 | A character takes one to four bytes in UTF-8, and exactly one when it is ASCII. |
| `Chars.Utf8SizeAppend` | src/lexer.rs:35-36 | Byte sizes add up when text is concatenated, so the byte position can be advanced one character at a time. |
| `Chars.Utf8SizeBounds` | src/lexer.rs:8-9 | The byte size of a text lies between its character count and four times that count. |
| `Chars.Utf8PrefixStrictlyIncreasing` | src/lexer.rs:8-10 | Longer prefixes have strictly larger byte sizes. Each character position therefore maps to its own byte offset, a character boundary. |
| `Chars.Utf8SizeAscii` | src/lexer.rs:8-9 | On ASCII text the byte position equals the character position. |
| `Chars.DecimalValue` | src/parser.rs:79 | The value of a digit run: a single digit denotes itself, and `n` digits denote a number below ten to the `n`. |
| `Chars.ShortLiteralFitsI64` | src/parser.rs:79 | A literal of at most 18 digits is below 2^63, so parsing it as `i64` cannot fail. |
| `Lexing.SkipSpaces` | src/lexer.rs:43-51 | The whitespace skip ends within the line, at the end or at a character that is not ASCII whitespace. |
| `Lexing.SkipSpacesSpansWhitespace` | src/lexer.rs:43-51 | Every character the whitespace skip passes over is ASCII whitespace. |
| `Lexing.DigitsEnd` | src/lexer.rs:53-65 | The digit run ends within the line, at the end or at a character that is not an ASCII digit. |
| `Lexing.DigitsEndSpansDigits` | src/lexer.rs:53-65 | Every character of the digit run is an ASCII digit. |
| `Lexing.DigitsEndOfRun` | src/lexer.rs:56-62 | A run of digits followed by a non-digit or the end is exactly the run found, so the run is maximal. |
| `Lexing.SymbolKind` | src/lexer.rs:76-87 | A character maps to a kind only if that kind is spelled by it. When none is found, no single-character kind is spelled by it. |
| `Lexing.Scan` | src/lexer.rs:67-97 | One step: the token's lexeme is exactly the text between the skipped whitespace and the new cursor, and it has its kind's shape. Eof is produced exactly when only whitespace remains. Any other token advances the cursor. A failure reports the first non-whitespace character and its position. |
| `Lexing.ScanEofIsStable` | src/lexer.rs:68-96 | At the end of the line the scanner yields Eof with an empty lexeme from the end position. Scanning again yields the same Eof at the same position. |
| `Lexing.ScanInteger` | src/lexer.rs:74-75 | A digit yields an Integer token holding the maximal run of digits there. |
| `Lexing.ScanSymbol` | src/lexer.rs:76-87 | Each of `+ - * / ( )` yields its own kind, with a one-character lexeme, and consumes exactly that character. |
| `Lexing.ScanUnexpected` | src/lexer.rs:88-92 | Any other character fails with that character and its position, after the whitespace. |
| `Lexing.Lexer.constructor` | src/lexer.rs:14-25 | A new scanner stands at character 0 and byte 0, with the first character current. |
| `Lexing.Lexer.Pos` | src/lexer.rs:27-29 | The reported position is the number of characters consumed, which is at most the line length. |
| `Lexing.Lexer.Advance` | src/lexer.rs:31-42 | On a present character, `pos` grows by exactly 1 and `bytePos` by that character's UTF-8 length. At the end both stay put. The returned text is exactly the consumed span, and its byte size is the `bytePos` delta. |
| `Lexing.Lexer.SkipWhitespace` | src/lexer.rs:43-51 | Consumes exactly the whitespace run, all of it whitespace. Afterwards the current character is absent or not whitespace. |
| `Lexing.Lexer.Integer` | src/lexer.rs:53-65 | Returns exactly the maximal digit run at the cursor. Afterwards the current character is absent or not a digit. |
| `Lexing.Lexer.NextToken` | src/lexer.rs:67-97 | Returns the token `Scan` specifies and leaves the cursor where `Scan` says. On failure it returns the same error, with the whitespace consumed and the offending character not consumed. |
| `Grammar.Load` | src/parser.rs:22-28 | Fails exactly when the scanner fails at that position, with the scanner's error; otherwise it holds the scanned token and the scanner's new cursor. A loaded lookahead fits the line and never moves the cursor back. Any token but Eof moves it forward. |
| `Grammar.Start` | src/parser.rs:12-20 | Fails exactly when scanning the first token fails, with the scanner's error; otherwise the lookahead is that first token and the cursor is where the scanner stopped. The first lookahead is a token of the scanner's shape within the line, and an Eof lookahead only arises at the end of the line. |
| `Grammar.Advance` | src/parser.rs:22-28 | Hands out the old lookahead and loads the next token. It fails exactly when the scanner fails at the cursor, and then with the scanner's error. |
| `Grammar.TryMatch` | src/parser.rs:30-32 | A predicate with no ensures of its own: true exactly when the lookahead's kind is in the given list. `Parsing.Parser.TryMatch` states the same of the parser's own lookahead. |
| `Grammar.EatAlt` | src/parser.rs:38-52 | On an expected kind, and only then, it behaves as `advance`, scanner failure included. Otherwise it fails with the lookahead, the scanner position and exactly the given expected list. |
| `Grammar.Eat` | src/parser.rs:34-36 | `eat_alt` with the one-element expected list: on that kind it behaves as `advance`, scanner failure included; otherwise it fails with the lookahead, the scanner position and `[kind]`. |
| `Grammar.Factor` | src/parser.rs:71-92 | A parsed factor consumes input and builds a tree of the parser's shape. A lookahead other than Minus, Integer or LParen fails with expected list exactly `[Integer, Minus, LParen]`. |
| `Grammar.TermRest` | src/parser.rs:98-102 | The `term` loop returns its accumulator and state untouched when the lookahead is neither `*` nor `/`, ends only at such a lookahead, and keeps the tree in the parser's shape. |
| `Grammar.Term` | src/parser.rs:95-108 | A parsed term consumes input and builds a tree of the parser's shape. |
| `Grammar.ExprRest` | src/parser.rs:114-118 | The `expr` loop returns its accumulator and state untouched when the lookahead is neither `+` nor `-`, ends only at such a lookahead, and keeps the tree in the parser's shape. |
| `Grammar.Expr` | src/parser.rs:111-121 | A parsed expression consumes input and builds a tree of the parser's shape. |
| `Grammar.Parse` | src/parser.rs:123-129 | Succeeds if and only if the expression parses and Eof follows it; the whole line has then been consumed. If another token follows, it fails with that token, its position and expected list `[Eof]`. |
| `Grammar.ParseSource` | src/parser.rs:12-20 | Every tree the parser builds uses Minus only for unary nodes and `+ - * /` only for binary nodes. |
| `Syntax.CanonicalIsWellFormed` | src/interpreter.rs:7-21 | Trees of the parser's shape never reach the evaluator's `unreachable!` arms. |
| `Parsing.Parser.New` | src/parser.rs:12-20 | Builds a fresh scanner and parser whose state is `Grammar.Start` of the line. A scanner failure is returned unchanged. |
| `Parsing.Parser.Advance` | src/parser.rs:22-28 | Computes `Grammar.Advance` from the state it starts in. |
| `Parsing.Parser.TryMatch` | src/parser.rs:30-32 | True if and only if the lookahead's kind is in the given list. It changes nothing. |
| `Parsing.Parser.EatAlt` | src/parser.rs:38-52 | Computes `Grammar.EatAlt`, and on a mismatch leaves the parser's state unchanged. |
| `Parsing.Parser.Eat` | src/parser.rs:34-36 | Computes `Grammar.Eat`, and on a mismatch leaves the parser's state unchanged. |
| `Parsing.Parser.Factor` | src/parser.rs:71-92 | Computes `Grammar.Factor` from the state it starts in. |
| `Parsing.Parser.Term` | src/parser.rs:95-108 | Its loop computes `Grammar.Term`: it folds `(STAR\|SLASH) factor` to the left. |
| `Parsing.Parser.Expr` | src/parser.rs:111-121 | Its loop computes `Grammar.Expr`: it folds `(PLUS\|MINUS) term` to the left. |
| `Parsing.Parser.Parse` | src/parser.rs:123-129 | Computes `Grammar.Parse` from the state it starts in. |
| `Interpreter.InterpretNode` | src/interpreter.rs:4-24 | `interpret_node`. It requires a well-formed tree in which every division has a non-zero divisor, and it has no ensures of its own. Its value is described by `BinaryValue` for binary nodes and by `NegationNests` for unary minus. |
| `Interpreter.Div` | src/interpreter.rs:19 | Rust's `/` on integers. It requires a non-zero divisor and has no ensures of its own. `DivTruncates` and `DivNegation` state its meaning. |
| `Interpreter.DivTruncates` | src/interpreter.rs:19 | Division truncates toward zero. The remainder is smaller than the divisor in magnitude and is zero or has the dividend's sign. The product never exceeds the dividend in magnitude. |
| `Interpreter.DivNegation` | src/interpreter.rs:19 | Negating either operand negates the quotient, unlike floored or Euclidean division. |
| `Interpreter.BinaryValue` | src/interpreter.rs:11-21 | A binary node evaluates both children and applies `+`, `-`, `*` or truncating `/`. It is evaluable exactly when a division's right operand is non-zero. |
| `Interpreter.Negated` | src/interpreter.rs:7-8 | Wrapping a tree in unary minus nodes keeps it evaluable, and keeps its division safety the same. |
| `Interpreter.NegationNests` | src/interpreter.rs:7-8 | k nested unary minus nodes evaluate to the child's value for even k and its negation for odd k. |
| `Pipeline.Run` | src/main.rs:37-53 | A line fails exactly when scanning or parsing fails, and with the same error. |
| `Pipeline.RunParsed` | src/main.rs:37-53 | A line that parses to a tree with no zero divisor runs to that tree's value. |
| `Pipeline.Interpret` | src/main.rs:37-53 | Running `Parser::new`, `parse` and `interpret_node` on a line yields `Run` of that line, whatever came before. |
| `Grouping.NumberValue` | src/parser.rs:76-79 | An Integer token becomes a number node whose value is the decimal value of its digits. |
| `Grouping.ParseLeadingMinuses` | src/parser.rs:72-75 | k minus signs before a number parse as k nested unary nodes around it. |
| `Grouping.LeadingMinuses` | src/interpreter.rs:6-8 | k minus signs before a number evaluate to the number for even k and its negation for odd k. |
| `Grouping.ThreeOperands` | src/parser.rs:95-121 | `a op1 b op2 c` parses left-leaning, `(a op1 b) op2 c`, except that `*` or `/` after `+` or `-` binds tighter: `a op1 (b op2 c)`. |
| `Grouping.ThreeOperandValue` | src/interpreter.rs:11-21 | `a op1 b op2 c` evaluates with that precedence and left associativity, truncating each division. |
| `Rejections.MissingOperand` | src/parser.rs:85-91 | A number, a binary operator, then `+`, `*`, `/` or `)` fails at that last token, at the position just past it, expecting `[Integer, Minus, LParen]`. A `-` there is not an error: it starts a unary factor. |
| `Rejections.StrayStar` | src/tests.rs:28-49 | Creating the parser on `3-*1` succeeds; the line then fails with the `*` token at position 3 and expected list `[Integer, Minus, LParen]`. |
| `Rejections.TrailingToken` | src/parser.rs:123-129 | A number followed by `)` fails with that `)` token at position \|a\|+1 (just past it), expecting `[Eof]`. The general trailing-token case is the third ensures of `Grammar.Parse`. |
| `Printing.RoundTrip` | src/parser.rs:71-121 | Every tree of the parser's shape, printed fully parenthesised, parses back to itself. |
| `Samples.SingleNumber` | src/tests.rs:8 | The line `3` evaluates to 3. |
| `Samples.NegativeNumber` | src/tests.rs:9 | The line `-5` evaluates to -5. |
| `Samples.NegatedRightOperand` | src/tests.rs:10 | The line `1 * -7` evaluates to -7. |
| `Samples.QuotientBeforeDifference` | src/tests.rs:11 | The line `7 - 8 / 4` evaluates to 5. |
| `Samples.ProductBeforeSum` | src/tests.rs:12 | The line `2 + 7 * 4` evaluates to 30. |
| `Samples.NestedParentheses` | src/tests.rs:13 | The line `7 + (((3 + 2)))` evaluates to 12. |
| `Samples.MixedLevels` | src/tests.rs:14 | The line `14 + 2 * 3 - 6 / 2` evaluates to 17. |
| `Samples.NestedQuotients` | src/tests.rs:15 | The line `7 + 3 * (10 / (12 / (3 + 1) - 1))` evaluates to 22. |
| `Samples.LongLine` | src/tests.rs:16 | The line `7 + 3 * (10 / (12 / (4) - 1)) / (2 + 3) - 5 - 3 + (8)` evaluates to 10. |

## Left out

- The read-eval-print loop in `src/main.rs:14-61` is I/O and is not modelled: the prompt, reading and flushing the terminal, skipping empty lines, printing results and errors. `Pipeline.Interpret` is the body of one iteration for a non-empty line.
- The `Display` rendering of errors (`src/error.rs:17-43`) is text formatting and is not modelled. Errors are compared as values.
- 64-bit overflow is not modelled: in `+`, `-` and `*`, in `-` on `i64::MIN`, and in the `parse().unwrap()` of an over-long literal (`src/parser.rs:79`). Integers are unbounded. `i64::MIN / -1` likewise does not overflow here. `Chars.ShortLiteralFitsI64` bounds the literals that are sure to fit.
- The division-by-zero panic (`src/interpreter.rs:19`) is not modelled as an abort. `InterpretNode` requires `SafeDivisions`, and `Run` requires `Computable`: every division in the parsed tree has a non-zero divisor.
- `src/token.rs` is not part of this model. Its definition does not match how the scanner and the parser use tokens. Kinds and tokens are defined from their uses in `src/lexer.rs` and `src/parser.rs`.
- Rust lifetimes and borrowed slices are not modelled. A lexeme is the owned text it spans, taken by character positions. The byte slice of `src/lexer.rs:41` is captured by stating that the lexeme's UTF-8 size equals the byte distance advanced.
- The scanner's error is modelled as `Error.UnexpectedCharacter` with the character and position the message names. The exact message text is not modelled.
- The `Chars` iterator is modelled as the sequence of remaining characters.
- Recursion depth is not modelled. The Rust `factor` and `expr` recurse on every `(` and unary `-`, so deeply nested input can overflow the stack. The model has no depth limit.
- The commented-out block in `src/parser.rs:54-68` is not code and is not modelled.
- The tests call `Interpreter::new(source).interpret()`, but no `Interpreter` type is defined in `src/main.rs` or anywhere else in the crate. The call is read as `Parser::new`, then `parse`, then `interpret_node`, which is the sequence `src/main.rs:37-53` performs.
