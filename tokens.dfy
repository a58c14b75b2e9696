/** The token model: the closed set of lexical categories and the token value. */
module Tokens {
  import opened Chars

  /** The kinds the scanner and the parser use. */
  datatype Kind = Integer | Plus | Minus | Star | Slash | LParen | RParen | Eof

  /** A token: its kind and the exact source text it was matched from (empty for Eof). */
  datatype Token = Token(kind: Kind, lexeme: string)

  /** The kinds spelled by a single character. */
  predicate IsSymbolKind(k: Kind) {
    k != Integer && k != Eof
  }

  /** The character that spells a single-character kind. */
  function Symbol(k: Kind): char
    requires IsSymbolKind(k)
  {
    match k
    case Plus => '+'
    case Minus => '-'
    case Star => '*'
    case Slash => '/'
    case LParen => '('
    case RParen => ')'
  }

  /** The shape of every token the scanner produces: an Integer is a non-empty run of
      digits, Eof has an empty lexeme, every other kind is spelled by its one character. */
  predicate CanonicalToken(t: Token) {
    if t.kind == Integer then IsDigits(t.lexeme)
    else if t.kind == Eof then t.lexeme == []
    else t.lexeme == [Symbol(t.kind)]
  }
}
