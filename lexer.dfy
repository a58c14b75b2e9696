/** The scanner: a specification of one scanning step over a source line (`Scan`) and
    the cursor class `Lexer` whose methods are proved to perform it. */
module Lexing {
  import opened Chars
  import opened Tokens
  import opened Errors

  /** The first index at or after `i` that does not hold ASCII whitespace. */
  function SkipSpaces(s: string, i: nat): (j: nat)
    requires i <= |s|
    ensures i <= j <= |s|
    ensures j < |s| ==> !IsAsciiWhitespace(s[j])
    decreases |s| - i
  {
    if i < |s| && IsAsciiWhitespace(s[i]) then SkipSpaces(s, i + 1) else i
  }

  /** Everything `SkipSpaces` passes over is whitespace. */
  lemma {:induction false} SkipSpacesSpansWhitespace(s: string, i: nat)
    requires i <= |s|
    ensures forall k :: i <= k < SkipSpaces(s, i) ==> IsAsciiWhitespace(s[k])
    decreases |s| - i
  {
    if i < |s| && IsAsciiWhitespace(s[i]) {
      SkipSpacesSpansWhitespace(s, i + 1);
    }
  }

  /** The end of the maximal run of ASCII digits that starts at `i`. */
  function DigitsEnd(s: string, i: nat): (j: nat)
    requires i <= |s|
    ensures i <= j <= |s|
    ensures j < |s| ==> !IsAsciiDigit(s[j])
    decreases |s| - i
  {
    if i < |s| && IsAsciiDigit(s[i]) then DigitsEnd(s, i + 1) else i
  }

  /** Everything `DigitsEnd` passes over is a digit. */
  lemma {:induction false} DigitsEndSpansDigits(s: string, i: nat)
    requires i <= |s|
    ensures forall k :: i <= k < DigitsEnd(s, i) ==> IsAsciiDigit(s[k])
    decreases |s| - i
  {
    if i < |s| && IsAsciiDigit(s[i]) {
      DigitsEndSpansDigits(s, i + 1);
    }
  }

  /** The single-character token kind a character spells, if any. */
  function SymbolKind(c: char): (r: Option<Kind>)
    ensures r.Some? ==> IsSymbolKind(r.value) && Symbol(r.value) == c
    ensures r.None? ==> forall k :: IsSymbolKind(k) ==> Symbol(k) != c
  {
    if c == '+' then Some(Plus)
    else if c == '-' then Some(Minus)
    else if c == '*' then Some(Star)
    else if c == '/' then Some(Slash)
    else if c == '(' then Some(LParen)
    else if c == ')' then Some(RParen)
    else None
  }

  /** One call of `next_token` with the cursor at character `i`: the token and the
      cursor position after it, or the character that cannot start a token. */
  function Scan(s: string, i: nat): (r: Result<(Token, nat)>)
    requires i <= |s|
    ensures r.Ok? ==> SkipSpaces(s, i) <= r.value.1 <= |s|
    ensures r.Ok? ==> r.value.0.lexeme == s[SkipSpaces(s, i)..r.value.1]
    ensures r.Ok? ==> CanonicalToken(r.value.0)
    ensures (r.Ok? && r.value.0.kind == Eof) <==> SkipSpaces(s, i) == |s|
    ensures r.Ok? && r.value.0.kind != Eof ==> i < r.value.1
    ensures r.Err? ==> SkipSpaces(s, i) < |s|
                       && r.error == UnexpectedCharacter(s[SkipSpaces(s, i)], SkipSpaces(s, i))
  {
    var j := SkipSpaces(s, i);
    if j == |s| then
      Ok((Token(Eof, ""), j))
    else if IsAsciiDigit(s[j]) then
      var k := DigitsEnd(s, j);
      DigitsEndSpansDigits(s, j);
      Ok((Token(Integer, s[j..k]), k))
    else
      match SymbolKind(s[j])
      case Some(kind) => Ok((Token(kind, [s[j]]), j + 1))
      case None => Err(UnexpectedCharacter(s[j], j))
  }

  /** At end of input the scanner yields Eof with an empty lexeme and stays where it is,
      so scanning again yields the same Eof from the same position. */
  lemma ScanEofIsStable(s: string, i: nat)
    requires i <= |s| && Scan(s, i).Ok? && Scan(s, i).value.0.kind == Eof
    ensures Scan(s, i) == Ok((Token(Eof, ""), |s|))
    ensures Scan(s, |s|) == Scan(s, i)
  {
  }

  /** A digit yields an Integer token holding the maximal run of digits at that point. */
  lemma ScanInteger(s: string, i: nat)
    requires i <= |s|
    requires SkipSpaces(s, i) < |s| && IsAsciiDigit(s[SkipSpaces(s, i)])
    ensures Scan(s, i).Ok?
    ensures var (t, k) := Scan(s, i).value;
            && t.kind == Integer && IsDigits(t.lexeme)
            && t.lexeme == s[SkipSpaces(s, i)..k]
            && (k == |s| || !IsAsciiDigit(s[k]))
  {
  }

  /** A run of digits from `i` to `j` followed by a non-digit (or the end) is exactly
      the run `DigitsEnd` finds. */
  lemma {:induction false} DigitsEndOfRun(s: string, i: nat, j: nat)
    requires i <= j <= |s|
    requires forall k :: i <= k < j ==> IsAsciiDigit(s[k])
    requires j < |s| ==> !IsAsciiDigit(s[j])
    ensures DigitsEnd(s, i) == j
    decreases j - i
  {
    if i < j {
      DigitsEndOfRun(s, i + 1, j);
    }
  }

  /** Each of `+ - * / ( )` yields its own kind, spelled by that one character, and
      consumes exactly that character. */
  lemma ScanSymbol(s: string, i: nat, k: Kind)
    requires i <= |s| && IsSymbolKind(k)
    requires SkipSpaces(s, i) < |s| && s[SkipSpaces(s, i)] == Symbol(k)
    ensures Scan(s, i) == Ok((Token(k, [Symbol(k)]), SkipSpaces(s, i) + 1))
  {
  }

  /** Any other character is reported with its own position, after the whitespace. */
  lemma ScanUnexpected(s: string, i: nat)
    requires i <= |s|
    requires SkipSpaces(s, i) < |s|
    requires !IsAsciiDigit(s[SkipSpaces(s, i)]) && SymbolKind(s[SkipSpaces(s, i)]).None?
    ensures Scan(s, i) == Err(UnexpectedCharacter(s[SkipSpaces(s, i)], SkipSpaces(s, i)))
  {
  }

  /** The cursor over one source line.  `chars` is what remains of the character
      iterator: the characters after `currentChar`. */
  class Lexer {
    const source: string
    var chars: string
    var pos: nat
    var bytePos: nat
    var currentChar: Option<char>

    /** `pos` counts the characters consumed, `bytePos` is the size of their UTF-8
        encoding, and `currentChar` is the next unread character. */
    ghost predicate Valid()
      reads this
    {
      && pos <= |source|
      && bytePos == Utf8Size(source[..pos])
      && currentChar == (if pos < |source| then Some(source[pos]) else None)
      && chars == (if pos < |source| then source[pos + 1..] else [])
    }

    /** `Lexer::new`: the cursor at the first character. */
    constructor (source: string)
      ensures Valid()
      ensures this.source == source && pos == 0 && bytePos == 0
    {
      this.source := source;
      if source == [] {
        chars, currentChar := [], None;
      } else {
        chars, currentChar := source[1..], Some(source[0]);
      }
      pos, bytePos := 0, 0;
    }

    /** `Lexer::pos`: the character position, used in diagnostics. */
    function Pos(): (p: nat)
      reads this
      requires Valid()
      ensures p <= |source| && p == pos
    {
      pos
    }

    /** Consume the current character, if any, and return the text it spans. */
    method Advance() returns (lexeme: string)
      requires Valid()
      modifies this
      ensures Valid()
      ensures old(pos) < |source| ==> pos == old(pos) + 1 && bytePos == old(bytePos) + Utf8Len(source[old(pos)])
      ensures old(pos) == |source| ==> pos == old(pos) && bytePos == old(bytePos)
      ensures lexeme == source[old(pos)..pos]
      ensures Utf8Size(lexeme) == bytePos - old(bytePos)
    {
      var start := pos;
      if currentChar.Some? {
        assert source[..pos + 1] == source[..pos] + [source[pos]];
        Utf8SizeAppend(source[..pos], [source[pos]]);
        pos := pos + 1;
        bytePos := bytePos + Utf8Len(currentChar.value);
      }
      if chars == [] {
        currentChar := None;
      } else {
        currentChar := Some(chars[0]);
        chars := chars[1..];
      }
      lexeme := source[start..pos];
      assert source[..pos] == source[..start] + lexeme;
      Utf8SizeAppend(source[..start], lexeme);
    }

    /** Consume a maximal run of ASCII whitespace. */
    method SkipWhitespace()
      requires Valid()
      modifies this
      ensures Valid()
      ensures pos == SkipSpaces(source, old(pos))
      ensures forall k :: old(pos) <= k < pos ==> IsAsciiWhitespace(source[k])
      ensures currentChar.None? || !IsAsciiWhitespace(currentChar.value)
    {
      SkipSpacesSpansWhitespace(source, pos);
      while currentChar.Some? && IsAsciiWhitespace(currentChar.value)
        invariant Valid()
        invariant old(pos) <= pos
        invariant SkipSpaces(source, pos) == SkipSpaces(source, old(pos))
        decreases |source| - pos
      {
        var skipped := Advance();
      }
    }

    /** Consume a maximal run of ASCII digits and return it. */
    method Integer() returns (digits: string)
      requires Valid()
      modifies this
      ensures Valid()
      ensures pos == DigitsEnd(source, old(pos))
      ensures digits == source[old(pos)..pos]
      ensures currentChar.None? || !IsAsciiDigit(currentChar.value)
    {
      var start := pos;
      while currentChar.Some? && IsAsciiDigit(currentChar.value)
        invariant Valid()
        invariant start <= pos
        invariant DigitsEnd(source, pos) == DigitsEnd(source, start)
        decreases |source| - pos
      {
        var digit := Advance();
      }
      digits := source[start..pos];
    }

    /** `next_token`: skip whitespace, then scan one token or report the character
        that cannot start one.  After a failure the whitespace has been consumed
        and the offending character has not. */
    method NextToken() returns (r: Result<Token>)
      requires Valid()
      modifies this
      ensures Valid()
      ensures match Scan(source, old(pos))
              case Ok((t, j)) => r == Ok(t) && pos == j
              case Err(e) => r == Err(e) && pos == SkipSpaces(source, old(pos))
    {
      while currentChar.Some?
        invariant Valid()
        invariant old(pos) <= pos
        invariant SkipSpaces(source, pos) == SkipSpaces(source, old(pos))
        decreases |source| - pos
      {
        var c := currentChar.value;
        if IsAsciiWhitespace(c) {
          SkipWhitespace();
          continue;
        }
        if IsAsciiDigit(c) {
          var digits := Integer();
          return Ok(Token(Kind.Integer, digits));
        }
        match SymbolKind(c)
        case Some(kind) =>
          var lexeme := Advance();
          return Ok(Token(kind, lexeme));
        case None =>
          return Err(UnexpectedCharacter(c, pos));
      }
      return Ok(Token(Eof, ""));
    }
  }
}
