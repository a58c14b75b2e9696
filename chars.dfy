/** Character classification and UTF-8 sizes, as the scanner uses them from Rust's `char`. */
module Chars {

  /** `char::is_ascii_whitespace`: space, horizontal tab, line feed, form feed and
      carriage return.  Vertical tab is deliberately not included. */
  predicate IsAsciiWhitespace(c: char) {
    c == ' ' || c == '\t' || c == '\n' || c == '\U{000C}' || c == '\r'
  }

  /** `char::is_ascii_digit`. */
  predicate IsAsciiDigit(c: char) {
    '0' <= c <= '9'
  }

  /** The decimal value of one ASCII digit. */
  function DigitValue(c: char): (d: nat)
    requires IsAsciiDigit(c)
    ensures d < 10
  {
    c as int - '0' as int
  }

  /** A non-empty run of ASCII digits. */
  predicate IsDigits(s: string) {
    |s| > 0 && forall k :: 0 <= k < |s| ==> IsAsciiDigit(s[k])
  }

  /** Ten to the power `n`. */
  function Pow10(n: nat): (p: nat)
    ensures p >= 1
  {
    if n == 0 then 1 else 10 * Pow10(n - 1)
  }

  /** `str::parse::<i64>` on a string of digits, without the 64-bit bound.  A run of
      `n` digits denotes a number below ten to the `n`. */
  function DecimalValue(s: string): (v: nat)
    requires forall k :: 0 <= k < |s| ==> IsAsciiDigit(s[k])
    ensures |s| == 1 ==> v == DigitValue(s[0])
    ensures v < Pow10(|s|)
  {
    if s == [] then 0 else DecimalValue(s[..|s| - 1]) * 10 + DigitValue(s[|s| - 1])
  }

  /** Literals of at most 18 digits are below 2^63, so `parse::<i64>` cannot fail on them. */
  lemma {:induction false} ShortLiteralFitsI64(s: string)
    requires IsDigits(s) && |s| <= 18
    ensures DecimalValue(s) < 0x8000_0000_0000_0000
  {
    Pow10Monotone(|s|, 18);
    assert Pow10(6) == 1_000_000 by {
      assert Pow10(3) == 1_000;
    }
    assert Pow10(12) == 1_000_000_000_000 by {
      assert Pow10(9) == 1_000_000_000;
    }
    assert Pow10(18) == 1_000_000_000_000_000_000 by {
      assert Pow10(15) == 1_000_000_000_000_000;
    }
  }

  /** Powers of ten grow with the exponent. */
  lemma {:induction false} Pow10Monotone(m: nat, n: nat)
    requires m <= n
    ensures Pow10(m) <= Pow10(n)
    decreases n - m
  {
    if m < n {
      Pow10Monotone(m, n - 1);
    }
  }

  /** `char::len_utf8`: the number of bytes of the character's UTF-8 encoding. */
  function Utf8Len(c: char): (n: nat)
    ensures 1 <= n <= 4
    ensures n == 1 <==> c as int < 0x80
  {
    if c as int < 0x80 then 1
    else if c as int < 0x800 then 2
    else if c as int < 0x1_0000 then 3
    else 4
  }

  /** The length in bytes of the UTF-8 encoding of a string. */
  function Utf8Size(s: string): nat {
    if s == [] then 0 else Utf8Size(s[..|s| - 1]) + Utf8Len(s[|s| - 1])
  }

  /** Encoding sizes add up over concatenation. */
  lemma {:induction false} Utf8SizeAppend(a: string, b: string)
    ensures Utf8Size(a + b) == Utf8Size(a) + Utf8Size(b)
    decreases |b|
  {
    if b == [] {
      assert a + b == a;
    } else {
      var last := |b| - 1;
      assert (a + b)[..|a + b| - 1] == a + b[..last];
      Utf8SizeAppend(a, b[..last]);
    }
  }

  /** Every character takes one to four bytes. */
  lemma {:induction false} Utf8SizeBounds(s: string)
    ensures |s| <= Utf8Size(s) <= 4 * |s|
  {
    if s != [] {
      Utf8SizeBounds(s[..|s| - 1]);
    }
  }

  /** A longer prefix ends at a strictly larger byte offset, so distinct character
      positions are distinct byte offsets: every prefix ends on a character boundary. */
  lemma {:induction false} Utf8PrefixStrictlyIncreasing(s: string, i: nat, j: nat)
    requires i < j <= |s|
    ensures Utf8Size(s[..i]) < Utf8Size(s[..j])
  {
    assert s[..j] == s[..i] + s[i..j];
    Utf8SizeAppend(s[..i], s[i..j]);
    Utf8SizeBounds(s[i..j]);
  }

  /** On ASCII text the byte offset and the character position coincide. */
  lemma {:induction false} Utf8SizeAscii(s: string)
    requires forall k :: 0 <= k < |s| ==> s[k] as int < 0x80
    ensures Utf8Size(s) == |s|
  {
    if s != [] {
      Utf8SizeAscii(s[..|s| - 1]);
    }
  }
}
