/**
 * Character classes of src/lexer/chars.ts. Each predicate compares against the
 * `CharCode` constants; the lemmas tie them to the plain lists of characters they accept.
 */
module Chars {
  const Digits := "0123456789"
  const Lowercase := "abcdefghijklmnopqrstuvwxyz"
  const Uppercase := "ABCDEFGHIJKLMNOPQRSTUVWXYZ"

  /** `CharCode.zero <= c <= CharCode.nine` */
  predicate IsDigit(c: char)
  {
    '0' <= c <= '9'
  }

  /** A letter of `a`..`z` or `A`..`Z`, or the underscore. */
  predicate IsAlpha(c: char)
  {
    'a' <= c <= 'z' || 'A' <= c <= 'Z' || c == '_'
  }

  predicate IsAlphanumeric(c: char)
  {
    IsAlpha(c) || IsDigit(c)
  }

  lemma LowercaseRange(c: char)
    ensures c in Lowercase <==> 'a' <= c <= 'z'
  {
    if 'a' <= c <= 'z' {
      assert Lowercase[c as int - 'a' as int] == c;
    }
  }

  lemma UppercaseRange(c: char)
    ensures c in Uppercase <==> 'A' <= c <= 'Z'
  {
    if 'A' <= c <= 'Z' {
      assert Uppercase[c as int - 'A' as int] == c;
    }
  }

  /** The digits are exactly the ten characters `0` to `9`. */
  lemma DigitIsDigitChar(c: char)
    ensures IsDigit(c) <==> c in Digits
  {
    if '0' <= c <= '9' {
      assert Digits[c as int - '0' as int] == c;
    }
  }

  /** The alphabetic characters are exactly the 52 letters and `_`. */
  lemma AlphaIsLetterOrUnderscore(c: char)
    ensures IsAlpha(c) <==> c in Lowercase || c in Uppercase || c == '_'
  {
    LowercaseRange(c);
    UppercaseRange(c);
  }

  /** No character is both a digit and alphabetic, so the lexer's digit and letter branches never overlap. */
  lemma DigitIsNotAlpha(c: char)
    ensures !(IsDigit(c) && IsAlpha(c))
    ensures IsAlphanumeric(c) <==> c in Lowercase || c in Uppercase || c == '_' || c in Digits
  {
    AlphaIsLetterOrUnderscore(c);
    DigitIsDigitChar(c);
  }
}
