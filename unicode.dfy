/**
 * Code points, Unicode scalar values and the two Unicode blocks the styled
 * letters come from.
 */
module Unicode {

  /** Rust's `u32`: the type of a rule's start and of a letter offset. */
  newtype u32 = x: int | 0 <= x < 0x1_0000_0000

  /** A Unicode scalar value: a code point that is not a surrogate. These are exactly the values of Rust's `char`. */
  predicate IsScalarValue(n: int) {
    0 <= n < 0xD800 || 0xE000 <= n <= 0x10FFFF
  }

  /** The checked conversion that stands in for `char::from_u32_unchecked`: callers must show the value is a scalar value. */
  function FromU32(n: u32): (c: char)
    requires IsScalarValue(n as int)
    ensures c as int == n as int
  {
    n as int as char
  }

  /** The Mathematical Alphanumeric Symbols block, U+1D400..U+1D7FF. */
  predicate InMathAlphanumeric(n: int) {
    0x1D400 <= n <= 0x1D7FF
  }

  /** The Letterlike Symbols block, U+2100..U+214F. */
  predicate InLetterlike(n: int) {
    0x2100 <= n <= 0x214F
  }

  /**
   * The reserved code points inside the Latin-letter part of the Mathematical
   * Alphanumeric Symbols block: the letters whose styled form Unicode had already
   * encoded in the Letterlike Symbols block (Unicode Technical Report #25,
   * section 2.2).
   */
  const ReservedLetters: set<int> := {
    0x1D455,
    0x1D49D, 0x1D4A0, 0x1D4A1, 0x1D4A3, 0x1D4A4, 0x1D4A7, 0x1D4A8, 0x1D4AD,
    0x1D4BA, 0x1D4BC, 0x1D4C4,
    0x1D506, 0x1D50B, 0x1D50C, 0x1D515, 0x1D51D,
    0x1D53A, 0x1D53F, 0x1D545, 0x1D547, 0x1D548, 0x1D549, 0x1D551
  }

  /** An ASCII Latin letter, `'A'..='Z'` or `'a'..='z'`. */
  predicate IsAsciiLetter(c: char) {
    'A' <= c <= 'Z' || 'a' <= c <= 'z'
  }

  /** True when no character of `s` is an ASCII letter. */
  predicate NoAsciiLetters(s: seq<char>) {
    forall i :: 0 <= i < |s| ==> !IsAsciiLetter(s[i])
  }
}
