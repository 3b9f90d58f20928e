/** The conversion engine: `try_diff` and `convert_glyphs`. */
module Convert {
  import opened Wrappers
  import opened Unicode
  import opened Glyphs
  import opened Rules

  /**
   * `try_diff`: the letter offset, 0..25 for `'A'..='Z'` and 26..51 for
   * `'a'..='z'`; no offset for any other character.
   */
  function TryDiff(c: char): (r: Option<u32>)
    ensures r.Some? <==> IsAsciiLetter(c)
    ensures r.Some? ==> r.value < 52 && (r.value < 26 <==> 'A' <= c <= 'Z')
  {
    if 'A' <= c <= 'Z' then Some((c as int - 'A' as int) as u32)
    else if 'a' <= c <= 'z' then Some((c as int - 'a' as int + 26) as u32)
    else None
  }

  /** The letter whose offset is `d`: the inverse of TryDiff. */
  function LetterAt(d: u32): char
    requires d < 52
  {
    if d < 26 then ('A' as int + d as int) as char else ('a' as int + d as int - 26) as char
  }

  /** TryDiff and LetterAt are inverse bijections between the 52 letters and the offsets 0..51. */
  lemma TryDiffRoundTrip(c: char, d: u32)
    requires d < 52
    ensures TryDiff(LetterAt(d)) == Some(d)
    ensures TryDiff(c) == Some(d) ==> LetterAt(d) == c
  {
  }

  /** Distinct letters have distinct offsets. */
  lemma TryDiffInjective(c1: char, c2: char)
    requires IsAsciiLetter(c1) && IsAsciiLetter(c2) && c1 != c2
    ensures TryDiff(c1) != TryDiff(c2)
  {
    TryDiffRoundTrip(c1, TryDiff(c1).value);
    TryDiffRoundTrip(c2, TryDiff(c2).value);
  }

  /**
   * The closure `conv`: a letter becomes the character at `start + diff`, any
   * other character is returned as it is. The checked conversion never fails
   * because `start` begins a run of 52 scalar values.
   */
  function Conv(start: u32, c: char): (r: char)
    requires ScalarRun(start)
    ensures !IsAsciiLetter(c) ==> r == c
    ensures IsAsciiLetter(c) ==> r as int == start as int + TryDiff(c).value as int
  {
    match TryDiff(c)
    case None => c
    case Some(diff) =>
      ScalarRunAt(start, diff);
      FromU32(start + diff)
  }

  /**
   * One character of `convert_glyphs`: with an exception map, a character found
   * in it is replaced by its override; every other character goes through `conv`.
   */
  function ConvertChar(rule: Rule, c: char): (r: char)
    requires ScalarRun(rule.start)
    ensures c in Exceptions(rule) ==> r == Exceptions(rule)[c]
    ensures c !in Exceptions(rule) && !IsAsciiLetter(c) ==> r == c
    ensures c !in Exceptions(rule) && IsAsciiLetter(c) ==> r as int == rule.start as int + TryDiff(c).value as int
  {
    match rule.except
    case Some(m) => if c in m then m[c] else Conv(rule.start, c)
    case None => Conv(rule.start, c)
  }

  /**
   * `chars().map(..).collect()`: the output has as many characters as the
   * input, and its character `i` is the conversion of input character `i`.
   */
  function ConvertWith(rule: Rule, input: seq<char>): (r: seq<char>)
    requires ScalarRun(rule.start)
    ensures |r| == |input|
    ensures forall i :: 0 <= i < |input| ==> r[i] == ConvertChar(rule, input[i])
  {
    if input == [] then []
    else [ConvertChar(rule, input[0])] + ConvertWith(rule, input[1..])
  }

  /** `convert_glyphs`: convert a text with the rule of a style. */
  function ConvertGlyphs(glyph: Glyph, input: seq<char>): (r: seq<char>)
    ensures |r| == |input|
    ensures forall i :: 0 <= i < |input| ==> r[i] == ConvertChar(RuleOf(glyph), input[i])
  {
    ConvertWith(RuleOf(glyph), input)
  }

  /**
   * Per character, under every style: a character that is not an ASCII letter
   * comes out unchanged; a letter with an exception comes out as its override,
   * which is never `start + diff`; any other letter comes out as `start + diff`.
   */
  lemma ConvertCharCases(g: Glyph, c: char)
    ensures !IsAsciiLetter(c) ==> ConvertChar(RuleOf(g), c) == c
    ensures c in Exceptions(RuleOf(g)) ==>
      && ConvertChar(RuleOf(g), c) == Exceptions(RuleOf(g))[c]
      && ConvertChar(RuleOf(g), c) as int != RuleOf(g).start as int + TryDiff(c).value as int
    ensures IsAsciiLetter(c) && c !in Exceptions(RuleOf(g)) ==>
      ConvertChar(RuleOf(g), c) as int == RuleOf(g).start as int + TryDiff(c).value as int
  {
  }

  /** Conversion works character by character, so it distributes over concatenation. */
  lemma ConvertConcat(rule: Rule, s: seq<char>, t: seq<char>)
    requires ScalarRun(rule.start)
    ensures ConvertWith(rule, s + t) == ConvertWith(rule, s) + ConvertWith(rule, t)
  {
    var lhs, rhs := ConvertWith(rule, s + t), ConvertWith(rule, s) + ConvertWith(rule, t);
    forall i | 0 <= i < |s + t| ensures lhs[i] == rhs[i] {
      if i < |s| { assert (s + t)[i] == s[i]; } else { assert (s + t)[i] == t[i - |s|]; }
    }
  }

  /** A text without ASCII letters is returned unchanged by every style. */
  lemma PassThrough(g: Glyph, s: seq<char>)
    requires NoAsciiLetters(s)
    ensures ConvertGlyphs(g, s) == s
  {
    forall i | 0 <= i < |s| ensures ConvertGlyphs(g, s)[i] == s[i] {
      ConvertCharCases(g, s[i]);
    }
  }

  /**
   * The exceptions are exactly the letters whose natural place `start + diff`
   * is one of the reserved code points of the Mathematical Alphanumeric Symbols
   * block.
   */
  lemma ExceptionsFillReserved(g: Glyph, c: char)
    requires IsAsciiLetter(c)
    ensures c in Exceptions(RuleOf(g)) <==> RuleOf(g).start as int + TryDiff(c).value as int in ReservedLetters
  {
    CatalogExceptions(g);
  }

  /**
   * A converted letter is a styled letter: it lies in the Mathematical
   * Alphanumeric Symbols block off its reserved code points, or it is a
   * Letterlike Symbols override. In particular it is never an ASCII letter.
   */
  lemma LetterStyled(g: Glyph, c: char)
    requires IsAsciiLetter(c)
    ensures var out := ConvertChar(RuleOf(g), c) as int;
      || (InMathAlphanumeric(out) && out !in ReservedLetters)
      || InLetterlike(out)
    ensures !IsAsciiLetter(ConvertChar(RuleOf(g), c))
  {
    ConvertCharCases(g, c);
    ExceptionsFillReserved(g, c);
  }

  /** No two exception entries of the catalog share an override. */
  lemma OverridesDistinct(g1: Glyph, c1: char, g2: Glyph, c2: char)
    requires c1 in Exceptions(RuleOf(g1)) && c2 in Exceptions(RuleOf(g2))
    requires g1 != g2 || c1 != c2
    ensures Exceptions(RuleOf(g1))[c1] != Exceptions(RuleOf(g2))[c2]
  {
    CatalogExceptions(g1);
    CatalogExceptions(g2);
    TableOverridesDistinct(g1, c1, g2, c2);
  }

  /** The documented table gives every (style, letter) entry its own override. */
  lemma TableOverridesDistinct(g1: Glyph, c1: char, g2: Glyph, c2: char)
    requires c1 in ExceptionTable(g1) && c2 in ExceptionTable(g2)
    requires g1 != g2 || c1 != c2
    ensures ExceptionTable(g1)[c1] != ExceptionTable(g2)[c2]
  {
  }

  /**
   * Different letters, or the same letter in different styles, are converted
   * to different characters: no two of the 13 * 52 styled letters coincide.
   */
  lemma StyledInjective(g1: Glyph, c1: char, g2: Glyph, c2: char)
    requires IsAsciiLetter(c1) && IsAsciiLetter(c2)
    requires g1 != g2 || c1 != c2
    ensures ConvertChar(RuleOf(g1), c1) != ConvertChar(RuleOf(g2), c2)
  {
    ConvertCharCases(g1, c1);
    ConvertCharCases(g2, c2);
    if c1 in Exceptions(RuleOf(g1)) && c2 in Exceptions(RuleOf(g2)) {
      OverridesDistinct(g1, c1, g2, c2);
    } else if c1 !in Exceptions(RuleOf(g1)) && c2 !in Exceptions(RuleOf(g2)) {
      OrdinalInjective(g1, g2);
      if g1 == g2 {
        TryDiffInjective(c1, c2);
      }
    }
  }

  /** Converted text has no ASCII letters left, so converting it again, in any style, changes nothing. */
  lemma ConvertSettles(g1: Glyph, g2: Glyph, s: seq<char>)
    ensures NoAsciiLetters(ConvertGlyphs(g1, s))
    ensures ConvertGlyphs(g2, ConvertGlyphs(g1, s)) == ConvertGlyphs(g1, s)
  {
    var out := ConvertGlyphs(g1, s);
    forall i | 0 <= i < |out| ensures !IsAsciiLetter(out[i]) {
      ConvertCharCases(g1, s[i]);
      if IsAsciiLetter(s[i]) {
        LetterStyled(g1, s[i]);
      }
    }
    PassThrough(g2, out);
  }
}
