/** The thirteen letter styles and the parser of their command-line tokens. */
module Glyphs {
  import opened Wrappers

  datatype Glyph =
    | Bold
    | Italic
    | BoldItalic
    | Script
    | BoldScript
    | Fraktur
    | DoubleStruck
    | BoldFraktur
    | SansSerif
    | SansSerifBold
    | SansSerifItalic
    | SansSerifBoldItalic
    | Monospace

  /** The tokens the parser accepts, exactly as spelled on the command line. */
  const Tokens: set<string> :=
    {"b", "i", "bi", "sc", "bs", "f", "d", "bf", "ss", "ssb", "ssi", "ssbi", "m"}

  /** The token that names each style: the inverse of FromStr. */
  function Token(g: Glyph): string {
    match g
    case Bold => "b"
    case Italic => "i"
    case BoldItalic => "bi"
    case Script => "sc"
    case BoldScript => "bs"
    case Fraktur => "f"
    case DoubleStruck => "d"
    case BoldFraktur => "bf"
    case SansSerif => "ss"
    case SansSerifBold => "ssb"
    case SansSerifItalic => "ssi"
    case SansSerifBoldItalic => "ssbi"
    case Monospace => "m"
  }

  /** Position of the style in the declaration of `Glyph`, which is also the order of the runs in the Unicode block. */
  function Ordinal(g: Glyph): nat {
    match g
    case Bold => 0
    case Italic => 1
    case BoldItalic => 2
    case Script => 3
    case BoldScript => 4
    case Fraktur => 5
    case DoubleStruck => 6
    case BoldFraktur => 7
    case SansSerif => 8
    case SansSerifBold => 9
    case SansSerifItalic => 10
    case SansSerifBoldItalic => 11
    case Monospace => 12
  }

  /**
   * `Glyph::from_str`: an exact, case-sensitive match against the thirteen
   * tokens; anything else is `Err(())`.
   */
  function FromStr(value: string): (r: Result<Glyph, ()>)
    ensures r.Ok? <==> value in Tokens
    ensures r.Ok? ==> Token(r.value) == value
  {
    match value
    case "b" => Ok(Bold)
    case "i" => Ok(Italic)
    case "bi" => Ok(BoldItalic)
    case "sc" => Ok(Script)
    case "bs" => Ok(BoldScript)
    case "f" => Ok(Fraktur)
    case "d" => Ok(DoubleStruck)
    case "bf" => Ok(BoldFraktur)
    case "ss" => Ok(SansSerif)
    case "ssb" => Ok(SansSerifBold)
    case "ssi" => Ok(SansSerifItalic)
    case "ssbi" => Ok(SansSerifBoldItalic)
    case "m" => Ok(Monospace)
    case _ => Err(())
  }

  /** Parsing the token of a style gives that style back. */
  lemma TokenRoundTrip(g: Glyph)
    ensures FromStr(Token(g)) == Ok(g)
  {
  }

  /** Distinct styles have distinct tokens, and every style has an accepted token. */
  lemma TokenInjective(g1: Glyph, g2: Glyph)
    ensures Token(g1) in Tokens
    ensures Token(g1) == Token(g2) ==> g1 == g2
  {
    TokenRoundTrip(g1);
    TokenRoundTrip(g2);
  }

  /** The empty string, near misses and wrong-case tokens are rejected. */
  lemma RejectsOtherTokens()
    ensures FromStr("").Err?
    ensures FromStr("xx").Err?
    ensures FromStr("B").Err?
    ensures FromStr("SS").Err?
    ensures FromStr(" b").Err?
    ensures FromStr("bold").Err?
  {
  }

  /** The ordinal numbers the styles 0..12 without repetition. */
  lemma OrdinalInjective(g1: Glyph, g2: Glyph)
    ensures Ordinal(g1) < 13
    ensures Ordinal(g1) == Ordinal(g2) ==> g1 == g2
  {
  }
}
