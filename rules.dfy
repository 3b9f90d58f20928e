/**
 * The style catalog: each style's start code point (the styled `A`) and its
 * optional table of letters that Unicode encodes elsewhere.
 */
module Rules {
  import opened Wrappers
  import opened Unicode
  import opened Glyphs

  /** `struct Rule`: a start code point and an optional exception map. */
  datatype Rule = Rule(start: u32, except: Option<map<char, char>>)

  /** `Rule::new`: a rule without exceptions. */
  function New(start: u32): (r: Rule)
    ensures r.start == start && r.except.None? && Exceptions(r) == map[]
  {
    Rule(start, None)
  }

  /** `Rule::with_except`: a rule whose exception map is built from a list of pairs. */
  function WithExcept(start: u32, pairs: seq<(char, char)>): (r: Rule)
    ensures r.start == start && r.except == Some(MapOf(pairs))
  {
    Rule(start, Some(MapOf(pairs)))
  }

  /** `HashMap::from` a list of pairs: the pairs are inserted in order. */
  function MapOf(pairs: seq<(char, char)>): (m: map<char, char>)
    ensures forall i :: 0 <= i < |pairs| ==> pairs[i].0 in m
  {
    MapUpToSpec(pairs, |pairs|);
    MapUpTo(pairs, |pairs|)
  }

  /** The map after inserting the first `n` pairs. */
  function MapUpTo(pairs: seq<(char, char)>, n: nat): map<char, char>
    requires n <= |pairs|
  {
    if n == 0 then map[]
    else MapUpTo(pairs, n - 1)[pairs[n - 1].0 := pairs[n - 1].1]
  }

  /** No pair after position `i` and before position `n` has the same key as pair `i`. */
  predicate LastWithKey(pairs: seq<(char, char)>, n: nat, i: nat)
    requires i < n <= |pairs|
  {
    forall j :: i < j < n ==> pairs[j].0 != pairs[i].0
  }

  /**
   * What building a map from pairs means: its keys are exactly the listed keys,
   * and a key maps to the value of its last pair.
   */
  lemma MapOfSpec(pairs: seq<(char, char)>)
    ensures forall k :: k in MapOf(pairs) <==> exists i :: 0 <= i < |pairs| && pairs[i].0 == k
    ensures forall i :: 0 <= i < |pairs| && LastWithKey(pairs, |pairs|, i) ==> MapOf(pairs)[pairs[i].0] == pairs[i].1
  {
    MapUpToSpec(pairs, |pairs|);
  }

  lemma {:induction false} MapUpToSpec(pairs: seq<(char, char)>, n: nat)
    requires n <= |pairs|
    ensures forall k :: k in MapUpTo(pairs, n) <==> exists i :: 0 <= i < n && pairs[i].0 == k
    ensures forall i :: 0 <= i < n && LastWithKey(pairs, n, i) ==> MapUpTo(pairs, n)[pairs[i].0] == pairs[i].1
  {
    if n > 0 {
      MapUpToSpec(pairs, n - 1);
    }
  }

  /** The exception pairs of the italic style, in source order. */
  const ItalicPairs: seq<(char, char)> := [
    ('h', '\U{210e}')
  ]

  /** The exception pairs of the script style, in source order. */
  const ScriptPairs: seq<(char, char)> := [
    ('B', '\U{212c}'),
    ('E', '\U{2130}'),
    ('F', '\U{2131}'),
    ('H', '\U{210b}'),
    ('I', '\U{2110}'),
    ('L', '\U{2112}'),
    ('M', '\U{2133}'),
    ('R', '\U{211b}'),
    ('e', '\U{212f}'),
    ('g', '\U{210a}'),
    ('o', '\U{2134}')
  ]

  /** The exception pairs of the fraktur style, in source order. */
  const FrakturPairs: seq<(char, char)> := [
    ('C', '\U{212d}'),
    ('H', '\U{210c}'),
    ('I', '\U{2111}'),
    ('R', '\U{211c}'),
    ('Z', '\U{2128}')
  ]

  /** The exception pairs of the double-struck style, in source order. */
  const DoubleStruckPairs: seq<(char, char)> := [
    ('C', '\U{2102}'),
    ('H', '\U{210d}'),
    ('N', '\U{2115}'),
    ('P', '\U{2119}'),
    ('Q', '\U{211a}'),
    ('R', '\U{211d}'),
    ('Z', '\U{2124}')
  ]

  /** Inserting the Italic pairs one by one yields the documented table. */
  lemma ItalicTable()
    ensures MapOf(ItalicPairs) == ExceptionTable(Italic)
  {
    assert MapUpTo(ItalicPairs, 1) == MapUpTo(ItalicPairs, 0)['h' := '\U{210e}'];
  }

  /** Inserting the Script pairs one by one yields the documented table. */
  lemma ScriptTable()
    ensures MapOf(ScriptPairs) == ExceptionTable(Script)
  {
    assert MapUpTo(ScriptPairs, 1) == MapUpTo(ScriptPairs, 0)['B' := '\U{212c}'];
    assert MapUpTo(ScriptPairs, 2) == MapUpTo(ScriptPairs, 1)['E' := '\U{2130}'];
    assert MapUpTo(ScriptPairs, 3) == MapUpTo(ScriptPairs, 2)['F' := '\U{2131}'];
    assert MapUpTo(ScriptPairs, 4) == MapUpTo(ScriptPairs, 3)['H' := '\U{210b}'];
    assert MapUpTo(ScriptPairs, 5) == MapUpTo(ScriptPairs, 4)['I' := '\U{2110}'];
    assert MapUpTo(ScriptPairs, 6) == MapUpTo(ScriptPairs, 5)['L' := '\U{2112}'];
    assert MapUpTo(ScriptPairs, 7) == MapUpTo(ScriptPairs, 6)['M' := '\U{2133}'];
    assert MapUpTo(ScriptPairs, 8) == MapUpTo(ScriptPairs, 7)['R' := '\U{211b}'];
    assert MapUpTo(ScriptPairs, 9) == MapUpTo(ScriptPairs, 8)['e' := '\U{212f}'];
    assert MapUpTo(ScriptPairs, 10) == MapUpTo(ScriptPairs, 9)['g' := '\U{210a}'];
    assert MapUpTo(ScriptPairs, 11) == MapUpTo(ScriptPairs, 10)['o' := '\U{2134}'];
  }

  /** Inserting the Fraktur pairs one by one yields the documented table. */
  lemma FrakturTable()
    ensures MapOf(FrakturPairs) == ExceptionTable(Fraktur)
  {
    assert MapUpTo(FrakturPairs, 1) == MapUpTo(FrakturPairs, 0)['C' := '\U{212d}'];
    assert MapUpTo(FrakturPairs, 2) == MapUpTo(FrakturPairs, 1)['H' := '\U{210c}'];
    assert MapUpTo(FrakturPairs, 3) == MapUpTo(FrakturPairs, 2)['I' := '\U{2111}'];
    assert MapUpTo(FrakturPairs, 4) == MapUpTo(FrakturPairs, 3)['R' := '\U{211c}'];
    assert MapUpTo(FrakturPairs, 5) == MapUpTo(FrakturPairs, 4)['Z' := '\U{2128}'];
  }

  /** Inserting the DoubleStruck pairs one by one yields the documented table. */
  lemma DoubleStruckTable()
    ensures MapOf(DoubleStruckPairs) == ExceptionTable(DoubleStruck)
  {
    assert MapUpTo(DoubleStruckPairs, 1) == MapUpTo(DoubleStruckPairs, 0)['C' := '\U{2102}'];
    assert MapUpTo(DoubleStruckPairs, 2) == MapUpTo(DoubleStruckPairs, 1)['H' := '\U{210d}'];
    assert MapUpTo(DoubleStruckPairs, 3) == MapUpTo(DoubleStruckPairs, 2)['N' := '\U{2115}'];
    assert MapUpTo(DoubleStruckPairs, 4) == MapUpTo(DoubleStruckPairs, 3)['P' := '\U{2119}'];
    assert MapUpTo(DoubleStruckPairs, 5) == MapUpTo(DoubleStruckPairs, 4)['Q' := '\U{211a}'];
    assert MapUpTo(DoubleStruckPairs, 6) == MapUpTo(DoubleStruckPairs, 5)['R' := '\U{211d}'];
    assert MapUpTo(DoubleStruckPairs, 7) == MapUpTo(DoubleStruckPairs, 6)['Z' := '\U{2124}'];
  }

  /** The exception map of a rule, empty when it has none. */
  function Exceptions(r: Rule): map<char, char> {
    match r.except
    case Some(m) => m
    case None => map[]
  }

  /**
   * The 52 code points `start + 0 ..= start + 51` are all scalar values, so the
   * conversion of any letter offset to a `char` cannot fail.
   */
  predicate ScalarRun(start: u32) {
    start as int + 51 < 0xD800 || (0xE000 <= start as int && start as int + 51 <= 0x10FFFF)
  }

  /** Every offset below 52 added to the start of a scalar run stays in `u32` and gives a scalar value. */
  lemma ScalarRunAt(start: u32, d: u32)
    requires ScalarRun(start) && d < 52
    ensures start as int + d as int < 0x1_0000_0000
    ensures IsScalarValue(start as int + d as int)
  {
  }

  /** What the conversion relies on about a rule. */
  predicate WellFormed(r: Rule) {
    && ScalarRun(r.start)
    && (forall c :: c in Exceptions(r) ==> IsAsciiLetter(c))
  }

  /**
   * `From<Glyph> for Rule`: the catalog. Every rule is well formed, the styles
   * occupy consecutive runs of 52 code points in declaration order inside the
   * Mathematical Alphanumeric Symbols block, and every override is a Letterlike
   * Symbols character.
   */
  function RuleOf(g: Glyph): (r: Rule)
    ensures WellFormed(r)
    ensures r.start as int == 0x1D400 + 52 * Ordinal(g)
    ensures InMathAlphanumeric(r.start as int) && InMathAlphanumeric(r.start as int + 51)
    ensures forall c :: c in Exceptions(r) ==> InLetterlike(Exceptions(r)[c] as int)
  {
    match g
    case Bold => New(0x1d400)
    case Italic => ItalicTable(); WithExcept(0x1d434, ItalicPairs)
    case BoldItalic => New(0x1d468)
    case Script => ScriptTable(); WithExcept(0x1d49c, ScriptPairs)
    case BoldScript => New(0x1d4d0)
    case Fraktur => FrakturTable(); WithExcept(0x1d504, FrakturPairs)
    case DoubleStruck => DoubleStruckTable(); WithExcept(0x1d538, DoubleStruckPairs)
    case BoldFraktur => New(0x1d56c)
    case SansSerif => New(0x1d5a0)
    case SansSerifBold => New(0x1d5d4)
    case SansSerifItalic => New(0x1d608)
    case SansSerifBoldItalic => New(0x1d63c)
    case Monospace => New(0x1d670)
  }

  /**
   * The documented exception table: for each style, the letters whose styled
   * form Unicode encodes in the Letterlike Symbols block, and that character.
   */
  function ExceptionTable(g: Glyph): map<char, char> {
    match g
    case Italic => map['h' := '\U{210e}']
    case Script => map[
      'B' := '\U{212c}', 'E' := '\U{2130}', 'F' := '\U{2131}', 'H' := '\U{210b}',
      'I' := '\U{2110}', 'L' := '\U{2112}', 'M' := '\U{2133}', 'R' := '\U{211b}',
      'e' := '\U{212f}', 'g' := '\U{210a}', 'o' := '\U{2134}']
    case Fraktur => map[
      'C' := '\U{212d}', 'H' := '\U{210c}', 'I' := '\U{2111}', 'R' := '\U{211c}', 'Z' := '\U{2128}']
    case DoubleStruck => map[
      'C' := '\U{2102}', 'H' := '\U{210d}', 'N' := '\U{2115}', 'P' := '\U{2119}',
      'Q' := '\U{211a}', 'R' := '\U{211d}', 'Z' := '\U{2124}']
    case _ => map[]
  }

  /** The catalog's exception maps are exactly the documented table; the other nine styles have none. */
  lemma CatalogExceptions(g: Glyph)
    ensures Exceptions(RuleOf(g)) == ExceptionTable(g)
    ensures RuleOf(g).except.Some? <==> g in {Italic, Script, Fraktur, DoubleStruck}
  {
    match g
    case Italic => ItalicTable();
    case Script => ScriptTable();
    case Fraktur => FrakturTable();
    case DoubleStruck => DoubleStruckTable();
    case _ =>
  }
}
