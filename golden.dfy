/**
 * The golden values of `test_convert`: the 52 ASCII letters in order,
 * converted style by style.
 */
module Golden {
  import opened Wrappers
  import opened Unicode
  import opened Glyphs
  import opened Rules
  import opened Convert

  /** The test input: `A` to `Z`, then `a` to `z`. */
  const Alphabet: string := "ABCDEFGHIJKLMNOPQRSTUVWXYZ" + "abcdefghijklmnopqrstuvwxyz"

  /** Every character of the alphabet is the letter whose offset is its position. */
  lemma AlphabetOffsets()
    ensures |Alphabet| == 52
    ensures forall i :: 0 <= i < 52 ==> TryDiff(Alphabet[i]) == Some(i as u32)
  {
  }

  /** The expected strings of `test_convert`, capitals then small letters. */
  function Expected(g: Glyph): string {
    match g
    case Bold =>
      "\U{1D400}\U{1D401}\U{1D402}\U{1D403}\U{1D404}\U{1D405}\U{1D406}\U{1D407}\U{1D408}\U{1D409}\U{1D40A}\U{1D40B}\U{1D40C}\U{1D40D}\U{1D40E}\U{1D40F}\U{1D410}\U{1D411}\U{1D412}\U{1D413}\U{1D414}\U{1D415}\U{1D416}\U{1D417}\U{1D418}\U{1D419}"
      + "\U{1D41A}\U{1D41B}\U{1D41C}\U{1D41D}\U{1D41E}\U{1D41F}\U{1D420}\U{1D421}\U{1D422}\U{1D423}\U{1D424}\U{1D425}\U{1D426}\U{1D427}\U{1D428}\U{1D429}\U{1D42A}\U{1D42B}\U{1D42C}\U{1D42D}\U{1D42E}\U{1D42F}\U{1D430}\U{1D431}\U{1D432}\U{1D433}"
    case Italic =>
      "\U{1D434}\U{1D435}\U{1D436}\U{1D437}\U{1D438}\U{1D439}\U{1D43A}\U{1D43B}\U{1D43C}\U{1D43D}\U{1D43E}\U{1D43F}\U{1D440}\U{1D441}\U{1D442}\U{1D443}\U{1D444}\U{1D445}\U{1D446}\U{1D447}\U{1D448}\U{1D449}\U{1D44A}\U{1D44B}\U{1D44C}\U{1D44D}"
      + "\U{1D44E}\U{1D44F}\U{1D450}\U{1D451}\U{1D452}\U{1D453}\U{1D454}\U{210E}\U{1D456}\U{1D457}\U{1D458}\U{1D459}\U{1D45A}\U{1D45B}\U{1D45C}\U{1D45D}\U{1D45E}\U{1D45F}\U{1D460}\U{1D461}\U{1D462}\U{1D463}\U{1D464}\U{1D465}\U{1D466}\U{1D467}"
    case BoldItalic =>
      "\U{1D468}\U{1D469}\U{1D46A}\U{1D46B}\U{1D46C}\U{1D46D}\U{1D46E}\U{1D46F}\U{1D470}\U{1D471}\U{1D472}\U{1D473}\U{1D474}\U{1D475}\U{1D476}\U{1D477}\U{1D478}\U{1D479}\U{1D47A}\U{1D47B}\U{1D47C}\U{1D47D}\U{1D47E}\U{1D47F}\U{1D480}\U{1D481}"
      + "\U{1D482}\U{1D483}\U{1D484}\U{1D485}\U{1D486}\U{1D487}\U{1D488}\U{1D489}\U{1D48A}\U{1D48B}\U{1D48C}\U{1D48D}\U{1D48E}\U{1D48F}\U{1D490}\U{1D491}\U{1D492}\U{1D493}\U{1D494}\U{1D495}\U{1D496}\U{1D497}\U{1D498}\U{1D499}\U{1D49A}\U{1D49B}"
    case Script =>
      "\U{1D49C}\U{212C}\U{1D49E}\U{1D49F}\U{2130}\U{2131}\U{1D4A2}\U{210B}\U{2110}\U{1D4A5}\U{1D4A6}\U{2112}\U{2133}\U{1D4A9}\U{1D4AA}\U{1D4AB}\U{1D4AC}\U{211B}\U{1D4AE}\U{1D4AF}\U{1D4B0}\U{1D4B1}\U{1D4B2}\U{1D4B3}\U{1D4B4}\U{1D4B5}"
      + "\U{1D4B6}\U{1D4B7}\U{1D4B8}\U{1D4B9}\U{212F}\U{1D4BB}\U{210A}\U{1D4BD}\U{1D4BE}\U{1D4BF}\U{1D4C0}\U{1D4C1}\U{1D4C2}\U{1D4C3}\U{2134}\U{1D4C5}\U{1D4C6}\U{1D4C7}\U{1D4C8}\U{1D4C9}\U{1D4CA}\U{1D4CB}\U{1D4CC}\U{1D4CD}\U{1D4CE}\U{1D4CF}"
    case BoldScript =>
      "\U{1D4D0}\U{1D4D1}\U{1D4D2}\U{1D4D3}\U{1D4D4}\U{1D4D5}\U{1D4D6}\U{1D4D7}\U{1D4D8}\U{1D4D9}\U{1D4DA}\U{1D4DB}\U{1D4DC}\U{1D4DD}\U{1D4DE}\U{1D4DF}\U{1D4E0}\U{1D4E1}\U{1D4E2}\U{1D4E3}\U{1D4E4}\U{1D4E5}\U{1D4E6}\U{1D4E7}\U{1D4E8}\U{1D4E9}"
      + "\U{1D4EA}\U{1D4EB}\U{1D4EC}\U{1D4ED}\U{1D4EE}\U{1D4EF}\U{1D4F0}\U{1D4F1}\U{1D4F2}\U{1D4F3}\U{1D4F4}\U{1D4F5}\U{1D4F6}\U{1D4F7}\U{1D4F8}\U{1D4F9}\U{1D4FA}\U{1D4FB}\U{1D4FC}\U{1D4FD}\U{1D4FE}\U{1D4FF}\U{1D500}\U{1D501}\U{1D502}\U{1D503}"
    case Fraktur =>
      "\U{1D504}\U{1D505}\U{212D}\U{1D507}\U{1D508}\U{1D509}\U{1D50A}\U{210C}\U{2111}\U{1D50D}\U{1D50E}\U{1D50F}\U{1D510}\U{1D511}\U{1D512}\U{1D513}\U{1D514}\U{211C}\U{1D516}\U{1D517}\U{1D518}\U{1D519}\U{1D51A}\U{1D51B}\U{1D51C}\U{2128}"
      + "\U{1D51E}\U{1D51F}\U{1D520}\U{1D521}\U{1D522}\U{1D523}\U{1D524}\U{1D525}\U{1D526}\U{1D527}\U{1D528}\U{1D529}\U{1D52A}\U{1D52B}\U{1D52C}\U{1D52D}\U{1D52E}\U{1D52F}\U{1D530}\U{1D531}\U{1D532}\U{1D533}\U{1D534}\U{1D535}\U{1D536}\U{1D537}"
    case DoubleStruck =>
      "\U{1D538}\U{1D539}\U{2102}\U{1D53B}\U{1D53C}\U{1D53D}\U{1D53E}\U{210D}\U{1D540}\U{1D541}\U{1D542}\U{1D543}\U{1D544}\U{2115}\U{1D546}\U{2119}\U{211A}\U{211D}\U{1D54A}\U{1D54B}\U{1D54C}\U{1D54D}\U{1D54E}\U{1D54F}\U{1D550}\U{2124}"
      + "\U{1D552}\U{1D553}\U{1D554}\U{1D555}\U{1D556}\U{1D557}\U{1D558}\U{1D559}\U{1D55A}\U{1D55B}\U{1D55C}\U{1D55D}\U{1D55E}\U{1D55F}\U{1D560}\U{1D561}\U{1D562}\U{1D563}\U{1D564}\U{1D565}\U{1D566}\U{1D567}\U{1D568}\U{1D569}\U{1D56A}\U{1D56B}"
    case BoldFraktur =>
      "\U{1D56C}\U{1D56D}\U{1D56E}\U{1D56F}\U{1D570}\U{1D571}\U{1D572}\U{1D573}\U{1D574}\U{1D575}\U{1D576}\U{1D577}\U{1D578}\U{1D579}\U{1D57A}\U{1D57B}\U{1D57C}\U{1D57D}\U{1D57E}\U{1D57F}\U{1D580}\U{1D581}\U{1D582}\U{1D583}\U{1D584}\U{1D585}"
      + "\U{1D586}\U{1D587}\U{1D588}\U{1D589}\U{1D58A}\U{1D58B}\U{1D58C}\U{1D58D}\U{1D58E}\U{1D58F}\U{1D590}\U{1D591}\U{1D592}\U{1D593}\U{1D594}\U{1D595}\U{1D596}\U{1D597}\U{1D598}\U{1D599}\U{1D59A}\U{1D59B}\U{1D59C}\U{1D59D}\U{1D59E}\U{1D59F}"
    case SansSerif =>
      "\U{1D5A0}\U{1D5A1}\U{1D5A2}\U{1D5A3}\U{1D5A4}\U{1D5A5}\U{1D5A6}\U{1D5A7}\U{1D5A8}\U{1D5A9}\U{1D5AA}\U{1D5AB}\U{1D5AC}\U{1D5AD}\U{1D5AE}\U{1D5AF}\U{1D5B0}\U{1D5B1}\U{1D5B2}\U{1D5B3}\U{1D5B4}\U{1D5B5}\U{1D5B6}\U{1D5B7}\U{1D5B8}\U{1D5B9}"
      + "\U{1D5BA}\U{1D5BB}\U{1D5BC}\U{1D5BD}\U{1D5BE}\U{1D5BF}\U{1D5C0}\U{1D5C1}\U{1D5C2}\U{1D5C3}\U{1D5C4}\U{1D5C5}\U{1D5C6}\U{1D5C7}\U{1D5C8}\U{1D5C9}\U{1D5CA}\U{1D5CB}\U{1D5CC}\U{1D5CD}\U{1D5CE}\U{1D5CF}\U{1D5D0}\U{1D5D1}\U{1D5D2}\U{1D5D3}"
    case SansSerifBold =>
      "\U{1D5D4}\U{1D5D5}\U{1D5D6}\U{1D5D7}\U{1D5D8}\U{1D5D9}\U{1D5DA}\U{1D5DB}\U{1D5DC}\U{1D5DD}\U{1D5DE}\U{1D5DF}\U{1D5E0}\U{1D5E1}\U{1D5E2}\U{1D5E3}\U{1D5E4}\U{1D5E5}\U{1D5E6}\U{1D5E7}\U{1D5E8}\U{1D5E9}\U{1D5EA}\U{1D5EB}\U{1D5EC}\U{1D5ED}"
      + "\U{1D5EE}\U{1D5EF}\U{1D5F0}\U{1D5F1}\U{1D5F2}\U{1D5F3}\U{1D5F4}\U{1D5F5}\U{1D5F6}\U{1D5F7}\U{1D5F8}\U{1D5F9}\U{1D5FA}\U{1D5FB}\U{1D5FC}\U{1D5FD}\U{1D5FE}\U{1D5FF}\U{1D600}\U{1D601}\U{1D602}\U{1D603}\U{1D604}\U{1D605}\U{1D606}\U{1D607}"
    case SansSerifItalic =>
      "\U{1D608}\U{1D609}\U{1D60A}\U{1D60B}\U{1D60C}\U{1D60D}\U{1D60E}\U{1D60F}\U{1D610}\U{1D611}\U{1D612}\U{1D613}\U{1D614}\U{1D615}\U{1D616}\U{1D617}\U{1D618}\U{1D619}\U{1D61A}\U{1D61B}\U{1D61C}\U{1D61D}\U{1D61E}\U{1D61F}\U{1D620}\U{1D621}"
      + "\U{1D622}\U{1D623}\U{1D624}\U{1D625}\U{1D626}\U{1D627}\U{1D628}\U{1D629}\U{1D62A}\U{1D62B}\U{1D62C}\U{1D62D}\U{1D62E}\U{1D62F}\U{1D630}\U{1D631}\U{1D632}\U{1D633}\U{1D634}\U{1D635}\U{1D636}\U{1D637}\U{1D638}\U{1D639}\U{1D63A}\U{1D63B}"
    case SansSerifBoldItalic =>
      "\U{1D63C}\U{1D63D}\U{1D63E}\U{1D63F}\U{1D640}\U{1D641}\U{1D642}\U{1D643}\U{1D644}\U{1D645}\U{1D646}\U{1D647}\U{1D648}\U{1D649}\U{1D64A}\U{1D64B}\U{1D64C}\U{1D64D}\U{1D64E}\U{1D64F}\U{1D650}\U{1D651}\U{1D652}\U{1D653}\U{1D654}\U{1D655}"
      + "\U{1D656}\U{1D657}\U{1D658}\U{1D659}\U{1D65A}\U{1D65B}\U{1D65C}\U{1D65D}\U{1D65E}\U{1D65F}\U{1D660}\U{1D661}\U{1D662}\U{1D663}\U{1D664}\U{1D665}\U{1D666}\U{1D667}\U{1D668}\U{1D669}\U{1D66A}\U{1D66B}\U{1D66C}\U{1D66D}\U{1D66E}\U{1D66F}"
    case Monospace =>
      "\U{1D670}\U{1D671}\U{1D672}\U{1D673}\U{1D674}\U{1D675}\U{1D676}\U{1D677}\U{1D678}\U{1D679}\U{1D67A}\U{1D67B}\U{1D67C}\U{1D67D}\U{1D67E}\U{1D67F}\U{1D680}\U{1D681}\U{1D682}\U{1D683}\U{1D684}\U{1D685}\U{1D686}\U{1D687}\U{1D688}\U{1D689}"
      + "\U{1D68A}\U{1D68B}\U{1D68C}\U{1D68D}\U{1D68E}\U{1D68F}\U{1D690}\U{1D691}\U{1D692}\U{1D693}\U{1D694}\U{1D695}\U{1D696}\U{1D697}\U{1D698}\U{1D699}\U{1D69A}\U{1D69B}\U{1D69C}\U{1D69D}\U{1D69E}\U{1D69F}\U{1D6A0}\U{1D6A1}\U{1D6A2}\U{1D6A3}"
  }

  /** Position `i` of the converted alphabet, for any style, as the catalog describes it. */
  lemma ConvertAlphabetAt(g: Glyph, i: nat)
    requires i < 52
    ensures var r := RuleOf(g);
      && (r.start as int + i !in ReservedLetters ==> ConvertGlyphs(g, Alphabet)[i] as int == r.start as int + i)
      && (r.start as int + i in ReservedLetters ==>
            LetterAt(i as u32) in Exceptions(r) && ConvertGlyphs(g, Alphabet)[i] == Exceptions(r)[LetterAt(i as u32)])
  {
    AlphabetOffsets();
    TryDiffRoundTrip(Alphabet[i], i as u32);
    ConvertCharCases(g, Alphabet[i]);
    ExceptionsFillReserved(g, Alphabet[i]);
  }

  /** `test_convert`: converting the alphabet gives the expected string, for every style. */
  lemma ConvertAlphabet(g: Glyph)
    ensures ConvertGlyphs(g, Alphabet) == Expected(g)
  {
    ExpectedRuns(g);
    ExpectedOverrides(g);
    CatalogExceptions(g);
    forall i | 0 <= i < 52 ensures ConvertGlyphs(g, Alphabet)[i] == Expected(g)[i] {
      ConvertAlphabetAt(g, i);
    }
  }

  /**
   * Off the reserved code points, character `i` of every expected string is
   * the one at `start + i`.
   */
  lemma ExpectedRuns(g: Glyph)
    ensures |Expected(g)| == 52
    ensures forall i :: 0 <= i < 52 && 0x1D400 + 52 * Ordinal(g) + i !in ReservedLetters ==>
      Expected(g)[i] as int == 0x1D400 + 52 * Ordinal(g) + i
  {
    match g
    case Bold => BoldCapitals(); BoldSmall();
    case Italic => ItalicCapitals(); ItalicSmall();
    case BoldItalic => BoldItalicCapitals(); BoldItalicSmall();
    case Script => ScriptCapitals(); ScriptSmall();
    case BoldScript => BoldScriptCapitals(); BoldScriptSmall();
    case Fraktur => FrakturCapitals(); FrakturSmall();
    case DoubleStruck => DoubleStruckCapitals(); DoubleStruckSmall();
    case BoldFraktur => BoldFrakturCapitals(); BoldFrakturSmall();
    case SansSerif => SansSerifCapitals(); SansSerifSmall();
    case SansSerifBold => SansSerifBoldCapitals(); SansSerifBoldSmall();
    case SansSerifItalic => SansSerifItalicCapitals(); SansSerifItalicSmall();
    case SansSerifBoldItalic => SansSerifBoldItalicCapitals(); SansSerifBoldItalicSmall();
    case Monospace => MonospaceCapitals(); MonospaceSmall();
  }

  /** At every letter the style overrides, the expected string holds the override. */
  lemma ExpectedOverrides(g: Glyph)
    ensures forall i :: 0 <= i < 52 && LetterAt(i as u32) in ExceptionTable(g) ==>
      Expected(g)[i] == ExceptionTable(g)[LetterAt(i as u32)]
  {
    match g
    case Italic => ItalicOverrides();
    case Script => ScriptOverrides();
    case Fraktur => FrakturOverrides();
    case DoubleStruck => DoubleStruckOverrides();
    case _ =>
  }

  // The expected strings checked half by half: capitals at positions 0..25,
  // small letters at 26..51, and the overrides of the four styles that have them.

  lemma BoldCapitals()
    ensures |Expected(Bold)| == 52
    ensures forall i :: 0 <= i < 26 ==> Expected(Bold)[i] as int == 0x1D400 + i || 0x1D400 + i in ReservedLetters
  {
  }

  lemma BoldSmall()
    ensures forall i :: 26 <= i < 52 ==> Expected(Bold)[i] as int == 0x1D400 + i || 0x1D400 + i in ReservedLetters
  {
  }

  lemma ItalicCapitals()
    ensures |Expected(Italic)| == 52
    ensures forall i :: 0 <= i < 26 ==> Expected(Italic)[i] as int == 0x1D434 + i || 0x1D434 + i in ReservedLetters
  {
  }

  lemma ItalicSmall()
    ensures forall i :: 26 <= i < 52 ==> Expected(Italic)[i] as int == 0x1D434 + i || 0x1D434 + i in ReservedLetters
  {
  }

  lemma BoldItalicCapitals()
    ensures |Expected(BoldItalic)| == 52
    ensures forall i :: 0 <= i < 26 ==> Expected(BoldItalic)[i] as int == 0x1D468 + i || 0x1D468 + i in ReservedLetters
  {
  }

  lemma BoldItalicSmall()
    ensures forall i :: 26 <= i < 52 ==> Expected(BoldItalic)[i] as int == 0x1D468 + i || 0x1D468 + i in ReservedLetters
  {
  }

  lemma ScriptCapitals()
    ensures |Expected(Script)| == 52
    ensures forall i :: 0 <= i < 26 ==> Expected(Script)[i] as int == 0x1D49C + i || 0x1D49C + i in ReservedLetters
  {
  }

  lemma ScriptSmall()
    ensures forall i :: 26 <= i < 52 ==> Expected(Script)[i] as int == 0x1D49C + i || 0x1D49C + i in ReservedLetters
  {
  }

  lemma BoldScriptCapitals()
    ensures |Expected(BoldScript)| == 52
    ensures forall i :: 0 <= i < 26 ==> Expected(BoldScript)[i] as int == 0x1D4D0 + i || 0x1D4D0 + i in ReservedLetters
  {
  }

  lemma BoldScriptSmall()
    ensures forall i :: 26 <= i < 52 ==> Expected(BoldScript)[i] as int == 0x1D4D0 + i || 0x1D4D0 + i in ReservedLetters
  {
  }

  lemma FrakturCapitals()
    ensures |Expected(Fraktur)| == 52
    ensures forall i :: 0 <= i < 26 ==> Expected(Fraktur)[i] as int == 0x1D504 + i || 0x1D504 + i in ReservedLetters
  {
  }

  lemma FrakturSmall()
    ensures forall i :: 26 <= i < 52 ==> Expected(Fraktur)[i] as int == 0x1D504 + i || 0x1D504 + i in ReservedLetters
  {
  }

  lemma DoubleStruckCapitals()
    ensures |Expected(DoubleStruck)| == 52
    ensures forall i :: 0 <= i < 26 ==> Expected(DoubleStruck)[i] as int == 0x1D538 + i || 0x1D538 + i in ReservedLetters
  {
  }

  lemma DoubleStruckSmall()
    ensures forall i :: 26 <= i < 52 ==> Expected(DoubleStruck)[i] as int == 0x1D538 + i || 0x1D538 + i in ReservedLetters
  {
  }

  lemma BoldFrakturCapitals()
    ensures |Expected(BoldFraktur)| == 52
    ensures forall i :: 0 <= i < 26 ==> Expected(BoldFraktur)[i] as int == 0x1D56C + i || 0x1D56C + i in ReservedLetters
  {
  }

  lemma BoldFrakturSmall()
    ensures forall i :: 26 <= i < 52 ==> Expected(BoldFraktur)[i] as int == 0x1D56C + i || 0x1D56C + i in ReservedLetters
  {
  }

  lemma SansSerifCapitals()
    ensures |Expected(SansSerif)| == 52
    ensures forall i :: 0 <= i < 26 ==> Expected(SansSerif)[i] as int == 0x1D5A0 + i || 0x1D5A0 + i in ReservedLetters
  {
  }

  lemma SansSerifSmall()
    ensures forall i :: 26 <= i < 52 ==> Expected(SansSerif)[i] as int == 0x1D5A0 + i || 0x1D5A0 + i in ReservedLetters
  {
  }

  lemma SansSerifBoldCapitals()
    ensures |Expected(SansSerifBold)| == 52
    ensures forall i :: 0 <= i < 26 ==> Expected(SansSerifBold)[i] as int == 0x1D5D4 + i || 0x1D5D4 + i in ReservedLetters
  {
  }

  lemma SansSerifBoldSmall()
    ensures forall i :: 26 <= i < 52 ==> Expected(SansSerifBold)[i] as int == 0x1D5D4 + i || 0x1D5D4 + i in ReservedLetters
  {
  }

  lemma SansSerifItalicCapitals()
    ensures |Expected(SansSerifItalic)| == 52
    ensures forall i :: 0 <= i < 26 ==> Expected(SansSerifItalic)[i] as int == 0x1D608 + i || 0x1D608 + i in ReservedLetters
  {
  }

  lemma SansSerifItalicSmall()
    ensures forall i :: 26 <= i < 52 ==> Expected(SansSerifItalic)[i] as int == 0x1D608 + i || 0x1D608 + i in ReservedLetters
  {
  }

  lemma SansSerifBoldItalicCapitals()
    ensures |Expected(SansSerifBoldItalic)| == 52
    ensures forall i :: 0 <= i < 26 ==> Expected(SansSerifBoldItalic)[i] as int == 0x1D63C + i || 0x1D63C + i in ReservedLetters
  {
  }

  lemma SansSerifBoldItalicSmall()
    ensures forall i :: 26 <= i < 52 ==> Expected(SansSerifBoldItalic)[i] as int == 0x1D63C + i || 0x1D63C + i in ReservedLetters
  {
  }

  lemma MonospaceCapitals()
    ensures |Expected(Monospace)| == 52
    ensures forall i :: 0 <= i < 26 ==> Expected(Monospace)[i] as int == 0x1D670 + i || 0x1D670 + i in ReservedLetters
  {
  }

  lemma MonospaceSmall()
    ensures forall i :: 26 <= i < 52 ==> Expected(Monospace)[i] as int == 0x1D670 + i || 0x1D670 + i in ReservedLetters
  {
  }

  lemma ItalicOverrides()
    ensures forall i :: 0 <= i < 52 && LetterAt(i as u32) in ExceptionTable(Italic) ==>
      Expected(Italic)[i] == ExceptionTable(Italic)[LetterAt(i as u32)]
  {
  }

  lemma ScriptOverrides()
    ensures forall i :: 0 <= i < 52 && LetterAt(i as u32) in ExceptionTable(Script) ==>
      Expected(Script)[i] == ExceptionTable(Script)[LetterAt(i as u32)]
  {
  }

  lemma FrakturOverrides()
    ensures forall i :: 0 <= i < 52 && LetterAt(i as u32) in ExceptionTable(Fraktur) ==>
      Expected(Fraktur)[i] == ExceptionTable(Fraktur)[LetterAt(i as u32)]
  {
  }

  lemma DoubleStruckOverrides()
    ensures forall i :: 0 <= i < 52 && LetterAt(i as u32) in ExceptionTable(DoubleStruck) ==>
      Expected(DoubleStruck)[i] == ExceptionTable(DoubleStruck)[LetterAt(i as u32)]
  {
  }
}
