# unicode-fancy-glyph in Dafny

This is a verified model of `unicode-fancy-glyph`. The tool rewrites the ASCII
Latin letters of a text into one of thirteen "fancy" mathematical letter
styles: bold, italic, bold italic, script, bold script, Fraktur,
double-struck, bold Fraktur, and the sans-serif and monospace families.
Unicode encodes these styles in the Mathematical Alphanumeric Symbols block,
U+1D400..U+1D7FF.

A style is a `Rule`. A rule has the code point of the styled `A`, followed by
52 consecutive code points for `A..Z` and then `a..z`. A rule can also carry
an exception map. Some styled letters were encoded earlier in the Letterlike
Symbols block, U+2100..U+214F, for example the script capital B at U+212C.
For those letters, the position in the mathematical block is reserved, and
the map sends the letter to its Letterlike character.

Modules:

- `Unicode` has Rust's `u32`, Unicode scalar values and the two blocks. It
  also has the 24 reserved code points of the letter runs (Unicode Technical
  Report #25, section 2.2).
- `Glyphs` has the `Glyph` enumeration and its command-line tokens
  (`Glyph::from_str`).
- `Rules` has `Rule`, `Rule::new`, `Rule::with_except` and the catalog
  `From<Glyph> for Rule`. `HashMap::from` on a list of pairs becomes
  `MapOf`, which inserts the pairs in order.
- `Convert` has `try_diff`, the `conv` closure and `convert_glyphs`.
- `Golden` has the expected strings of `test_convert`, and the proof that
  each style converts the alphabet to its expected string.

The source builds characters with `char::from_u32_unchecked(start + diff)`.
The model replaces that call with `Unicode.FromU32`, which can only be called
on a scalar value. `RuleOf` proves that every start begins a run of 52 scalar
values. So the unsafe call never receives an invalid value, and the `u32`
addition never overflows.

`Rule::new` and `Rule::with_except` are the plain constructors `Rules.New`
and `Rules.WithExcept`. What they build is described by `Rules.MapOfSpec`
and `Rules.RuleOf`.

## Model

| member | source | states |
|---|---|---|
| Unicode.FromU32 | src/main.rs:131-133 | the stand-in for `char::from_u32_unchecked` can only be called on a Unicode scalar value, and the character it returns has exactly that code point |
| Glyphs.FromStr | src/main.rs:42-61 | parsing succeeds exactly on the thirteen tokens `b i bi sc bs f d bf ss ssb ssi ssbi m`, and a parsed style has the token that was parsed |
| Glyphs.TokenRoundTrip | src/main.rs:45-58 | parsing the token of any style gives that style back |
| Glyphs.TokenInjective | src/main.rs:45-58 | every style has an accepted token, and no two styles share one |
| Glyphs.RejectsOtherTokens | src/main.rs:59 | the empty string, wrong-case tokens (`B`, `SS`), padded tokens and long names such as `bold` are all `Err(())` |
| Glyphs.OrdinalInjective | src/main.rs:26-40 | the declaration order numbers the thirteen styles 0..12 without repetition |
| Rules.New | src/main.rs:11-16 | `Rule::new` keeps the start and has no exception map, so `Exceptions` of it is empty |
| Rules.WithExcept | src/main.rs:18-23 | `Rule::with_except` keeps the start and carries `Some` of the map built from the pairs; what that map holds is `MapOf` and `MapOfSpec` |
| Rules.MapOf | src/main.rs:21 | `map.into()` on a list of pairs: every listed key is in the map (the converse and the values are `MapOfSpec`) |
| Rules.MapOfSpec | src/main.rs:18-23 | a map built from a list of pairs has exactly the listed keys, and each key maps to the value of its last pair |
| Rules.MapUpToSpec | src/main.rs:18-23 | the same two facts for the map after the first `n` insertions; the induction behind `MapOfSpec` |
| Rules.ItalicTable | src/main.rs:68 | inserting the italic pairs of the source, in order, builds exactly the documented italic entries of `ExceptionTable` |
| Rules.ScriptTable | src/main.rs:70-85 | inserting the script pairs of the source, in order, builds exactly the documented script entries of `ExceptionTable` |
| Rules.FrakturTable | src/main.rs:87-96 | inserting the Fraktur pairs of the source, in order, builds exactly the documented Fraktur entries of `ExceptionTable` |
| Rules.DoubleStruckTable | src/main.rs:97-108 | inserting the double-struck pairs of the source, in order, builds exactly the documented double-struck entries of `ExceptionTable` |
| Rules.ScalarRunAt | src/main.rs:132 | when the start begins a run of 52 scalar values, `start + diff` for any offset below 52 neither overflows `u32` nor leaves the scalar values |
| Rules.RuleOf | src/main.rs:64-117 | every rule is well formed (a scalar run of 52, exception keys are ASCII letters); style number `k` starts at `0x1D400 + 52 * k`, so the 13 runs tile U+1D400..U+1D6A3, the Latin-letter part of the Mathematical Alphanumeric Symbols block; every override is in the Letterlike Symbols block |
| Rules.CatalogExceptions | src/main.rs:66-115 | the exception maps are exactly the table of italic `h`, eleven script, five Fraktur and seven double-struck letters, and only those four styles have a map |
| Convert.TryDiff | src/main.rs:119-125 | a character has an offset iff it is an ASCII letter; offsets are below 52, and below 26 exactly for capitals |
| Convert.TryDiffRoundTrip | src/main.rs:119-125 | `try_diff` is a bijection from the 52 letters onto 0..51, with `LetterAt` as its inverse |
| Convert.TryDiffInjective | src/main.rs:119-125 | distinct letters have distinct offsets |
| Convert.Conv | src/main.rs:130-134 | `conv` leaves every non-letter unchanged and maps a letter to the character at `start + diff` |
| Convert.ConvertChar | src/main.rs:137-142 | the per-character choice: a character in the rule's exception map becomes its override, whatever it is; otherwise a non-letter is unchanged and a letter becomes `start + diff` (the override takes precedence over `conv`) |
| Convert.ConvertWith | src/main.rs:136-143 | the output has the length of the input and its character `i` is the conversion of input character `i` |
| Convert.ConvertGlyphs | src/main.rs:127-144 | converting a text never changes its length in characters, and output character `i` is input character `i` converted with the style's rule |
| Convert.ConvertCharCases | src/main.rs:137-142 | under every style a non-letter is unchanged, a letter in the exception map becomes its override (which differs from `start + diff`), and any other letter becomes `start + diff` |
| Convert.ConvertConcat | src/main.rs:136-143 | conversion distributes over concatenation |
| Convert.PassThrough | src/main.rs:130-134 | a text without ASCII letters comes back unchanged in every style |
| Convert.ExceptionsFillReserved | src/main.rs:66-115 | a letter has an exception exactly when its natural place `start + diff` is a reserved code point of the Mathematical Alphanumeric Symbols block |
| Convert.LetterStyled | src/main.rs:127-144 | a converted letter lies in the Mathematical Alphanumeric Symbols block off its reserved code points or in the Letterlike Symbols block, and is never an ASCII letter |
| Convert.OverridesDistinct | src/main.rs:66-115 | no two exception entries of the catalog share an override |
| Convert.TableOverridesDistinct | src/main.rs:66-115 | in the documented exception table, distinct (style, letter) entries have distinct overrides |
| Convert.StyledInjective | src/main.rs:127-144 | distinct (style, letter) pairs convert to distinct characters |
| Convert.ConvertSettles | src/main.rs:127-144 | converted text has no ASCII letters left, so converting it again in any style changes nothing |
| Golden.AlphabetOffsets | src/main.rs:163 | the test input has 52 characters and the character at position `i` has offset `i` |
| Golden.ConvertAlphabetAt | src/main.rs:161-190 | for every style, position `i` of the converted alphabet is `start + i`, or the override of the letter when `start + i` is reserved |
| Golden.ConvertAlphabet | src/main.rs:161-190 | for each of the thirteen styles, converting `A..Z` then `a..z` gives exactly the expected string of the test |
| Golden.ExpectedRuns | src/main.rs:165-189 | every expected string has 52 characters, and off the reserved code points its character `i` is `start + i` |
| Golden.ExpectedOverrides | src/main.rs:165-189 | at every letter a style overrides, the expected string holds the override |

## Left out

- `main` (src/main.rs:146-159) is left out. It reads the style token from the command line, reads all of standard input, writes the converted text and prints the list of tokens on a bad argument. Arguments, standard input and output are I/O. The two computations it performs, `FromStr` and `ConvertGlyphs`, are modelled.
- `test_bench` (src/main.rs:192-202) is commented out in the source and only measures time.
- The generic `T: AsRef<str>` input and Rust's UTF-8 `String` are modelled as a sequence of Unicode scalar values (`seq<char>`). This is what `chars()` yields and what `collect` reassembles. Byte-level encoding is not modelled.
- `HashMap` hashing, capacity and iteration order are not modelled. Only lookups are used, so the exception map is a Dafny `map`.
- The `unsafe` block itself is not modelled. `from_u32_unchecked` is replaced by the checked `Unicode.FromU32`, and its precondition is proved for every call.
- The expected strings of `test_convert` appear in the source file as mis-decoded text: the UTF-8 bytes of each styled letter are shown as four Cyrillic-codepage characters (three for the Letterlike overrides). The model writes each expected string as the code-point escapes of its 52 characters. These are recovered from those bytes and agree with the Unicode code charts of the two blocks.
- Per character, the source consults the exception map before `try_diff`, for every character and not only for letters. The model does the same (`Convert.ConvertChar`). `Rules.RuleOf` proves that every key of every map is an ASCII letter, so a non-letter can never be overridden.
