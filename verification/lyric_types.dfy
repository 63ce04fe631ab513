/**
 * The lyric data model of the player's TTML processor (types.rs): syllables, lines,
 * background sections, translation and romanisation entries, the parse result, and
 * the option records with their defaults.
 *
 * Times are milliseconds. Rust stores them as `u64`; here they are naturals, and the
 * two saturating operations the pipeline uses are written out below.
 */
module LyricTypes {
  import opened Wrappers
  import opened Text

  const U64_MAX: nat := 0xFFFF_FFFF_FFFF_FFFF

  /** `u64::saturating_sub`. */
  function SatSub(a: nat, b: nat): (r: nat)
    ensures r + b >= a
    ensures a >= b ==> r == a - b
    ensures a < b ==> r == 0
  {
    if a >= b then a - b else 0
  }

  /** `u64::saturating_add`, for operands that fit in 64 bits. */
  function SatAdd(a: nat, b: nat): (r: nat)
    ensures r <= U64_MAX || r == a + b
    ensures a + b <= U64_MAX ==> r == a + b
    ensures a + b > U64_MAX ==> r == U64_MAX
  {
    if a + b <= U64_MAX then a + b else U64_MAX
  }

  datatype LyricSyllable = LyricSyllable(
    text: string,
    startMs: nat,
    endMs: nat,
    durationMs: Option<nat>,
    endsWithSpace: bool)

  datatype TranslationEntry = TranslationEntry(text: string, lang: Option<string>)

  datatype RomanizationEntry = RomanizationEntry(text: string, lang: Option<string>, scheme: Option<string>)

  datatype BackgroundSection = BackgroundSection(
    startMs: nat,
    endMs: nat,
    syllables: seq<LyricSyllable>,
    translations: seq<TranslationEntry>,
    romanizations: seq<RomanizationEntry>)

  datatype LyricLine = LyricLine(
    startMs: nat,
    endMs: nat,
    lineText: Option<string>,
    mainSyllables: seq<LyricSyllable>,
    translations: seq<TranslationEntry>,
    romanizations: seq<RomanizationEntry>,
    agent: Option<string>,
    backgroundSection: Option<BackgroundSection>,
    songPart: Option<string>,
    itunesKey: Option<string>)

  /** The only lyric format; `#[default]`. */
  datatype LyricFormat = Ttml

  /** `impl Display for LyricFormat`. */
  function FormatName(f: LyricFormat): string {
    match f
    case Ttml => "TTML"
  }

  /** `#[derive(EnumString)]` with `ascii_case_insensitive`: the variant name in any ASCII case. */
  function ParseLyricFormat(s: string): (r: Option<LyricFormat>)
    ensures r.Some? <==> EqIgnoreAsciiCase(s, "Ttml")
  {
    if EqIgnoreAsciiCase(s, "Ttml") then Some(Ttml) else None
  }

  /** The displayed name of a format parses back to that format. */
  lemma FormatNameParses(f: LyricFormat)
    ensures ParseLyricFormat(FormatName(f)) == Some(f)
  {
    assert EqIgnoreAsciiCase("TTML", "Ttml") by {
      assert forall i :: 0 <= i < 4 ==> ToAsciiLower("TTML"[i]) == ToAsciiLower("Ttml"[i]);
    }
  }

  function DefaultLyricFormat(): LyricFormat {
    Ttml
  }

  /**
   * The kinds of warning the TTML parser records. The Rust code pushes a formatted
   * message; only the kind (and the entity or id it names) is kept here.
   */
  datatype Warning =
    | LineModeAutoDetected
    | UnknownEntity(name: string)
    | LineBreakIgnored
    | DuplicateXmlId(id: string)
    | SyllableStartAfterEnd
    | SpanMissingTiming
    | BackgroundTextBesideSyllables
    | BackgroundTextMissingTiming
    | LineTextFromSyllables
    | SyllableTimingsIgnored(count: nat)
    | ParagraphTextStartAfterEnd
    | UnwrappedTextIgnored

  /** `ParsedSourceData`; the echo of the raw input (`raw_ttml_from_input`) is left out. */
  datatype ParsedSourceData = ParsedSourceData(
    lines: seq<LyricLine>,
    rawMetadata: map<string, seq<string>>,
    sourceFormat: LyricFormat,
    sourceFilename: Option<string>,
    isLineTimedSource: bool,
    warnings: seq<Warning>,
    detectedFormattedTtmlInput: Option<bool>)

  /** `ConvertError`, without its message payloads. */
  datatype ConvertError =
    | Xml
    | Attribute
    | ParseInt
    | InvalidTime
    | Format
    | Internal
    | Base64Decode
    | FromUtf8
    | Encoding

  datatype DefaultLanguageOptions = DefaultLanguageOptions(
    main: Option<string>,
    translation: Option<string>,
    romanization: Option<string>)

  /** `#[derive(Default)]`: no default language of any kind. */
  function DefaultLanguages(): (o: DefaultLanguageOptions)
    ensures o.main.None? && o.translation.None? && o.romanization.None?
  {
    DefaultLanguageOptions(None, None, None)
  }

  datatype MetadataStripperOptions = MetadataStripperOptions(
    enabled: bool,
    keywords: Option<seq<string>>,
    keywordCaseSensitive: bool,
    enableRegexStripping: bool,
    regexPatterns: Option<seq<string>>,
    regexCaseSensitive: bool)

  /** The stripper is on by default, regex stripping too, both case-insensitive, with no lists. */
  function DefaultMetadataStripperOptions(): (o: MetadataStripperOptions)
    ensures o.enabled && o.enableRegexStripping
    ensures !o.keywordCaseSensitive && !o.regexCaseSensitive
    ensures o.keywords.None? && o.regexPatterns.None?
  {
    MetadataStripperOptions(true, None, false, true, None, false)
  }

  datatype ChineseConversionOptions = ChineseConversionOptions(configName: Option<string>)

  datatype SmoothingMode = Global

  function DefaultSmoothingMode(): SmoothingMode {
    Global
  }

  /** `SyllableSmoothingOptions`; the `f64` factor is a real number here. */
  datatype SyllableSmoothingOptions = SyllableSmoothingOptions(
    factor: real,
    durationThresholdMs: nat,
    gapThresholdMs: nat,
    smoothingIterations: nat)

  /** Factor 0.15, thresholds of 50 ms (duration) and 100 ms (gap), five passes. */
  function DefaultSmoothingOptions(): (o: SyllableSmoothingOptions)
    ensures o.factor == 0.15 && o.durationThresholdMs == 50
    ensures o.gapThresholdMs == 100 && o.smoothingIterations == 5
  {
    SyllableSmoothingOptions(0.15, 50, 100, 5)
  }
}
