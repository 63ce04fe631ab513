/**
 * `parse_ttml` (ttml_parser.rs): the streaming TTML parser.
 *
 * The parser object holds `TtmlParserState` with its body state flattened into fields,
 * and, as fields too, the three accumulators `parse_ttml` threads through every
 * handler: the finished lines, the raw metadata and the warnings. Each handler is a
 * method that updates those fields in place. The invariant `Valid` says that a `<p>`
 * accumulator exists exactly while a paragraph is open, that every accumulated
 * syllable has consistent timing, and that every emitted line is well formed.
 */
module TtmlParser {
  import opened Wrappers
  import opened Text
  import opened LyricTypes
  import opened TimeExpr
  import opened XmlEvents
  import opened TtmlParagraph

  /** `MetadataParseState`. */
  datatype MetadataState = MetadataState(
    inItunesMetadata: bool,
    inAmTranslations: bool,
    inAmTranslation: bool,
    currentAmTranslationLang: Option<string>,
    translationMap: map<string, KeyedTranslation>,
    inSongwritersTag: bool,
    inSongwriterTag: bool,
    currentSongwriterName: string,
    inAgentTag: bool,
    inAgentNameTag: bool,
    currentAgentIdForName: Option<string>,
    currentAgentNameText: string,
    inTtmMetadataTag: bool,
    currentTtmMetadataKey: Option<string>)

  function InitialMetadataState(): MetadataState {
    MetadataState(false, false, false, None, map[], false, false, [], false, false, None, [], false, None)
  }

  /** The arm of `handle_metadata_start_event`'s `match` an opening tag takes. */
  datatype MetaStartKind =
    | MetaTag | OpenItunesMetadata | OpenTranslations | OpenTranslation | TranslationText
    | OpenSongwriters | OpenSongwriter | AgentTag | OpenAgentName | OpenTtmKey | IgnoredStart

  /**
   * The arms are tried in order and a guard that fails falls through to the next arm,
   * so a `ttm:`-prefixed tag whose own arm is guarded off opens a metadata key.
   */
  function MetaStartKindOf(name: string, meta: MetadataState): (k: MetaStartKind)
    ensures k == IgnoredStart ==> !HasTtmPrefix(name)
    ensures k == OpenTtmKey ==> HasTtmPrefix(name)
    ensures LocalName(name) == "meta" ==> k == MetaTag
    ensures HasTtmPrefix(name) && LocalName(name) == "agent" ==> k == AgentTag
  {
    var local := LocalName(name);
    if local == "meta" then MetaTag
    else if local == "iTunesMetadata" then OpenItunesMetadata
    else if local == "translations" && meta.inItunesMetadata then OpenTranslations
    else if local == "translation" && meta.inAmTranslations then OpenTranslation
    else if local == "text" && meta.inAmTranslation then TranslationText
    else if local == "songwriters" && meta.inItunesMetadata then OpenSongwriters
    else if local == "songwriter" && meta.inSongwritersTag then OpenSongwriter
    else if local == "agent" && HasTtmPrefix(name) then AgentTag
    else if local == "name" && meta.inAgentTag && HasTtmPrefix(name) then OpenAgentName
    else if HasTtmPrefix(name) then OpenTtmKey
    else IgnoredStart
  }

  /** A `ttm:`-prefixed `name` tag outside an agent is not an agent name: it opens the metadata key "name". */
  lemma NameOutsideAgentIsKey(name: string, meta: MetadataState)
    requires HasTtmPrefix(name) && LocalName(name) == "name" && !meta.inAgentTag
    ensures MetaStartKindOf(name, meta) == OpenTtmKey
  {
    var local := LocalName(name);
    assert local[0] == 'n';
    assert local != "meta" && local != "text" && local != "agent" by {
      assert "meta"[0] == 'm' && "text"[0] == 't' && |"agent"| == 5;
    }
  }

  /** The arm of `handle_metadata_end_event`'s `match` a closing tag takes. */
  datatype MetaEndKind =
    | CloseItunesMetadata | CloseTranslations | CloseTranslation | CloseSongwriter
    | CloseSongwriters | CloseAgentName | CloseAgent | OtherEnd

  function MetaEndKindOf(name: string, meta: MetadataState): (k: MetaEndKind)
    ensures k == CloseAgentName ==> meta.inAgentNameTag && HasTtmPrefix(name)
    ensures k == CloseAgent ==> meta.inAgentTag && HasTtmPrefix(name)
    ensures (LocalName(name) !in ["iTunesMetadata", "translations", "translation", "songwriter",
                                  "songwriters", "name", "agent"]) ==> k == OtherEnd
  {
    var local := LocalName(name);
    if local == "iTunesMetadata" then CloseItunesMetadata
    else if local == "translations" then CloseTranslations
    else if local == "translation" then CloseTranslation
    else if local == "songwriter" then CloseSongwriter
    else if local == "songwriters" then CloseSongwriters
    else if local == "name" && meta.inAgentNameTag && HasTtmPrefix(name) then CloseAgentName
    else if local == "agent" && meta.inAgentTag && HasTtmPrefix(name) then CloseAgent
    else OtherEnd
  }

  predicate IsTtStart(e: XmlEvent) {
    e.Start? && LocalName(e.name) == "tt"
  }

  /** Which of `handle_global_event`'s branches an event takes. */
  datatype GlobalKind = TtOpen | MetadataOpen | BodyOpen | DivOpen | ParagraphOpen | DivClose | MetadataClose | NotGlobal

  function GlobalKindOf(e: XmlEvent, inBody: bool, inDiv: bool): (k: GlobalKind)
    ensures k == TtOpen <==> IsTtStart(e)
    ensures k == MetadataOpen <==> e.Start? && LocalName(e.name) == "metadata"
    ensures k == BodyOpen <==> e.Start? && LocalName(e.name) == "body"
    ensures k == DivOpen <==> e.Start? && LocalName(e.name) == "div" && inBody
    ensures k == ParagraphOpen <==> e.Start? && LocalName(e.name) == "p" && inBody
    ensures k == DivClose <==> e.End? && LocalName(e.name) == "div" && inDiv
    ensures k == MetadataClose <==> e.End? && LocalName(e.name) == "metadata"
  {
    match e
    case Start(name, _) =>
      var local := LocalName(name);
      if local == "tt" then TtOpen
      else if local == "metadata" then MetadataOpen
      else if local == "body" then BodyOpen
      else if local == "div" && inBody then DivOpen
      else if local == "p" && inBody then ParagraphOpen
      else NotGlobal
    case End(name) =>
      var local := LocalName(name);
      if local == "div" && inDiv then DivClose
      else if local == "metadata" then MetadataClose
      else NotGlobal
    case _ => NotGlobal
  }

  predicate IsParagraphEnd(e: XmlEvent) {
    e.End? && LocalName(e.name) == "p"
  }

  /** How many `</p>` events a sequence holds. */
  function ParagraphEnds(events: seq<XmlEvent>): nat {
    if events == [] then 0
    else ParagraphEnds(events[..|events| - 1]) + (if IsParagraphEnd(events[|events| - 1]) then 1 else 0)
  }

  lemma {:induction false} ParagraphEndsMonotone(events: seq<XmlEvent>, a: nat, b: nat)
    requires a <= b <= |events|
    ensures ParagraphEnds(events[..a]) <= ParagraphEnds(events[..b])
    decreases b - a
  {
    if a < b {
      ParagraphEndsMonotone(events, a, b - 1);
      assert events[..b][..b - 1] == events[..b - 1];
    }
  }

  lemma ParagraphEndsStep(events: seq<XmlEvent>, i: nat)
    requires i < |events|
    ensures ParagraphEnds(events[..i + 1]) == ParagraphEnds(events[..i]) + (if IsParagraphEnd(events[i]) then 1 else 0)
  {
    assert events[..i + 1][..i] == events[..i];
  }

  /** The lines a finalised paragraph contributes: its line, or none when it was dropped. */
  function Emitted(line: Option<LyricLine>): (r: seq<LyricLine>)
    ensures |r| <= 1
    ensures (line.Some? ==> WellFormedLine(line.value)) ==> forall i :: 0 <= i < |r| ==> WellFormedLine(r[i])
  {
    if line.Some? then [line.value] else []
  }

  /** A paragraph closed by `</p>`: its data with the keyed translation attached, and the timing mode it was finalised in. */
  datatype ClosedParagraph = ClosedParagraph(data: PData, lineMode: bool)

  /** The line finalising a closed paragraph emits: one, or none when the paragraph is dropped. */
  function ParagraphLines(c: ClosedParagraph): seq<LyricLine>
    requires PDataTimed(c.data)
  {
    Emitted(FinalizeParagraph(c.data, c.lineMode).0)
  }

  /** The warnings finalising a closed paragraph records. */
  function ParagraphWarnings(c: ClosedParagraph): seq<Warning>
    requires PDataTimed(c.data)
  {
    FinalizeParagraph(c.data, c.lineMode).1
  }

  /**
   * The lines a sequence of closed paragraphs contributes, in order. A paragraph is
   * closed only while its syllables are consistently timed, which finalising needs;
   * the guard keeps this function total.
   */
  function LinesOf(closed: seq<ClosedParagraph>): (r: seq<LyricLine>)
    ensures |r| <= |closed|
  {
    if closed == [] then []
    else
      var c := closed[|closed| - 1];
      LinesOf(closed[..|closed| - 1]) + (if PDataTimed(c.data) then ParagraphLines(c) else [])
  }

  lemma LinesOfAppend(closed: seq<ClosedParagraph>, c: ClosedParagraph)
    requires PDataTimed(c.data)
    ensures LinesOf(closed + [c]) == LinesOf(closed) + ParagraphLines(c)
  {
    assert (closed + [c])[..|closed|] == closed;
  }

  // ----- the effects of the metadata handlers -----

  /** The fields the metadata handlers act on. */
  datatype MetaFields = MetaFields(
    meta: MetadataState,
    xmlIds: set<string>,
    warnings: seq<Warning>,
    rawMetadata: map<string, seq<string>>,
    textBuffer: string)

  /**
   * The parse flags an opening tag sets in `handle_metadata_start_event`: each arm
   * enters its context; `<ttm:agent>` with an `xml:id` also remembers the id for
   * its name; `<meta>` and the iTunes translation text set no flag.
   */
  function MetaOpened(k: MetaStartKind, name: string, attrs: seq<Attribute>, m: MetadataState): MetadataState {
    match k
    case OpenItunesMetadata => m.(inItunesMetadata := true)
    case OpenTranslations => m.(inAmTranslations := true)
    case OpenTranslation => m.(inAmTranslation := true, currentAmTranslationLang := GetAttr(attrs, "xml:lang"))
    case OpenSongwriters => m.(inSongwritersTag := true)
    case OpenSongwriter => m.(inSongwriterTag := true, currentSongwriterName := [])
    case AgentTag =>
      var id := GetAttr(attrs, "xml:id");
      if id.Some? then m.(inAgentTag := true, currentAgentIdForName := id) else m
    case OpenAgentName => m.(inAgentNameTag := true, currentAgentNameText := [])
    case OpenTtmKey => m.(inTtmMetadataTag := true, currentTtmMetadataKey := Some(LocalName(name)))
    case MetaTag => m
    case TranslationText => m
    case IgnoredStart => m
  }

  /**
   * An iTunes translation `<text for=…>` at index `i` takes `s0` to `s1`: its content
   * up to the closing tag is stored, when non-empty, under the key with the current
   * language, and parsing continues at `next`, after the closing tag; without one it
   * fails with an XML error.
   */
  predicate TranslationTextRead(name: string, key: string, events: seq<XmlEvent>, i: nat,
                                s0: MetaFields, s1: MetaFields, next: nat, err: Option<ConvertError>)
    requires i < |events|
  {
    var m := s0.meta;
    var read := ReadText(events, i + 1, name);
    if read.Failure? then err == Some(Xml) && next == i + 1 && s1 == s0
    else
      err.None? && next == read.value.next
      && s1 == s0.(meta := if read.value.text == [] then m
                           else m.(translationMap := m.translationMap[key := KeyedTranslation(read.value.text, m.currentAmTranslationLang)]))
  }

  /**
   * `handle_metadata_start_event` takes `s0` to `s1`, continuing at `next`. Each arm
   * sets its flags; `<meta>` records its key and value; `<ttm:agent>` stores its id
   * (a repeated one is warned about) and records its type; a `ttm:` key clears the
   * buffer; an iTunes translation `<text for=…>` is read whole.
   */
  predicate MetadataStarted(name: string, attrs: seq<Attribute>, events: seq<XmlEvent>, i: nat,
                            s0: MetaFields, s1: MetaFields, next: nat, err: Option<ConvertError>)
    requires i < |events|
  {
    var k := MetaStartKindOf(name, s0.meta);
    if k == TranslationText && GetAttr(attrs, "for").Some? then
      TranslationTextRead(name, GetAttr(attrs, "for").value, events, i, s0, s1, next, err)
    else err.None? && next == i + 1 && ElementOpened(k, name, attrs, s0, s1)
  }

  /**
   * Any other opening tag inside metadata takes `s0` to `s1`: it sets its flags;
   * `<meta>` records its key and value; `<ttm:agent>` stores its id (a repeated one
   * is warned about) and records its type; a `ttm:` key clears the buffer.
   */
  predicate ElementOpened(k: MetaStartKind, name: string, attrs: seq<Attribute>, s0: MetaFields, s1: MetaFields) {
    s1.meta == MetaOpened(k, name, attrs, s0.meta)
    && s1.textBuffer == (if k == OpenTtmKey then [] else s0.textBuffer)
    && (k == MetaTag ==>
          var key, value := GetAttr(attrs, "key"), GetAttr(attrs, "value");
          s1.xmlIds == s0.xmlIds && s1.warnings == s0.warnings
          && s1.rawMetadata == if key.Some? && value.Some? && key.value != [] then AddMetadata(s0.rawMetadata, key.value, value.value)
                               else s0.rawMetadata)
    && (k == AgentTag ==>
          var id := GetAttr(attrs, "xml:id");
          if id.None? then s1.xmlIds == s0.xmlIds && s1.warnings == s0.warnings && s1.rawMetadata == s0.rawMetadata
          else
            var stored := StoreXmlId(id.value, s0.xmlIds);
            s1.xmlIds == stored.0
            && s1.warnings == s0.warnings + (if stored.1 then [DuplicateXmlId(id.value)] else [])
            && s1.rawMetadata == AddMetadata(s0.rawMetadata, "agent-type-" + id.value, GetAttr(attrs, "type").GetOr("person")))
    && (k != MetaTag && k != AgentTag ==>
          s1.xmlIds == s0.xmlIds && s1.warnings == s0.warnings && s1.rawMetadata == s0.rawMetadata)
  }

  /**
   * Text inside metadata goes to the songwriter name, else the agent name, else the
   * open metadata key's buffer, else nowhere.
   */
  predicate MetadataTextAppended(t: string, s0: MetaFields, s1: MetaFields) {
    var m := s0.meta;
    if m.inSongwriterTag then s1 == s0.(meta := m.(currentSongwriterName := m.currentSongwriterName + t))
    else if m.inAgentNameTag then s1 == s0.(meta := m.(currentAgentNameText := m.currentAgentNameText + t))
    else if m.inTtmMetadataTag then s1 == s0.(textBuffer := s0.textBuffer + t)
    else s1 == s0
  }

  /**
   * `handle_metadata_end_event` takes `s0` to `s1`: closing tags leave their
   * contexts; a songwriter with a non-empty name is recorded trimmed; an agent's
   * non-blank display name is recorded as `id=name`; the open `ttm:` key, when this
   * closes it, records its normalised text unless that is empty.
   */
  predicate MetadataEnded(name: string, s0: MetaFields, s1: MetaFields) {
    var m := s0.meta;
    match MetaEndKindOf(name, m)
    case CloseItunesMetadata => s1 == s0.(meta := m.(inItunesMetadata := false))
    case CloseTranslations => s1 == s0.(meta := m.(inAmTranslations := false))
    case CloseTranslation => s1 == s0.(meta := m.(inAmTranslation := false))
    case CloseSongwriters => s1 == s0.(meta := m.(inSongwritersTag := false))
    case CloseSongwriter =>
      s1 == s0.(meta := m.(inSongwriterTag := false),
                rawMetadata := if m.currentSongwriterName == [] then s0.rawMetadata
                               else AddMetadata(s0.rawMetadata, "songwriters", Trim(m.currentSongwriterName)))
    case CloseAgentName =>
      s1 == s0.(meta := m.(inAgentNameTag := false),
                rawMetadata := if m.currentAgentIdForName.None? || Trim(m.currentAgentNameText) == [] then s0.rawMetadata
                               else AddMetadata(s0.rawMetadata, "agent",
                                      m.currentAgentIdForName.value + "=" + Trim(m.currentAgentNameText)))
    case CloseAgent => s1 == s0.(meta := m.(inAgentTag := false, currentAgentIdForName := None))
    case OtherEnd =>
      var local := LocalName(name);
      if m.inTtmMetadataTag && m.currentTtmMetadataKey == Some(local) then
        var value := NormalizeWhitespace(s0.textBuffer);
        s1 == s0.(meta := m.(inTtmMetadataTag := false, currentTtmMetadataKey := None), textBuffer := [],
                  rawMetadata := if value == [] then s0.rawMetadata else AddMetadata(s0.rawMetadata, local, value))
      else s1 == s0
  }

  // ----- the effects of the paragraph handlers -----

  /** The fields the paragraph handlers act on. */
  datatype ParaFields = ParaFields(
    pData: Option<PData>,
    spanStack: seq<SpanContext>,
    textBuffer: string,
    lastSyllable: LastSyllable,
    warnings: seq<Warning>)

  /**
   * `process_span_start` takes `s0` to `s1`: the buffer is cleared; a time attribute
   * that does not parse is an error; otherwise the span's context is pushed and the
   * first background span of the paragraph opens its background section, timed by
   * the span (0 where it has no timing).
   */
  predicate SpanStarted(attrs: seq<Attribute>, offsetSeconds: string -> Option<nat>,
                        s0: ParaFields, s1: ParaFields, err: Option<ConvertError>)
    requires s0.pData.Some?
  {
    var b, e := OptionalTime(attrs, "begin", offsetSeconds), OptionalTime(attrs, "end", offsetSeconds);
    var p := s0.pData.value;
    (err.Some? <==> b.Failure? || e.Failure?)
    && if err.Some? then err.value == InvalidTime && s1 == s0.(textBuffer := [])
       else
         var ctx := SpanContext(RoleOf(attrs), GetAttr(attrs, "xml:lang"), GetAttr(attrs, "xml:scheme"), b.value, e.value);
         s1 == s0.(spanStack := s0.spanStack + [ctx], textBuffer := [],
                   pData := if ctx.role == BackgroundSpan && p.background.None?
                            then Some(p.(background := Some(BgData(b.value.GetOr(0), e.value.GetOr(0), [], [], []))))
                            else s0.pData)
  }

  /**
   * `process_text_event` takes `s0` to `s1`: whitespace right after a syllable marks
   * that syllable as ending with a space; other blank text is dropped; anything else
   * goes to the open span's buffer or, outside spans, to the paragraph's own text.
   */
  predicate TextProcessed(t: string, s0: ParaFields, s1: ParaFields)
    requires s0.pData.Some?
  {
    var p := s0.pData.value;
    if s0.lastSyllable.EndedSyllable? && t != [] && AllWhitespace(t) then
      s1 == s0.(pData := Some(MarkSpaceAfter(p, s0.lastSyllable.wasBackground)), lastSyllable := NoSyllable)
    else if AllWhitespace(t) then s1 == s0
    else if s0.spanStack != [] then s1 == s0.(textBuffer := s0.textBuffer + t, lastSyllable := NoSyllable)
    else s1 == s0.(pData := Some(p.(lineText := p.lineText + t)), lastSyllable := NoSyllable)
  }

  /**
   * `handle_generic_span_end` takes `s0` (the innermost span already popped) to `s1`.
   * In line-timing mode the span's text joins the paragraph's text. Otherwise a span
   * with both times and non-empty text becomes a syllable, of the background section
   * when inside a background span and of the line otherwise (warning when it starts
   * after it ends); a span missing a time and holding non-blank text is warned about
   * and dropped.
   */
  predicate GenericSpanEnded(ctx: SpanContext, text: string, lineMode: bool, s0: ParaFields, s1: ParaFields)
    requires s0.pData.Some?
  {
    var p := s0.pData.value;
    if lineMode then s1 == s0.(pData := Some(p.(lineText := p.lineText + text)))
    else if ctx.startMs.Some? && ctx.endMs.Some? then
      if text == [] then s1 == s0
      else
        var within := WithinBackground(s0.spanStack);
        s1 == s0.(pData := Some(AddSyllable(p, SpanSyllable(text, ctx.startMs.value, ctx.endMs.value, within), within)),
                  warnings := s0.warnings + (if ctx.startMs.value > ctx.endMs.value then [SyllableStartAfterEnd] else []),
                  lastSyllable := if within && p.background.None? then s0.lastSyllable else EndedSyllable(within))
    else s1 == s0.(warnings := s0.warnings + (if AllWhitespace(text) then [] else [SpanMissingTiming]))
  }

  /**
   * `handle_auxiliary_span_end` takes `s0` (the span already popped) to `s1`: a
   * translation or romanisation span with non-blank text adds an entry (normalised
   * text; the span's language or else the configured default) to the background
   * section when inside a background span, and to the line otherwise.
   */
  predicate AuxiliarySpanEnded(ctx: SpanContext, text: string, defaultTranslationLang: Option<string>,
                               defaultRomanizationLang: Option<string>, s0: ParaFields, s1: ParaFields)
    requires s0.pData.Some?
  {
    var p := s0.pData.value;
    var t := NormalizeWhitespace(text);
    var lang := ctx.lang.Or(if ctx.role == TranslationSpan then defaultTranslationLang else defaultRomanizationLang);
    var within := WithinBackground(s0.spanStack);
    if t == [] || (within && p.background.None?) then s1 == s0
    else if ctx.role == TranslationSpan then
      var entry := TranslationEntry(t, lang);
      s1 == s0.(pData := Some(if within then p.(background := Some(p.background.value.(translations := p.background.value.translations + [entry])))
                              else p.(translations := p.translations + [entry])))
    else
      var entry := RomanizationEntry(t, lang, ctx.scheme);
      s1 == s0.(pData := Some(if within then p.(background := Some(p.background.value.(romanizations := p.background.value.romanizations + [entry])))
                              else p.(romanizations := p.romanizations + [entry])))
  }

  /**
   * `handle_background_span_end` takes `s0` (the span already popped) to `s1`. A
   * background span without both times takes the bounds of its syllables. Non-blank
   * text directly inside it becomes its only syllable when it is timed and has no
   * syllables yet; otherwise that text is dropped with a warning.
   */
  predicate BackgroundSpanEnded(ctx: SpanContext, text: string, s0: ParaFields, s1: ParaFields)
    requires s0.pData.Some?
  {
    var p := s0.pData.value;
    var timed := ctx.startMs.Some? && ctx.endMs.Some?;
    if AllWhitespace(text) then s1 == s0.(pData := Some(SettleBackground(p, timed)))
    else if !timed then s1 == s0.(pData := Some(SettleBackground(p, timed)), warnings := s0.warnings + [BackgroundTextMissingTiming])
    else if p.background.None? then s1 == s0
    else if p.background.value.syllables == [] then
      var syl := MakeSyllable(NormalizeWhitespace(Trim(text)), ctx.startMs.value, ctx.endMs.value, EndsWithWhitespace(text));
      s1 == s0.(pData := Some(p.(background := Some(p.background.value.(syllables := [syl])))), lastSyllable := EndedSyllable(true))
    else s1 == s0.(warnings := s0.warnings + [BackgroundTextBesideSyllables])
  }

  /**
   * `process_span_end` takes `s0` to `s1`: the last-syllable marker is cleared; the
   * innermost span, if any, is popped with the buffered text, which the handler for
   * its role consumes. With no open span nothing else changes.
   */
  predicate SpanEnded(lineMode: bool, defaultTranslationLang: Option<string>, defaultRomanizationLang: Option<string>,
                      s0: ParaFields, s1: ParaFields)
    requires s0.pData.Some?
  {
    if s0.spanStack == [] then s1 == s0.(lastSyllable := NoSyllable)
    else
      var ctx := s0.spanStack[|s0.spanStack| - 1];
      var popped := s0.(spanStack := s0.spanStack[..|s0.spanStack| - 1], textBuffer := [], lastSyllable := NoSyllable);
      match ctx.role
      case Generic => GenericSpanEnded(ctx, s0.textBuffer, lineMode, popped, s1)
      case TranslationSpan =>
        AuxiliarySpanEnded(ctx, s0.textBuffer, defaultTranslationLang, defaultRomanizationLang, popped, s1)
      case RomanizationSpan =>
        AuxiliarySpanEnded(ctx, s0.textBuffer, defaultTranslationLang, defaultRomanizationLang, popped, s1)
      case BackgroundSpan => BackgroundSpanEnded(ctx, s0.textBuffer, popped, s1)
  }

  // ----- the effects of the event dispatchers -----

  /**
   * `handle_metadata_event` takes `s0` to `s1` at event `i`, continuing at `next`:
   * a start tag has its arm's effect; text goes where the open context sends it; a
   * predefined reference is appended as its character and any other is warned about
   * and dropped; `</metadata>` changes no metadata field and any other closing tag
   * has its arm's effect; every other event changes nothing.
   */
  predicate MetadataEventHandled(events: seq<XmlEvent>, i: nat, s0: MetaFields, s1: MetaFields,
                                 next: nat, err: Option<ConvertError>)
    requires i < |events|
  {
    match events[i]
    case Start(name, attrs) => MetadataStarted(name, attrs, events, i, s0, s1, next, err)
    case Text(t) => next == i + 1 && err.None? && MetadataTextAppended(t, s0, s1)
    case GeneralRef(entity) =>
      next == i + 1 && err.None? &&
      if PredefinedEntity(entity).None? then s1 == s0.(warnings := s0.warnings + [UnknownEntity(entity)])
      else MetadataTextAppended([PredefinedEntity(entity).value], s0, s1)
    case End(name) =>
      next == i + 1 && err.None? &&
      if LocalName(name) == "metadata" then s1 == s0 else MetadataEnded(name, s0, s1)
    case _ => next == i + 1 && err.None? && s1 == s0
  }

  /** The fields `handle_global_event` acts on. */
  datatype GlobalFields = GlobalFields(
    isLineTimingMode: bool,
    detectedLineMode: bool,
    warnings: seq<Warning>,
    rawMetadata: map<string, seq<string>>,
    defaultMainLang: Option<string>,
    inMetadataSection: bool,
    inBody: bool,
    inDiv: bool,
    divSongPart: Option<string>,
    inP: bool,
    pData: Option<PData>,
    textBuffer: string,
    spanStack: seq<SpanContext>)

  /**
   * The global fields after `process_tt_start` in `g0`: `itunes:timing="line"` turns on
   * line-timing mode; with no timing attribute and no timed span in the document it
   * is turned on too, recorded as detected and warned about. A non-empty `xml:lang`
   * is recorded as `xml:lang_root` and becomes the main language unless one was
   * configured.
   */
  function TtStarted(attrs: seq<Attribute>, hasTimedSpanTags: bool, g0: GlobalFields): GlobalFields {
    var timing := GetAttr(attrs, "itunes:timing");
    var detected := timing.None? && !hasTimedSpanTags;
    var lang := GetAttr(attrs, "xml:lang");
    var declared := lang.Some? && lang.value != [];
    g0.(isLineTimingMode := g0.isLineTimingMode || timing == Some("line") || detected,
              detectedLineMode := g0.detectedLineMode || detected,
              warnings := g0.warnings + (if detected then [LineModeAutoDetected] else []),
              rawMetadata := if declared then AddMetadata(g0.rawMetadata, "xml:lang_root", lang.value) else g0.rawMetadata,
              defaultMainLang := if declared then g0.defaultMainLang.Or(lang) else g0.defaultMainLang)
  }

  /**
   * `handle_global_event` takes `g0` to `g1`: `<tt>` sets the timing mode and the
   * root language; `<metadata>`, `<body>` and `<div>` (with its song part) enter their
   * contexts; `<p>` opens a paragraph, or fails when one of its times does not parse;
   * `</div>` and `</metadata>` leave theirs; every other event changes nothing.
   */
  predicate GlobalHandled(e: XmlEvent, hasTimedSpanTags: bool, offsetSeconds: string -> Option<nat>,
                          g0: GlobalFields, g1: GlobalFields, err: Option<ConvertError>)
  {
    match GlobalKindOf(e, g0.inBody, g0.inDiv)
    case TtOpen => err.None? && g1 == TtStarted(e.attrs, hasTimedSpanTags, g0)
    case MetadataOpen => err.None? && g1 == g0.(inMetadataSection := true)
    case BodyOpen => err.None? && g1 == g0.(inBody := true)
    case DivOpen => err.None? && g1 == g0.(inDiv := true, divSongPart := GetAttr(e.attrs, "itunes:song-part"))
    case ParagraphOpen =>
      var o := OpenParagraph(e.attrs, g0.divSongPart, offsetSeconds);
      if o.Failure? then err == Some(o.error) && g1 == g0
      else err.None? && g1 == g0.(inP := true, pData := Some(o.value), textBuffer := [], spanStack := [])
    case DivClose => err.None? && g1 == g0.(inDiv := false, divSongPart := None)
    case MetadataClose => err.None? && g1 == g0.(inMetadataSection := false)
    case NotGlobal => err.None? && g1 == g0
  }

  /**
   * `handle_p_event` takes `s0` to `s1`: `<span>` opens a span (or fails on a bad
   * time); text is processed; a predefined reference is appended to the open span's
   * buffer or the paragraph's text and any other is warned about; `<br/>` is warned
   * about; `</p>` resets the paragraph state and records the closed paragraph's
   * warnings `closingWarnings`; `</span>` ends the innermost span by its role; every
   * other event changes nothing.
   */
  predicate ParagraphEventHandled(e: XmlEvent, offsetSeconds: string -> Option<nat>, lineMode: bool,
                                  defaultTranslationLang: Option<string>, defaultRomanizationLang: Option<string>,
                                  closingWarnings: seq<Warning>, s0: ParaFields, s1: ParaFields, err: Option<ConvertError>)
    requires s0.pData.Some?
  {
    match e
    case Start(name, attrs) => ParagraphStartHandled(name, attrs, offsetSeconds, s0, s1, err)
    case Text(t) => err.None? && TextProcessed(t, s0, s1)
    case GeneralRef(entity) => err.None? && ParagraphReferenceHandled(entity, s0, s1)
    case End(name) =>
      err.None? && ParagraphEndHandled(name, lineMode, defaultTranslationLang, defaultRomanizationLang, closingWarnings, s0, s1)
    case _ => err.None? && s1 == s0
  }

  /** A start tag inside a paragraph: `<span>` opens a span (or fails on a bad time), any other tag changes nothing. */
  predicate ParagraphStartHandled(name: string, attrs: seq<Attribute>, offsetSeconds: string -> Option<nat>,
                                  s0: ParaFields, s1: ParaFields, err: Option<ConvertError>)
    requires s0.pData.Some?
  {
    if LocalName(name) == "span" then SpanStarted(attrs, offsetSeconds, s0, s1, err)
    else err.None? && s1 == s0
  }

  /**
   * An entity reference inside a paragraph: a predefined one is appended to the open
   * span's buffer, or to the paragraph's text outside spans; any other is warned about.
   */
  predicate ParagraphReferenceHandled(entity: string, s0: ParaFields, s1: ParaFields)
    requires s0.pData.Some?
  {
    if PredefinedEntity(entity).None? then s1 == s0.(warnings := s0.warnings + [UnknownEntity(entity)])
    else
      var c := PredefinedEntity(entity).value;
      s1 == if s0.spanStack != [] then s0.(textBuffer := s0.textBuffer + [c])
            else s0.(pData := Some(s0.pData.value.(lineText := s0.pData.value.lineText + [c])))
  }

  /**
   * An end tag inside a paragraph: `<br/>` is warned about; `</p>` resets the paragraph
   * state and records `closingWarnings`; `</span>` ends the innermost span by its role;
   * any other end tag changes nothing.
   */
  predicate ParagraphEndHandled(name: string, lineMode: bool, defaultTranslationLang: Option<string>,
                                defaultRomanizationLang: Option<string>, closingWarnings: seq<Warning>,
                                s0: ParaFields, s1: ParaFields)
    requires s0.pData.Some?
  {
    if LocalName(name) == "br" then s1 == s0.(warnings := s0.warnings + [LineBreakIgnored])
    else if LocalName(name) == "p" then
      s1 == s0.(pData := None, spanStack := [], lastSyllable := NoSyllable, warnings := s0.warnings + closingWarnings)
    else if LocalName(name) == "span" then SpanEnded(lineMode, defaultTranslationLang, defaultRomanizationLang, s0, s1)
    else s1 == s0
  }

  // ----- the parse loop over whole states -----

  /** Every field of `TtmlParserState`, as a value. */
  datatype Snapshot = Snapshot(
    isLineTimingMode: bool,
    detectedLineMode: bool,
    defaultMainLang: Option<string>,
    defaultTranslationLang: Option<string>,
    defaultRomanizationLang: Option<string>,
    xmlIds: set<string>,
    textBuffer: string,
    inMetadataSection: bool,
    meta: MetadataState,
    inBody: bool,
    inDiv: bool,
    inP: bool,
    divSongPart: Option<string>,
    pData: Option<PData>,
    spanStack: seq<SpanContext>,
    lastSyllable: LastSyllable,
    lines: seq<LyricLine>,
    rawMetadata: map<string, seq<string>>,
    warnings: seq<Warning>)

  /** The state `TtmlParserState::new` starts from. */
  function InitialSnapshot(defaults: DefaultLanguageOptions): Snapshot {
    Snapshot(false, false, defaults.main, defaults.translation, defaults.romanization, {}, [], false,
             InitialMetadataState(), false, false, false, None, None, [], NoSyllable, [], map[], [])
  }

  function MetaOf(s: Snapshot): MetaFields {
    MetaFields(s.meta, s.xmlIds, s.warnings, s.rawMetadata, s.textBuffer)
  }

  function WithMeta(s: Snapshot, f: MetaFields): Snapshot {
    s.(meta := f.meta, xmlIds := f.xmlIds, warnings := f.warnings, rawMetadata := f.rawMetadata, textBuffer := f.textBuffer)
  }

  function ParaOf(s: Snapshot): ParaFields {
    ParaFields(s.pData, s.spanStack, s.textBuffer, s.lastSyllable, s.warnings)
  }

  function WithPara(s: Snapshot, f: ParaFields): Snapshot {
    s.(pData := f.pData, spanStack := f.spanStack, textBuffer := f.textBuffer, lastSyllable := f.lastSyllable,
       warnings := f.warnings)
  }

  function GlobalOf(s: Snapshot): GlobalFields {
    GlobalFields(s.isLineTimingMode, s.detectedLineMode, s.warnings, s.rawMetadata, s.defaultMainLang,
                 s.inMetadataSection, s.inBody, s.inDiv, s.divSongPart, s.inP, s.pData, s.textBuffer, s.spanStack)
  }

  function WithGlobal(s: Snapshot, g: GlobalFields): Snapshot {
    s.(isLineTimingMode := g.isLineTimingMode, detectedLineMode := g.detectedLineMode, warnings := g.warnings,
       rawMetadata := g.rawMetadata, defaultMainLang := g.defaultMainLang, inMetadataSection := g.inMetadataSection,
       inBody := g.inBody, inDiv := g.inDiv, divSongPart := g.divSongPart, inP := g.inP, pData := g.pData,
       textBuffer := g.textBuffer, spanStack := g.spanStack)
  }

  /** The paragraph `</p>` would close in state `s`. */
  function ClosingOf(s: Snapshot): ClosedParagraph
    requires s.pData.Some?
  {
    ClosedParagraph(AttachKeyedTranslation(s.pData.value, s.meta.translationMap), s.isLineTimingMode)
  }

  /** What `parse_ttml` returns from the state it ends in. */
  function SourceDataOf(s: Snapshot): ParsedSourceData {
    ParsedSourceData(s.lines, s.rawMetadata, Ttml, None, s.isLineTimingMode, s.warnings, None)
  }

  /**
   * An event inside a paragraph: `handle_p_event`'s effect on the paragraph fields;
   * `</p>` leaves the paragraph and appends the closed paragraph's line; nothing
   * else changes.
   */
  predicate ParagraphStep(e: XmlEvent, offsetSeconds: string -> Option<nat>, s0: Snapshot, s1: Snapshot,
                          err: Option<ConvertError>)
    requires s0.pData.Some? && PDataTimed(s0.pData.value)
  {
    var c := ClosingOf(s0);
    ParagraphEventHandled(e, offsetSeconds, s0.isLineTimingMode, s0.defaultTranslationLang, s0.defaultRomanizationLang,
                          ParagraphWarnings(c), ParaOf(s0), ParaOf(s1), err)
    && s1.inP == !IsParagraphEnd(e)
    && s1.lines == s0.lines + (if IsParagraphEnd(e) then ParagraphLines(c) else [])
    && s1 == WithPara(s0, ParaOf(s1)).(inP := s1.inP, lines := s1.lines)
  }

  /** An event inside `<metadata>`: its effect on the metadata fields; only `</metadata>` leaves the section. */
  predicate MetadataStep(events: seq<XmlEvent>, i: nat, s0: Snapshot, s1: Snapshot, next: nat, err: Option<ConvertError>)
    requires i < |events|
  {
    MetadataEventHandled(events, i, MetaOf(s0), MetaOf(s1), next, err)
    && s1.inMetadataSection == !(events[i].End? && LocalName(events[i].name) == "metadata")
    && s1 == WithMeta(s0, MetaOf(s1)).(inMetadataSection := s1.inMetadataSection)
  }

  /** An event outside paragraphs and metadata: its effect on the global fields, and nothing else. */
  predicate GlobalStep(e: XmlEvent, hasTimedSpanTags: bool, offsetSeconds: string -> Option<nat>,
                       s0: Snapshot, s1: Snapshot, err: Option<ConvertError>)
  {
    GlobalHandled(e, hasTimedSpanTags, offsetSeconds, GlobalOf(s0), GlobalOf(s1), err)
    && s1 == WithGlobal(s0, GlobalOf(s1))
  }

  /**
   * One turn of `parse_ttml`'s loop takes `s0` to `s1` at event `i`, continuing at
   * `next`: the paragraph handler while a `<p>` is open, else the metadata handler
   * inside `<metadata>`, else the global handler.
   */
  predicate EventHandled(events: seq<XmlEvent>, i: nat, hasTimedSpanTags: bool, offsetSeconds: string -> Option<nat>,
                         s0: Snapshot, s1: Snapshot, next: nat, err: Option<ConvertError>)
  {
    i < |events| && (s0.inP <==> s0.pData.Some?) &&
    if s0.inP then
      next == i + 1 && PDataTimed(s0.pData.value) && ParagraphStep(events[i], offsetSeconds, s0, s1, err)
    else if s0.inMetadataSection then MetadataStep(events, i, s0, s1, next, err)
    else next == i + 1 && GlobalStep(events[i], hasTimedSpanTags, offsetSeconds, s0, s1, err)
  }

  /**
   * `trace` is a run of `parse_ttml`'s loop from its initial state: the turn at
   * `positions[k]` takes `trace[k]` to `trace[k + 1]` without error and continues at
   * `positions[k + 1]`.
   */
  predicate Run(events: seq<XmlEvent>, hasTimedSpanTags: bool, defaults: DefaultLanguageOptions,
                offsetSeconds: string -> Option<nat>, trace: seq<Snapshot>, positions: seq<nat>)
  {
    |trace| == |positions| >= 1 && trace[0] == InitialSnapshot(defaults) && positions[0] == 0
    && forall k :: 0 <= k < |trace| - 1 ==>
         EventHandled(events, positions[k], hasTimedSpanTags, offsetSeconds, trace[k], trace[k + 1], positions[k + 1], None)
  }

  /** The turn of `parse_ttml`'s loop at event `i` in state `s0` reports `err`. */
  ghost predicate TurnFails(events: seq<XmlEvent>, i: nat, hasTimedSpanTags: bool, offsetSeconds: string -> Option<nat>,
                            s0: Snapshot, err: ConvertError)
  {
    exists s1: Snapshot, next: nat :: EventHandled(events, i, hasTimedSpanTags, offsetSeconds, s0, s1, next, Some(err))
  }

  /** A run followed by one more error-free turn is a run. */
  lemma RunExtend(events: seq<XmlEvent>, hasTimedSpanTags: bool, defaults: DefaultLanguageOptions,
                  offsetSeconds: string -> Option<nat>, trace: seq<Snapshot>, positions: seq<nat>, s1: Snapshot, next: nat)
    requires Run(events, hasTimedSpanTags, defaults, offsetSeconds, trace, positions)
    requires EventHandled(events, positions[|positions| - 1], hasTimedSpanTags, offsetSeconds, trace[|trace| - 1], s1, next, None)
    ensures Run(events, hasTimedSpanTags, defaults, offsetSeconds, trace + [s1], positions + [next])
  {
    var trace', positions' := trace + [s1], positions + [next];
    forall k | 0 <= k < |trace'| - 1
      ensures EventHandled(events, positions'[k], hasTimedSpanTags, offsetSeconds, trace'[k], trace'[k + 1], positions'[k + 1], None)
    {
      if k < |trace| - 1 {
        assert trace'[k] == trace[k] && trace'[k + 1] == trace[k + 1];
        assert positions'[k] == positions[k] && positions'[k + 1] == positions[k + 1];
      }
    }
  }

  class TtmlParserState {
    var isLineTimingMode: bool
    var detectedLineMode: bool
    var defaultMainLang: Option<string>
    var defaultTranslationLang: Option<string>
    var defaultRomanizationLang: Option<string>
    var xmlIds: set<string>
    var textBuffer: string
    var inMetadataSection: bool
    var meta: MetadataState
    var inBody: bool
    var inDiv: bool
    var inP: bool
    var divSongPart: Option<string>
    var pData: Option<PData>
    var spanStack: seq<SpanContext>
    var lastSyllable: LastSyllable
    var lines: seq<LyricLine>
    var rawMetadata: map<string, seq<string>>
    var warnings: seq<Warning>
    /** The paragraphs closed so far; the lines are exactly what they contribute. */
    ghost var closed: seq<ClosedParagraph>

    /** Every emitted line is well formed. */
    predicate LinesWellFormed()
      reads this`lines
    {
      forall i :: 0 <= i < |lines| ==> WellFormedLine(lines[i])
    }

    /** A paragraph is open and its accumulated syllables are consistently timed. */
    predicate InParagraph()
      reads this`inP, this`pData
    {
      inP && pData.Some? && PDataTimed(pData.value)
    }

    ghost predicate Valid()
      reads this`inP, this`pData, this`lines, this`closed
    {
      (inP <==> pData.Some?)
      && (pData.Some? ==> PDataTimed(pData.value))
      && LinesWellFormed()
    }

    function MetadataFields(): MetaFields
      reads this`meta, this`xmlIds, this`warnings, this`rawMetadata, this`textBuffer
    {
      MetaFields(meta, xmlIds, warnings, rawMetadata, textBuffer)
    }

    /** The paragraph `</p>` would close now: the open one with its keyed iTunes translation attached. */
    function Closing(): ClosedParagraph
      requires pData.Some?
      reads this
    {
      ClosingOf(State())
    }

    function ParagraphFields(): ParaFields
      reads this`pData, this`spanStack, this`textBuffer, this`lastSyllable, this`warnings
    {
      ParaFields(pData, spanStack, textBuffer, lastSyllable, warnings)
    }

    /** The whole state as a value. */
    function State(): Snapshot
      reads this
    {
      Snapshot(isLineTimingMode, detectedLineMode, defaultMainLang, defaultTranslationLang, defaultRomanizationLang,
               xmlIds, textBuffer, inMetadataSection, meta, inBody, inDiv, inP, divSongPart, pData, spanStack,
               lastSyllable, lines, rawMetadata, warnings)
    }

    constructor(defaults: DefaultLanguageOptions)
      ensures Valid()
      ensures defaultMainLang == defaults.main && defaultTranslationLang == defaults.translation
      ensures defaultRomanizationLang == defaults.romanization
      ensures !isLineTimingMode && !detectedLineMode && !inMetadataSection && !inBody && !inDiv && !inP
      ensures xmlIds == {} && textBuffer == [] && meta == InitialMetadataState() && divSongPart.None?
      ensures spanStack == [] && lastSyllable == NoSyllable
      ensures lines == [] && rawMetadata == map[] && warnings == [] && closed == []
      ensures State() == InitialSnapshot(defaults)
    {
      isLineTimingMode := false;
      detectedLineMode := false;
      defaultMainLang := defaults.main;
      defaultTranslationLang := defaults.translation;
      defaultRomanizationLang := defaults.romanization;
      xmlIds := {};
      textBuffer := [];
      inMetadataSection := false;
      meta := InitialMetadataState();
      inBody := false;
      inDiv := false;
      inP := false;
      divSongPart := None;
      pData := None;
      spanStack := [];
      lastSyllable := NoSyllable;
      lines := [];
      rawMetadata := map[];
      warnings := [];
      closed := [];
    }

    /**
     * `process_tt_start`: `itunes:timing="line"` turns on line-timing mode; with no
     * timing attribute and no timed span anywhere in the document it is turned on too,
     * recorded as detected and warned about. A non-empty `xml:lang` is recorded and
     * becomes the main language unless one was configured.
     */
    method ProcessTtStart(attrs: seq<Attribute>, hasTimedSpanTags: bool)
      modifies this`isLineTimingMode, this`detectedLineMode, this`warnings, this`rawMetadata, this`defaultMainLang
      ensures var timing := GetAttr(attrs, "itunes:timing");
        isLineTimingMode == (old(isLineTimingMode) || timing == Some("line") || (timing.None? && !hasTimedSpanTags))
        && detectedLineMode == (old(detectedLineMode) || (timing.None? && !hasTimedSpanTags))
        && warnings == old(warnings) + (if timing.None? && !hasTimedSpanTags then [LineModeAutoDetected] else [])
      ensures var lang := GetAttr(attrs, "xml:lang");
        if lang.Some? && lang.value != [] then
          rawMetadata == AddMetadata(old(rawMetadata), "xml:lang_root", lang.value)
          && defaultMainLang == old(defaultMainLang).Or(lang)
        else rawMetadata == old(rawMetadata) && defaultMainLang == old(defaultMainLang)
      ensures GlobalOf(State()) == TtStarted(attrs, hasTimedSpanTags, GlobalOf(old(State())))
    {
      var timing := GetAttr(attrs, "itunes:timing");
      if timing.Some? {
        if timing.value == "line" {
          isLineTimingMode := true;
        }
      } else if !hasTimedSpanTags {
        isLineTimingMode := true;
        detectedLineMode := true;
        warnings := warnings + [LineModeAutoDetected];
      }
      var lang := GetAttr(attrs, "xml:lang");
      if lang.Some? && lang.value != [] {
        rawMetadata := AddMetadata(rawMetadata, "xml:lang_root", lang.value);
        if defaultMainLang.None? {
          defaultMainLang := lang;
        }
      }
      TtStartFrame();
    }

    /**
     * `handle_global_event`: outside paragraphs and metadata, `<tt>`, `<metadata>`,
     * `<body>`, `<div>` and `<p>` open their contexts; `<div>` and `<p>` only inside
     * the body. Closing `</div>` and `</metadata>` leave theirs.
     */
    method HandleGlobalEvent(e: XmlEvent, hasTimedSpanTags: bool, offsetSeconds: string -> Option<nat>)
      returns (err: Option<ConvertError>)
      requires !inP && pData.None?
      modifies this`isLineTimingMode, this`detectedLineMode, this`warnings, this`rawMetadata, this`defaultMainLang
      modifies this`inMetadataSection, this`inBody, this`inDiv, this`divSongPart, this`inP, this`pData
      modifies this`textBuffer, this`spanStack
      ensures (inP <==> pData.Some?) && (pData.Some? ==> PDataTimed(pData.value))
      ensures isLineTimingMode ==> old(isLineTimingMode) || IsTtStart(e)
      ensures err.Some? ==> err.value == InvalidTime
      ensures GlobalHandled(e, hasTimedSpanTags, offsetSeconds, GlobalOf(old(State())), GlobalOf(State()), err)
    {
      err := None;
      match GlobalKindOf(e, inBody, inDiv)
      case TtOpen =>
        ProcessTtStart(e.attrs, hasTimedSpanTags);
      case MetadataOpen =>
        inMetadataSection := true;
        ContextFrame();
      case BodyOpen =>
        inBody := true;
        ContextFrame();
      case DivOpen =>
        inDiv := true;
        divSongPart := GetAttr(e.attrs, "itunes:song-part");
        ContextFrame();
      case ParagraphOpen =>
        err := OpenParagraphState(e.attrs, offsetSeconds);
        ParagraphOpenFrame();
      case DivClose =>
        inDiv := false;
        divSongPart := None;
        ContextFrame();
      case MetadataClose =>
        inMetadataSection := false;
        ContextFrame();
      case NotGlobal =>
        ContextFrame();
    }

    /** `process_tt_start` changes only its five global fields. */
    twostate lemma TtStartFrame()
      requires unchanged(this`inMetadataSection, this`inBody, this`inDiv, this`divSongPart, this`inP, this`pData)
      requires unchanged(this`textBuffer, this`spanStack)
      ensures GlobalOf(State()) == GlobalOf(old(State())).(isLineTimingMode := isLineTimingMode,
        detectedLineMode := detectedLineMode, warnings := warnings, rawMetadata := rawMetadata,
        defaultMainLang := defaultMainLang)
    {
    }

    /** Entering or leaving a context changes only the context flags and the song part. */
    twostate lemma ContextFrame()
      requires unchanged(this`isLineTimingMode, this`detectedLineMode, this`warnings, this`rawMetadata)
      requires unchanged(this`defaultMainLang, this`inP, this`pData, this`textBuffer, this`spanStack)
      ensures GlobalOf(State()) == GlobalOf(old(State())).(inMetadataSection := inMetadataSection, inBody := inBody,
        inDiv := inDiv, divSongPart := divSongPart)
    {
    }

    /** Opening a paragraph changes only the paragraph's fields. */
    twostate lemma ParagraphOpenFrame()
      requires unchanged(this`isLineTimingMode, this`detectedLineMode, this`warnings, this`rawMetadata)
      requires unchanged(this`defaultMainLang, this`inMetadataSection, this`inBody, this`inDiv, this`divSongPart)
      ensures GlobalOf(State()) == GlobalOf(old(State())).(inP := inP, pData := pData, textBuffer := textBuffer,
        spanStack := spanStack)
    {
    }

    /** The `<p>` branch of `handle_global_event`: the paragraph's data, or the time error that stops the parse. */
    method OpenParagraphState(attrs: seq<Attribute>, offsetSeconds: string -> Option<nat>) returns (err: Option<ConvertError>)
      requires !inP && pData.None?
      modifies this`inP, this`pData, this`textBuffer, this`spanStack
      ensures var o := OpenParagraph(attrs, divSongPart, offsetSeconds);
        if o.Failure? then err == Some(o.error) && !inP && pData.None? && textBuffer == old(textBuffer) && spanStack == old(spanStack)
        else err.None? && inP && pData == Some(o.value) && PDataTimed(o.value) && textBuffer == [] && spanStack == []
    {
      var openResult := OpenParagraph(attrs, divSongPart, offsetSeconds);
      if openResult.Failure? {
        err := Some(openResult.error);
        return;
      }
      err := None;
      inP := true;
      pData := Some(openResult.value);
      textBuffer := [];
      spanStack := [];
    }

    /** `process_meta_tag`: `<meta key=… value=…>` with a non-empty key is recorded. */
    method ProcessMetaTag(attrs: seq<Attribute>)
      modifies this`rawMetadata
      ensures var k, v := GetAttr(attrs, "key"), GetAttr(attrs, "value");
        if k.Some? && v.Some? && k.value != [] then rawMetadata == AddMetadata(old(rawMetadata), k.value, v.value)
        else rawMetadata == old(rawMetadata)
    {
      var k, v := GetAttr(attrs, "key"), GetAttr(attrs, "value");
      if k.Some? && v.Some? && k.value != [] {
        rawMetadata := AddMetadata(rawMetadata, k.value, v.value);
      }
    }

    /**
     * `process_agent_tag`: an agent with an `xml:id` has the id stored (a repeated
     * non-empty id is warned about) and its `type`, "person" by default, recorded
     * under `agent-type-<id>`.
     */
    method ProcessAgentTag(attrs: seq<Attribute>) returns (agentId: Option<string>)
      modifies this`xmlIds, this`warnings, this`rawMetadata
      ensures agentId == GetAttr(attrs, "xml:id")
      ensures agentId.None? ==> xmlIds == old(xmlIds) && warnings == old(warnings) && rawMetadata == old(rawMetadata)
      ensures agentId.Some? ==>
        var id := agentId.value;
        xmlIds == StoreXmlId(id, old(xmlIds)).0
        && warnings == old(warnings) + (if StoreXmlId(id, old(xmlIds)).1 then [DuplicateXmlId(id)] else [])
        && rawMetadata == AddMetadata(old(rawMetadata), "agent-type-" + id, GetAttr(attrs, "type").GetOr("person"))
    {
      agentId := GetAttr(attrs, "xml:id");
      if agentId.Some? {
        var id := agentId.value;
        var stored := StoreXmlId(id, xmlIds);
        xmlIds := stored.0;
        if stored.1 {
          warnings := warnings + [DuplicateXmlId(id)];
        }
        rawMetadata := AddMetadata(rawMetadata, "agent-type-" + id, GetAttr(attrs, "type").GetOr("person"));
      }
    }

    /**
     * `handle_metadata_start_event`. `next` is the index of the event after this tag,
     * or, for an iTunes translation `<text for=…>`, after its closing tag, whose
     * content is stored (when non-empty) under the key with the current language.
     */
    method HandleMetadataStart(name: string, attrs: seq<Attribute>, events: seq<XmlEvent>, i: nat)
      returns (next: nat, err: Option<ConvertError>)
      requires i < |events| && events[i] == Start(name, attrs)
      modifies this`meta, this`xmlIds, this`warnings, this`rawMetadata, this`textBuffer
      ensures i < next <= |events|
      ensures forall j :: i < j < next ==> !events[j].ReaderError?
      ensures MetadataStarted(name, attrs, events, i, old(MetadataFields()), MetadataFields(), next, err)
    {
      var k := MetaStartKindOf(name, meta);
      var key := GetAttr(attrs, "for");
      if k == TranslationText && key.Some? {
        next, err := ReadTranslationText(name, key.value, events, i);
        return;
      }
      next, err := i + 1, None;
      OpenMetadataElement(k, name, attrs);
    }

    /** Every other arm of `handle_metadata_start_event`. */
    method OpenMetadataElement(k: MetaStartKind, name: string, attrs: seq<Attribute>)
      modifies this`meta, this`xmlIds, this`warnings, this`rawMetadata, this`textBuffer
      ensures ElementOpened(k, name, attrs, old(MetadataFields()), MetadataFields())
    {
      if k == MetaTag {
        ProcessMetaTag(attrs);
      } else if k == AgentTag {
        var _ := ProcessAgentTag(attrs);
      }
      meta := MetaOpened(k, name, attrs, meta);
      if k == OpenTtmKey {
        textBuffer := [];
      }
    }

    /** The iTunes translation `<text for=…>` arm: the content up to the closing tag is stored under the key. */
    method ReadTranslationText(name: string, key: string, events: seq<XmlEvent>, i: nat)
      returns (next: nat, err: Option<ConvertError>)
      requires i < |events|
      modifies this`meta
      ensures i < next <= |events|
      ensures forall j :: i < j < next ==> !events[j].ReaderError?
      ensures TranslationTextRead(name, key, events, i, old(MetadataFields()), MetadataFields(), next, err)
    {
      next, err := i + 1, None;
      var read := ReadText(events, i + 1, name);
      if read.Failure? {
        err := Some(read.error);
        return;
      }
      next := read.value.next;
      if read.value.text != [] {
        meta := meta.(translationMap := meta.translationMap[key := KeyedTranslation(read.value.text, meta.currentAmTranslationLang)]);
      }
    }

    /**
     * Text inside metadata (`handle_metadata_text_event`, and a decoded reference in
     * `handle_metadata_event`) goes to the songwriter name, else the agent name, else
     * the open metadata key's buffer, else nowhere.
     */
    method AppendMetadataText(t: string)
      modifies this`meta, this`textBuffer
      ensures MetadataTextAppended(t, old(MetadataFields()), MetadataFields())
    {
      if meta.inSongwriterTag {
        meta := meta.(currentSongwriterName := meta.currentSongwriterName + t);
      } else if meta.inAgentNameTag {
        meta := meta.(currentAgentNameText := meta.currentAgentNameText + t);
      } else if meta.inTtmMetadataTag {
        textBuffer := textBuffer + t;
      }
    }

    /**
     * `handle_metadata_end_event`: closing tags leave their contexts. A songwriter with
     * a non-empty name is recorded trimmed; an agent's non-blank display name is
     * recorded as `id=name`; the open `ttm:` key, when this closes it, records its
     * normalised text unless that is empty.
     */
    method HandleMetadataEnd(name: string)
      modifies this`meta, this`rawMetadata, this`textBuffer
      ensures MetadataEnded(name, old(MetadataFields()), MetadataFields())
    {
      var k := MetaEndKindOf(name, meta);
      match k
      case CloseItunesMetadata => meta := meta.(inItunesMetadata := false);
      case CloseTranslations => meta := meta.(inAmTranslations := false);
      case CloseTranslation => meta := meta.(inAmTranslation := false);
      case CloseSongwriter =>
        if meta.currentSongwriterName != [] {
          rawMetadata := AddMetadata(rawMetadata, "songwriters", Trim(meta.currentSongwriterName));
        }
        meta := meta.(inSongwriterTag := false);
      case CloseSongwriters => meta := meta.(inSongwritersTag := false);
      case CloseAgentName =>
        if meta.currentAgentIdForName.Some? {
          var display := Trim(meta.currentAgentNameText);
          if display != [] {
            rawMetadata := AddMetadata(rawMetadata, "agent", meta.currentAgentIdForName.value + "=" + display);
          }
        }
        meta := meta.(inAgentNameTag := false);
      case CloseAgent => meta := meta.(inAgentTag := false, currentAgentIdForName := None);
      case OtherEnd => CloseTtmKey(LocalName(name));
    }

    /** The end of a `ttm:` metadata element: when it closes the open key, the key's normalised text is recorded unless empty. */
    method CloseTtmKey(local: string)
      modifies this`meta, this`rawMetadata, this`textBuffer
      ensures if old(meta).inTtmMetadataTag && old(meta).currentTtmMetadataKey == Some(local) then
          meta == old(meta).(inTtmMetadataTag := false, currentTtmMetadataKey := None) && textBuffer == []
          && rawMetadata == (if NormalizeWhitespace(old(textBuffer)) == [] then old(rawMetadata)
                             else AddMetadata(old(rawMetadata), local, NormalizeWhitespace(old(textBuffer))))
        else meta == old(meta) && textBuffer == old(textBuffer) && rawMetadata == old(rawMetadata)
    {
      if meta.inTtmMetadataTag && meta.currentTtmMetadataKey == Some(local) {
        var value := NormalizeWhitespace(textBuffer);
        if value != [] {
          rawMetadata := AddMetadata(rawMetadata, local, value);
        }
        meta := meta.(inTtmMetadataTag := false, currentTtmMetadataKey := None);
        textBuffer := [];
      }
    }

    /**
     * `handle_metadata_event`: one event inside `<metadata>`. The section is left
     * exactly at `</metadata>`; every other event has the effect its kind calls for.
     */
    method HandleMetadataEvent(events: seq<XmlEvent>, i: nat) returns (next: nat, err: Option<ConvertError>)
      requires i < |events| && !events[i].ReaderError?
      modifies this`meta, this`xmlIds, this`warnings, this`rawMetadata, this`textBuffer, this`inMetadataSection
      ensures i < next <= |events|
      ensures forall j :: i <= j < next ==> !events[j].ReaderError?
      ensures err.Some? ==> err.value == Xml
      ensures inMetadataSection == (old(inMetadataSection) && !(events[i].End? && LocalName(events[i].name) == "metadata"))
      ensures MetadataEventHandled(events, i, MetaOf(old(State())), MetaOf(State()), next, err)
    {
      var leaves;
      next, err, leaves := DispatchMetadataEvent(events, i);
      if leaves {
        inMetadataSection := false;
      }
    }

    /**
     * The arms of `handle_metadata_event`'s `match`: a start tag, text or a reference
     * has its kind's effect (an unknown entity is warned about and dropped); a closing
     * tag other than `</metadata>` goes to `handle_metadata_end_event`. `leaves` says
     * whether the event is `</metadata>`.
     */
    method DispatchMetadataEvent(events: seq<XmlEvent>, i: nat) returns (next: nat, err: Option<ConvertError>, leaves: bool)
      requires i < |events| && !events[i].ReaderError?
      modifies this`meta, this`xmlIds, this`warnings, this`rawMetadata, this`textBuffer
      ensures i < next <= |events|
      ensures forall j :: i <= j < next ==> !events[j].ReaderError?
      ensures err.Some? ==> err.value == Xml
      ensures !events[i].Start? ==> next == i + 1 && err.None?
      ensures leaves <==> events[i].End? && LocalName(events[i].name) == "metadata"
      ensures MetadataEventHandled(events, i, MetaOf(old(State())), MetaOf(State()), next, err)
    {
      next, err, leaves := i + 1, None, false;
      match events[i]
      case Start(name, attrs) =>
        next, err := HandleMetadataStart(name, attrs, events, i);
      case Text(t) =>
        AppendMetadataText(t);
      case GeneralRef(entity) =>
        HandleMetadataReference(entity);
      case End(name) =>
        if LocalName(name) == "metadata" {
          leaves := true;
        } else {
          HandleMetadataEnd(name);
        }
      case Other =>
    }

    /** A reference inside metadata: a predefined entity is decoded and appended as text; any other is warned about and dropped. */
    method HandleMetadataReference(entity: string)
      modifies this`meta, this`textBuffer, this`warnings
      ensures if PredefinedEntity(entity).None? then
          MetadataFields() == old(MetadataFields()).(warnings := old(warnings) + [UnknownEntity(entity)])
        else MetadataTextAppended([PredefinedEntity(entity).value], old(MetadataFields()), MetadataFields())
    {
      match PredefinedEntity(entity) {
        case None => warnings := warnings + [UnknownEntity(entity)];
        case Some(c) => AppendMetadataText([c]);
      }
    }

    /**
     * `process_span_start`: the text buffer is cleared and the span's context pushed.
     * The first background span of a paragraph opens its background section, timed by
     * the span (0 where it has no timing). A time attribute that does not parse is an
     * error.
     */
    method ProcessSpanStart(attrs: seq<Attribute>, offsetSeconds: string -> Option<nat>)
      returns (err: Option<ConvertError>)
      requires InParagraph()
      modifies this`textBuffer, this`spanStack, this`pData
      ensures InParagraph()
      ensures SpanStarted(attrs, offsetSeconds, old(ParagraphFields()), ParagraphFields(), err)
    {
      textBuffer := [];
      var b := OptionalTime(attrs, "begin", offsetSeconds);
      if b.Failure? {
        return Some(b.error);
      }
      var e := OptionalTime(attrs, "end", offsetSeconds);
      if e.Failure? {
        return Some(e.error);
      }
      var ctx := SpanContext(RoleOf(attrs), GetAttr(attrs, "xml:lang"), GetAttr(attrs, "xml:scheme"), b.value, e.value);
      spanStack := spanStack + [ctx];
      var p := pData.value;
      if ctx.role == BackgroundSpan && p.background.None? {
        pData := Some(p.(background := Some(BgData(b.value.GetOr(0), e.value.GetOr(0), [], [], []))));
      }
      err := None;
    }

    /**
     * `process_text_event`: whitespace right after a syllable marks that syllable as
     * ending with a space; other blank text is dropped; anything else goes to the open
     * span's buffer or, outside spans, to the paragraph's own text.
     */
    method ProcessTextEvent(t: string)
      requires InParagraph()
      modifies this`pData, this`textBuffer, this`lastSyllable
      ensures InParagraph()
      ensures TextProcessed(t, old(ParagraphFields()), ParagraphFields())
    {
      if lastSyllable.EndedSyllable? && t != [] && AllWhitespace(t) {
        pData := Some(MarkSpaceAfter(pData.value, lastSyllable.wasBackground));
        lastSyllable := NoSyllable;
        return;
      }
      if Trim(t) == [] {
        return;
      }
      lastSyllable := NoSyllable;
      if spanStack != [] {
        textBuffer := textBuffer + t;
      } else {
        pData := Some(pData.value.(lineText := pData.value.lineText + t));
      }
    }

    /**
     * `handle_generic_span_end`. In line-timing mode the span's text joins the
     * paragraph's text. Otherwise a span with both times and non-empty text becomes a
     * syllable, of the background section when inside a background span and of the
     * line otherwise (warning when it starts after it ends); a span missing a time
     * and holding non-blank text is warned about and dropped.
     */
    method HandleGenericSpanEnd(ctx: SpanContext, text: string)
      requires InParagraph()
      modifies this`pData, this`warnings, this`lastSyllable
      ensures InParagraph()
      ensures GenericSpanEnded(ctx, text, isLineTimingMode, old(ParagraphFields()), ParagraphFields())
    {
      var p := pData.value;
      if isLineTimingMode {
        pData := Some(p.(lineText := p.lineText + text));
      } else if ctx.startMs.Some? && ctx.endMs.Some? {
        if text != [] {
          AddSpanSyllable(text, ctx.startMs.value, ctx.endMs.value);
        }
      } else if Trim(text) != [] {
        warnings := warnings + [SpanMissingTiming];
      }
    }

    /** A timed generic span's syllable joins the background section or the line. */
    method AddSpanSyllable(text: string, startMs: nat, endMs: nat)
      requires InParagraph() && text != []
      modifies this`pData, this`warnings, this`lastSyllable
      ensures InParagraph()
      ensures var within := WithinBackground(spanStack);
        pData == Some(AddSyllable(old(pData).value, SpanSyllable(text, startMs, endMs, within), within))
        && warnings == old(warnings) + (if startMs > endMs then [SyllableStartAfterEnd] else [])
        && lastSyllable == (if within && old(pData).value.background.None? then old(lastSyllable) else EndedSyllable(within))
    {
      var p := pData.value;
      var within := WithinBackground(spanStack);
      var syl := SpanSyllable(text, startMs, endMs, within);
      var q := AddSyllable(p, syl, within);
      var w := if startMs > endMs then warnings + [SyllableStartAfterEnd] else warnings;
      var last := if within && p.background.None? then lastSyllable else EndedSyllable(within);
      pData, warnings, lastSyllable := Some(q), w, last;
    }

    /**
     * `handle_auxiliary_span_end`: a translation or romanisation span with non-blank
     * text adds an entry (normalised text; the span's language or else the configured
     * default) to the background section when inside a background span, and to the
     * line otherwise.
     */
    method HandleAuxiliarySpanEnd(ctx: SpanContext, text: string)
      requires InParagraph()
      requires ctx.role == TranslationSpan || ctx.role == RomanizationSpan
      modifies this`pData
      ensures InParagraph()
      ensures AuxiliarySpanEnded(ctx, text, defaultTranslationLang, defaultRomanizationLang, old(ParagraphFields()), ParagraphFields())
    {
      var t := NormalizeWhitespace(text);
      if t == [] {
        return;
      }
      var p := pData.value;
      var within := WithinBackground(spanStack);
      var lang := ctx.lang.Or(if ctx.role == TranslationSpan then defaultTranslationLang else defaultRomanizationLang);
      if ctx.role == TranslationSpan {
        var entry := TranslationEntry(t, lang);
        if within {
          if p.background.Some? {
            var bg := p.background.value;
            pData := Some(p.(background := Some(bg.(translations := bg.translations + [entry]))));
          }
        } else {
          pData := Some(p.(translations := p.translations + [entry]));
        }
      } else {
        var entry := RomanizationEntry(t, lang, ctx.scheme);
        if within {
          if p.background.Some? {
            var bg := p.background.value;
            pData := Some(p.(background := Some(bg.(romanizations := bg.romanizations + [entry]))));
          }
        } else {
          pData := Some(p.(romanizations := p.romanizations + [entry]));
        }
      }
    }

    /**
     * `handle_background_span_end`. A background span without both times takes the
     * bounds of its syllables. Non-blank text directly inside it becomes its only
     * syllable when it is timed and has no syllables yet; otherwise that text is
     * dropped with a warning.
     */
    method HandleBackgroundSpanEnd(ctx: SpanContext, text: string)
      requires InParagraph()
      modifies this`pData, this`warnings, this`lastSyllable
      ensures InParagraph()
      ensures BackgroundSpanEnded(ctx, text, old(ParagraphFields()), ParagraphFields())
    {
      var timed := ctx.startMs.Some? && ctx.endMs.Some?;
      var q := SettleBackground(pData.value, timed);
      var w, last := warnings, lastSyllable;
      if Trim(text) != [] {
        if !timed {
          w := w + [BackgroundTextMissingTiming];
        } else if q.background.Some? {
          var bg := q.background.value;
          if bg.syllables == [] {
            var syl := MakeSyllable(NormalizeWhitespace(Trim(text)), ctx.startMs.value, ctx.endMs.value,
                                    text != [] && EndsWithWhitespace(text));
            q := q.(background := Some(bg.(syllables := [syl])));
            last := EndedSyllable(true);
          } else {
            w := w + [BackgroundTextBesideSyllables];
          }
        }
      }
      pData, warnings, lastSyllable := Some(q), w, last;
    }

    /**
     * `process_span_end`: the last-syllable marker is cleared; the innermost span, if
     * any, is popped with the buffered text, which the handler for its role consumes.
     * With no open span nothing else changes.
     */
    method ProcessSpanEnd()
      requires InParagraph()
      modifies this`pData, this`warnings, this`lastSyllable, this`spanStack, this`textBuffer
      ensures InParagraph()
      ensures SpanEnded(isLineTimingMode, defaultTranslationLang, defaultRomanizationLang, old(ParagraphFields()), ParagraphFields())
    {
      lastSyllable := NoSyllable;
      if spanStack != [] {
        var ctx := spanStack[|spanStack| - 1];
        spanStack := spanStack[..|spanStack| - 1];
        var text := textBuffer;
        textBuffer := [];
        match ctx.role
        case Generic => HandleGenericSpanEnd(ctx, text);
        case TranslationSpan => HandleAuxiliarySpanEnd(ctx, text);
        case RomanizationSpan => HandleAuxiliarySpanEnd(ctx, text);
        case BackgroundSpan => HandleBackgroundSpanEnd(ctx, text);
      }
    }

    /**
     * Records a closed paragraph: its finalised line, unless dropped, is appended to
     * the lines and its warnings to the warnings.
     */
    method AppendParagraph(c: ClosedParagraph)
      requires LinesWellFormed() && PDataTimed(c.data)
      modifies this`lines, this`closed, this`warnings
      ensures closed == old(closed) + [c]
      ensures lines == old(lines) + ParagraphLines(c)
      ensures warnings == old(warnings) + ParagraphWarnings(c)
      ensures LinesWellFormed()
    {
      var fin := FinalizeParagraph(c.data, c.lineMode);
      lines := lines + Emitted(fin.0);
      warnings := warnings + fin.1;
      closed := closed + [c];
    }

    /**
     * `</p>`: the paragraph's keyed iTunes translation is attached, the paragraph is
     * finalised (the line appended unless empty, its warnings recorded), and the
     * paragraph state is reset.
     */
    method CloseParagraph()
      requires Valid() && inP
      modifies this`pData, this`warnings, this`lines, this`inP, this`spanStack, this`lastSyllable, this`closed
      ensures Valid() && !inP && pData.None? && spanStack == [] && lastSyllable == NoSyllable
      ensures closed == old(closed) + [old(Closing())]
      ensures lines == old(lines) + ParagraphLines(old(Closing()))
      ensures warnings == old(warnings) + ParagraphWarnings(old(Closing()))
    {
      AppendParagraph(Closing());
      pData := None;
      inP := false;
      spanStack := [];
      lastSyllable := NoSyllable;
    }

    /**
     * One turn of the parse loop: an event inside a paragraph, inside the metadata
     * section (which may consume a whole element), or outside both. Returns where the
     * loop continues.
     */
    method HandleEvent(events: seq<XmlEvent>, i: nat, hasTimedSpanTags: bool, offsetSeconds: string -> Option<nat>)
      returns (next: nat, err: Option<ConvertError>)
      requires Valid() && i < |events| && !events[i].ReaderError?
      modifies this
      ensures i < next <= |events|
      ensures Valid()
      ensures forall j :: i <= j < next ==> !events[j].ReaderError?
      ensures err.Some? ==> err.value in {Xml, InvalidTime}
      ensures isLineTimingMode ==> old(isLineTimingMode) || IsTtStart(events[i])
      ensures old(inP) && IsParagraphEnd(events[i]) ==>
        closed == old(closed) + [old(Closing())]
        && lines == old(lines) + ParagraphLines(old(Closing()))
      ensures !(old(inP) && IsParagraphEnd(events[i])) ==> closed == old(closed) && lines == old(lines)
      ensures EventHandled(events, i, hasTimedSpanTags, offsetSeconds, old(State()), State(), next, err)
    {
      var e := events[i];
      next := i + 1;
      if inP {
        err := ParagraphTurn(e, offsetSeconds);
      } else if inMetadataSection {
        next, err := MetadataTurn(events, i);
      } else {
        err := GlobalTurn(e, hasTimedSpanTags, offsetSeconds);
      }
    }

    /** `handle_metadata_event` as a turn of the parse loop: its effect on the metadata fields, and nothing else changes. */
    method MetadataTurn(events: seq<XmlEvent>, i: nat) returns (next: nat, err: Option<ConvertError>)
      requires i < |events| && !events[i].ReaderError? && inMetadataSection
      modifies this`meta, this`xmlIds, this`warnings, this`rawMetadata, this`textBuffer, this`inMetadataSection
      ensures i < next <= |events|
      ensures forall j :: i <= j < next ==> !events[j].ReaderError?
      ensures err.Some? ==> err.value == Xml
      ensures MetadataStep(events, i, old(State()), State(), next, err)
    {
      next, err := HandleMetadataEvent(events, i);
      MetadataFrame();
    }

    /** A change to the metadata fields and the section flag only leaves the rest of the state as it was. */
    twostate lemma MetadataFrame()
      requires unchanged(this`isLineTimingMode, this`detectedLineMode, this`defaultMainLang, this`defaultTranslationLang)
      requires unchanged(this`defaultRomanizationLang, this`inBody, this`inDiv, this`inP, this`divSongPart, this`pData)
      requires unchanged(this`spanStack, this`lastSyllable, this`lines)
      ensures State() == WithMeta(old(State()), MetaOf(State())).(inMetadataSection := State().inMetadataSection)
    {
    }

    /** `handle_global_event` as a turn of the parse loop: its effect on the global fields, and nothing else changes. */
    method GlobalTurn(e: XmlEvent, hasTimedSpanTags: bool, offsetSeconds: string -> Option<nat>)
      returns (err: Option<ConvertError>)
      requires Valid() && !inP
      modifies this`isLineTimingMode, this`detectedLineMode, this`warnings, this`rawMetadata, this`defaultMainLang
      modifies this`inMetadataSection, this`inBody, this`inDiv, this`divSongPart, this`inP, this`pData
      modifies this`textBuffer, this`spanStack
      ensures Valid()
      ensures err.Some? ==> err.value == InvalidTime
      ensures isLineTimingMode ==> old(isLineTimingMode) || IsTtStart(e)
      ensures GlobalStep(e, hasTimedSpanTags, offsetSeconds, old(State()), State(), err)
    {
      err := HandleGlobalEvent(e, hasTimedSpanTags, offsetSeconds);
      GlobalFrame();
    }

    /**
     * `handle_p_event` as a turn of the parse loop: its effect on the paragraph fields;
     * lines change only at `</p>`, by the closed paragraph's line; nothing else changes.
     */
    method ParagraphTurn(e: XmlEvent, offsetSeconds: string -> Option<nat>) returns (err: Option<ConvertError>)
      requires Valid() && inP
      modifies this`pData, this`warnings, this`lines, this`inP, this`spanStack, this`lastSyllable, this`textBuffer
      modifies this`closed
      ensures Valid()
      ensures err.Some? ==> err.value == InvalidTime
      ensures IsParagraphEnd(e) ==>
        closed == old(closed) + [old(Closing())]
        && lines == old(lines) + ParagraphLines(old(Closing()))
      ensures !IsParagraphEnd(e) ==> closed == old(closed) && lines == old(lines)
      ensures ParagraphStep(e, offsetSeconds, old(State()), State(), err)
    {
      err := HandlePEvent(e, offsetSeconds);
      ParagraphFrame();
    }

    /** A change to the fields `handle_global_event` acts on leaves the rest of the state as it was. */
    twostate lemma GlobalFrame()
      requires unchanged(this`defaultTranslationLang, this`defaultRomanizationLang, this`xmlIds, this`meta)
      requires unchanged(this`lastSyllable, this`lines)
      ensures State() == WithGlobal(old(State()), GlobalOf(State()))
    {
    }

    /** A change to the paragraph fields, the paragraph flag and the lines only leaves the rest of the state as it was. */
    twostate lemma ParagraphFrame()
      requires unchanged(this`isLineTimingMode, this`detectedLineMode, this`defaultMainLang, this`defaultTranslationLang)
      requires unchanged(this`defaultRomanizationLang, this`xmlIds, this`inMetadataSection, this`meta, this`inBody)
      requires unchanged(this`inDiv, this`divSongPart, this`rawMetadata)
      ensures State() == WithPara(old(State()), ParaOf(State())).(inP := inP, lines := lines)
    {
    }

    /**
     * `handle_p_event`: inside a paragraph, spans open and close, text and references
     * accumulate, `<br/>` is warned about and ignored, and `</p>` closes the
     * paragraph. Lines are only ever appended, and only at `</p>`.
     */
    method HandlePEvent(e: XmlEvent, offsetSeconds: string -> Option<nat>) returns (err: Option<ConvertError>)
      requires Valid() && inP
      modifies this`pData, this`warnings, this`lines, this`inP, this`spanStack, this`lastSyllable, this`textBuffer
      modifies this`closed
      ensures Valid()
      ensures err.Some? ==> err.value == InvalidTime
      ensures IsParagraphEnd(e) ==>
        !inP && closed == old(closed) + [old(Closing())]
        && lines == old(lines) + ParagraphLines(old(Closing()))
      ensures !IsParagraphEnd(e) ==> inP && lines == old(lines) && closed == old(closed)
      ensures ParagraphEventHandled(e, offsetSeconds, isLineTimingMode, defaultTranslationLang, defaultRomanizationLang,
                                    ParagraphWarnings(old(Closing())), ParaOf(old(State())), ParaOf(State()), err)
    {
      err := None;
      match e
      case Start(name, attrs) =>
        err := HandlePStart(name, attrs, offsetSeconds);
      case Text(t) =>
        ProcessTextEvent(t);
      case GeneralRef(entity) =>
        HandlePReference(entity);
      case End(name) =>
        HandlePEnd(name);
      case Other =>
      case ReaderError =>
    }

    /** The `Start` arm of `handle_p_event`. */
    method HandlePStart(name: string, attrs: seq<Attribute>, offsetSeconds: string -> Option<nat>)
      returns (err: Option<ConvertError>)
      requires InParagraph()
      modifies this`textBuffer, this`spanStack, this`pData
      ensures InParagraph()
      ensures err.Some? ==> err.value == InvalidTime
      ensures ParagraphStartHandled(name, attrs, offsetSeconds, ParaOf(old(State())), ParaOf(State()), err)
    {
      err := None;
      if LocalName(name) == "span" {
        err := ProcessSpanStart(attrs, offsetSeconds);
      }
    }

    /** The `GeneralRef` arm of `handle_p_event`. */
    method HandlePReference(entity: string)
      requires InParagraph()
      modifies this`warnings, this`textBuffer, this`pData
      ensures InParagraph()
      ensures ParagraphReferenceHandled(entity, ParaOf(old(State())), ParaOf(State()))
    {
      match PredefinedEntity(entity) {
        case None => warnings := warnings + [UnknownEntity(entity)];
        case Some(c) =>
          if spanStack != [] {
            textBuffer := textBuffer + [c];
          } else {
            pData := Some(pData.value.(lineText := pData.value.lineText + [c]));
          }
      }
    }

    /** The `End` arm of `handle_p_event`: only `</p>` leaves the paragraph, appending its lines. */
    method HandlePEnd(name: string)
      requires Valid() && inP
      modifies this`pData, this`warnings, this`lines, this`inP, this`spanStack, this`lastSyllable, this`textBuffer
      modifies this`closed
      ensures Valid()
      ensures LocalName(name) == "p" ==>
        !inP && closed == old(closed) + [old(Closing())]
        && lines == old(lines) + ParagraphLines(old(Closing()))
      ensures LocalName(name) != "p" ==> inP && lines == old(lines) && closed == old(closed)
      ensures ParagraphEndHandled(name, isLineTimingMode, defaultTranslationLang, defaultRomanizationLang,
                                  ParagraphWarnings(old(Closing())), ParaOf(old(State())), ParaOf(State()))
    {
      var local := LocalName(name);
      if local == "br" {
        warnings := warnings + [LineBreakIgnored];
      } else if local == "p" {
        CloseParagraph();
      } else if local == "span" {
        ProcessSpanEnd();
      }
    }
  }

  /**
   * `parse_ttml`: every event goes to the paragraph handler while a `<p>` is open,
   * else to the metadata handler inside `<metadata>`, else to the global handler.
   * A reader error anywhere fails the parse. The ghost `trace` is the run of states
   * the loop goes through, at the event positions `positions`: a success is the last
   * state's lines, metadata and warnings after every event was handled; a failure is
   * a reader error at the last position or a turn there that reported the error.
   * The result's lines are all well formed and there are at most as many as `</p>` events.
   */
  method ParseTtml(events: seq<XmlEvent>, hasTimedSpanTags: bool, defaults: DefaultLanguageOptions,
                   offsetSeconds: string -> Option<nat>)
    returns (r: Result<ParsedSourceData, ConvertError>, ghost closed: seq<ClosedParagraph>,
             ghost trace: seq<Snapshot>, ghost positions: seq<nat>)
    ensures Run(events, hasTimedSpanTags, defaults, offsetSeconds, trace, positions)
    ensures r.Success? ==> positions[|positions| - 1] == |events| && r.value == SourceDataOf(trace[|trace| - 1])
    ensures r.Failure? ==> positions[|positions| - 1] < |events|
    ensures r.Failure? && events[positions[|positions| - 1]].ReaderError? ==> r.error == Xml
    ensures r.Failure? && !events[positions[|positions| - 1]].ReaderError? ==>
      TurnFails(events, positions[|positions| - 1], hasTimedSpanTags, offsetSeconds, trace[|trace| - 1], r.error)
    ensures r.Success? ==> forall i :: 0 <= i < |r.value.lines| ==> WellFormedLine(r.value.lines[i])
    ensures r.Success? ==> r.value.lines == LinesOf(closed) && |closed| <= ParagraphEnds(events)
    ensures r.Success? ==> |r.value.lines| <= ParagraphEnds(events)
    ensures (exists j :: 0 <= j < |events| && events[j].ReaderError?) ==> r.Failure?
    ensures r.Failure? ==> r.error in {Xml, InvalidTime}
    ensures r.Success? ==> r.value.sourceFormat == Ttml && r.value.sourceFilename.None?
                           && r.value.detectedFormattedTtmlInput.None?
    ensures r.Success? && r.value.isLineTimedSource ==> exists j :: 0 <= j < |events| && IsTtStart(events[j])
  {
    var st := new TtmlParserState(defaults);
    var i := 0;
    ghost var past: seq<Snapshot>, pastPositions: seq<nat> := [], [];
    while i < |events|
      invariant 0 <= i <= |events|
      invariant st.Valid()
      invariant Run(events, hasTimedSpanTags, defaults, offsetSeconds, past + [st.State()], pastPositions + [i])
      invariant |st.lines| <= ParagraphEnds(events[..i]) && |st.closed| <= ParagraphEnds(events[..i])
      invariant st.lines == LinesOf(st.closed)
      invariant forall j :: 0 <= j < i ==> !events[j].ReaderError?
      invariant st.isLineTimingMode ==> exists j :: 0 <= j < i && IsTtStart(events[j])
      decreases |events| - i
    {
      if events[i].ReaderError? {
        return Failure(Xml), st.closed, past + [st.State()], pastPositions + [i];
      }
      if st.inP && IsParagraphEnd(events[i]) {
        LinesOfAppend(st.closed, st.Closing());
      }
      ghost var before := st.State();
      var next, err := st.HandleEvent(events, i, hasTimedSpanTags, offsetSeconds);
      ghost var after := st.State();
      ParagraphEndsStep(events, i);
      ParagraphEndsMonotone(events, i + 1, next);
      if err.Some? {
        assert TurnFails(events, i, hasTimedSpanTags, offsetSeconds, before, err.value);
        return Failure(err.value), st.closed, past + [before], pastPositions + [i];
      }
      RunExtend(events, hasTimedSpanTags, defaults, offsetSeconds, past + [before], pastPositions + [i], after, next);
      past, pastPositions := past + [before], pastPositions + [i];
      i := next;
    }
    assert events[..i] == events;
    r, closed := Success(ParsedSourceData(st.lines, st.rawMetadata, Ttml, None, st.isLineTimingMode, st.warnings, None)), st.closed;
    trace, positions := past + [st.State()], pastPositions + [i];
  }
}
