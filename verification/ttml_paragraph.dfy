/**
 * The per-paragraph values of the TTML parser (ttml_parser.rs): the span context kept
 * on the span stack, the accumulator of the `<p>` being read, the syllables built at
 * a span's end, and `finalize_p_element` with its line-mode and word-mode halves.
 */
module TtmlParagraph {
  import opened Wrappers
  import opened Text
  import opened LyricTypes
  import opened XmlEvents
  import opened TimeExpr

  datatype SpanRole = Generic | TranslationSpan | RomanizationSpan | BackgroundSpan

  /** The role of a `<span>`: `ttm:role`, else `role`; unknown values are generic. */
  function RoleOf(attrs: seq<Attribute>): (role: SpanRole)
    ensures GetAttr(attrs, "ttm:role").None? && GetAttr(attrs, "role").None? ==> role == Generic
  {
    match GetAttr(attrs, "ttm:role").Or(GetAttr(attrs, "role"))
    case None => Generic
    case Some(v) =>
      if v == "x-translation" then TranslationSpan
      else if v == "x-roman" then RomanizationSpan
      else if v == "x-bg" then BackgroundSpan
      else Generic
  }

  datatype SpanContext = SpanContext(
    role: SpanRole,
    lang: Option<string>,
    scheme: Option<string>,
    startMs: Option<nat>,
    endMs: Option<nat>)

  predicate WithinBackground(stack: seq<SpanContext>) {
    exists i :: 0 <= i < |stack| && stack[i].role == BackgroundSpan
  }

  /** `BackgroundSectionData`. */
  datatype BgData = BgData(
    startMs: nat,
    endMs: nat,
    syllables: seq<LyricSyllable>,
    translations: seq<TranslationEntry>,
    romanizations: seq<RomanizationEntry>)

  /** `CurrentPElementData`: what has been gathered of the open `<p>`. */
  datatype PData = PData(
    startMs: nat,
    endMs: nat,
    agent: Option<string>,
    songPart: Option<string>,
    itunesKey: Option<string>,
    lineText: string,
    syllables: seq<LyricSyllable>,
    translations: seq<TranslationEntry>,
    romanizations: seq<RomanizationEntry>,
    background: Option<BgData>)

  /** `LastSyllableInfo`. */
  datatype LastSyllable = NoSyllable | EndedSyllable(wasBackground: bool)

  function Max(a: nat, b: nat): nat {
    if a >= b then a else b
  }

  /** A syllable's timing is consistent: it does not end before it starts, and its duration is the difference. */
  predicate Timed(s: LyricSyllable) {
    s.startMs <= s.endMs && s.durationMs == Some(s.endMs - s.startMs)
  }

  predicate AllTimed(ss: seq<LyricSyllable>) {
    forall i :: 0 <= i < |ss| ==> Timed(ss[i])
  }

  predicate PDataTimed(p: PData) {
    AllTimed(p.syllables) && (p.background.Some? ==> AllTimed(p.background.value.syllables))
  }

  /**
   * A syllable timed by `begin`/`end` as the parser builds it: the end is raised to
   * the start, and the duration is `end ⊖ start`, so the timing is consistent.
   */
  function MakeSyllable(text: string, startMs: nat, endMs: nat, endsWithSpace: bool): (s: LyricSyllable)
    ensures Timed(s)
    ensures s.text == text && s.endsWithSpace == endsWithSpace
    ensures s.startMs == startMs && s.endMs == Max(endMs, startMs)
    ensures s.durationMs == Some(SatSub(endMs, startMs))
  {
    LyricSyllable(text, startMs, Max(endMs, startMs), Some(SatSub(endMs, startMs)), endsWithSpace)
  }

  /**
   * The syllable a timed generic `<span>` with non-empty text yields
   * (`handle_generic_span_end`): whitespace-only text becomes a single " ";
   * otherwise the trimmed text, with its parentheses removed inside a background
   * span and its whitespace normalised outside one.
   */
  function SpanSyllable(text: string, startMs: nat, endMs: nat, withinBg: bool): (s: LyricSyllable)
    requires text != []
    ensures Timed(s) && s.startMs == startMs && s.endMs == Max(endMs, startMs)
    ensures s.text == " " <==> AllWhitespace(text)
    ensures s.endsWithSpace <==> !AllWhitespace(text) && EndsWithWhitespace(text)
    ensures !withinBg && !AllWhitespace(text) ==> Visible(s.text) == Visible(text)
  {
    if AllWhitespace(text) then MakeSyllable(" ", startMs, endMs, false)
    else
      var trimmed := Trim(text);
      var t := if withinBg then CleanParentheses(trimmed) else NormalizeWhitespace(trimmed);
      assert t != " " by {
        assert IsWhitespace(' ');
      }
      assert !withinBg ==> Visible(t) == Visible(text) by {
        if !withinBg {
          NormalizeKeepsVisible(trimmed);
          VisibleTrim(text);
        }
      }
      MakeSyllable(t, startMs, endMs, EndsWithWhitespace(text))
  }

  /** Outside a background span, the syllable of non-blank text is normalised. */
  lemma SpanSyllableNormalized(text: string, startMs: nat, endMs: nat)
    requires !AllWhitespace(text)
    ensures IsNormalized(SpanSyllable(text, startMs, endMs, false).text)
  {
    NormalizedOutput(Trim(text));
  }

  /** Earliest start among non-empty syllables. */
  function MinStart(ss: seq<LyricSyllable>): (m: nat)
    requires ss != []
    ensures forall i :: 0 <= i < |ss| ==> m <= ss[i].startMs
    ensures exists i :: 0 <= i < |ss| && m == ss[i].startMs
  {
    if |ss| == 1 then ss[0].startMs
    else
      var rest := MinStart(ss[1..]);
      assert forall i :: 1 <= i < |ss| ==> ss[i] == ss[1..][i - 1];
      if ss[0].startMs <= rest then ss[0].startMs else rest
  }

  /** Latest end among non-empty syllables. */
  function MaxEnd(ss: seq<LyricSyllable>): (m: nat)
    requires ss != []
    ensures forall i :: 0 <= i < |ss| ==> ss[i].endMs <= m
    ensures exists i :: 0 <= i < |ss| && m == ss[i].endMs
  {
    if |ss| == 1 then ss[0].endMs
    else
      var rest := MaxEnd(ss[1..]);
      assert forall i :: 1 <= i < |ss| ==> ss[i] == ss[1..][i - 1];
      if ss[0].endMs >= rest then ss[0].endMs else rest
  }

  /** The bounds of a background section are widened to its syllables when its span has no timing. */
  lemma BoundsCoverSyllables(ss: seq<LyricSyllable>)
    requires ss != [] && AllTimed(ss)
    ensures MinStart(ss) <= MaxEnd(ss)
  {
    assert ss[0].startMs <= ss[0].endMs;
  }

  /** A translation stored in `<iTunesMetadata>` under a `for` key. */
  datatype KeyedTranslation = KeyedTranslation(text: string, lang: Option<string>)

  predicate HasTranslationText(ts: seq<TranslationEntry>, text: string) {
    exists i :: 0 <= i < |ts| && ts[i].text == text
  }

  /**
   * At `</p>`: the translation stored under the paragraph's `itunes:key` is appended
   * unless a translation with the same text is already there.
   */
  function AttachKeyedTranslation(p: PData, stored: map<string, KeyedTranslation>): (q: PData)
    ensures q == p.(translations := q.translations)
    ensures PDataTimed(q) == PDataTimed(p)
    ensures p.itunesKey.None? || p.itunesKey.value !in stored ==> q == p
    ensures p.itunesKey.Some? && p.itunesKey.value in stored ==>
      var kt := stored[p.itunesKey.value];
      HasTranslationText(q.translations, kt.text)
      && (HasTranslationText(p.translations, kt.text) ==> q == p)
      && (!HasTranslationText(p.translations, kt.text) ==>
            q.translations == p.translations + [TranslationEntry(kt.text, kt.lang)])
  {
    if p.itunesKey.Some? && p.itunesKey.value in stored then
      var kt := stored[p.itunesKey.value];
      if HasTranslationText(p.translations, kt.text) then p
      else
        var q := p.(translations := p.translations + [TranslationEntry(kt.text, kt.lang)]);
        assert q.translations[|p.translations|].text == kt.text;
        q
    else p
  }

  /** Attaching the keyed translation twice is the same as attaching it once. */
  lemma AttachKeyedIdempotent(p: PData, stored: map<string, KeyedTranslation>)
    ensures AttachKeyedTranslation(AttachKeyedTranslation(p, stored), stored) == AttachKeyedTranslation(p, stored)
  {
  }

  /** A syllable as it reads in running text: its text, then a space when `ends_with_space`. */
  function Rendering(s: LyricSyllable): string {
    if s.endsWithSpace then s.text + " " else s.text
  }

  /** The concatenated renderings of the syllables. */
  function AssembleText(ss: seq<LyricSyllable>): string {
    if ss == [] then [] else Rendering(ss[0]) + AssembleText(ss[1..])
  }

  lemma {:induction false} AssembleTextAllWhitespace(ss: seq<LyricSyllable>)
    requires forall i :: 0 <= i < |ss| ==> AllWhitespace(ss[i].text)
    ensures AllWhitespace(AssembleText(ss))
  {
    if ss != [] {
      AssembleTextAllWhitespace(ss[1..]);
      var r := Rendering(ss[0]);
      assert AllWhitespace(r);
      var t := r + AssembleText(ss[1..]);
      assert forall i :: 0 <= i < |t| ==> t[i] == (if i < |r| then r[i] else AssembleText(ss[1..])[i - |r|]);
    }
  }

  /** The last syllable's `ends_with_space` forced to false; nothing else changes. */
  function ClearLastSpace(ss: seq<LyricSyllable>): (r: seq<LyricSyllable>)
    ensures |r| == |ss|
    ensures ss != [] ==> r[..|r| - 1] == ss[..|ss| - 1] && r[|r| - 1] == ss[|ss| - 1].(endsWithSpace := false)
    ensures AllTimed(ss) ==> AllTimed(r)
  {
    if ss == [] then [] else ss[..|ss| - 1] + [ss[|ss| - 1].(endsWithSpace := false)]
  }

  /** `a` is `b` with possibly a different `ends_with_space` on the last syllable. */
  predicate AgreeButLastSpace(a: seq<LyricSyllable>, b: seq<LyricSyllable>) {
    |a| == |b| &&
    forall i :: 0 <= i < |a| ==> a[i] == b[i].(endsWithSpace := a[i].endsWithSpace)
                                 && (i < |a| - 1 ==> a[i].endsWithSpace == b[i].endsWithSpace)
  }

  /**
   * `finalize_p_for_line_mode`: the line text is the paragraph's text, or, when that is
   * blank and syllables exist, their rendering (with a warning); it is then
   * normalised. Word-level timings are dropped with a warning that counts them.
   */
  function LineModeText(p: PData): (r: (string, seq<Warning>))
    ensures !AllWhitespace(p.lineText) ==> r.0 == NormalizeWhitespace(p.lineText)
    ensures SyllableTimingsIgnored(|p.syllables|) in r.1 <==> p.syllables != []
    ensures LineTextFromSyllables in r.1 <==> AllWhitespace(p.lineText) && p.syllables != []
    ensures r.0 == [] <==> AllWhitespace(p.lineText) && (p.syllables == [] || AllWhitespace(AssembleText(p.syllables)))
  {
    var fromSyllables := AllWhitespace(p.lineText) && p.syllables != [];
    var content := if fromSyllables then AssembleText(p.syllables) else p.lineText;
    var ws := (if fromSyllables then [LineTextFromSyllables] else [])
              + (if p.syllables != [] then [SyllableTimingsIgnored(|p.syllables|)] else []);
    (NormalizeWhitespace(content), ws)
  }

  /** The line-mode text is normalised. */
  lemma LineModeTextNormalized(p: PData)
    ensures IsNormalized(LineModeText(p).0)
  {
    NormalizedOutput(if AllWhitespace(p.lineText) && p.syllables != [] then AssembleText(p.syllables) else p.lineText);
  }

  datatype WordModeResult = WordModeResult(main: seq<LyricSyllable>, lineText: Option<string>, warnings: seq<Warning>)

  /**
   * `finalize_p_for_word_mode`: the span syllables are the line's syllables. Text
   * outside any span becomes the single syllable when there are none (warning when the
   * paragraph starts after it ends), and is dropped with a warning otherwise. The line
   * text is the syllables' rendering with trailing whitespace removed.
   */
  function WordMode(p: PData): (r: WordModeResult)
    ensures p.syllables != [] ==> r.main == p.syllables
    ensures p.syllables == [] && AllWhitespace(p.lineText) ==> r.main == []
    ensures p.syllables == [] && !AllWhitespace(p.lineText) ==>
      r.main == [MakeSyllable(NormalizeWhitespace(p.lineText), p.startMs, p.endMs, false)]
    ensures UnwrappedTextIgnored in r.warnings <==> p.syllables != [] && !AllWhitespace(p.lineText)
    ensures r.lineText.Some? <==> r.main != []
    ensures r.lineText.Some? ==> r.lineText.value == TrimEnd(AssembleText(r.main))
    ensures PDataTimed(p) ==> AllTimed(r.main)
  {
    var unhandled := NormalizeWhitespace(p.lineText);
    var main := if unhandled != [] && p.syllables == [] then [MakeSyllable(unhandled, p.startMs, p.endMs, false)]
                else p.syllables;
    var ws := if unhandled == [] then []
              else if p.syllables == [] then (if p.startMs > p.endMs then [ParagraphTextStartAfterEnd] else [])
              else [UnwrappedTextIgnored];
    WordModeResult(main, if main != [] then Some(TrimEnd(AssembleText(main))) else None, ws)
  }

  /** A line with nothing in it: `finalize_p_element` does not emit these. */
  predicate Empty(l: LyricLine) {
    l.mainSyllables == [] && (l.lineText.None? || l.lineText.value == []) && l.translations == []
    && l.romanizations == [] && l.backgroundSection.None? && l.endMs <= l.startMs
  }

  /**
   * What every emitted line satisfies: it has an agent, consistent syllable timings,
   * no trailing space on its last main or background syllable, a background section
   * only when that section has content, and it is not empty.
   */
  predicate WellFormedLine(l: LyricLine) {
    l.agent.Some? && AllTimed(l.mainSyllables)
    && (l.mainSyllables != [] ==> !l.mainSyllables[|l.mainSyllables| - 1].endsWithSpace)
    && (l.backgroundSection.Some? ==>
          var b := l.backgroundSection.value;
          AllTimed(b.syllables) && (b.syllables != [] ==> !b.syllables[|b.syllables| - 1].endsWithSpace)
          && (b.syllables != [] || b.translations != [] || b.romanizations != []))
    && !Empty(l)
  }

  predicate BgHasContent(b: Option<BgData>) {
    b.Some? && (b.value.syllables != [] || b.value.translations != [] || b.value.romanizations != [])
  }

  /** The background section a paragraph contributes: only one with content. */
  function BackgroundOf(b: Option<BgData>): (r: Option<BackgroundSection>)
    ensures r.Some? <==> BgHasContent(b)
    ensures r.Some? ==> r.value.syllables == ClearLastSpace(b.value.syllables)
                        && r.value.translations == b.value.translations
                        && r.value.romanizations == b.value.romanizations
                        && r.value.startMs == b.value.startMs && r.value.endMs == b.value.endMs
  {
    if BgHasContent(b) then
      Some(BackgroundSection(b.value.startMs, b.value.endMs, ClearLastSpace(b.value.syllables),
                             b.value.translations, b.value.romanizations))
    else None
  }

  /** The line-mode or word-mode half of `finalize_p_element`. */
  function ModeHalf(p: PData, lineMode: bool): (h: WordModeResult)
    ensures lineMode ==> h == WordModeResult([], Some(LineModeText(p).0), LineModeText(p).1)
    ensures !lineMode ==> h == WordMode(p)
  {
    if lineMode then WordModeResult([], Some(LineModeText(p).0), LineModeText(p).1) else WordMode(p)
  }

  /**
   * The main syllables after the last one loses its trailing space, and after a line
   * with no syllables but non-empty text and a positive duration gets that text as
   * its single syllable.
   */
  function MainSyllables(main: seq<LyricSyllable>, lineText: Option<string>, startMs: nat, endMs: nat)
    : (r: seq<LyricSyllable>)
    requires AllTimed(main)
    ensures main != [] ==> r == ClearLastSpace(main)
    ensures main == [] ==> (r != [] <==> lineText.Some? && lineText.value != [] && endMs > startMs)
    ensures main == [] ==> |r| <= 1
    ensures AllTimed(r) && (r != [] ==> !r[|r| - 1].endsWithSpace)
  {
    var cleared := ClearLastSpace(main);
    if cleared == [] && lineText.Some? && lineText.value != [] && endMs > startMs
    then [LyricSyllable(lineText.value, startMs, endMs, Some(endMs - startMs), false)]
    else cleared
  }

  /** The line before the emptiness test of `finalize_p_element`. */
  function AssembleLine(p: PData, lineMode: bool): (r: (LyricLine, seq<Warning>))
    requires PDataTimed(p)
    ensures r.0.startMs == p.startMs && r.0.endMs == p.endMs && r.0.translations == p.translations
      && r.0.romanizations == p.romanizations && r.0.songPart == p.songPart && r.0.itunesKey == p.itunesKey
      && r.0.agent == p.agent.Or(Some("v1")) && r.0.backgroundSection == BackgroundOf(p.background)
    ensures r.0.lineText == ModeHalf(p, lineMode).lineText && r.1 == ModeHalf(p, lineMode).warnings
    ensures r.0.mainSyllables == MainSyllables(ModeHalf(p, lineMode).main, r.0.lineText, p.startMs, p.endMs)
  {
    var half := ModeHalf(p, lineMode);
    var main := MainSyllables(half.main, half.lineText, p.startMs, p.endMs);
    (LyricLine(p.startMs, p.endMs, half.lineText, main, p.translations, p.romanizations,
               p.agent.Or(Some("v1")), BackgroundOf(p.background), p.songPart, p.itunesKey), half.warnings)
  }

  /** The condition under which a paragraph yields no line. */
  predicate Dropped(p: PData, lineMode: bool) {
    p.translations == [] && p.romanizations == [] && p.endMs <= p.startMs && !BgHasContent(p.background)
    && AllWhitespace(p.lineText)
    && (if lineMode then p.syllables == [] || AllWhitespace(AssembleText(p.syllables)) else p.syllables == [])
  }

  /**
   * `finalize_p_element`: the finished line, or None when it would be empty, and the
   * warnings raised on the way.
   */
  function FinalizeParagraph(p: PData, lineMode: bool): (r: (Option<LyricLine>, seq<Warning>))
    requires PDataTimed(p)
    ensures r.0.Some? ==> WellFormedLine(r.0.value)
    ensures r.0.Some? ==>
      var l := r.0.value;
      l.startMs == p.startMs && l.endMs == p.endMs && l.translations == p.translations
      && l.romanizations == p.romanizations && l.songPart == p.songPart && l.itunesKey == p.itunesKey
      && l.agent == (if p.agent.Some? then p.agent else Some("v1"))
    ensures r.0.None? <==> Dropped(p, lineMode)
    ensures r.0.Some? ==> r.0.value == AssembleLine(p, lineMode).0
    ensures r.1 == AssembleLine(p, lineMode).1
  {
    var (line, ws) := AssembleLine(p, lineMode);
    EmptyIffDropped(p, lineMode);
    if Empty(line) then (None, ws) else (Some(line), ws)
  }

  /** In word mode the span syllables become the line's syllables, timings and texts unchanged. */
  lemma WordModeKeepsSyllables(p: PData)
    requires PDataTimed(p) && p.syllables != []
    ensures FinalizeParagraph(p, false).0.Some?
    ensures AgreeButLastSpace(FinalizeParagraph(p, false).0.value.mainSyllables, p.syllables)
  {
    WordModeAgrees(p, false);
  }

  /**
   * In line mode the line always has a text, at most one syllable spanning the whole
   * line, and a warning counts the word timings that were ignored.
   */
  lemma LineModeShape(p: PData)
    requires PDataTimed(p)
    ensures FinalizeParagraph(p, true).0.Some? ==>
      |FinalizeParagraph(p, true).0.value.mainSyllables| <= 1 && FinalizeParagraph(p, true).0.value.lineText.Some?
    ensures SyllableTimingsIgnored(|p.syllables|) in FinalizeParagraph(p, true).1 <==> p.syllables != []
  {
    assert ModeHalf(p, true).main == [];
  }

  lemma EmptyIffDropped(p: PData, lineMode: bool)
    requires PDataTimed(p)
    ensures Empty(AssembleLine(p, lineMode).0) <==> Dropped(p, lineMode)
  {
    var l := AssembleLine(p, lineMode).0;
    var half := ModeHalf(p, lineMode);
    if lineMode {
      assert half.main == [];
      assert l.lineText == Some(LineModeText(p).0);
    } else {
      var w := WordMode(p);
      assert half == w;
      if w.main == [] {
        assert l.lineText.None?;
        assert l.mainSyllables == [];
      } else {
        assert |l.mainSyllables| == |w.main|;
      }
    }
  }

  lemma WordModeAgrees(p: PData, lineMode: bool)
    requires PDataTimed(p)
    ensures !lineMode && p.syllables != [] ==> AgreeButLastSpace(AssembleLine(p, lineMode).0.mainSyllables, p.syllables)
  {
    if !lineMode && p.syllables != [] {
      assert ModeHalf(p, lineMode).main == p.syllables;
      var m := AssembleLine(p, lineMode).0.mainSyllables;
      assert m == ClearLastSpace(p.syllables);
    }
  }

  /** A blank paragraph with no timing span and nothing attached yields no line, in either mode. */
  lemma BlankParagraphDropped(p: PData, lineMode: bool)
    requires PDataTimed(p)
    requires p.syllables == [] && AllWhitespace(p.lineText) && p.translations == [] && p.romanizations == []
    requires p.background.None? && p.endMs <= p.startMs
    ensures FinalizeParagraph(p, lineMode).0.None?
  {
  }

  /** A paragraph with a positive duration is always emitted. */
  lemma TimedParagraphKept(p: PData, lineMode: bool)
    requires PDataTimed(p) && p.endMs > p.startMs
    ensures FinalizeParagraph(p, lineMode).0.Some?
  {
  }

  /** The last syllable's `ends_with_space` set; nothing else changes. */
  function MarkLastSpace(ss: seq<LyricSyllable>): (r: seq<LyricSyllable>)
    ensures |r| == |ss|
    ensures ss != [] ==> r[..|r| - 1] == ss[..|ss| - 1] && r[|r| - 1] == ss[|ss| - 1].(endsWithSpace := true)
    ensures AllTimed(ss) ==> AllTimed(r)
  {
    if ss == [] then [] else ss[..|ss| - 1] + [ss[|ss| - 1].(endsWithSpace := true)]
  }

  /**
   * Whitespace right after a syllable ended: that syllable, the last main one or the
   * last background one, now ends with a space.
   */
  function MarkSpaceAfter(p: PData, wasBackground: bool): (q: PData)
    ensures PDataTimed(p) ==> PDataTimed(q)
    ensures !wasBackground ==> q == p.(syllables := MarkLastSpace(p.syllables))
    ensures wasBackground && p.background.Some? ==>
      q == p.(background := Some(p.background.value.(syllables := MarkLastSpace(p.background.value.syllables))))
    ensures wasBackground && p.background.None? ==> q == p
  {
    if !wasBackground then p.(syllables := MarkLastSpace(p.syllables))
    else if p.background.Some? then
      p.(background := Some(p.background.value.(syllables := MarkLastSpace(p.background.value.syllables))))
    else p
  }

  /** A finished span syllable joins the background section or the line's own syllables. */
  function AddSyllable(p: PData, s: LyricSyllable, toBackground: bool): (q: PData)
    ensures Timed(s) && PDataTimed(p) ==> PDataTimed(q)
    ensures !toBackground ==> q == p.(syllables := p.syllables + [s])
    ensures toBackground && p.background.Some? ==>
      q == p.(background := Some(p.background.value.(syllables := p.background.value.syllables + [s])))
    ensures toBackground && p.background.None? ==> q == p
  {
    if !toBackground then p.(syllables := p.syllables + [s])
    else if p.background.Some? then
      p.(background := Some(p.background.value.(syllables := p.background.value.syllables + [s])))
    else p
  }

  /**
   * A background span closed without both times takes the bounds of its syllables:
   * the earliest start and the latest end, so every syllable lies within it.
   */
  function FitBackgroundBounds(b: BgData): (r: BgData)
    requires b.syllables != []
    ensures r == b.(startMs := r.startMs, endMs := r.endMs)
    ensures forall i :: 0 <= i < |b.syllables| ==> r.startMs <= b.syllables[i].startMs && b.syllables[i].endMs <= r.endMs
    ensures exists i :: 0 <= i < |b.syllables| && r.startMs == b.syllables[i].startMs
    ensures exists i :: 0 <= i < |b.syllables| && r.endMs == b.syllables[i].endMs
    ensures AllTimed(b.syllables) ==> r.startMs <= r.endMs
  {
    assert AllTimed(b.syllables) ==> MinStart(b.syllables) <= MaxEnd(b.syllables) by {
      if AllTimed(b.syllables) {
        BoundsCoverSyllables(b.syllables);
      }
    }
    b.(startMs := MinStart(b.syllables), endMs := MaxEnd(b.syllables))
  }

  /** The background section as `</span>` of a background span leaves it, before its own text is looked at. */
  function SettleBackground(p: PData, timed: bool): (q: PData)
    ensures PDataTimed(q) == PDataTimed(p)
    ensures p.background.Some? && !timed && p.background.value.syllables != [] ==>
      q == p.(background := Some(FitBackgroundBounds(p.background.value)))
    ensures !(p.background.Some? && !timed && p.background.value.syllables != []) ==> q == p
  {
    if p.background.Some? && !timed && p.background.value.syllables != [] then
      p.(background := Some(FitBackgroundBounds(p.background.value)))
    else p
  }

  /** A `begin` or `end` attribute: absent is None, present is parsed as a time expression. */
  function OptionalTime(attrs: seq<Attribute>, key: string, offsetSeconds: string -> Option<nat>)
    : (r: Result<Option<nat>, ConvertError>)
    ensures GetAttr(attrs, key).None? ==> r == Success(None)
    ensures GetAttr(attrs, key).Some? ==>
      match ParseTime(GetAttr(attrs, key).value, offsetSeconds)
      case Success(ms) => r == Success(Some(ms))
      case Failure(e) => r == Failure(e)
  {
    match GetAttr(attrs, key)
    case None => Success(None)
    case Some(v) =>
      match ParseTime(v, offsetSeconds)
      case Success(ms) => Success(Some(ms))
      case Failure(e) => Failure(e)
  }

  /**
   * The accumulator opened by `<p>` (`handle_global_event`): `begin` and `end` default
   * to 0, the agent is `ttm:agent` or else `agent`, the song part is the paragraph's own
   * or else the enclosing `<div>`'s. A time attribute that does not parse is an error.
   */
  function OpenParagraph(attrs: seq<Attribute>, divSongPart: Option<string>, offsetSeconds: string -> Option<nat>)
    : (r: Result<PData, ConvertError>)
    ensures r.Failure? <==> (OptionalTime(attrs, "begin", offsetSeconds).Failure?
                             || OptionalTime(attrs, "end", offsetSeconds).Failure?)
    ensures r.Failure? ==> r.error == InvalidTime
    ensures r.Success? ==>
      var p := r.value;
      p.startMs == OptionalTime(attrs, "begin", offsetSeconds).value.GetOr(0)
      && p.endMs == OptionalTime(attrs, "end", offsetSeconds).value.GetOr(0)
      && p.agent == GetAttr(attrs, "ttm:agent").Or(GetAttr(attrs, "agent"))
      && p.songPart == GetAttr(attrs, "itunes:song-part").Or(divSongPart)
      && p.itunesKey == GetAttr(attrs, "itunes:key")
      && p.lineText == [] && p.syllables == [] && p.translations == [] && p.romanizations == []
      && p.background.None?
  {
    var b := OptionalTime(attrs, "begin", offsetSeconds);
    if b.Failure? then Failure(b.error)
    else
      var e := OptionalTime(attrs, "end", offsetSeconds);
      if e.Failure? then Failure(e.error)
      else
        Success(PData(b.value.GetOr(0), e.value.GetOr(0),
                      GetAttr(attrs, "ttm:agent").Or(GetAttr(attrs, "agent")),
                      GetAttr(attrs, "itunes:song-part").Or(divSongPart),
                      GetAttr(attrs, "itunes:key"), [], [], [], [], None))
  }

  /** `check_and_store_xml_id`: the id set after storing, and whether the id was a duplicate. */
  function StoreXmlId(id: string, ids: set<string>): (set<string>, bool) {
    if id == [] then (ids, false) else (ids + {id}, id in ids)
  }

  /** A non-empty id is added to the set, and it is a duplicate exactly when it was already there. */
  lemma StoreXmlIdSpec(id: string, ids: set<string>)
    ensures var r := StoreXmlId(id, ids);
      r.0 == (if id == [] then ids else ids + {id}) && (r.1 <==> id != [] && id in ids)
  {
  }

  /** A non-empty id stored once is reported as a duplicate the second time. */
  lemma StoreXmlIdTwice(id: string, ids: set<string>)
    requires id != []
    ensures StoreXmlId(id, StoreXmlId(id, ids).0).1
  {
  }

  /** `HashMap::entry(key).or_default().push(value)` on the raw metadata. */
  function AddMetadata(m: map<string, seq<string>>, key: string, value: string): map<string, seq<string>> {
    m[key := (if key in m then m[key] else []) + [value]]
  }

  /** The value is appended under the key, and every other key keeps its values. */
  lemma AddMetadataSpec(m: map<string, seq<string>>, key: string, value: string)
    ensures var r := AddMetadata(m, key, value);
      key in r && r[key] == (if key in m then m[key] else []) + [value]
      && (forall k :: k in m && k != key ==> k in r && r[k] == m[k])
      && r.Keys == m.Keys + {key}
  {
  }
}
