/**
 * Conversion of parsed lyrics into the line and word records the AMLL front end
 * consumes (`convert_to_amll_lyrics` and `extract_line_components`).
 *
 * The input records belong to the `lyrics_helper_core` crate, which is not part of
 * this model; they are reconstructed here from the fields the conversion reads.
 * Times are whole milliseconds; the front end receives them as `f64`.
 */
module AmllConversion {
  import opened Wrappers
  import opened Text

  /** The agent id of a chorus line, which is never a duet line. */
  const ChorusAgentId: string := "v1000"
  /** The agent id AMLL itself uses for the second singer. */
  const DuetAgentId: string := "v2"
  const PreferredTranslationLang: string := "zh-CN"
  /** How long a word of a purely instrumental song is shown: one hour. */
  const InstrumentalHoldMs: nat := 3_600_000

  // ----- input records -----

  datatype Syllable = Syllable(text: string, startMs: nat, endMs: nat, endsWithSpace: bool)

  datatype Word = Word(syllables: seq<Syllable>)

  /** A track; of its metadata only the `Language` entry is read. */
  datatype LyricTrack = LyricTrack(words: seq<Word>, language: Option<string>)

  datatype ContentType = Main | Background

  datatype AnnotatedTrack = AnnotatedTrack(
    contentType: ContentType,
    content: LyricTrack,
    translations: seq<LyricTrack>,
    romanizations: seq<LyricTrack>)

  datatype SourceLine = SourceLine(
    startMs: nat,
    endMs: nat,
    agent: Option<string>,
    tracks: seq<AnnotatedTrack>)

  datatype ParsedSourceData = ParsedSourceData(lines: seq<SourceLine>)

  // ----- output records -----

  datatype JsLyricWord = JsLyricWord(startTime: nat, endTime: nat, word: string, romanWord: string)

  datatype JsLyricLine = JsLyricLine(
    words: seq<JsLyricWord>,
    translatedLyric: string,
    romanLyric: string,
    startTime: nat,
    endTime: nat,
    isBg: bool,
    isDuet: bool)

  // ----- track text -----

  /** The syllables of all words, in order (`flat_map(|w| &w.syllables)`). */
  function Syllables(words: seq<Word>): seq<Syllable> {
    if words == [] then [] else words[0].syllables + Syllables(words[1..])
  }

  /** A syllable's text, followed by one space when it ends a word. */
  function WordText(syl: Syllable): string {
    if syl.endsWithSpace then syl.text + " " else syl.text
  }

  function SyllableTexts(syls: seq<Syllable>): (ts: seq<string>) {
    seq(|syls|, i requires 0 <= i < |syls| => WordText(syls[i]))
  }

  /**
   * The text of a track: its syllable texts run together, with the trailing
   * whitespace removed.
   */
  function GetTrackText(track: LyricTrack): (r: string)
    ensures var full := Concat(SyllableTexts(Syllables(track.words)));
      IsPrefix(r, full) && AllWhitespace(full[|r|..])
    ensures r == [] || !IsWhitespace(r[|r| - 1])
  {
    var full := Concat(SyllableTexts(Syllables(track.words)));
    var r := TrimEnd(full);
    assert forall i :: 0 <= i < |full[|r|..]| ==> full[|r|..][i] == full[|r| + i];
    r
  }

  // ----- translation -----

  predicate IsPreferred(t: LyricTrack) {
    t.language.Some? && EqIgnoreAsciiCase(t.language.value, PreferredTranslationLang)
  }

  /** The first track from index `i` on whose language is zh-CN in any ASCII case. */
  function FirstPreferred(tracks: seq<LyricTrack>, i: nat): (k: Option<nat>)
    requires i <= |tracks|
    ensures k.Some? ==> i <= k.value < |tracks| && IsPreferred(tracks[k.value])
    ensures k.Some? ==> forall j :: i <= j < k.value ==> !IsPreferred(tracks[j])
    ensures k.None? ==> forall j :: i <= j < |tracks| ==> !IsPreferred(tracks[j])
    decreases |tracks| - i
  {
    if i == |tracks| then None
    else if IsPreferred(tracks[i]) then Some(i)
    else FirstPreferred(tracks, i + 1)
  }

  /**
   * The translated line: the text of the first zh-CN translation, else of the
   * first translation, else empty; a translation reading `//` counts as empty.
   */
  function TranslationText(translations: seq<LyricTrack>): (r: string)
    ensures r != "//"
    ensures translations == [] ==> r == ""
  {
    var chosen :=
      match FirstPreferred(translations, 0)
      case Some(k) => GetTrackText(translations[k])
      case None => if translations == [] then "" else GetTrackText(translations[0]);
    if chosen == "//" then "" else chosen
  }

  /** A zh-CN translation wins over every translation listed before or after it. */
  lemma TranslationPrefersLanguage(translations: seq<LyricTrack>, k: nat)
    requires k < |translations| && IsPreferred(translations[k])
    requires forall j :: 0 <= j < k ==> !IsPreferred(translations[j])
    ensures GetTrackText(translations[k]) != "//" ==>
      TranslationText(translations) == GetTrackText(translations[k])
    ensures GetTrackText(translations[k]) == "//" ==> TranslationText(translations) == ""
  {
    assert FirstPreferred(translations, 0) == Some(k);
  }

  /** Without a zh-CN translation the first translation is used, "//" again reading as empty. */
  lemma TranslationFallsBack(translations: seq<LyricTrack>)
    requires translations != []
    requires forall j :: 0 <= j < |translations| ==> !IsPreferred(translations[j])
    ensures GetTrackText(translations[0]) != "//" ==>
      TranslationText(translations) == GetTrackText(translations[0])
    ensures GetTrackText(translations[0]) == "//" ==> TranslationText(translations) == ""
  {
    assert FirstPreferred(translations, 0).None?;
  }

  // ----- romanisation -----

  /**
   * A first romanisation track made of one syllable timed 0-0 carries the
   * romanisation of the whole line rather than per-syllable romanisation.
   */
  predicate IsLineRomanisation(romanizations: seq<LyricTrack>) {
    romanizations != [] &&
    var s := Syllables(romanizations[0].words);
    |s| == 1 && s[0].startMs == 0 && s[0].endMs == 0
  }

  function LineRomanisation(romanizations: seq<LyricTrack>): string {
    if IsLineRomanisation(romanizations) then Syllables(romanizations[0].words)[0].text else ""
  }

  /** The romanisation syllables that are distributed over the main syllables. */
  function RomanSyllables(romanizations: seq<LyricTrack>): seq<Syllable> {
    if romanizations == [] || IsLineRomanisation(romanizations) then []
    else Syllables(romanizations[0].words)
  }

  /** The time two syllables share; zero or negative when they do not overlap. */
  function Overlap(main: Syllable, roman: Syllable): int {
    (if main.endMs < roman.endMs then main.endMs else roman.endMs) -
    (if main.startMs < roman.startMs then roman.startMs else main.startMs)
  }

  /**
   * Among the first `n` main syllables, the one a romanisation syllable belongs
   * to: the earliest of those with the largest overlap, provided it is positive.
   */
  function BestIn(main: seq<Syllable>, roman: Syllable, n: nat): (b: Option<nat>)
    requires n <= |main|
    ensures b.Some? ==> b.value < n && Overlap(main[b.value], roman) > 0
    ensures b.Some? ==> forall j :: 0 <= j < n ==> Overlap(main[j], roman) <= Overlap(main[b.value], roman)
    ensures b.Some? ==> forall j :: 0 <= j < b.value ==> Overlap(main[j], roman) < Overlap(main[b.value], roman)
    ensures b.None? <==> forall j :: 0 <= j < n ==> Overlap(main[j], roman) <= 0
  {
    if n == 0 then None
    else
      var b := BestIn(main, roman, n - 1);
      var best := if b.Some? then Overlap(main[b.value], roman) else 0;
      if Overlap(main[n - 1], roman) > best then Some(n - 1) else b
  }

  function BestMatch(main: seq<Syllable>, roman: Syllable): Option<nat> {
    BestIn(main, roman, |main|)
  }

  /** The scan over the main syllables for the best overlap. */
  method FindBestMatch(main: seq<Syllable>, roman: Syllable) returns (best: Option<nat>)
    ensures best == BestMatch(main, roman)
  {
    best := None;
    var maxOverlap: int := 0;
    for i := 0 to |main|
      invariant best == BestIn(main, roman, i)
      invariant maxOverlap == if best.Some? then Overlap(main[best.value], roman) else 0
    {
      var end := if main[i].endMs < roman.endMs then main[i].endMs else roman.endMs;
      var start := if main[i].startMs < roman.startMs then roman.startMs else main[i].startMs;
      var overlap := end - start;
      if overlap > maxOverlap {
        maxOverlap := overlap;
        best := Some(i);
      }
    }
  }

  /** The best match of every romanisation syllable. */
  function Matches(main: seq<Syllable>, romans: seq<Syllable>): (ms: seq<Option<nat>>)
    ensures |ms| == |romans|
  {
    seq(|romans|, k requires 0 <= k < |romans| => BestMatch(main, romans[k]))
  }

  /** The texts, in order, of the first `n` romanisation syllables matched to main syllable `i`. */
  function RomanGroup(matches: seq<Option<nat>>, romans: seq<Syllable>, i: nat, n: nat): seq<string>
    requires n <= |romans| == |matches|
  {
    if n == 0 then []
    else
      RomanGroup(matches, romans, i, n - 1) +
      (if matches[n - 1] == Some(i) then [romans[n - 1].text] else [])
  }

  /** Each romanisation syllable is pushed to the group of its best match, or dropped. */
  method DistributeRomanisation(main: seq<Syllable>, romans: seq<Syllable>) returns (groups: seq<seq<string>>)
    ensures |groups| == |main|
    ensures forall i :: 0 <= i < |main| ==> groups[i] == RomanGroup(Matches(main, romans), romans, i, |romans|)
  {
    groups := seq(|main|, _ => []);
    if romans != [] && main != [] {
      for n := 0 to |romans|
        invariant |groups| == |main|
        invariant forall i :: 0 <= i < |main| ==> groups[i] == RomanGroup(Matches(main, romans), romans, i, n)
      {
        var best := FindBestMatch(main, romans[n]);
        assert Matches(main, romans)[n] == best;
        ghost var before := groups;
        if best.Some? {
          groups := groups[best.value := groups[best.value] + [romans[n].text]];
        }
        GroupsGrow(Matches(main, romans), romans, before, groups, n);
      }
    }
  }

  /** One step of the distribution: the syllable's text is appended to the group it is matched to. */
  lemma GroupsGrow(matches: seq<Option<nat>>, romans: seq<Syllable>, before: seq<seq<string>>, after: seq<seq<string>>, n: nat)
    requires n < |romans| == |matches|
    requires forall i :: 0 <= i < |before| ==> before[i] == RomanGroup(matches, romans, i, n)
    requires matches[n].Some? ==>
      (matches[n].value < |before| &&
       after == before[matches[n].value := before[matches[n].value] + [romans[n].text]])
    requires matches[n].None? ==> after == before
    ensures |after| == |before|
    ensures forall i :: 0 <= i < |after| ==> after[i] == RomanGroup(matches, romans, i, n + 1)
  {
  }

  /** A romanisation syllable lands in the group of the main syllable it is matched to. */
  lemma {:induction false} RomanGroupHolds(matches: seq<Option<nat>>, romans: seq<Syllable>, i: nat, n: nat, k: nat)
    requires k < n <= |romans| == |matches|
    requires matches[k] == Some(i)
    ensures romans[k].text in RomanGroup(matches, romans, i, n)
    decreases n
  {
    var g, t := RomanGroup(matches, romans, i, n - 1), romans[k].text;
    var group := RomanGroup(matches, romans, i, n);
    if k < n - 1 {
      RomanGroupHolds(matches, romans, i, n - 1, k);
      var j :| 0 <= j < |g| && g[j] == t;
      assert group[j] == g[j];
    } else {
      assert group == g + [t];
      assert group[|g|] == t;
    }
  }

  /** A romanisation syllable that overlaps no main syllable is in no group. */
  lemma {:induction false} UnmatchedRomanDropped(main: seq<Syllable>, romans: seq<Syllable>, n: nat)
    requires n <= |romans|
    requires forall k, j :: 0 <= k < n && 0 <= j < |main| ==> Overlap(main[j], romans[k]) <= 0
    ensures forall i :: 0 <= i < |main| ==> RomanGroup(Matches(main, romans), romans, i, n) == []
    decreases n
  {
    if n > 0 {
      UnmatchedRomanDropped(main, romans, n - 1);
      assert Matches(main, romans)[n - 1].None?;
    }
  }

  // ----- words of a line -----

  function MakeWord(syl: Syllable, romanWord: string, isInstrumental: bool): JsLyricWord {
    JsLyricWord(
      syl.startMs,
      if isInstrumental then syl.startMs + InstrumentalHoldMs else syl.endMs,
      WordText(syl),
      romanWord)
  }

  /** The words of a line: one per syllable, each carrying its group of romanisation. */
  function LineWords(syllables: seq<Syllable>, romanizations: seq<LyricTrack>, isInstrumental: bool): (w: seq<JsLyricWord>)
    ensures |w| == |syllables|
    ensures forall i :: 0 <= i < |w| ==> w[i].startTime == syllables[i].startMs
    ensures forall i :: 0 <= i < |w| ==>
      w[i].endTime == if isInstrumental then syllables[i].startMs + InstrumentalHoldMs else syllables[i].endMs
  {
    var romans := RomanSyllables(romanizations);
    seq(|syllables|, i requires 0 <= i < |syllables| =>
      MakeWord(syllables[i], Concat(RomanGroup(Matches(syllables, romans), romans, i, |romans|)), isInstrumental))
  }

  /** A line-level romanisation leaves every word without romanisation of its own. */
  lemma LineRomanisationExcludesWords(syllables: seq<Syllable>, romanizations: seq<LyricTrack>, isInstrumental: bool)
    ensures !IsLineRomanisation(romanizations) ==> LineRomanisation(romanizations) == ""
    ensures IsLineRomanisation(romanizations) ==>
      forall i :: 0 <= i < |syllables| ==> LineWords(syllables, romanizations, isInstrumental)[i].romanWord == ""
  {
  }

  /** `extract_line_components`: the words, the translated line and the line romanisation. */
  method ExtractLineComponents(
    syllables: seq<Syllable>,
    translations: seq<LyricTrack>,
    romanizations: seq<LyricTrack>,
    isInstrumental: bool)
    returns (words: seq<JsLyricWord>, translation: string, romanization: string)
    ensures words == LineWords(syllables, romanizations, isInstrumental)
    ensures translation == TranslationText(translations)
    ensures romanization == LineRomanisation(romanizations)
  {
    romanization := "";
    var syllableRomanizations := romanizations;
    if romanizations != [] {
      var all := Syllables(romanizations[0].words);
      if |all| == 1 && all[0].startMs == 0 && all[0].endMs == 0 {
        romanization := all[0].text;
        syllableRomanizations := [];
      }
    }
    var romans := if syllableRomanizations == [] then [] else Syllables(syllableRomanizations[0].words);
    assert romans == RomanSyllables(romanizations);
    var groups := DistributeRomanisation(syllables, romans);
    words := seq(|syllables|, i requires 0 <= i < |syllables| =>
      MakeWord(syllables[i], Concat(groups[i]), isInstrumental));
    translation := TranslationText(translations);
  }

  // ----- lines -----

  /** The earliest start among the words (`fold(f64::INFINITY, f64::min)`). */
  function MinStart(words: seq<JsLyricWord>): (t: nat)
    requires words != []
    ensures forall k :: 0 <= k < |words| ==> t <= words[k].startTime
    ensures exists k :: 0 <= k < |words| && words[k].startTime == t
    decreases |words|
  {
    if |words| == 1 then words[0].startTime
    else
      var rest := MinStart(words[1..]);
      assert forall k :: 1 <= k < |words| ==> words[k] == words[1..][k - 1];
      if words[0].startTime < rest then words[0].startTime else rest
  }

  /** The latest end among the words (`fold(f64::NEG_INFINITY, f64::max)`). */
  function MaxEnd(words: seq<JsLyricWord>): (t: nat)
    requires words != []
    ensures forall k :: 0 <= k < |words| ==> words[k].endTime <= t
    ensures exists k :: 0 <= k < |words| && words[k].endTime == t
    decreases |words|
  {
    if |words| == 1 then words[0].endTime
    else
      var rest := MaxEnd(words[1..]);
      assert forall k :: 1 <= k < |words| ==> words[k] == words[1..][k - 1];
      if words[0].endTime > rest then words[0].endTime else rest
  }

  /** The first track of the given kind at index `i` or later. */
  function FirstOfType(tracks: seq<AnnotatedTrack>, ct: ContentType, i: nat): (k: Option<nat>)
    requires i <= |tracks|
    ensures k.Some? ==> i <= k.value < |tracks| && tracks[k.value].contentType == ct
    ensures k.Some? ==> forall j :: i <= j < k.value ==> tracks[j].contentType != ct
    ensures k.None? ==> forall j :: i <= j < |tracks| ==> tracks[j].contentType != ct
    decreases |tracks| - i
  {
    if i == |tracks| then None
    else if tracks[i].contentType == ct then Some(i)
    else FirstOfType(tracks, ct, i + 1)
  }

  function TrackOfType(line: SourceLine, ct: ContentType): Option<AnnotatedTrack> {
    match FirstOfType(line.tracks, ct, 0)
    case Some(k) => Some(line.tracks[k])
    case None => None
  }

  /**
   * The output line for a track: none when the track has no syllables, otherwise
   * its words, spanning from the earliest word start to the latest word end.
   */
  function TrackLine(track: AnnotatedTrack, isInstrumental: bool, isBg: bool, isDuet: bool): (l: Option<JsLyricLine>)
    ensures l.None? <==> Syllables(track.content.words) == []
    ensures l.Some? ==> l.value.words != [] && l.value.isBg == isBg && l.value.isDuet == isDuet
  {
    var syllables := Syllables(track.content.words);
    if syllables == [] then None
    else
      var words := LineWords(syllables, track.romanizations, isInstrumental);
      Some(JsLyricLine(
        words,
        TranslationText(track.translations),
        LineRomanisation(track.romanizations),
        MinStart(words),
        MaxEnd(words),
        isBg,
        isDuet))
  }

  /** An output line spans its words: it starts with the earliest word and ends with the latest. */
  lemma TrackLineSpansWords(track: AnnotatedTrack, isInstrumental: bool, isBg: bool, isDuet: bool)
    requires Syllables(track.content.words) != []
    ensures var l := TrackLine(track, isInstrumental, isBg, isDuet).value;
      (forall k :: 0 <= k < |l.words| ==> l.startTime <= l.words[k].startTime && l.words[k].endTime <= l.endTime) &&
      (exists k :: 0 <= k < |l.words| && l.words[k].startTime == l.startTime) &&
      (exists k :: 0 <= k < |l.words| && l.words[k].endTime == l.endTime)
  {
    var words := LineWords(Syllables(track.content.words), track.romanizations, isInstrumental);
    var l := TrackLine(track, isInstrumental, isBg, isDuet).value;
    assert l.words == words && l.startTime == MinStart(words) && l.endTime == MaxEnd(words);
  }

  predicate HasSyllables(track: Option<AnnotatedTrack>) {
    track.Some? && Syllables(track.value.content.words) != []
  }

  function OptionalLine(track: Option<AnnotatedTrack>, isInstrumental: bool, isBg: bool, isDuet: bool): (l: Option<JsLyricLine>)
    ensures l.Some? <==> HasSyllables(track)
    ensures l.Some? ==> l.value.words != [] && l.value.isBg == isBg && l.value.isDuet == isDuet
  {
    match track
    case Some(t) => TrackLine(t, isInstrumental, isBg, isDuet)
    case None => None
  }

  function OptionToSeq(l: Option<JsLyricLine>): seq<JsLyricLine> {
    if l.Some? then [l.value] else []
  }

  predicate HasContent(line: SourceLine, ct: ContentType) {
    HasSyllables(TrackOfType(line, ct))
  }

  /**
   * The output of one source line: the main line, if any, then the background
   * line, if any; the main line is stretched to end no earlier than the background.
   */
  function LineOutput(line: SourceLine, isInstrumental: bool, isDuet: bool): (r: seq<JsLyricLine>)
    ensures |r| <= 2
    ensures forall j :: 0 <= j < |r| ==> r[j].words != [] && r[j].isDuet == isDuet
    ensures (r != [] && !r[0].isBg) <==> HasContent(line, Main)
    ensures (r != [] && r[|r| - 1].isBg) <==> HasContent(line, Background)
    ensures |r| == 2 ==> !r[0].isBg && r[1].isBg && r[1].endTime <= r[0].endTime
    ensures var main := OptionalLine(TrackOfType(line, Main), isInstrumental, false, isDuet);
            var bg := OptionalLine(TrackOfType(line, Background), false, true, isDuet);
            main.Some? ==>
              r[0].(endTime := main.value.endTime) == main.value &&
              r[0].endTime == (if bg.Some? && bg.value.endTime > main.value.endTime then bg.value.endTime
                               else main.value.endTime)
    ensures var bg := OptionalLine(TrackOfType(line, Background), false, true, isDuet);
            bg.Some? ==> r[|r| - 1] == bg.value
  {
    var main := OptionalLine(TrackOfType(line, Main), isInstrumental, false, isDuet);
    var bg := OptionalLine(TrackOfType(line, Background), false, true, isDuet);
    if main.Some? && bg.Some? then
      var end := if bg.value.endTime > main.value.endTime then bg.value.endTime else main.value.endTime;
      [main.value.(endTime := end), bg.value]
    else if main.Some? then [main.value]
    else if bg.Some? then [bg.value]
    else []
  }

  // ----- duet assignment -----

  /** An agent that gets a duet flag of its own: not absent, not the chorus, not `v2`. */
  predicate IsOrdinaryAgent(agent: Option<string>) {
    agent.Some? && agent.value != ChorusAgentId && agent.value != DuetAgentId
  }

  /**
   * The duet flag of a line with the given agent, and the updated table of
   * agents seen so far: a new ordinary agent gets `true` exactly when the table
   * already holds an odd number of agents.
   */
  function DuetStatus(agent: Option<string>, known: map<string, bool>): (bool, map<string, bool>) {
    match agent
    case None => (false, known)
    case Some(a) =>
      if a == ChorusAgentId then (false, known)
      else if a == DuetAgentId then (true, known)
      else if a in known then (known[a], known)
      else (|known| % 2 == 1, known[a := |known| % 2 == 1])
  }

  /** The agent table after the first `k` lines. */
  function DuetMapAfter(lines: seq<SourceLine>, k: nat): map<string, bool>
    requires k <= |lines|
  {
    if k == 0 then map[] else DuetStatus(lines[k - 1].agent, DuetMapAfter(lines, k - 1)).1
  }

  function DuetFlag(lines: seq<SourceLine>, k: nat): bool
    requires k < |lines|
  {
    DuetStatus(lines[k].agent, DuetMapAfter(lines, k)).0
  }

  /** The agents in order of first appearance, after one more line's agent. */
  function NextOrder(o: seq<string>, agent: Option<string>): seq<string> {
    if IsOrdinaryAgent(agent) && agent.value !in o then o + [agent.value] else o
  }

  /** The ordinary agents of the first `k` lines, in order of first appearance. */
  function AgentOrder(lines: seq<SourceLine>, k: nat): seq<string>
    requires k <= |lines|
  {
    if k == 0 then [] else NextOrder(AgentOrder(lines, k - 1), lines[k - 1].agent)
  }

  function IndexOf(s: seq<string>, x: string): (r: nat)
    requires x in s
    ensures r < |s| && s[r] == x
    ensures forall j :: 0 <= j < r ==> s[j] != x
  {
    if s[0] == x then 0 else 1 + IndexOf(s[1..], x)
  }

  /** The position of an element is the same in any sequence that extends the one it occurs in. */
  lemma IndexOfExtended(s: seq<string>, t: seq<string>, x: string)
    requires x in s && |s| <= |t| && t[..|s|] == s
    ensures x in t && IndexOf(t, x) == IndexOf(s, x)
  {
    var i := IndexOf(s, x);
    assert t[i] == x;
    assert forall j :: 0 <= j < i ==> t[j] == s[j];
  }

  /** The agent table holds exactly the agents of the order, each flagged by the parity of its place. */
  ghost predicate TableFollowsOrder(m: map<string, bool>, o: seq<string>) {
    |m| == |o| && (forall a :: a in m <==> a in o) &&
    (forall a :: a in o ==> m[a] == (IndexOf(o, a) % 2 == 1))
  }

  /** A new agent joins the table with the parity of its place at the end of the order. */
  lemma NewAgentStep(m: map<string, bool>, o: seq<string>, a0: string)
    requires TableFollowsOrder(m, o) && a0 !in o
    ensures TableFollowsOrder(m[a0 := |m| % 2 == 1], o + [a0])
  {
    var m', o' := m[a0 := |m| % 2 == 1], o + [a0];
    forall a | a in o'
      ensures m'[a] == (IndexOf(o', a) % 2 == 1)
    {
      if a == a0 {
        assert o'[|o|] == a0;
      } else {
        IndexOfExtended(o, o', a);
      }
    }
  }

  lemma DuetStep(m: map<string, bool>, o: seq<string>, agent: Option<string>)
    requires TableFollowsOrder(m, o)
    ensures TableFollowsOrder(DuetStatus(agent, m).1, NextOrder(o, agent))
  {
    if IsOrdinaryAgent(agent) && agent.value !in o {
      NewAgentStep(m, o, agent.value);
    }
  }

  lemma {:induction false} DuetMapTracksOrder(lines: seq<SourceLine>, k: nat)
    requires k <= |lines|
    ensures TableFollowsOrder(DuetMapAfter(lines, k), AgentOrder(lines, k))
  {
    if k > 0 {
      DuetMapTracksOrder(lines, k - 1);
      DuetStep(DuetMapAfter(lines, k - 1), AgentOrder(lines, k - 1), lines[k - 1].agent);
    }
  }

  /**
   * Duet flags: none for a line without agent or with the chorus agent, always for
   * `v2`, and for any other agent by the parity of its place among the agents in
   * order of first appearance — the first is not a duet line, the second is, and so on.
   */
  lemma DuetAlternates(lines: seq<SourceLine>, k: nat)
    requires k < |lines|
    ensures lines[k].agent.None? || lines[k].agent == Some(ChorusAgentId) ==> !DuetFlag(lines, k)
    ensures lines[k].agent == Some(DuetAgentId) ==> DuetFlag(lines, k)
    ensures IsOrdinaryAgent(lines[k].agent) ==>
      lines[k].agent.value in AgentOrder(lines, k + 1) &&
      DuetFlag(lines, k) == (IndexOf(AgentOrder(lines, k + 1), lines[k].agent.value) % 2 == 1)
  {
    DuetMapTracksOrder(lines, k);
    var o := AgentOrder(lines, k);
    var agent := lines[k].agent;
    if IsOrdinaryAgent(agent) && agent.value !in o {
      assert (o + [agent.value])[|o|] == agent.value;
    }
  }

  /** The agent order of fewer lines is a prefix of that of more lines. */
  lemma {:induction false} AgentOrderGrows(lines: seq<SourceLine>, j: nat, k: nat)
    requires j <= k <= |lines|
    ensures |AgentOrder(lines, j)| <= |AgentOrder(lines, k)|
    ensures AgentOrder(lines, k)[..|AgentOrder(lines, j)|] == AgentOrder(lines, j)
    decreases k - j
  {
    if j < k {
      AgentOrderGrows(lines, j, k - 1);
      var o, o' := AgentOrder(lines, k - 1), AgentOrder(lines, k);
      assert o'[..|o|] == o;
      assert o'[..|AgentOrder(lines, j)|] == o[..|AgentOrder(lines, j)|];
    }
  }

  /** Every line of the same ordinary agent gets the same duet flag. */
  lemma SameAgentSameDuet(lines: seq<SourceLine>, j: nat, k: nat)
    requires j <= k < |lines|
    requires IsOrdinaryAgent(lines[j].agent) && lines[k].agent == lines[j].agent
    ensures DuetFlag(lines, j) == DuetFlag(lines, k)
  {
    DuetAlternates(lines, j);
    DuetAlternates(lines, k);
    AgentOrderGrows(lines, j + 1, k + 1);
    IndexOfExtended(AgentOrder(lines, j + 1), AgentOrder(lines, k + 1), lines[j].agent.value);
  }

  // ----- whole conversion -----

  /** A song is instrumental when it has one line whose main track has exactly one syllable. */
  predicate IsInstrumental(source: ParsedSourceData) {
    |source.lines| == 1 &&
    var t := TrackOfType(source.lines[0], Main);
    t.Some? && |Syllables(t.value.content.words)| == 1
  }

  /** The output for the first `k` source lines. */
  function ConvertedPrefix(lines: seq<SourceLine>, k: nat, isInstrumental: bool): (r: seq<JsLyricLine>)
    requires k <= |lines|
    ensures |r| <= 2 * k
    ensures forall j :: 0 <= j < |r| ==> r[j].words != []
  {
    if k == 0 then []
    else ConvertedPrefix(lines, k - 1, isInstrumental) + LineOutput(lines[k - 1], isInstrumental, DuetFlag(lines, k - 1))
  }

  function ConvertToAmll(source: ParsedSourceData): seq<JsLyricLine> {
    ConvertedPrefix(source.lines, |source.lines|, IsInstrumental(source))
  }

  /** The only word of an instrumental song is shown for an hour from its start. */
  lemma InstrumentalHoldsAnHour(source: ParsedSourceData)
    requires IsInstrumental(source)
    ensures var r := ConvertToAmll(source);
      r != [] && !r[0].isBg && |r[0].words| == 1 &&
      r[0].words[0].endTime == r[0].words[0].startTime + InstrumentalHoldMs &&
      r[0].startTime == r[0].words[0].startTime
  {
    var line := source.lines[0];
    assert HasContent(line, Main);
    var r := ConvertToAmll(source);
    assert r == LineOutput(line, true, DuetFlag(source.lines, 0));
    var t := TrackOfType(line, Main).value;
    var l := TrackLine(t, true, false, DuetFlag(source.lines, 0)).value;
    assert r[0].words == l.words && r[0].startTime == l.startTime;
  }

  /** One conversion step for a track (the closures building `main_line` and `bg_line`). */
  method ConvertTrack(track: Option<AnnotatedTrack>, isInstrumental: bool, isBg: bool, isDuet: bool)
    returns (l: Option<JsLyricLine>)
    ensures l == OptionalLine(track, isInstrumental, isBg, isDuet)
  {
    if track.None? {
      return None;
    }
    var t := track.value;
    var syllables := Syllables(t.content.words);
    if syllables == [] {
      return None;
    }
    var words, translated, roman := ExtractLineComponents(syllables, t.translations, t.romanizations, isInstrumental);
    l := Some(JsLyricLine(words, translated, roman, MinStart(words), MaxEnd(words), isBg, isDuet));
  }

  /** The output of one source line: its main line, then its background line. */
  method ConvertLine(line: SourceLine, isInstrumental: bool, isDuet: bool) returns (r: seq<JsLyricLine>)
    ensures r == LineOutput(line, isInstrumental, isDuet)
  {
    var mainLine := ConvertTrack(TrackOfType(line, Main), isInstrumental, false, isDuet);
    var bgLine := ConvertTrack(TrackOfType(line, Background), false, true, isDuet);
    ghost var main, bg := mainLine, bgLine;
    if mainLine.Some? && bgLine.Some? && bgLine.value.endTime > mainLine.value.endTime {
      mainLine := Some(mainLine.value.(endTime := bgLine.value.endTime));
    }
    r := OptionToSeq(mainLine) + OptionToSeq(bgLine);
    if main.Some? && bg.Some? {
      assert r == [mainLine.value, bg.value];
    } else {
      assert mainLine == main;
    }
  }

  /** `convert_to_amll_lyrics`: every source line in order, with the agent table updated as it goes. */
  method ConvertToAmllLyrics(source: ParsedSourceData) returns (out: seq<JsLyricLine>)
    ensures out == ConvertToAmll(source)
  {
    var lines := source.lines;
    var isInstrumental := IsInstrumental(source);
    var agentDuetMap: map<string, bool> := map[];
    out := [];
    for k := 0 to |lines|
      invariant agentDuetMap == DuetMapAfter(lines, k)
      invariant out == ConvertedPrefix(lines, k, isInstrumental)
    {
      var line := lines[k];
      var isDuet: bool;
      match line.agent {
        case None =>
          isDuet := false;
        case Some(a) =>
          if a == ChorusAgentId {
            isDuet := false;
          } else if a == DuetAgentId {
            isDuet := true;
          } else if a in agentDuetMap {
            isDuet := agentDuetMap[a];
          } else {
            isDuet := |agentDuetMap| % 2 == 1;
            agentDuetMap := agentDuetMap[a := isDuet];
          }
      }
      assert isDuet == DuetFlag(lines, k);
      var converted := ConvertLine(line, isInstrumental, isDuet);
      out := out + converted;
    }
  }
}
