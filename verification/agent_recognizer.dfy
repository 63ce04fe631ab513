/**
 * Speaker recognition (agent_recognizer.rs): a line whose text starts with a speaker
 * marker such as `A: ` is attributed to that speaker, the marker is cut from its text
 * and from its leading syllables, and later unmarked lines may inherit the speaker.
 *
 * The compiled regular expression is a parameter: `matcher` returns, for a line's
 * text, whether the pattern matched, the first of its name groups that took part (if
 * any), and the whole matched text.
 */
module AgentRecognizer {
  import opened Wrappers
  import opened Text
  import opened LyricTypes
  import opened TtmlParagraph

  /** `AgentRecognizerOptions`; `custom_pattern` and `case_sensitive` live inside the matcher. */
  datatype AgentOptions = AgentOptions(enabled: bool, removeMarkerLines: bool, inheritAgent: bool)

  /** A regex match: the first participating group among groups 1 to 3, and group 0. */
  datatype Capture = Capture(group: Option<string>, whole: string)

  /** The characters a syllable occupies in a line's text: its own text, and when `rendered` its trailing space too. */
  function Unit(s: LyricSyllable, rendered: bool): string {
    if rendered then Rendering(s) else s.text
  }

  function Joined(ss: seq<LyricSyllable>, rendered: bool): string {
    if ss == [] then [] else Unit(ss[0], rendered) + Joined(ss[1..], rendered)
  }

  /** With trailing spaces counted, the joined units are the assembled line text. */
  lemma {:induction false} JoinedRendered(ss: seq<LyricSyllable>)
    ensures Joined(ss, true) == AssembleText(ss)
    decreases |ss|
  {
    if ss != [] {
      JoinedRendered(ss[1..]);
    }
  }

  /** `get_line_text`: the line's own text, or else its syllable texts run together. */
  function LineText(l: LyricLine): (r: string)
    ensures l.lineText.Some? ==> r == l.lineText.value
    ensures l.lineText.None? ==> r == Joined(l.mainSyllables, false)
  {
    match l.lineText
    case Some(t) => t
    case None => Joined(l.mainSyllables, false)
  }

  /**
   * The syllable half of `clean_line_text`: leading syllables that fit in the `n`
   * characters still to remove are dropped, then what is left over is cut from the
   * front of the next one. What remains is a suffix of the syllables, only the first
   * of which may have lost characters from the front of its text.
   */
  function StripLeading(ss: seq<LyricSyllable>, n: nat, rendered: bool): (r: seq<LyricSyllable>)
    ensures |r| <= |ss|
    ensures r != [] ==> var first := ss[|ss| - |r|];
                        r[1..] == ss[|ss| - |r| + 1..]
                        && r[0] == first.(text := r[0].text)
                        && |r[0].text| <= |first.text|
                        && r[0].text == first.text[|first.text| - |r[0].text|..]
    decreases |ss|
  {
    if ss == [] then []
    else if n >= |Unit(ss[0], rendered)| then StripLeading(ss[1..], n - |Unit(ss[0], rendered)|, rendered)
    else if n == 0 then ss
    else [ss[0].(text := ss[0].text[n..])] + ss[1..]
  }

  /** Cutting `n <= |text|` characters from a syllable cuts them from its unit. */
  lemma CutUnit(s: LyricSyllable, n: nat, rendered: bool)
    requires n <= |s.text|
    ensures Unit(s.(text := s.text[n..]), rendered) == Unit(s, rendered)[n..]
  {
  }

  /** Stripping `n` characters' worth of syllables removes exactly the first `n` characters of their joined units. */
  lemma {:induction false} StripJoined(ss: seq<LyricSyllable>, n: nat, rendered: bool)
    requires n <= |Joined(ss, rendered)|
    ensures Joined(StripLeading(ss, n, rendered), rendered) == Joined(ss, rendered)[n..]
    decreases |ss|
  {
    if ss != [] {
      var u := Unit(ss[0], rendered);
      assert Joined(ss, rendered) == u + Joined(ss[1..], rendered);
      if n >= |u| {
        StripJoined(ss[1..], n - |u|, rendered);
        assert (u + Joined(ss[1..], rendered))[n..] == Joined(ss[1..], rendered)[n - |u|..];
      } else if n > 0 {
        var s := ss[0].(text := ss[0].text[n..]);
        CutUnit(ss[0], n, rendered);
        assert ([s] + ss[1..])[1..] == ss[1..];
        assert (u + Joined(ss[1..], rendered))[n..] == u[n..] + Joined(ss[1..], rendered);
      }
    }
  }

  /**
   * The line-text half of `clean_line_text`: a line text that starts with the marker
   * loses it; otherwise it is rebuilt from the remaining syllable texts, if any. A
   * line without its own text keeps none.
   */
  function CleanedText(lineText: Option<string>, prefix: string, remaining: seq<LyricSyllable>): (r: Option<string>)
    ensures r.None? <==> lineText.None?
    ensures lineText.Some? && IsPrefix(prefix, lineText.value) ==> r == Some(lineText.value[|prefix|..])
  {
    match lineText
    case None => None
    case Some(t) =>
      if IsPrefix(prefix, t) then Some(t[|prefix|..])
      else if remaining != [] then Some(Joined(remaining, false))
      else lineText
  }

  /**
   * `clean_line_text` with the marker `prefix`. `rendered` says whether a syllable's
   * trailing space counts towards the characters removed; the code as written does
   * not count it (`rendered == false`).
   */
  function CleanedLine(line: LyricLine, prefix: string, rendered: bool): (r: LyricLine)
    ensures r == line.(mainSyllables := r.mainSyllables, lineText := r.lineText)
    ensures r.lineText.None? <==> line.lineText.None?
  {
    var ss := if line.mainSyllables == [] then [] else StripLeading(line.mainSyllables, |prefix|, rendered);
    line.(mainSyllables := ss, lineText := CleanedText(line.lineText, prefix, ss))
  }

  /** Whenever the marker starts the text the matcher saw, the cleaned line's text has lost exactly the marker. */
  lemma CleanRemovesPrefix(line: LyricLine, prefix: string)
    requires IsPrefix(prefix, LineText(line))
    ensures LineText(CleanedLine(line, prefix, false)) == LineText(line)[|prefix|..]
  {
    if line.lineText.None? && line.mainSyllables != [] {
      StripJoined(line.mainSyllables, |prefix|, false);
    }
  }

  /**
   * As written: when the line's text is its syllables rendered with their trailing
   * spaces (word-timed TTML), a marker whose ": " spans a syllable's trailing space
   * removes one character too many from the following syllable.
   */
  lemma CleanSplitsSyllable(line: LyricLine)
    requires line.mainSyllables == [LyricSyllable("A:", 0, 100, Some(100), true), LyricSyllable("hello", 100, 300, Some(200), false)]
    requires line.lineText == Some("A: hello")
    ensures LineText(line) == AssembleText(line.mainSyllables)
    ensures CleanedLine(line, "A: ", false).mainSyllables == [LyricSyllable("ello", 100, 300, Some(200), false)]
    ensures AssembleText(CleanedLine(line, "A: ", false).mainSyllables) != LineText(line)[3..]
  {
    var ss := line.mainSyllables;
    assert AssembleText(ss) == "A: " + "hello" by {
      assert AssembleText(ss[1..]) == "hello";
    }
    assert StripLeading(ss[1..], 1, false) == [ss[1].(text := "ello")] by {
      assert ss[1].text[1..] == "ello";
    }
    var r := [LyricSyllable("ello", 100, 300, Some(200), false)];
    assert AssembleText(r) == "ello";
    assert "A: hello"[3..] == "hello";
  }

  /**
   * Corrected: counting each syllable's trailing space when the line has its own text
   * (the text the marker was found in), the remaining syllables render as the
   * assembled text with exactly the marker's characters removed.
   */
  lemma CleanRemovesRenderedPrefix(line: LyricLine, prefix: string)
    requires |prefix| <= |AssembleText(line.mainSyllables)|
    ensures AssembleText(CleanedLine(line, prefix, true).mainSyllables) == AssembleText(line.mainSyllables)[|prefix|..]
  {
    var ss := line.mainSyllables;
    JoinedRendered(ss);
    if ss != [] {
      StripJoined(ss, |prefix|, true);
      JoinedRendered(StripLeading(ss, |prefix|, true));
    }
  }

  /** The corrected cleaning on the line above keeps "hello" whole. */
  lemma CleanRenderedExample(line: LyricLine)
    requires line.mainSyllables == [LyricSyllable("A:", 0, 100, Some(100), true), LyricSyllable("hello", 100, 300, Some(200), false)]
    ensures CleanedLine(line, "A: ", true).mainSyllables == [line.mainSyllables[1]]
  {
    var ss := line.mainSyllables;
    assert |Unit(ss[0], true)| == 3;
    assert StripLeading(ss[1..], 0, true) == ss[1..];
  }

  /**
   * `clean_line_text`, as an in-place update of the line: the drain loop counts down
   * the characters to remove, then the leftover is cut from the next syllable.
   */
  method CleanLineText(line: LyricLine, prefix: string, rendered: bool) returns (r: LyricLine)
    ensures r == CleanedLine(line, prefix, rendered)
  {
    var ss := line.mainSyllables;
    if ss != [] {
      var lenToRemove: nat := |prefix|;
      var drain := 0;
      while drain < |ss| && lenToRemove >= |Unit(ss[drain], rendered)|
        invariant 0 <= drain <= |ss|
        invariant StripLeading(ss[drain..], lenToRemove, rendered) == StripLeading(ss, |prefix|, rendered)
        decreases |ss| - drain
      {
        assert ss[drain..][1..] == ss[drain + 1..];
        lenToRemove := lenToRemove - |Unit(ss[drain], rendered)|;
        drain := drain + 1;
      }
      var rest := ss[drain..];
      if lenToRemove > 0 && rest != [] {
        if lenToRemove < |Unit(rest[0], rendered)| {
          rest := [rest[0].(text := rest[0].text[lenToRemove..])] + rest[1..];
        } else {
          // `main_syllables.remove(0)`: the drain loop stopped at this syllable, so it cannot be reached.
          assert false;
        }
      }
      ss := rest;
    }
    var lineText := line.lineText;
    if lineText.Some? {
      if IsPrefix(prefix, lineText.value) {
        lineText := Some(lineText.value[|prefix|..]);
      } else if ss != [] {
        lineText := Some(Joined(ss, false));
      }
    }
    r := line.(mainSyllables := ss, lineText := lineText);
  }

  /** What the matcher finds at the start of a line. */
  datatype Recognition =
    | NoSpeaker                          // no match, or a match without a name group
    | Unanchored                         // the match does not start the text
    | MarkerOnly(name: string, prefix: string)
    | Speaker(name: string, prefix: string)

  function Recognize(text: string, matcher: string -> Option<Capture>): (k: Recognition)
    ensures k.MarkerOnly? || k.Speaker? ==> IsPrefix(k.prefix, text)
    ensures k.MarkerOnly? ==> AllWhitespace(text[|k.prefix|..])
    ensures k.Speaker? ==> !AllWhitespace(text[|k.prefix|..])
    ensures matcher(text).None? ==> k == NoSpeaker
  {
    match matcher(text)
    case None => NoSpeaker
    case Some(c) =>
      if c.group.None? then NoSpeaker
      else if !IsPrefix(c.whole, text) then Unanchored
      else if AllWhitespace(text[|c.whole|..]) then MarkerOnly(Trim(c.group.value), c.whole)
      else Speaker(Trim(c.group.value), c.whole)
  }

  datatype StepResult = StepResult(kept: Option<LyricLine>, current: Option<string>)

  /**
   * One iteration of `recognize_agents`' loop: the line it emits (if any) and the
   * current speaker afterwards. With `spacesCounted` false, cleaning counts syllable
   * texts only, as `clean_line_text` does; with it true, a syllable's trailing space
   * counts too whenever the line has its own text (the corrected cleaning).
   */
  function Step(line: LyricLine, current: Option<string>, options: AgentOptions, matcher: string -> Option<Capture>,
                spacesCounted: bool)
    : (r: StepResult)
    ensures var k := Recognize(LineText(line), matcher);
            && (r.kept.None? <==> k.MarkerOnly? && options.removeMarkerLines)
            && (r.kept.Some? ==> Untouched(r.kept.value) == Untouched(line))
            && r.current == (if k.MarkerOnly? || k.Speaker? then Some(k.name) else current)
            && (r.kept.Some? ==> r.kept.value.agent == (if k.Speaker? then Some(k.name)
                                                        else if k.NoSpeaker? && options.inheritAgent then current
                                                        else line.agent))
  {
    match Recognize(LineText(line), matcher)
    case NoSpeaker => StepResult(Some(if options.inheritAgent then line.(agent := current) else line), current)
    case Unanchored => StepResult(Some(line), current)
    case MarkerOnly(name, prefix) =>
      StepResult(if options.removeMarkerLines then None
                 else Some(CleanedLine(line, prefix, spacesCounted && line.lineText.Some?)), Some(name))
    case Speaker(name, prefix) =>
      StepResult(Some(CleanedLine(line.(agent := Some(name)), prefix, spacesCounted && line.lineText.Some?)), Some(name))
  }

  function KeptLines(r: StepResult): seq<LyricLine> {
    if r.kept.Some? then [r.kept.value] else []
  }

  /** The loop's state after `n` lines: the lines pushed so far and the current speaker. */
  datatype Progress = Progress(processed: seq<LyricLine>, current: Option<string>)

  /** The loop of `recognize_agents` over the first `n` lines, for a given loop body `step`. */
  function RecognizePrefix(lines: seq<LyricLine>, n: nat, step: (LyricLine, Option<string>) -> StepResult): (p: Progress)
    requires n <= |lines|
    ensures |p.processed| <= n
    decreases n
  {
    if n == 0 then Progress([], None)
    else
      var p := RecognizePrefix(lines, n - 1, step);
      var r := step(lines[n - 1], p.current);
      Progress(p.processed + KeptLines(r), r.current)
  }

  function StepFn(options: AgentOptions, matcher: string -> Option<Capture>, spacesCounted: bool)
    : (LyricLine, Option<string>) -> StepResult
  {
    (line, current) => Step(line, current, options, matcher, spacesCounted)
  }

  /**
   * The lines `recognize_agents` leaves behind: as written with `spacesCounted`
   * false, with the corrected cleaning with it true.
   */
  function Recognized(lines: seq<LyricLine>, options: AgentOptions, matcher: string -> Option<Capture>,
                      spacesCounted: bool): seq<LyricLine>
  {
    if options.enabled then RecognizePrefix(lines, |lines|, StepFn(options, matcher, spacesCounted)).processed else lines
  }

  /** Whether the loop removes a line: it is marker-only and marker lines are removed. */
  predicate Removed(line: LyricLine, options: AgentOptions, matcher: string -> Option<Capture>) {
    options.enabled && options.removeMarkerLines && Recognize(LineText(line), matcher).MarkerOnly?
  }

  function RemovedFn(options: AgentOptions, matcher: string -> Option<Capture>): LyricLine -> bool {
    line => Removed(line, options, matcher)
  }

  /** The lines that `removed` does not hold of, in order. */
  function Surviving(lines: seq<LyricLine>, removed: LyricLine -> bool): (r: seq<LyricLine>)
    ensures |r| <= |lines|
    decreases |lines|
  {
    if lines == [] then []
    else
      var last := lines[|lines| - 1];
      Surviving(lines[..|lines| - 1], removed) + (if removed(last) then [] else [last])
  }

  /** A line with the three fields recognition may change blanked out. */
  function Untouched(l: LyricLine): LyricLine {
    l.(agent := None, lineText := None, mainSyllables := [])
  }

  function UntouchedAll(ls: seq<LyricLine>): (r: seq<LyricLine>)
    ensures |r| == |ls|
    decreases |ls|
  {
    if ls == [] then [] else UntouchedAll(ls[..|ls| - 1]) + [Untouched(ls[|ls| - 1])]
  }

  lemma {:induction false} UntouchedAllAppend(a: seq<LyricLine>, b: seq<LyricLine>)
    ensures UntouchedAll(a + b) == UntouchedAll(a) + UntouchedAll(b)
    decreases |b|
  {
    if b == [] {
      assert a + b == a;
    } else {
      var b' := b[..|b| - 1];
      assert (a + b)[..|a + b| - 1] == a + b';
      assert (a + b)[|a + b| - 1] == b[|b| - 1];
      UntouchedAllAppend(a, b');
    }
  }

  /** A loop body that drops exactly the lines `removed` holds of and changes the others only in agent, text and syllables. */
  ghost predicate KeepsShape(step: (LyricLine, Option<string>) -> StepResult, removed: LyricLine -> bool) {
    forall line, current :: UntouchedAll(KeptLines(step(line, current))) == UntouchedAll(if removed(line) then [] else [line])
  }

  /** A line that stays is changed at most in its agent, its text and its syllables. */
  lemma StepKeepsShape(options: AgentOptions, matcher: string -> Option<Capture>, spacesCounted: bool)
    requires options.enabled
    ensures KeepsShape(StepFn(options, matcher, spacesCounted), RemovedFn(options, matcher))
  {
    forall line, current
      ensures UntouchedAll(KeptLines(StepFn(options, matcher, spacesCounted)(line, current)))
           == UntouchedAll(if RemovedFn(options, matcher)(line) then [] else [line])
    {
      var r := Step(line, current, options, matcher, spacesCounted);
      if r.kept.Some? {
        assert UntouchedAll([r.kept.value]) == [Untouched(r.kept.value)];
        assert UntouchedAll([line]) == [Untouched(line)];
      }
    }
  }

  lemma SurvivingStep(lines: seq<LyricLine>, n: nat, removed: LyricLine -> bool)
    requires 0 < n <= |lines|
    ensures Surviving(lines[..n], removed)
         == Surviving(lines[..n - 1], removed) + (if removed(lines[n - 1]) then [] else [lines[n - 1]])
  {
    assert lines[..n][..n - 1] == lines[..n - 1];
  }

  /** Any loop body that keeps shape yields the surviving lines, up to agent, text and syllables. */
  lemma {:induction false} RecognizePrefixKeepsLines(lines: seq<LyricLine>, n: nat,
                                                     step: (LyricLine, Option<string>) -> StepResult,
                                                     removed: LyricLine -> bool)
    requires KeepsShape(step, removed) && n <= |lines|
    ensures UntouchedAll(RecognizePrefix(lines, n, step).processed) == UntouchedAll(Surviving(lines[..n], removed))
    decreases n
  {
    if n > 0 {
      var p := RecognizePrefix(lines, n - 1, step);
      var r := step(lines[n - 1], p.current);
      var last := if removed(lines[n - 1]) then [] else [lines[n - 1]];
      calc {
        UntouchedAll(RecognizePrefix(lines, n, step).processed);
        UntouchedAll(p.processed + KeptLines(r));
        { UntouchedAllAppend(p.processed, KeptLines(r)); }
        UntouchedAll(p.processed) + UntouchedAll(KeptLines(r));
        { RecognizePrefixKeepsLines(lines, n - 1, step, removed); }
        UntouchedAll(Surviving(lines[..n - 1], removed)) + UntouchedAll(last);
        { UntouchedAllAppend(Surviving(lines[..n - 1], removed), last); }
        UntouchedAll(Surviving(lines[..n - 1], removed) + last);
        { SurvivingStep(lines, n, removed); }
        UntouchedAll(Surviving(lines[..n], removed));
      }
    } else {
      assert lines[..n] == [];
      assert RecognizePrefix(lines, n, step).processed == [];
    }
  }

  /** Nothing is removed unless marker lines are to be removed. */
  lemma {:induction false} SurvivingAll(lines: seq<LyricLine>, options: AgentOptions, matcher: string -> Option<Capture>)
    requires !options.enabled || !options.removeMarkerLines
    ensures Surviving(lines, RemovedFn(options, matcher)) == lines
    decreases |lines|
  {
    if lines != [] {
      SurvivingAll(lines[..|lines| - 1], options, matcher);
    }
  }

  /**
   * Recognition keeps the lines in order and removes only marker-only lines, and only
   * when asked to: the output lines are the surviving input lines, each differing at
   * most in its agent, its text and its syllables. This holds for either cleaning.
   */
  lemma RecognizedKeepsLines(lines: seq<LyricLine>, options: AgentOptions, matcher: string -> Option<Capture>,
                             spacesCounted: bool)
    ensures UntouchedAll(Recognized(lines, options, matcher, spacesCounted))
         == UntouchedAll(Surviving(lines, RemovedFn(options, matcher)))
  {
    if options.enabled {
      StepKeepsShape(options, matcher, spacesCounted);
      RecognizePrefixKeepsLines(lines, |lines|, StepFn(options, matcher, spacesCounted), RemovedFn(options, matcher));
      assert lines[..|lines|] == lines;
    } else {
      SurvivingAll(lines, options, matcher);
    }
  }

  /** Without marker-line removal every line comes out, in place. */
  lemma RecognizedKeepsCount(lines: seq<LyricLine>, options: AgentOptions, matcher: string -> Option<Capture>,
                             spacesCounted: bool)
    requires !options.removeMarkerLines
    ensures |Recognized(lines, options, matcher, spacesCounted)| == |lines|
  {
    RecognizedKeepsLines(lines, options, matcher, spacesCounted);
    SurvivingAll(lines, options, matcher);
  }

  /** The body of `recognize_agents`' loop for one line: the line it pushes, if any, and the new current speaker. */
  method RecognizeLine(line: LyricLine, currentAgent: Option<string>, options: AgentOptions, matcher: string -> Option<Capture>)
    returns (kept: Option<LyricLine>, next: Option<string>)
    ensures StepResult(kept, next) == Step(line, currentAgent, options, matcher, false)
  {
    var l := line;
    next := currentAgent;
    kept := None;
    var fullText := LineText(l);
    match matcher(fullText) {
      case None =>
        if options.inheritAgent {
          l := l.(agent := currentAgent);
        }
      case Some(captures) =>
        if captures.group.Some? {
          var name := Trim(captures.group.value);
          var fullMatch := captures.whole;
          if IsPrefix(fullMatch, fullText) {
            if Trim(fullText[|fullMatch|..]) == [] {
              next := Some(name);
              if options.removeMarkerLines {
                return;
              }
            } else {
              l := l.(agent := Some(name));
              next := Some(name);
            }
            l := CleanLineText(l, fullMatch, false);
          }
        } else if options.inheritAgent {
          l := l.(agent := currentAgent);
        }
    }
    kept := Some(l);
  }

  /**
   * `recognize_agents`: walks the lines with the current speaker, attributes marked
   * lines, lets unmarked ones inherit when asked, and rebuilds the list.
   */
  method RecognizeAgents(lines: seq<LyricLine>, options: AgentOptions, matcher: string -> Option<Capture>)
    returns (processed: seq<LyricLine>)
    ensures processed == Recognized(lines, options, matcher, false)
    ensures !options.enabled ==> processed == lines
  {
    if !options.enabled {
      return lines;
    }
    processed := [];
    var currentAgent: Option<string> := None;
    for i := 0 to |lines|
      invariant Progress(processed, currentAgent) == RecognizePrefix(lines, i, StepFn(options, matcher, false))
    {
      var kept, next := RecognizeLine(lines[i], currentAgent, options, matcher);
      if kept.Some? {
        processed := processed + [kept.value];
      }
      currentAgent := next;
    }
  }
}
