# amll-page lyric pipeline, modelled in Dafny

This project models the lyric pipeline of the amll-page player and proves properties of it:

- **TTML parser.** `parse_ttml` and its event handlers read an Apple-style TTML document into lyric lines. It covers time expressions, metadata, paragraphs, spans, background vocals, translations and romanisations, and both line-timed and word-timed documents.
- **Agent recognizer.** `recognize_agents` finds speaker markers such as `A: …` at the start of lines. It attributes lines to speakers and cleans the marker out of the line text and syllables.
- **Syllable smoother.** `apply_smoothing` evens out syllable durations inside runs of similar syllables.
- **AMLL conversion.** `convert_to_amll_lyrics` and `extract_line_components` in the `ttml-processor` package turn parsed lines into the AMLL player's lines and words. This covers duet flags, background lines, translations, romanisation distribution and instrumental songs.
- **External media controller.** Two pieces of it are modelled. One repairs Apple Music's combined "artist — album" field. The other translates front-end media commands into the system media library's commands.

Modules, one per file:

| module | file | models |
|---|---|---|
| `Wrappers` | wrappers.dfy | `Option` and `Result` |
| `Text` | text.dfy | the `str` operations the pipeline uses: `trim`, `trim_end`, `split_whitespace` + `join`, `find`, `split_once`, `eq_ignore_ascii_case`, and the parser's two text cleaners |
| `LyricTypes` | lyric_types.dfy | types.rs: the lyric data model, the option records and their defaults, saturating `u64` arithmetic |
| `XmlEvents` | xml_events.dfy | the XML reader as a sequence of events; local names, attributes, predefined entities, `read_text` |
| `TimeExpr` | time_expr.dfy | `parse_ttml_time_to_ms` |
| `TtmlParagraph` | ttml_paragraph.dfy | the pure parts of paragraph handling: span syllables, `finalize_p_element` and its two modes, background bounds, keyed translations, xml:id bookkeeping |
| `TtmlParser` | ttml_parser.dfy | the parser state (`TtmlParserState`) as a class whose methods are the event handlers, and `parse_ttml` as a loop over the events. The state is also a value (`Snapshot`); one turn of the loop is a relation on it (`EventHandled`); a run of the loop is a trace of such turns (`Run`) |
| `AgentRecognizer` | agent_recognizer.dfy | `recognize_agents`, `get_line_text`, `clean_line_text` |
| `LyricOptimizer` | lyric_optimizer.dfy | `apply_smoothing` |
| `AmllConversion` | amll_conversion.dfy | translation.rs: `get_track_text`, `extract_line_components`, `convert_to_amll_lyrics` |
| `ExternalMedia` | external_media.dfy | `parse_apple_music_field` and the command mapping of `control_external_media` |

Some operations depend on parts of the system outside the model. The model passes them in as function parameters and proves its properties for every choice of them:

- `offsetSeconds` stands for the floating-point parse of an offset time (`12.5s`).
- `matcher` stands for the speaker regex.
- `sm: Smoother` stands for the floating-point smoothing passes.

Source paths below are relative to the repository root.
## Model

| member | source | states |
|---|---|---|
| Text.TrimEnd | packages/ttml-processor/src/translation.rs:22 | `trim_end` returns a prefix of its input, ends in a non-whitespace character (or is empty), and drops only whitespace |
| Text.Trim | packages/player/src-tauri/src/ttml_processor/ttml_parser.rs:1387 | `trim` is empty exactly for all-whitespace input; otherwise it starts and ends with non-whitespace |
| Text.TrimInfix | packages/player/src-tauri/src/ttml_processor/ttml_parser.rs:1387 | the result of `trim` is a contiguous piece of its input |
| Text.TrimOfTrimmed | packages/player/src-tauri/src/ttml_processor/ttml_parser.rs:1387 | a string already free of whitespace at both ends is left unchanged by `trim` |
| Text.Words | packages/player/src-tauri/src/ttml_processor/ttml_parser.rs:1391 | `split_whitespace` yields non-empty whitespace-free words, and none exactly for all-whitespace input |
| Text.NormalizeWhitespace | packages/player/src-tauri/src/ttml_processor/ttml_parser.rs:1386-1392 | `normalize_text_whitespace` is empty exactly for blank input |
| Text.NormalizedOutput | packages/player/src-tauri/src/ttml_processor/ttml_parser.rs:1386-1392 | the result of `normalize_text_whitespace` has no outer whitespace and single spaces between words |
| Text.JoinWordsNormalized | packages/player/src-tauri/src/ttml_processor/ttml_parser.rs:1391 | joining words with single spaces gives a normalised string, empty only for no words |
| Text.SplitJoinNormalized | packages/player/src-tauri/src/ttml_processor/ttml_parser.rs:1391 | on a normalised string, splitting into words and joining them gives the string back |
| Text.NormalizeIdempotent | packages/player/src-tauri/src/ttml_processor/ttml_parser.rs:1386-1392 | normalising twice is the same as normalising once |
| Text.VisibleTrim | packages/player/src-tauri/src/ttml_processor/ttml_parser.rs:1387 | `trim` removes no non-whitespace character |
| Text.VisibleWords | packages/player/src-tauri/src/ttml_processor/ttml_parser.rs:1391 | splitting into words and joining them keeps every non-whitespace character, in order |
| Text.NormalizeKeepsVisible | packages/player/src-tauri/src/ttml_processor/ttml_parser.rs:1386-1392 | normalising keeps exactly the non-whitespace characters, in order |
| Text.TrimOpenParens | packages/player/src-tauri/src/ttml_processor/ttml_parser.rs:1396 | `trim_start_matches` of both opening parentheses returns a suffix that starts with no opening parenthesis |
| Text.TrimCloseParens | packages/player/src-tauri/src/ttml_processor/ttml_parser.rs:1397 | `trim_end_matches` of both closing parentheses returns a prefix that ends with no closing parenthesis |
| Text.CleanParentheses | packages/player/src-tauri/src/ttml_processor/ttml_parser.rs:1394-1400 | `clean_parentheses_from_bg_text` is no longer than its input and has no whitespace at either end |
| Text.CleanParenthesesUnwraps | packages/player/src-tauri/src/ttml_processor/ttml_parser.rs:1394-1400 | background text "(words)" or "（words）" is cleaned to the words |
| Text.Find | packages/player/src-tauri/src/external_media_controller.rs:285 | `find` returns an occurrence of the pattern with no earlier occurrence, and None exactly when there is no occurrence |
| Text.NoFindInPiece | packages/player/src-tauri/src/external_media_controller.rs:285 | a piece of a string that ends before the first occurrence of the pattern contains no occurrence |
| Text.SplitOnce | packages/player/src-tauri/src/external_media_controller.rs:285 | `split_once` splits at the first occurrence: before + pattern + after is the input, and None exactly when `find` finds nothing |
| LyricTypes.SatSub | packages/player/src-tauri/src/ttml_processor/lyric_optimizer.rs:18-20 | `saturating_sub` is the difference when it is non-negative and 0 otherwise |
| LyricTypes.SatAdd | packages/player/src-tauri/src/ttml_processor/lyric_optimizer.rs:80-83 | `saturating_add` is the sum up to `u64::MAX` and `u64::MAX` beyond |
| LyricTypes.ParseLyricFormat | packages/player/src-tauri/src/ttml_processor/types.rs:33-40 | a format name parses exactly when it is "Ttml" in any ASCII case |
| LyricTypes.FormatNameParses | packages/player/src-tauri/src/ttml_processor/types.rs:33-48 | the displayed name "TTML" parses back to the format |
| LyricTypes.DefaultLanguages | packages/player/src-tauri/src/ttml_processor/types.rs:107-112 | no default main, translation or romanisation language |
| LyricTypes.DefaultMetadataStripperOptions | packages/player/src-tauri/src/ttml_processor/types.rs:124-135 | stripping and regex stripping on, both case-insensitive, no keyword or pattern lists |
| LyricTypes.DefaultSmoothingOptions | packages/player/src-tauri/src/ttml_processor/types.rs:156-165 | factor 0.15, duration threshold 50 ms, gap threshold 100 ms, five passes |
| XmlEvents.LocalName | packages/player/src-tauri/src/ttml_processor/ttml_parser.rs:511-512 | the local name is no longer than the name |
| XmlEvents.LocalNameSuffix | packages/player/src-tauri/src/ttml_processor/ttml_parser.rs:511-512 | the local name is a suffix of the name: all of it when the name has no ':', otherwise exactly what follows the first ':' |
| XmlEvents.LocalNameOfPrefixed | packages/player/src-tauri/src/ttml_processor/ttml_parser.rs:543-553 | the local name of `prefix:local` is `local` |
| XmlEvents.GetAttrFirst | packages/player/src-tauri/src/ttml_processor/ttml_parser.rs:694-695 | `try_get_attribute` finds the first attribute with the key, and None exactly when no attribute has it |
| XmlEvents.PredefinedEntity | packages/player/src-tauri/src/ttml_processor/ttml_parser.rs:333-339 | exactly the five predefined entity names decode, each to its character |
| XmlEvents.EntityRoundTrip | packages/player/src-tauri/src/ttml_processor/ttml_parser.rs:333-339 | escaping a markup character and decoding the reference gives the character back |
| XmlEvents.ReadText | packages/player/src-tauri/src/ttml_processor/ttml_parser.rs:524-526 | `read_text` stops just after the matching end tag and passes no reader error; without a matching end tag, or at a reader error, it fails with an XML error |
| XmlEvents.ReadTextMarkup | packages/player/src-tauri/src/ttml_processor/ttml_parser.rs:524-526 | the text read is every event before the matching end tag written back as markup, nested elements and references included |
| XmlEvents.ReadTextFrom | packages/player/src-tauri/src/ttml_processor/ttml_parser.rs:524-526 | reading from index `i` with same-named elements still open ends after `i`, within the events |
| XmlEvents.ReadTextFromScan | packages/player/src-tauri/src/ttml_processor/ttml_parser.rs:524-526 | the read stops only at an end tag of the name, passes no reader error, fails only with an XML error, and fails when no such end tag is left |
| XmlEvents.ReadTextFromMarkup | packages/player/src-tauri/src/ttml_processor/ttml_parser.rs:524-526 | what the read gathers is the events it passed, as markup, with same-named nested elements counted so that only the matching end tag closes |
| XmlEvents.ReadTextExample | packages/player/src-tauri/src/ttml_processor/ttml_parser.rs:526 | the text of `<x>a&amp;b<i>c</i></x>` reads as "a&amp;b<i>c</i>": the reference and the nested element are kept as written |
| TimeExpr.ParseU64 | packages/player/src-tauri/src/ttml_processor/ttml_parser.rs:1276-1281 | after one optional leading `+`, the string parses exactly when it is a non-empty run of ASCII digits whose value is at most `u64::MAX`, and then to that value |
| TimeExpr.Split | packages/player/src-tauri/src/ttml_processor/ttml_parser.rs:1254 | `split` yields at least one part and no part contains the separator |
| TimeExpr.SplitWithout | packages/player/src-tauri/src/ttml_processor/ttml_parser.rs:1288 | a string without the separator splits into itself alone |
| TimeExpr.SplitAt | packages/player/src-tauri/src/ttml_processor/ttml_parser.rs:1254 | splitting `a + sep + b` gives `a` followed by the parts of `b` |
| TimeExpr.ParseFraction | packages/player/src-tauri/src/ttml_processor/ttml_parser.rs:1260-1272 | a fraction is accepted exactly when it has one to three ASCII digits, and is scaled to milliseconds |
| TimeExpr.FractionBound | packages/player/src-tauri/src/ttml_processor/ttml_parser.rs:1260-1272 | an accepted fraction is below 1000 ms |
| TimeExpr.ParseSecondsField | packages/player/src-tauri/src/ttml_processor/ttml_parser.rs:1288-1308 | empty seconds, more than one '.' or a bad fraction are rejected; an accepted field carries the parsed seconds and a fraction below 1000 |
| TimeExpr.ClockFieldsOf | packages/player/src-tauri/src/ttml_processor/ttml_parser.rs:1274-1370 | one to three fields are accepted; the last is the seconds field, the one before it the minutes, the first of three the hours |
| TimeExpr.ParseClock | packages/player/src-tauri/src/ttml_processor/ttml_parser.rs:1254-1383 | every failure is `InvalidTime`; a clock fails when a field does not parse, or when minutes (or, with a colon, seconds) reach 60; otherwise it denotes h*3600000 + m*60000 + s*1000 + ms |
| TimeExpr.ParseTime | packages/player/src-tauri/src/ttml_processor/ttml_parser.rs:1228-1252 | an offset time with an empty body or a '.' at either end is rejected; every other non-offset value is read as a clock; every failure is `InvalidTime` |
| TimeExpr.SecondsFieldValue | packages/player/src-tauri/src/ttml_processor/ttml_parser.rs:1288-1308 | `S.fff` parses to the seconds and the scaled fraction |
| TimeExpr.ClockValue | packages/player/src-tauri/src/ttml_processor/ttml_parser.rs:1275-1308 | `H:MM:SS.fff` with minutes and seconds below 60 denotes its milliseconds |
| TimeExpr.NotOffsetIsClock | packages/player/src-tauri/src/ttml_processor/ttml_parser.rs:1229 | a value not ending in 's' is parsed as a clock |
| TimeExpr.BareSecondsUnbounded | packages/player/src-tauri/src/ttml_processor/ttml_parser.rs:1340-1364 | a bare number of seconds has no upper bound of 60: `N` is N*1000 ms |
| TimeExpr.ClockTextParses | packages/player/src-tauri/src/ttml_processor/ttml_parser.rs:1275-1383 | every clock with minutes and seconds below 60 whose total in milliseconds fits in a `u64`, written out, parses back to its milliseconds |
| TimeExpr.FormatClockParses | packages/player/src-tauri/src/ttml_processor/ttml_parser.rs:1228-1383 | every time that fits in a `u64` has a clock text that parses back to it |
| TtmlParagraph.RoleOf | packages/player/src-tauri/src/ttml_processor/ttml_parser.rs:715-724 | a span without `ttm:role` or `role` is generic |
| TtmlParagraph.MakeSyllable | packages/player/src-tauri/src/ttml_processor/ttml_parser.rs:877-880 | a timed syllable keeps its start, ends at `max(end, start)` and lasts `end ⊖ start`, so its timing is consistent |
| TtmlParagraph.SpanSyllable | packages/player/src-tauri/src/ttml_processor/ttml_parser.rs:867-890 | the syllable of a generic span is " " exactly for blank text; it ends with a space exactly when non-blank text ends in whitespace; outside a background span it keeps the visible characters |
| TtmlParagraph.SpanSyllableNormalized | packages/player/src-tauri/src/ttml_processor/ttml_parser.rs:867-890 | outside a background span the syllable text of non-blank span text is normalised |
| TtmlParagraph.MinStart | packages/player/src-tauri/src/ttml_processor/ttml_parser.rs:994-999 | the earliest syllable start: no syllable starts earlier and one starts then |
| TtmlParagraph.MaxEnd | packages/player/src-tauri/src/ttml_processor/ttml_parser.rs:1000-1005 | the latest syllable end: no syllable ends later and one ends then |
| TtmlParagraph.BoundsCoverSyllables | packages/player/src-tauri/src/ttml_processor/ttml_parser.rs:990-1006 | bounds taken from consistently timed syllables do not start after they end |
| TtmlParagraph.AttachKeyedTranslation | packages/player/src-tauri/src/ttml_processor/ttml_parser.rs:441-455 | the stored translation for the paragraph's `itunes:key` is appended unless one with the same text exists; nothing else changes |
| TtmlParagraph.AttachKeyedIdempotent | packages/player/src-tauri/src/ttml_processor/ttml_parser.rs:441-455 | attaching the keyed translation twice is the same as once |
| TtmlParagraph.AssembleTextAllWhitespace | packages/player/src-tauri/src/ttml_processor/ttml_parser.rs:1152-1162 | blank syllables render to blank text |
| TtmlParagraph.ClearLastSpace | packages/player/src-tauri/src/ttml_processor/ttml_parser.rs:1103-1105 | only the last syllable changes, and only its `ends_with_space`, which becomes false |
| TtmlParagraph.LineModeText | packages/player/src-tauri/src/ttml_processor/ttml_parser.rs:1142-1177 | line mode: the text is taken from the paragraph unless blank, else from the rendered syllables with a warning; a warning counts ignored syllable timings exactly when there are any |
| TtmlParagraph.LineModeTextNormalized | packages/player/src-tauri/src/ttml_processor/ttml_parser.rs:1142-1177 | the line-mode text is normalised |
| TtmlParagraph.WordMode | packages/player/src-tauri/src/ttml_processor/ttml_parser.rs:1179-1227 | word mode: the span syllables become the line's; unwrapped text becomes the only syllable when there are none and is dropped with a warning otherwise; the line text is the rendered syllables without trailing whitespace |
| TtmlParagraph.BackgroundOf | packages/player/src-tauri/src/ttml_processor/ttml_parser.rs:1090-1110 | a background section is kept exactly when it has syllables, translations or romanisations, and its last syllable loses its trailing space |
| TtmlParagraph.ModeHalf | packages/player/src-tauri/src/ttml_processor/ttml_parser.rs:1076-1089 | the line-mode or word-mode half of finalisation is chosen by the timing mode |
| TtmlParagraph.MainSyllables | packages/player/src-tauri/src/ttml_processor/ttml_parser.rs:1103-1125 | the last main syllable loses its trailing space; a line with no syllables but non-empty text and a positive duration gets that text as its one syllable |
| TtmlParagraph.AssembleLine | packages/player/src-tauri/src/ttml_processor/ttml_parser.rs:1066-1125 | the finished line keeps the paragraph's times, agent (default "v1"), song part, key, translations and romanisations, and takes its text and syllables from the mode |
| TtmlParagraph.FinalizeParagraph | packages/player/src-tauri/src/ttml_processor/ttml_parser.rs:1047-1140 | `finalize_p_element` drops exactly the empty lines, and every line it emits is well formed |
| TtmlParagraph.WordModeKeepsSyllables | packages/player/src-tauri/src/ttml_processor/ttml_parser.rs:1185 | in word mode a paragraph with span syllables yields a line with those syllables, up to the last trailing space |
| TtmlParagraph.LineModeShape | packages/player/src-tauri/src/ttml_processor/ttml_parser.rs:1142-1177 | in line mode an emitted line has a text and at most one syllable, spanning the line; ignored timings are counted in a warning |
| TtmlParagraph.EmptyIffDropped | packages/player/src-tauri/src/ttml_processor/ttml_parser.rs:1127-1137 | the assembled line is empty exactly when the paragraph is dropped |
| TtmlParagraph.WordModeAgrees | packages/player/src-tauri/src/ttml_processor/ttml_parser.rs:1185 | in word mode the line's syllables are the span syllables, up to the last trailing space |
| TtmlParagraph.BlankParagraphDropped | packages/player/src-tauri/src/ttml_processor/ttml_parser.rs:1127-1137 | a blank, untimed paragraph with nothing attached yields no line |
| TtmlParagraph.TimedParagraphKept | packages/player/src-tauri/src/ttml_processor/ttml_parser.rs:1127-1137 | a paragraph with a positive duration always yields a line |
| TtmlParagraph.MarkLastSpace | packages/player/src-tauri/src/ttml_processor/ttml_parser.rs:787-791 | only the last syllable changes, and its `ends_with_space` becomes true |
| TtmlParagraph.MarkSpaceAfter | packages/player/src-tauri/src/ttml_processor/ttml_parser.rs:773-793 | whitespace after a syllable marks that syllable, main or background, as ending with a space |
| TtmlParagraph.AddSyllable | packages/player/src-tauri/src/ttml_processor/ttml_parser.rs:893-907 | a finished syllable joins the background section or the main syllables; without a background section it is dropped |
| TtmlParagraph.FitBackgroundBounds | packages/player/src-tauri/src/ttml_processor/ttml_parser.rs:988-1006 | an untimed background section takes the earliest start and latest end of its syllables, so every syllable lies inside |
| TtmlParagraph.SettleBackground | packages/player/src-tauri/src/ttml_processor/ttml_parser.rs:988-1006 | only an untimed background span with syllables has its bounds fitted |
| TtmlParagraph.OptionalTime | packages/player/src-tauri/src/ttml_processor/ttml_parser.rs:736-744 | an absent time attribute is None; a present one is parsed as a time expression |
| TtmlParagraph.OpenParagraph | packages/player/src-tauri/src/ttml_processor/ttml_parser.rs:238-285 | `<p>` fails exactly when a time attribute does not parse; times default to 0, the agent is `ttm:agent` or else `agent`, the song part is the paragraph's or else the div's |
| TtmlParagraph.StoreXmlIdSpec | packages/player/src-tauri/src/ttml_processor/ttml_parser.rs:1414-1420 | a non-empty id is added to the set, and it is a duplicate exactly when it was already there; an empty id changes nothing |
| TtmlParagraph.StoreXmlIdTwice | packages/player/src-tauri/src/ttml_processor/ttml_parser.rs:1414-1420 | a non-empty id stored twice is reported as a duplicate |
| TtmlParagraph.AddMetadataSpec | packages/player/src-tauri/src/ttml_processor/ttml_parser.rs:700-702 | `entry(key).or_default().push(value)` appends the value under the key and leaves every other key alone |
| TtmlParser.MetaStartKindOf | packages/player/src-tauri/src/ttml_processor/ttml_parser.rs:511-560 | metadata start tags: `meta` is always a meta tag; a `ttm:` agent is an agent; only `ttm:`-prefixed tags open a metadata key; an unprefixed unmatched tag is ignored |
| TtmlParser.NameOutsideAgentIsKey | packages/player/src-tauri/src/ttml_processor/ttml_parser.rs:549-556 | a `ttm:name` tag outside an agent falls through to open the metadata key "name" |
| TtmlParser.MetaEndKindOf | packages/player/src-tauri/src/ttml_processor/ttml_parser.rs:602-648 | metadata end tags: agent and agent-name ends need their context and the `ttm:` prefix; any other name goes to the open-key arm |
| TtmlParser.GlobalKindOf | packages/player/src-tauri/src/ttml_processor/ttml_parser.rs:226-302 | the branch of `handle_global_event`: `<div>` and `<p>` only inside the body, `</div>` only inside a div |
| TtmlParser.ParagraphEndsMonotone | packages/player/src-tauri/src/ttml_processor/ttml_parser.rs:439-463 | a longer event prefix holds at least as many `</p>` events |
| TtmlParser.ParagraphEndsStep | packages/player/src-tauri/src/ttml_processor/ttml_parser.rs:439-463 | one more event adds one `</p>` exactly when it is one |
| TtmlParser.Emitted | packages/player/src-tauri/src/ttml_processor/ttml_parser.rs:1139 | a finalised paragraph contributes at most one line, and only a well-formed one |
| TtmlParser.LinesOf | packages/player/src-tauri/src/ttml_processor/ttml_parser.rs:439-463 | the lines of the closed paragraphs, in order: each contributes its finalised line unless dropped, so there are no more lines than paragraphs |
| TtmlParser.LinesOfAppend | packages/player/src-tauri/src/ttml_processor/ttml_parser.rs:439-463 | closing one more paragraph appends exactly its finalised line, if any |
| TtmlParser.TtmlParserState.constructor | packages/player/src-tauri/src/ttml_processor/ttml_parser.rs:165-170 | the parser starts outside every context, with the configured default languages and nothing recorded |
| TtmlParser.TtmlParserState.ProcessTtStart | packages/player/src-tauri/src/ttml_processor/ttml_parser.rs:651-687 | `itunes:timing="line"` sets line mode; no timing attribute and no timed span sets it too, recorded as detected, with a warning; a non-empty `xml:lang` is recorded and becomes the main language unless one is configured; the five global fields it touches are exactly `TtStarted` of the old ones |
| TtmlParser.TtmlParserState.HandleGlobalEvent | packages/player/src-tauri/src/ttml_processor/ttml_parser.rs:218-304 | per branch, the whole global state afterwards (`GlobalHandled`): `<tt>` has `process_tt_start`'s effects, `<metadata>`, `<body>` and `<div>` open their context (`<div>` with its song part), `<p>` opens a paragraph or fails with `InvalidTime` leaving the state as it was, `</div>` and `</metadata>` close theirs, and every other field stays as it was; line mode is only ever switched on by `<tt>` |
| TtmlParser.TtmlParserState.OpenParagraphState | packages/player/src-tauri/src/ttml_processor/ttml_parser.rs:238-285 | the paragraph state is the opened paragraph, or the time error |
| TtmlParser.TtmlParserState.ProcessMetaTag | packages/player/src-tauri/src/ttml_processor/ttml_parser.rs:689-706 | `<meta>` with both attributes and a non-empty key records the value under the key; nothing else changes |
| TtmlParser.TtmlParserState.ProcessAgentTag | packages/player/src-tauri/src/ttml_processor/ttml_parser.rs:472-500 | an agent with an `xml:id` stores the id (warning on a duplicate) and records its type, "person" by default, under `agent-type-<id>` |
| TtmlParser.TtmlParserState.HandleMetadataStart | packages/player/src-tauri/src/ttml_processor/ttml_parser.rs:502-561 | each start-tag arm updates its context and the metadata as its arm says; `<text for=…>` consumes the element and stores non-empty text under the key with the current language; the only error is an XML error |
| TtmlParser.TtmlParserState.OpenMetadataElement | packages/player/src-tauri/src/ttml_processor/ttml_parser.rs:502-561 | every arm but `<text for=…>`: the flags it sets, `<meta>` and `<ttm:agent>` recorded, the buffer cleared for a `ttm:` key, and nothing else changed |
| TtmlParser.TtmlParserState.ReadTranslationText | packages/player/src-tauri/src/ttml_processor/ttml_parser.rs:523-536 | the content up to the closing tag is stored under the key with the current language when non-empty; without a closing tag the read fails with an XML error and nothing changes |
| TtmlParser.TtmlParserState.AppendMetadataText | packages/player/src-tauri/src/ttml_processor/ttml_parser.rs:580-594 | metadata text goes to the songwriter, else the agent name, else the open key's buffer, else nowhere |
| TtmlParser.TtmlParserState.HandleMetadataEnd | packages/player/src-tauri/src/ttml_processor/ttml_parser.rs:596-649 | each end-tag arm leaves its context; songwriters are recorded trimmed when non-empty, agent names as `id=name` when non-blank, metadata keys with their normalised text when non-empty |
| TtmlParser.TtmlParserState.CloseTtmKey | packages/player/src-tauri/src/ttml_processor/ttml_parser.rs:633-646 | closing the open `ttm:` key records its normalised text unless empty and clears the buffer; another end tag changes nothing |
| TtmlParser.TtmlParserState.HandleMetadataEvent | packages/player/src-tauri/src/ttml_processor/ttml_parser.rs:305-379 | per event kind, the metadata fields afterwards (`MetadataEventHandled`): a start tag has its arm's effect, text goes to the open songwriter, agent name or key, a predefined reference is appended and an unknown one warned about, an end tag has its arm's effect; it passes no reader error; errors are XML errors; the section is left exactly at `</metadata>` |
| TtmlParser.TtmlParserState.DispatchMetadataEvent | packages/player/src-tauri/src/ttml_processor/ttml_parser.rs:305-379 | per event kind: a start tag has its arm's effect; text goes to the open songwriter, agent name or key; a predefined reference is appended as its character and an unknown one warned about; `</metadata>` changes no metadata field and any other end tag has its arm's effect; other events change nothing |
| TtmlParser.TtmlParserState.HandleMetadataReference | packages/player/src-tauri/src/ttml_processor/ttml_parser.rs:328-362 | an unknown entity adds a warning and nothing else; a predefined one is appended as text inside metadata |
| TtmlParser.TtmlParserState.ProcessSpanStart | packages/player/src-tauri/src/ttml_processor/ttml_parser.rs:708-764 | the buffer is cleared and the span pushed with its role, language, scheme and times; the first background span opens the background section (0 where untimed); a bad time is an error |
| TtmlParser.TtmlParserState.ProcessTextEvent | packages/player/src-tauri/src/ttml_processor/ttml_parser.rs:766-811 | whitespace right after a syllable marks it; other blank text is dropped; other text goes to the span buffer or the paragraph text |
| TtmlParser.TtmlParserState.HandleGenericSpanEnd | packages/player/src-tauri/src/ttml_processor/ttml_parser.rs:838-917 | line mode: the span text joins the paragraph text; word mode: a timed span with text becomes a syllable (warning when it starts after it ends); an untimed one with non-blank text is warned about |
| TtmlParser.TtmlParserState.AddSpanSyllable | packages/player/src-tauri/src/ttml_processor/ttml_parser.rs:893-907 | the syllable joins the background section inside a background span, else the line, and is remembered as the last ended syllable |
| TtmlParser.TtmlParserState.HandleAuxiliarySpanEnd | packages/player/src-tauri/src/ttml_processor/ttml_parser.rs:919-980 | non-blank translation or romanisation text adds an entry with normalised text and the span's language or the configured default, to the background section inside one, else to the line |
| TtmlParser.TtmlParserState.HandleBackgroundSpanEnd | packages/player/src-tauri/src/ttml_processor/ttml_parser.rs:982-1045 | an untimed background span takes its syllables' bounds; non-blank direct text becomes its only syllable when the span is timed and has none yet, and is warned about beside syllables or without timing |
| TtmlParser.TtmlParserState.ProcessSpanEnd | packages/player/src-tauri/src/ttml_processor/ttml_parser.rs:813-836 | with an open span the innermost one is popped and the buffer cleared, and the handler for its role (generic, translation, romanisation, background) then has its effect on the paragraph, the warnings and the last-syllable marker; with none only the last-syllable marker is cleared |
| TtmlParser.TtmlParserState.AppendParagraph | packages/player/src-tauri/src/ttml_processor/ttml_parser.rs:1139 | a closed paragraph is recorded, its finalised line appended unless dropped and its warnings recorded; lines stay well formed |
| TtmlParser.TtmlParserState.CloseParagraph | packages/player/src-tauri/src/ttml_processor/ttml_parser.rs:439-462 | `</p>` attaches the keyed translation, closes the paragraph, appends its finalised line unless empty, records its warnings and resets the paragraph state |
| TtmlParser.TtmlParserState.HandleEvent | packages/player/src-tauri/src/ttml_processor/ttml_parser.rs:173-203 | one turn of the parse loop (`EventHandled`): inside a paragraph the paragraph handler's effect, else inside `<metadata>` the metadata handler's, else the global handler's, each with every other field unchanged; a `</p>` inside a paragraph appends exactly its finalised line and nothing else changes the lines; errors are XML or time errors; line mode is switched on only by `<tt>` |
| TtmlParser.TtmlParserState.GlobalTurn | packages/player/src-tauri/src/ttml_processor/ttml_parser.rs:188-196 | outside paragraphs and metadata the new whole state is the old one with the global fields as `handle_global_event` leaves them (`GlobalStep`); it fails only with a time error |
| TtmlParser.TtmlParserState.MetadataTurn | packages/player/src-tauri/src/ttml_processor/ttml_parser.rs:179-186 | inside `<metadata>` the new whole state is the old one with the metadata fields as `handle_metadata_event` leaves them and the section flag cleared exactly at `</metadata>` (`MetadataStep`) |
| TtmlParser.TtmlParserState.ParagraphTurn | packages/player/src-tauri/src/ttml_processor/ttml_parser.rs:177-178 | inside a paragraph the new whole state is the old one with the paragraph fields as `handle_p_event` leaves them, the paragraph left exactly at `</p>` and the lines extended only there, by the closed paragraph's line (`ParagraphStep`) |
| TtmlParser.TtmlParserState.HandlePEvent | packages/player/src-tauri/src/ttml_processor/ttml_parser.rs:381-470 | per event kind, the paragraph fields afterwards (`ParagraphEventHandled`): `<span>` opens a span, text is processed, a reference is appended or warned about, `<br/>` is warned about, `</span>` ends the span by its role, and `</p>` resets the paragraph state and records its warnings, appending its finalised line; other events change nothing |
| TtmlParser.TtmlParserState.HandlePStart | packages/player/src-tauri/src/ttml_processor/ttml_parser.rs:389-391 | a start tag inside a paragraph: `<span>` opens a span or fails with `InvalidTime`; any other tag changes nothing |
| TtmlParser.TtmlParserState.HandlePReference | packages/player/src-tauri/src/ttml_processor/ttml_parser.rs:393-422 | a predefined reference is appended to the open span's buffer, or to the paragraph text outside spans; an unknown one is warned about |
| TtmlParser.TtmlParserState.HandlePEnd | packages/player/src-tauri/src/ttml_processor/ttml_parser.rs:424-466 | `<br/>` is warned about, `</p>` closes the paragraph and appends its finalised line, `</span>` ends the span by its role, any other end tag changes nothing; only `</p>` leaves the paragraph |
| TtmlParser.ParseTtml | packages/player/src-tauri/src/ttml_processor/ttml_parser.rs:147-216 | the ghost trace is a run of the loop from the initial state, one `EventHandled` turn per visited event; a success has visited every event and is the last state's lines, metadata, line mode and warnings; a failure is a reader error (an XML error) or the turn at the last position reporting it; every line is well formed, there are at most as many as `</p>` events, and line mode needs a `<tt>` |
| AgentRecognizer.JoinedRendered | packages/player/src-tauri/src/ttml_processor/agent_recognizer.rs:75-79 | syllable units with their trailing spaces join to the rendered line text |
| AgentRecognizer.LineText | packages/player/src-tauri/src/ttml_processor/agent_recognizer.rs:71-82 | `get_line_text` is the line's own text, or else its syllable texts run together |
| AgentRecognizer.StripLeading | packages/player/src-tauri/src/ttml_processor/agent_recognizer.rs:85-111 | the drain loop keeps a suffix of the syllables, only the first of which may lose characters from its front |
| AgentRecognizer.StripJoined | packages/player/src-tauri/src/ttml_processor/agent_recognizer.rs:85-111 | stripping `n` characters of syllables removes exactly the first `n` characters of their joined text |
| AgentRecognizer.CleanedText | packages/player/src-tauri/src/ttml_processor/agent_recognizer.rs:113-125 | a line text that starts with the marker loses exactly the marker; a missing text stays missing |
| AgentRecognizer.CleanedLine | packages/player/src-tauri/src/ttml_processor/agent_recognizer.rs:84-126 | `clean_line_text` changes only the syllables and the line text |
| AgentRecognizer.CleanRemovesPrefix | packages/player/src-tauri/src/ttml_processor/agent_recognizer.rs:84-126 | whenever the marker starts the text the matcher saw, the cleaned line's text has lost exactly the marker |
| AgentRecognizer.CleanSplitsSyllable | packages/player/src-tauri/src/ttml_processor/agent_recognizer.rs:86-105 | as written, on a word-timed line "A: hello" the marker "A: " cuts "hello" to "ello" |
| AgentRecognizer.CleanRemovesRenderedPrefix | packages/player/src-tauri/src/ttml_processor/agent_recognizer.rs:84-126 | counting trailing spaces, the remaining syllables render as the line text with exactly the marker removed |
| AgentRecognizer.CleanRenderedExample | packages/player/src-tauri/src/ttml_processor/agent_recognizer.rs:84-126 | with trailing spaces counted, "hello" stays whole |
| AgentRecognizer.CleanLineText | packages/player/src-tauri/src/ttml_processor/agent_recognizer.rs:84-126 | the in-place drain-and-cut loop computes the cleaned line |
| AgentRecognizer.Recognize | packages/player/src-tauri/src/ttml_processor/agent_recognizer.rs:30-53 | a recognised marker is a prefix of the line text; a marker-only line has only whitespace after it, a speaker line has more; no match means no speaker |
| AgentRecognizer.Step | packages/player/src-tauri/src/ttml_processor/agent_recognizer.rs:27-65 | one iteration: a line is dropped exactly when it is marker-only and marker lines are removed; a marker sets the current speaker; a speaker line takes the speaker, an unmarked line inherits the current one when asked; a kept line changes only in agent, text and syllables (with `spacesCounted` false as written, true for the corrected cleaning) |
| AgentRecognizer.RecognizePrefix | packages/player/src-tauri/src/ttml_processor/agent_recognizer.rs:27-66 | after `n` lines the loop has pushed at most `n` lines |
| AgentRecognizer.Surviving | packages/player/src-tauri/src/ttml_processor/agent_recognizer.rs:45-47 | the lines that are not removed, in order |
| AgentRecognizer.StepKeepsShape | packages/player/src-tauri/src/ttml_processor/agent_recognizer.rs:27-65 | one iteration drops exactly the removed lines and changes the others only in agent, text and syllables |
| AgentRecognizer.RecognizePrefixKeepsLines | packages/player/src-tauri/src/ttml_processor/agent_recognizer.rs:27-66 | any such loop body yields the surviving lines up to agent, text and syllables |
| AgentRecognizer.SurvivingAll | packages/player/src-tauri/src/ttml_processor/agent_recognizer.rs:45-47 | nothing is removed unless marker lines are to be removed |
| AgentRecognizer.RecognizedKeepsLines | packages/player/src-tauri/src/ttml_processor/agent_recognizer.rs:17-69 | recognition keeps the lines in order and removes only marker-only lines, and only when asked; the others differ at most in agent, text and syllables; this holds as written and with the corrected cleaning |
| AgentRecognizer.RecognizedKeepsCount | packages/player/src-tauri/src/ttml_processor/agent_recognizer.rs:17-69 | without marker-line removal every line comes out, as written and corrected |
| AgentRecognizer.RecognizeLine | packages/player/src-tauri/src/ttml_processor/agent_recognizer.rs:28-65 | the loop body computes one iteration as written, cleaning by syllable text lengths alone |
| AgentRecognizer.RecognizeAgents | packages/player/src-tauri/src/ttml_processor/agent_recognizer.rs:17-69 | `recognize_agents` computes the recognised lines as written, and leaves the lines alone when disabled |
| LyricOptimizer.RunStart | packages/player/src-tauri/src/ttml_processor/lyric_optimizer.rs:13-29 | the start of the run holding `i`: it begins a run and no later index up to `i` does |
| LyricOptimizer.RunEnd | packages/player/src-tauri/src/ttml_processor/lyric_optimizer.rs:15-29 | the end of the run holding `i`: the first cut at or after `i`, or the last syllable |
| LyricOptimizer.RunOf | packages/player/src-tauri/src/ttml_processor/lyric_optimizer.rs:13-29 | every syllable between a run's start and end lies in that run |
| LyricOptimizer.RunEndAgrees | packages/player/src-tauri/src/ttml_processor/lyric_optimizer.rs:15-24 | where a run ends depends only on the syllables from the search start on |
| LyricOptimizer.RunDurations | packages/player/src-tauri/src/ttml_processor/lyric_optimizer.rs:48-51 | the run's original durations, `end ⊖ start`, in order |
| LyricOptimizer.RunGaps | packages/player/src-tauri/src/ttml_processor/lyric_optimizer.rs:43-46 | the run's original gaps, `next.start ⊖ end`, in order |
| LyricOptimizer.LaidRun | packages/player/src-tauri/src/ttml_processor/lyric_optimizer.rs:76-89 | a re-laid run keeps its first start and last end; every other syllable lasts its smoothed duration and the next follows after the original gap, exactly unless `u64` saturates |
| LyricOptimizer.LaidAgrees | packages/player/src-tauri/src/ttml_processor/lyric_optimizer.rs:32-89 | re-laying a run looks only at the syllables of that run |
| LyricOptimizer.SmoothedSyllables | packages/player/src-tauri/src/ttml_processor/lyric_optimizer.rs:8-93 | smoothing a line changes only syllable times; with two or more syllables each is its smoothed value |
| LyricOptimizer.SmoothedLines | packages/player/src-tauri/src/ttml_processor/lyric_optimizer.rs:3-11 | nothing changes when smoothing is off; otherwise every line keeps everything but its syllable times, and lines with fewer than two syllables are untouched |
| LyricOptimizer.SmoothingKeepsRunBoundaries | packages/player/src-tauri/src/ttml_processor/lyric_optimizer.rs:32-33 | smoothing never moves the first start or the last end of a run |
| LyricOptimizer.SmoothingKeepsLoneSyllables | packages/player/src-tauri/src/ttml_processor/lyric_optimizer.rs:31 | a syllable that forms a run alone is left exactly as it was |
| LyricOptimizer.SmoothingKeepsGaps | packages/player/src-tauri/src/ttml_processor/lyric_optimizer.rs:43-46 | inside a run each syllable starts after the previous one's new end plus their original gap, exactly unless `u64` saturates |
| LyricOptimizer.SmoothingSetsDurations | packages/player/src-tauri/src/ttml_processor/lyric_optimizer.rs:48-51 | inside a run every syllable but the last lasts its smoothed duration, exactly unless `u64` saturates |
| LyricOptimizer.SmoothedInRun | packages/player/src-tauri/src/ttml_processor/lyric_optimizer.rs:31-89 | inside a run, smoothing is the re-layout of that run |
| LyricOptimizer.RelaidRunIsSmoothed | packages/player/src-tauri/src/ttml_processor/lyric_optimizer.rs:31-89 | re-laying a whole run of a line gives exactly the smoothed syllables there |
| LyricOptimizer.FindBreak | packages/player/src-tauri/src/ttml_processor/lyric_optimizer.rs:15-29 | the `windows(2).position` search finds the end of the run that starts at `start` |
| LyricOptimizer.RelayoutRun | packages/player/src-tauri/src/ttml_processor/lyric_optimizer.rs:76-89 | writing the run syllable by syllable gives its re-layout and changes nothing outside it |
| LyricOptimizer.SmoothLine | packages/player/src-tauri/src/ttml_processor/lyric_optimizer.rs:13-93 | the loop over one line computes the smoothed syllables |
| LyricOptimizer.ApplySmoothing | packages/player/src-tauri/src/ttml_processor/lyric_optimizer.rs:3-95 | `apply_smoothing` updates the array of lines to the smoothed lines |
| AmllConversion.GetTrackText | packages/ttml-processor/src/translation.rs:9-24 | the track text is the rendered syllables minus only trailing whitespace, and ends in a non-whitespace character |
| AmllConversion.FirstPreferred | packages/ttml-processor/src/translation.rs:120-126 | the first translation whose language is zh-CN in any ASCII case, and None when there is none |
| AmllConversion.TranslationText | packages/ttml-processor/src/translation.rs:120-132 | the translated line is never "//", and empty without translations |
| AmllConversion.TranslationPrefersLanguage | packages/ttml-processor/src/translation.rs:120-132 | the first zh-CN translation wins over every other, "//" reading as empty |
| AmllConversion.TranslationFallsBack | packages/ttml-processor/src/translation.rs:127-128 | without a zh-CN translation the first translation is used, a `//` placeholder again reading as empty |
| AmllConversion.BestIn | packages/ttml-processor/src/translation.rs:67-79 | the best match has positive overlap, the largest overlap, and no earlier syllable has as much; there is none exactly when no overlap is positive |
| AmllConversion.FindBestMatch | packages/ttml-processor/src/translation.rs:68-79 | the scan for the largest overlap finds the best match |
| AmllConversion.Matches | packages/ttml-processor/src/translation.rs:67-89 | one best match per romanisation syllable |
| AmllConversion.DistributeRomanisation | packages/ttml-processor/src/translation.rs:64-90 | each main syllable's group holds, in order, the texts of the romanisation syllables matched to it |
| AmllConversion.RomanGroupHolds | packages/ttml-processor/src/translation.rs:81-82 | a romanisation syllable lands in the group of its best match |
| AmllConversion.UnmatchedRomanDropped | packages/ttml-processor/src/translation.rs:83-88 | romanisation syllables that overlap no main syllable land in no group |
| AmllConversion.LineWords | packages/ttml-processor/src/translation.rs:92-118 | one word per syllable, starting with it and ending with it, or an hour after its start for an instrumental song |
| AmllConversion.LineRomanisationExcludesWords | packages/ttml-processor/src/translation.rs:35-50 | a line-level romanisation leaves every word without romanisation; otherwise there is no line romanisation |
| AmllConversion.ExtractLineComponents | packages/ttml-processor/src/translation.rs:26-137 | `extract_line_components` computes the words, the translated line and the line romanisation |
| AmllConversion.MinStart | packages/ttml-processor/src/translation.rs:207-210 | the earliest word start: no word starts earlier and one starts then |
| AmllConversion.MaxEnd | packages/ttml-processor/src/translation.rs:212-215 | the latest word end: no word ends later and one ends then |
| AmllConversion.FirstOfType | packages/ttml-processor/src/translation.rs:182-185 | the first track of the given kind, and None when there is none |
| AmllConversion.TrackLine | packages/ttml-processor/src/translation.rs:187-237 | a track yields a line exactly when it has syllables; that line has words and the given background and duet flags |
| AmllConversion.TrackLineSpansWords | packages/ttml-processor/src/translation.rs:207-226 | the line starts at its earliest word start and ends at its latest word end |
| AmllConversion.OptionalLine | packages/ttml-processor/src/translation.rs:182-198 | an absent track, or one without syllables, yields no line |
| AmllConversion.LineOutput | packages/ttml-processor/src/translation.rs:294-300 | a source line yields the main track's line if it has one, with its end raised to the background line's end when that is later, then the background track's line if it has one; all carry the duet flag |
| AmllConversion.DuetMapTracksOrder | packages/ttml-processor/src/translation.rs:169-180 | the agent table holds exactly the ordinary agents seen, each flagged by the parity of its place in order of first appearance |
| AmllConversion.DuetAlternates | packages/ttml-processor/src/translation.rs:169-180 | no duet without an agent or for the chorus, always for "v2", and by first-appearance parity for any other agent |
| AmllConversion.AgentOrderGrows | packages/ttml-processor/src/translation.rs:176-177 | agents are only ever added to the order of first appearance |
| AmllConversion.SameAgentSameDuet | packages/ttml-processor/src/translation.rs:173 | every line of the same ordinary agent gets the same duet flag |
| AmllConversion.ConvertedPrefix | packages/ttml-processor/src/translation.rs:165-302 | each source line yields at most two output lines, and every output line has words |
| AmllConversion.InstrumentalHoldsAnHour | packages/ttml-processor/src/translation.rs:141-161 | the only word of an instrumental song lasts an hour from its start |
| AmllConversion.ConvertTrack | packages/ttml-processor/src/translation.rs:187-237 | the closure building a line from a track computes the optional line |
| AmllConversion.ConvertLine | packages/ttml-processor/src/translation.rs:182-300 | the per-line step computes the line output |
| AmllConversion.ConvertToAmllLyrics | packages/ttml-processor/src/translation.rs:140-303 | `convert_to_amll_lyrics` updates the agent table as it goes and computes the conversion of every line in order |
| ExternalMedia.ParseAppleMusicField | packages/player/src-tauri/src/external_media_controller.rs:283-295 | an "artist — album" artist is cut at the first separator; the artist is the trimmed first part; the trimmed second part becomes the album only when none is known; nothing else changes |
| ExternalMedia.TrimmedArtistHasNoSeparator | packages/player/src-tauri/src/external_media_controller.rs:285-286 | the artist kept after the cut contains no separator |
| ExternalMedia.ParseAppleMusicFieldIdempotent | packages/player/src-tauri/src/external_media_controller.rs:283-295 | repairing the field twice is the same as once |
| ExternalMedia.RepeatModeRoundTrip | packages/player/src-tauri/src/external_media_controller.rs:106-110 | the two repeat-mode mappings are inverse to each other |
| ExternalMedia.TextConversionBijective | packages/player/src-tauri/src/external_media_controller.rs:150-173 | the text-conversion mapping is one-to-one and reaches every library mode |
| ExternalMedia.Clamp | packages/player/src-tauri/src/external_media_controller.rs:203 | `clamp` lies in the range, is the identity inside it, and the nearer bound outside it |
| ExternalMedia.ToSuiteCommand | packages/player/src-tauri/src/external_media_controller.rs:141-213 | "null" selects no session and every other id is passed on; the volume is clamped into [0, 1]; the repeat mode maps back to itself; a seek keeps its time |

## Left out

- Floating point. The smoothing passes and their rescaling are the `Smoother` parameter. The offset form of a time (`12.5s`) is the `offsetSeconds` parameter. The front end's `f32` volume is a real number, so NaN is not modelled. The `f64` times of the AMLL records are whole milliseconds, so precision loss above 2^53 is not modelled.
- LyricOptimizer.SmoothedLines: the factor check `0.0..=0.5` is on a real number, so a NaN factor is not modelled.
- The speaker regex and its compilation (`get_agent_regex`, custom patterns, case sensitivity) are the `matcher` parameter.
- The XML reader (quick_xml) is a sequence of events, so byte positions, encodings and attribute unescaping are not modelled. `read_text` returns the raw bytes up to the matching end tag; the model writes the events back as markup (`XmlEvents.Markup`), so attribute quoting and whitespace inside tags come back in one fixed form rather than as they were written, and comments, CDATA and processing instructions inside the element are dropped. `TIMED_SPAN_RE` is the boolean `hasTimedSpanTags`. The reader expands empty elements, so `handle_metadata_empty_event` is never reached and is not modelled.
- Warning and log messages are reduced to their kind (`Warning`), plus the entity or id a warning names. The message text and the `tracing` logs are not modelled.
- AgentRecognizer.CleanLineText: lengths are counted in characters, where Rust's `len()` counts UTF-8 bytes and slices by byte offsets. Characters and bytes agree only when the marker and the syllables the loop cuts are ASCII.
- AgentRecognizer.CleanLineText: a byte cut that falls inside a multi-byte character makes the Rust code panic. The model cuts whole characters instead. Example: syllables "A:" (ends with a space) and "你好", marker "A: ". The program drains "A:" and then panics on `"你好"[1..]`; the model returns "好". The panic is not modelled.
- TimeExpr.ParseClock: the value is an unbounded natural. The `u64` overflow of `hours * 3_600_000 + …` for hour counts above about 5.1 × 10^9 is not modelled. The round-trip lemmas require the total in milliseconds to fit in 64 bits, where the program's arithmetic is exact.
- AmllConversion.BestIn: the overlap is computed on unbounded integers. The `as i64` cast that wraps for times above 2^63 is not modelled.
- AmllConversion.LineWords: the instrumental end time `start + 3_600_000` is not bounded by `u64`.
- AmllConversion.TrackLine: the `fold` over `f64::INFINITY` has a fallback to the source line's own times. That fallback is unreachable because a line always has words, so the source line's times are not modelled.
- The `lyrics_helper_core` records (`ParsedSourceData`, tracks, words, syllables, `ContentType`) are not part of this model. They are reconstructed from the fields the conversion reads. The same holds for the `smtc_suite` enums.
- In `external_media_controller.rs`, the listener thread, the channels, the Tauri event emission, `request_smtc_update`, `send_smtc_command` and the base64 encoding of the cover in `From<SmtcNowPlayingInfo>` are threads and foreign calls. They are not modelled.
- `ParsedSourceData::raw_ttml_from_input` is an echo of the input and is not modelled.
- `LyricFormat` and `SmoothingMode` have one variant each, so their defaults are their only values and carry no contract.

## Findings

| source | as written | input that shows it | evidently intended | confidence | as-written member | corrected member |
|---|---|---|---|---|---|---|
| packages/player/src-tauri/src/ttml_processor/agent_recognizer.rs:86-105 | `clean_line_text` measures the marker against the syllable texts alone. But the marker was matched in the line text, which also holds the space after a syllable whose `ends_with_space` is set (a word-timed TTML line). | Syllables "A:" (ends with a space) and "hello", line text "A: hello", marker "A: ". The loop drains "A:" and then cuts one more character, leaving "ello". | Remove exactly the marker from the syllables, counting each syllable's trailing space. "hello" stays whole. | not executed | AgentRecognizer.CleanSplitsSyllable | AgentRecognizer.CleanRemovesRenderedPrefix |

`AgentRecognizer.RecognizeLine` and `AgentRecognizer.RecognizeAgents` follow the code as written: `Recognized(…, false)` counts syllable texts alone. `Recognized(…, true)` is the corrected pipeline, in which each syllable's trailing space counts toward the marker when the line has a text. `AgentRecognizer.RecognizedKeepsLines` and `AgentRecognizer.RecognizedKeepsCount` hold for both.
