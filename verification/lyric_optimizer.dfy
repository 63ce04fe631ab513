/**
 * Syllable smoothing (lyric_optimizer.rs, `apply_smoothing`).
 *
 * Each line's main syllables are cut into maximal runs of neighbours that are alike:
 * two adjacent syllables stay in one run unless their durations differ by more than
 * the duration threshold or the silence between them exceeds the gap threshold. A run
 * of two or more syllables is then laid out again: it keeps its first start and its
 * last end, every other syllable gets a smoothed duration, and every gap inside the
 * run is kept as it was (with `u64` saturation).
 *
 * The floating-point smoothing passes and the rescaling that follows them are not
 * modelled: a `Smoother` stands for them, mapping the run's original durations and an
 * index to the rounded new duration of that syllable.
 *
 * The specification is given syllable by syllable: `Smoothed(s, i, ..)` is what the
 * syllable at `i` becomes, computed from the run it belongs to. The in-place loops of
 * the source are proved to produce exactly that.
 */
module LyricOptimizer {
  import opened Wrappers
  import opened LyricTypes

  /** The smoothed, rescaled and rounded duration of the syllable at an index of a run. */
  type Smoother = (seq<nat>, nat) -> nat

  /** `end_ms.saturating_sub(start_ms)`. */
  function Duration(s: LyricSyllable): nat {
    SatSub(s.endMs, s.startMs)
  }

  /** The silence before `b` when it follows `a`: `b.start_ms.saturating_sub(a.end_ms)`. */
  function Gap(a: LyricSyllable, b: LyricSyllable): nat {
    SatSub(b.startMs, a.endMs)
  }

  /** `u64::abs_diff`. */
  function AbsDiff(a: nat, b: nat): nat {
    if a >= b then a - b else b - a
  }

  /** Whether a run is cut between two adjacent syllables. */
  predicate Breaks(a: LyricSyllable, b: LyricSyllable, options: SyllableSmoothingOptions) {
    AbsDiff(Duration(a), Duration(b)) > options.durationThresholdMs
    || Gap(a, b) > options.gapThresholdMs
  }

  /** Whether a run is cut between `s[j]` and `s[j + 1]`. */
  predicate CutAt(s: seq<LyricSyllable>, j: nat, options: SyllableSmoothingOptions)
    requires j + 1 < |s|
  {
    Breaks(s[j], s[j + 1], options)
  }

  /** Smoothing does anything only with a positive pass count and a factor in [0, 0.5]. */
  predicate SmoothingActive(options: SyllableSmoothingOptions) {
    options.smoothingIterations != 0 && 0.0 <= options.factor <= 0.5
  }

  /** Two syllables that differ at most in their start and end times. */
  predicate OnlyTimesDiffer(a: LyricSyllable, b: LyricSyllable) {
    a.text == b.text && a.durationMs == b.durationMs && a.endsWithSpace == b.endsWithSpace
  }

  /** Two syllable lists that agree syllable by syllable except in start and end times. */
  predicate SameSyllables(a: seq<LyricSyllable>, b: seq<LyricSyllable>) {
    |a| == |b| && forall k {:trigger a[k], b[k]} :: 0 <= k < |a| ==> OnlyTimesDiffer(a[k], b[k])
  }

  /** A syllable that begins a run: the first one, or one cut from its predecessor. */
  predicate StartsRun(s: seq<LyricSyllable>, i: nat, options: SyllableSmoothingOptions)
    requires i < |s|
  {
    i == 0 || CutAt(s, i - 1, options)
  }

  /** A syllable that ends a run: the last one, or one cut from its successor. */
  predicate EndsRun(s: seq<LyricSyllable>, i: nat, options: SyllableSmoothingOptions)
    requires i < |s|
  {
    i == |s| - 1 || CutAt(s, i, options)
  }

  /** The first index of the run that holds `i`. */
  function RunStart(s: seq<LyricSyllable>, i: nat, options: SyllableSmoothingOptions): (a: nat)
    requires i < |s|
    ensures a <= i && StartsRun(s, a, options)
    ensures forall j :: a < j <= i ==> !StartsRun(s, j, options)
    decreases i
  {
    if StartsRun(s, i, options) then i else RunStart(s, i - 1, options)
  }

  /** The last index of the run that holds `i`: the run stops only at a cut or the end. */
  function RunEnd(s: seq<LyricSyllable>, i: nat, options: SyllableSmoothingOptions): (e: nat)
    requires i < |s|
    ensures i <= e < |s| && EndsRun(s, e, options)
    ensures forall j :: i <= j < e ==> !EndsRun(s, j, options)
    decreases |s| - i
  {
    if EndsRun(s, i, options) then i else RunEnd(s, i + 1, options)
  }

  /** Every syllable from a run's start up to its end lies in that same run. */
  lemma RunOf(s: seq<LyricSyllable>, a: nat, k: nat, options: SyllableSmoothingOptions)
    requires a <= k < |s| && StartsRun(s, a, options) && k <= RunEnd(s, a, options)
    ensures RunStart(s, k, options) == a
    ensures RunEnd(s, k, options) == RunEnd(s, a, options)
  {
    var e := RunEnd(s, a, options);
    var a', e' := RunStart(s, k, options), RunEnd(s, k, options);
    assert 0 < a' ==> (EndsRun(s, a' - 1, options) <==> CutAt(s, a' - 1, options));
    assert EndsRun(s, e', options);
  }

  /** Where a run ends depends only on the syllables from the point where the search starts. */
  lemma {:induction false} RunEndAgrees(a: seq<LyricSyllable>, b: seq<LyricSyllable>, i: nat,
                                        options: SyllableSmoothingOptions)
    requires i < |a| == |b|
    requires forall k :: i <= k < |a| ==> a[k] == b[k]
    ensures RunEnd(a, i, options) == RunEnd(b, i, options)
    decreases |a| - i
  {
    if i + 1 < |a| {
      assert a[i] == b[i] && a[i + 1] == b[i + 1];
      RunEndAgrees(a, b, i + 1, options);
    }
  }

  /** The original durations of the run `s[a..=e]`, indexed from the run's start. */
  function RunDurations(s: seq<LyricSyllable>, a: nat, e: nat): (d: seq<nat>)
    requires a <= e < |s|
    ensures |d| == e + 1 - a
    ensures forall k {:trigger d[k]} :: 0 <= k < |d| ==> d[k] == Duration(s[a + k])
  {
    seq<nat>(e + 1 - a, k requires 0 <= k < e + 1 - a => Duration(s[a + k]))
  }

  /** The original gaps between the neighbours of the run `s[a..=e]`. */
  function RunGaps(s: seq<LyricSyllable>, a: nat, e: nat): (d: seq<nat>)
    requires a <= e < |s|
    ensures |d| == e - a
    ensures forall k {:trigger d[k]} :: 0 <= k < |d| ==> d[k] == Gap(s[a + k], s[a + k + 1])
  {
    seq<nat>(e - a, k requires 0 <= k < e - a => Gap(s[a + k], s[a + k + 1]))
  }

  /**
   * Where the syllable at `j` of the run `s[a..=e]` starts once the run is laid out
   * again: the first keeps its start, and each next one starts after its predecessor's
   * smoothed duration and the gap that originally followed the predecessor.
   */
  function LaidStart(s: seq<LyricSyllable>, a: nat, e: nat, sm: Smoother, j: nat): nat
    requires a <= j <= e < |s|
    decreases j - a
  {
    if j == a then s[a].startMs
    else SatAdd(SatAdd(LaidStart(s, a, e, sm, j - 1), sm(RunDurations(s, a, e), j - 1 - a)), Gap(s[j - 1], s[j]))
  }

  /** Where it ends: after its smoothed duration, except that the last keeps its end. */
  function LaidEnd(s: seq<LyricSyllable>, a: nat, e: nat, sm: Smoother, j: nat): nat
    requires a <= j <= e < |s|
  {
    if j == e then s[e].endMs else SatAdd(LaidStart(s, a, e, sm, j), sm(RunDurations(s, a, e), j - a))
  }

  /** The syllable at `j` of the run `s[a..=e]` laid out again. */
  function Laid(s: seq<LyricSyllable>, a: nat, e: nat, sm: Smoother, j: nat): LyricSyllable
    requires a <= j <= e < |s|
  {
    s[j].(startMs := LaidStart(s, a, e, sm, j), endMs := LaidEnd(s, a, e, sm, j))
  }

  /**
   * A re-laid run keeps its first start and its last end; inside it every syllable but
   * the last lasts its smoothed duration and the next one follows after the original
   * gap, both exactly unless `u64` saturates.
   */
  lemma LaidRun(s: seq<LyricSyllable>, a: nat, e: nat, sm: Smoother, j: nat)
    requires a <= j <= e < |s|
    ensures OnlyTimesDiffer(s[j], Laid(s, a, e, sm, j))
    ensures j == a ==> Laid(s, a, e, sm, j).startMs == s[a].startMs
    ensures j == e ==> Laid(s, a, e, sm, j).endMs == s[e].endMs
    ensures j < e ==> Laid(s, a, e, sm, j).endMs
                      == SatAdd(Laid(s, a, e, sm, j).startMs, sm(RunDurations(s, a, e), j - a))
    ensures j < e ==> Laid(s, a, e, sm, j + 1).startMs
                      == SatAdd(Laid(s, a, e, sm, j).endMs, Gap(s[j], s[j + 1]))
    ensures j < e && Laid(s, a, e, sm, j).startMs + sm(RunDurations(s, a, e), j - a) <= U64_MAX ==>
              Duration(Laid(s, a, e, sm, j)) == sm(RunDurations(s, a, e), j - a)
    ensures j < e && Laid(s, a, e, sm, j).endMs + Gap(s[j], s[j + 1]) <= U64_MAX ==>
              Gap(Laid(s, a, e, sm, j), Laid(s, a, e, sm, j + 1)) == Gap(s[j], s[j + 1])
  {
  }

  /** The re-layout of a run looks only at the syllables of that run. */
  lemma {:induction false} LaidAgrees(s: seq<LyricSyllable>, t: seq<LyricSyllable>, a: nat, e: nat,
                                      sm: Smoother, j: nat)
    requires a <= j <= e < |s| == |t|
    requires forall k :: a <= k <= e ==> s[k] == t[k]
    ensures Laid(s, a, e, sm, j) == Laid(t, a, e, sm, j)
    decreases j - a
  {
    assert RunDurations(s, a, e) == RunDurations(t, a, e);
    if j > a {
      LaidAgrees(s, t, a, e, sm, j - 1);
    }
  }

  /**
   * The syllable at `i` after smoothing: a syllable alone in its run is kept; otherwise
   * it is its run's syllable laid out again.
   */
  function Smoothed(s: seq<LyricSyllable>, i: nat, options: SyllableSmoothingOptions, sm: Smoother)
    : LyricSyllable
    requires i < |s|
  {
    var a, e := RunStart(s, i, options), RunEnd(s, i, options);
    if a == e then s[i] else Laid(s, a, e, sm, i)
  }

  /** One line's syllables after smoothing; a line with fewer than two is left alone. */
  function SmoothedSyllables(s: seq<LyricSyllable>, options: SyllableSmoothingOptions, sm: Smoother)
    : (r: seq<LyricSyllable>)
    ensures SameSyllables(s, r)
    ensures |s| >= 2 ==> forall i :: 0 <= i < |s| ==> r[i] == Smoothed(s, i, options, sm)
  {
    if |s| < 2 then s
    else
      var r := seq(|s|, i requires 0 <= i < |s| => Smoothed(s, i, options, sm));
      assert SameSyllables(s, r) by {
        forall i | 0 <= i < |s|
          ensures OnlyTimesDiffer(s[i], r[i])
        {
          var a, e := RunStart(s, i, options), RunEnd(s, i, options);
          if a < e {
            LaidRun(s, a, e, sm, i);
          }
        }
      }
      r
  }

  /**
   * `apply_smoothing` on a slice of lines: nothing changes when smoothing is off; otherwise
   * every line keeps everything but the start and end times of its main syllables.
   */
  function SmoothedLines(lines: seq<LyricLine>, options: SyllableSmoothingOptions, sm: Smoother)
    : (r: seq<LyricLine>)
    ensures |r| == |lines|
    ensures !SmoothingActive(options) ==> r == lines
    ensures forall k :: 0 <= k < |lines| ==>
              r[k] == lines[k].(mainSyllables := r[k].mainSyllables)
              && SameSyllables(lines[k].mainSyllables, r[k].mainSyllables)
    ensures forall k :: 0 <= k < |lines| && |lines[k].mainSyllables| < 2 ==> r[k] == lines[k]
  {
    if !SmoothingActive(options) then lines
    else
      seq(|lines|, k requires 0 <= k < |lines| =>
        lines[k].(mainSyllables := SmoothedSyllables(lines[k].mainSyllables, options, sm)))
  }

  /** Smoothing never moves the start of a run's first syllable nor the end of its last. */
  lemma SmoothingKeepsRunBoundaries(s: seq<LyricSyllable>, options: SyllableSmoothingOptions, sm: Smoother)
    ensures forall i :: 0 <= i < |s| && StartsRun(s, i, options) ==>
              SmoothedSyllables(s, options, sm)[i].startMs == s[i].startMs
    ensures forall i :: 0 <= i < |s| && EndsRun(s, i, options) ==>
              SmoothedSyllables(s, options, sm)[i].endMs == s[i].endMs
  {
    var r := SmoothedSyllables(s, options, sm);
    forall i | 0 <= i < |s| && |s| >= 2
      ensures StartsRun(s, i, options) ==> r[i].startMs == s[i].startMs
      ensures EndsRun(s, i, options) ==> r[i].endMs == s[i].endMs
    {
      var a, e := RunStart(s, i, options), RunEnd(s, i, options);
      if a < e {
        LaidRun(s, a, e, sm, i);
      }
    }
  }

  /** A syllable that is a run of its own is left exactly as it was. */
  lemma SmoothingKeepsLoneSyllables(s: seq<LyricSyllable>, options: SyllableSmoothingOptions,
                                    sm: Smoother, i: nat)
    requires i < |s| && StartsRun(s, i, options) && EndsRun(s, i, options)
    ensures SmoothedSyllables(s, options, sm)[i] == s[i]
  {
  }

  /**
   * Inside a run, each syllable starts where the one before it now ends plus the gap
   * that separated them originally (saturating at `u64::MAX`); without saturation the
   * gap is exactly the original one.
   */
  lemma SmoothingKeepsGaps(s: seq<LyricSyllable>, options: SyllableSmoothingOptions, sm: Smoother, i: nat)
    requires i + 1 < |s| && !CutAt(s, i, options)
    ensures SmoothedSyllables(s, options, sm)[i + 1].startMs
            == SatAdd(SmoothedSyllables(s, options, sm)[i].endMs, Gap(s[i], s[i + 1]))
    ensures SmoothedSyllables(s, options, sm)[i].endMs + Gap(s[i], s[i + 1]) <= U64_MAX ==>
              Gap(SmoothedSyllables(s, options, sm)[i], SmoothedSyllables(s, options, sm)[i + 1])
              == Gap(s[i], s[i + 1])
  {
    var a, e := RunStart(s, i, options), RunEnd(s, i, options);
    assert RunStart(s, i + 1, options) == a;
    assert RunEnd(s, i + 1, options) == e;
    LaidRun(s, a, e, sm, i);
  }

  /**
   * Inside a run, every syllable but the last lasts its smoothed duration (the run's
   * original durations given to the smoother), exactly unless `u64` saturates.
   */
  lemma SmoothingSetsDurations(s: seq<LyricSyllable>, options: SyllableSmoothingOptions, sm: Smoother, i: nat)
    requires i < |s| && !EndsRun(s, i, options)
    ensures var a, e := RunStart(s, i, options), RunEnd(s, i, options);
            var r := SmoothedSyllables(s, options, sm);
            r[i].endMs == SatAdd(r[i].startMs, sm(RunDurations(s, a, e), i - a))
            && (r[i].startMs + sm(RunDurations(s, a, e), i - a) <= U64_MAX ==>
                  Duration(r[i]) == sm(RunDurations(s, a, e), i - a))
  {
    var a, e := RunStart(s, i, options), RunEnd(s, i, options);
    LaidRun(s, a, e, sm, i);
  }

  /** Inside the run that begins at `a`, smoothing is the re-layout of that run. */
  lemma SmoothedInRun(s: seq<LyricSyllable>, a: nat, k: nat, options: SyllableSmoothingOptions, sm: Smoother)
    requires a <= k < |s| && StartsRun(s, a, options) && k <= RunEnd(s, a, options)
    ensures var e := RunEnd(s, a, options);
            Smoothed(s, k, options, sm) == if a < e then Laid(s, a, e, sm, k) else s[k]
  {
    RunOf(s, a, k, options);
  }

  /**
   * Re-laying a whole run of a line that agrees with `s` from the run's start on gives
   * exactly the smoothed syllables of `s` there.
   */
  lemma RelaidRunIsSmoothed(before: seq<LyricSyllable>, s: seq<LyricSyllable>, r: seq<LyricSyllable>,
                            a: nat, e: nat, options: SyllableSmoothingOptions, sm: Smoother)
    requires a < e < |s| == |before| == |r|
    requires StartsRun(s, a, options) && e == RunEnd(s, a, options)
    requires forall k :: a <= k < |s| ==> before[k] == s[k]
    requires forall k :: a <= k <= e ==> r[k] == Laid(before, a, e, sm, k)
    ensures forall k :: a <= k <= e ==> r[k] == Smoothed(s, k, options, sm)
  {
    forall k | a <= k <= e
      ensures r[k] == Smoothed(s, k, options, sm)
    {
      LaidAgrees(before, s, a, e, sm, k);
      SmoothedInRun(s, a, k, options, sm);
    }
  }

  /** The search for the next cut, `main_syllables[start..].windows(2).position(..)`. */
  method FindBreak(s: seq<LyricSyllable>, start: nat, options: SyllableSmoothingOptions)
    returns (p: Option<nat>)
    requires start < |s|
    ensures p.Some? ==> start + p.value + 1 < |s| && RunEnd(s, start, options) == start + p.value
    ensures p.None? ==> RunEnd(s, start, options) == |s| - 1
  {
    var j := start;
    while j + 1 < |s|
      invariant start <= j < |s|
      invariant RunEnd(s, j, options) == RunEnd(s, start, options)
    {
      if CutAt(s, j, options) {
        return Some(j - start);
      }
      j := j + 1;
    }
    return None;
  }

  /**
   * The re-layout of the run `syls[first..=last]`, written syllable by syllable into the
   * line; the run's last end is restored afterwards and nothing outside it changes.
   */
  method RelayoutRun(syls: seq<LyricSyllable>, first: nat, last: nat, sm: Smoother)
    returns (r: seq<LyricSyllable>)
    requires first < last < |syls|
    ensures |r| == |syls|
    ensures forall k :: 0 <= k < |r| && (k < first || last < k) ==> r[k] == syls[k]
    ensures forall k :: first <= k <= last ==> r[k] == Laid(syls, first, last, sm, k)
  {
    var originalStart := syls[first].startMs;
    var originalEnd := syls[last].endMs;
    var gaps := RunGaps(syls, first, last);
    var durations := RunDurations(syls, first, last);
    r := syls;
    var current := originalStart;
    for i := 0 to last + 1 - first
      invariant |r| == |syls|
      invariant forall k :: 0 <= k < |r| && !(first <= k < first + i) ==> r[k] == syls[k]
      invariant forall k {:trigger r[k]} :: first <= k < first + i ==>
                  r[k] == syls[k].(startMs := LaidStart(syls, first, last, sm, k),
                                   endMs := SatAdd(LaidStart(syls, first, last, sm, k), sm(durations, k - first)))
      invariant first + i <= last ==> current == LaidStart(syls, first, last, sm, first + i)
    {
      var newDuration := sm(durations, i);
      var laidOut := r[first + i].(startMs := current, endMs := SatAdd(current, newDuration));
      r := r[first + i := laidOut];
      if i < |gaps| {
        current := SatAdd(laidOut.endMs, gaps[i]);
      }
    }
    r := r[last := r[last].(endMs := originalEnd)];
  }

  /** The `while start_index < len` loop over one line's syllables. */
  method SmoothLine(syllables: seq<LyricSyllable>, options: SyllableSmoothingOptions, sm: Smoother)
    returns (r: seq<LyricSyllable>)
    ensures |r| == |syllables|
    ensures forall k :: 0 <= k < |r| ==> r[k] == Smoothed(syllables, k, options, sm)
  {
    r := syllables;
    var startIndex := 0;
    while startIndex < |r|
      invariant startIndex <= |r| == |syllables|
      invariant startIndex < |r| ==> StartsRun(syllables, startIndex, options)
      invariant forall k :: 0 <= k < startIndex ==> r[k] == Smoothed(syllables, k, options, sm)
      invariant forall k :: startIndex <= k < |r| ==> r[k] == syllables[k]
      decreases |r| - startIndex
    {
      var nextBreak := FindBreak(r, startIndex, options);
      var endIndex := if nextBreak.Some? then startIndex + nextBreak.value else |r| - 1;
      RunEndAgrees(r, syllables, startIndex, options);
      if endIndex > startIndex {
        ghost var before := r;
        r := RelayoutRun(r, startIndex, endIndex, sm);
        RelaidRunIsSmoothed(before, syllables, r, startIndex, endIndex, options, sm);
      } else {
        SmoothedInRun(syllables, startIndex, startIndex, options, sm);
      }
      startIndex := endIndex + 1;
    }
  }

  /** `apply_smoothing`, updating the slice of lines in place. */
  method ApplySmoothing(lines: array<LyricLine>, options: SyllableSmoothingOptions, sm: Smoother)
    modifies lines
    ensures lines[..] == SmoothedLines(old(lines[..]), options, sm)
  {
    if options.smoothingIterations == 0 || !(0.0 <= options.factor <= 0.5) {
      return;
    }
    for k := 0 to lines.Length
      invariant forall j :: 0 <= j < k ==>
                  lines[j] == old(lines[j]).(mainSyllables :=
                    SmoothedSyllables(old(lines[j]).mainSyllables, options, sm))
      invariant forall j :: k <= j < lines.Length ==> lines[j] == old(lines[j])
    {
      if |lines[k].mainSyllables| < 2 {
        continue;
      }
      var smoothed := SmoothLine(lines[k].mainSyllables, options, sm);
      assert smoothed == SmoothedSyllables(lines[k].mainSyllables, options, sm);
      lines[k] := lines[k].(mainSyllables := smoothed);
    }
  }
}
