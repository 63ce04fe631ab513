/**
 * `parse_ttml_time_to_ms` (ttml_parser.rs): TTML timing attribute values to milliseconds.
 *
 * The clock forms accepted are `H:MM:SS[.f]`, `MM:SS[.f]` and `S[.f]`, every field
 * parsed as a `u64` and the fraction being one to three digits scaled to milliseconds.
 * A value ending in `s` is an offset in seconds; its floating-point parse and rounding
 * are the parameter `offsetSeconds` (None when Rust's `f64` parse fails, the value is
 * negative or it exceeds the `u64` range).
 */
module TimeExpr {
  import opened Wrappers
  import opened Text
  import opened LyricTypes

  predicate IsAsciiDigit(c: char) {
    '0' <= c <= '9'
  }

  predicate AllDigits(s: string) {
    forall i :: 0 <= i < |s| ==> IsAsciiDigit(s[i])
  }

  /** The decimal value of a string of ASCII digits. */
  function DigitsValue(s: string): nat
    requires AllDigits(s)
  {
    if s == [] then 0 else DigitsValue(s[..|s| - 1]) * 10 + (s[|s| - 1] as int - '0' as int)
  }

  /** `str::parse::<u64>`: an optional '+', then at least one digit, at most `u64::MAX`. */
  function ParseU64(s: string): (r: Option<nat>)
    ensures r.Some? ==> r.value <= U64_MAX
    ensures s != [] && AllDigits(s) && DigitsValue(s) <= U64_MAX ==> r == Some(DigitsValue(s))
    ensures s == [] ==> r.None?
    ensures var d := if |s| > 0 && s[0] == '+' then s[1..] else s;
      (r.Some? <==> d != [] && AllDigits(d) && DigitsValue(d) <= U64_MAX)
      && (r.Some? ==> r.value == DigitsValue(d))
  {
    var digits := if |s| > 0 && s[0] == '+' then s[1..] else s;
    if digits == [] || !AllDigits(digits) then None
    else if DigitsValue(digits) > U64_MAX then None
    else Some(DigitsValue(digits))
  }

  /** `str::split(sep)`: always at least one part, and the parts joined by `sep` give `s` back. */
  function Split(s: string, sep: char): (parts: seq<string>)
    ensures |parts| >= 1
    ensures forall k, i :: 0 <= k < |parts| && 0 <= i < |parts[k]| ==> parts[k][i] != sep
    decreases |s|
  {
    if s == [] then [[]]
    else
      var rest := Split(s[1..], sep);
      if s[0] == sep then [[]] + rest
      else [[s[0]] + rest[0]] + rest[1..]
  }

  lemma {:induction false} SplitWithout(s: string, sep: char)
    requires forall i :: 0 <= i < |s| ==> s[i] != sep
    ensures Split(s, sep) == [s]
    decreases |s|
  {
    if s != [] {
      SplitWithout(s[1..], sep);
      assert [s[0]] + s[1..] == s;
    }
  }

  lemma {:induction false} SplitAt(a: string, sep: char, b: string)
    requires forall i :: 0 <= i < |a| ==> a[i] != sep
    ensures Split(a + [sep] + b, sep) == [a] + Split(b, sep)
    decreases |a|
  {
    var s := a + [sep] + b;
    if a == [] {
      assert s[1..] == b;
    } else {
      assert s[1..] == a[1..] + [sep] + b;
      SplitAt(a[1..], sep, b);
      assert [a[0]] + a[1..] == a;
    }
  }

  function Pow10(n: nat): (r: nat)
    ensures r >= 1
  {
    if n == 0 then 1 else 10 * Pow10(n - 1)
  }

  /** A fraction of a second written with `|d|` digits, in milliseconds (".5" is 500). */
  function FractionMs(d: string): nat
    requires AllDigits(d) && |d| <= 3
  {
    DigitsValue(d) * Pow10(3 - |d|)
  }

  /** The closure `parse_ms_part`: one to three digits, scaled so that ".5" is 500 ms. */
  function ParseFraction(d: string): (r: Option<nat>)
    ensures r.Some? <==> 1 <= |d| <= 3 && AllDigits(d)
    ensures r.Some? ==> r.value == FractionMs(d)
  {
    if d == [] || |d| > 3 || !AllDigits(d) then None
    else Some(FractionMs(d))
  }

  /** The seconds field `S[.f]` of any clock form: whole seconds and the fraction in ms. */
  function ParseSecondsField(field: string): (r: Option<(nat, nat)>)
    ensures Split(field, '.')[0] == [] ==> r.None?
    ensures |Split(field, '.')| > 2 ==> r.None?
    ensures |Split(field, '.')| == 2 && ParseFraction(Split(field, '.')[1]).None? ==> r.None?
    ensures r.Some? ==> ParseU64(Split(field, '.')[0]) == Some(r.value.0) && r.value.1 < 1000
  {
    var dot := Split(field, '.');
    if dot[0] == [] then None
    else
      match ParseU64(dot[0])
      case None => None
      case Some(sec) =>
        if |dot| == 2 then
          match ParseFraction(dot[1])
          case None => None
          case Some(ms) =>
            assert ms < 1000 by { FractionBound(dot[1]); }
            Some((sec, ms))
        else if |dot| == 1 then Some((sec, 0))
        else None
  }

  lemma FractionBound(d: string)
    requires 1 <= |d| <= 3 && AllDigits(d)
    ensures FractionMs(d) < 1000
  {
    DigitsBound(d);
    if |d| == 1 {
      assert Pow10(2) == 100;
    } else if |d| == 2 {
      assert Pow10(1) == 10;
    }
  }

  lemma {:induction false} DigitsBound(d: string)
    requires AllDigits(d)
    ensures DigitsValue(d) < Pow10(|d|)
    decreases |d|
  {
    if d != [] {
      DigitsBound(d[..|d| - 1]);
    }
  }

  predicate HasOffsetSuffix(s: string) {
    s != [] && s[|s| - 1] == 's'
  }

  /** The seconds field of a clock value: the text after its last ':'. */
  function SecondsPart(s: string): string {
    var parts := Split(s, ':');
    parts[|parts| - 1]
  }

  datatype ClockFields = Clock(hours: nat, minutes: nat, seconds: nat, millis: nat)

  /** The fields of the one-, two- or three-part clock forms; None when a field does not parse. */
  function ClockFieldsOf(parts: seq<string>): (c: Option<ClockFields>)
    ensures c.Some? ==> 1 <= |parts| <= 3 && c.value.millis < 1000
    ensures c.Some? ==> ParseSecondsField(parts[|parts| - 1]) == Some((c.value.seconds, c.value.millis))
    ensures c.Some? && |parts| >= 2 ==> ParseU64(parts[|parts| - 2]) == Some(c.value.minutes)
    ensures c.Some? && |parts| == 3 ==> ParseU64(parts[0]) == Some(c.value.hours)
    ensures (1 <= |parts| <= 3 && ParseSecondsField(parts[|parts| - 1]).Some?
             && (|parts| >= 2 ==> ParseU64(parts[|parts| - 2]).Some?)
             && (|parts| == 3 ==> ParseU64(parts[0]).Some?)) ==> c.Some?
  {
    if |parts| < 1 || |parts| > 3 then None
    else
      var sf := ParseSecondsField(parts[|parts| - 1]);
      var m := if |parts| >= 2 then ParseU64(parts[|parts| - 2]) else Some(0);
      var h := if |parts| == 3 then ParseU64(parts[0]) else Some(0);
      if sf.None? || m.None? || h.None? then None
      else Some(Clock(h.value, m.value, sf.value.0, sf.value.1))
  }

  function ClockMs(c: ClockFields): nat {
    c.hours * 3_600_000 + c.minutes * 60_000 + c.seconds * 1000 + c.millis
  }

  /** The clock forms (ttml_parser.rs lines 1254-1383). */
  function ParseClock(s: string): (r: Result<nat, ConvertError>)
    ensures r.Failure? ==> r.error == InvalidTime
    ensures ClockFieldsOf(Split(s, ':')).None? ==> r.Failure?
    ensures ClockFieldsOf(Split(s, ':')).Some? ==>
      var c := ClockFieldsOf(Split(s, ':')).value;
      r.Success? <==> c.minutes < 60 && (|Split(s, ':')| > 1 ==> c.seconds < 60)
    ensures r.Success? ==> r.value == ClockMs(ClockFieldsOf(Split(s, ':')).value)
  {
    var parts := Split(s, ':');
    match ClockFieldsOf(parts)
    case None => Failure(InvalidTime)
    case Some(c) =>
      if c.minutes >= 60 then Failure(InvalidTime)
      else if |parts| > 1 && c.seconds >= 60 then Failure(InvalidTime)
      else Success(ClockMs(c))
  }

  /**
   * `parse_ttml_time_to_ms`. An offset value (`…s`) with an empty body or a '.' at
   * either end is rejected before the float parse; every other value goes to the
   * clock forms. Every failure is `InvalidTime`.
   */
  function ParseTime(s: string, offsetSeconds: string -> Option<nat>): (r: Result<nat, ConvertError>)
    ensures r.Failure? ==> r.error == InvalidTime
    ensures HasOffsetSuffix(s) && (|s| == 1 || s[0] == '.' || s[|s| - 2] == '.') ==> r.Failure?
    ensures HasOffsetSuffix(s) && |s| > 1 && s[0] != '.' && s[|s| - 2] != '.' ==>
      r == (match offsetSeconds(s[..|s| - 1]) case Some(ms) => Success(ms) case None => Failure(InvalidTime))
    ensures !HasOffsetSuffix(s) ==> r == ParseClock(s)
  {
    if HasOffsetSuffix(s) then
      var stripped := s[..|s| - 1];
      if stripped == [] || stripped[0] == '.' || stripped[|stripped| - 1] == '.' then Failure(InvalidTime)
      else
        match offsetSeconds(stripped)
        case Some(ms) => Success(ms)
        case None => Failure(InvalidTime)
    else ParseClock(s)
  }

  lemma SecondsFieldValue(sec: string, frac: string)
    requires sec != [] && AllDigits(sec) && DigitsValue(sec) <= U64_MAX
    requires 1 <= |frac| <= 3 && AllDigits(frac)
    ensures ParseSecondsField(sec + "." + frac) == Some((DigitsValue(sec), FractionMs(frac)))
  {
    SplitAt(sec, '.', frac);
    SplitWithout(frac, '.');
    assert sec + "." + frac == sec + ['.'] + frac;
  }

  lemma DigitsAvoid(s: string, c: char)
    requires AllDigits(s) && !IsAsciiDigit(c)
    ensures forall i :: 0 <= i < |s| ==> s[i] != c
  {
  }

  lemma ClockSplit(h: string, m: string, rest: string)
    requires AllDigits(h) && AllDigits(m)
    requires forall i :: 0 <= i < |rest| ==> rest[i] != ':'
    ensures Split(h + ":" + m + ":" + rest, ':') == [h, m, rest]
  {
    DigitsAvoid(h, ':');
    DigitsAvoid(m, ':');
    assert h + ":" + m + ":" + rest == h + [':'] + (m + [':'] + rest);
    SplitAt(h, ':', m + [':'] + rest);
    SplitAt(m, ':', rest);
    SplitWithout(rest, ':');
  }

  lemma ClockOfFields(s: string, h: nat, m: nat, sec: nat, ms: nat)
    requires |Split(s, ':')| == 3
    requires ParseU64(Split(s, ':')[0]) == Some(h)
    requires ParseU64(Split(s, ':')[1]) == Some(m) && m < 60
    requires ParseSecondsField(Split(s, ':')[2]) == Some((sec, ms)) && sec < 60
    ensures ParseClock(s) == Success(ClockMs(Clock(h, m, sec, ms)))
  {
    assert ClockFieldsOf(Split(s, ':')) == Some(Clock(h, m, sec, ms));
  }

  lemma NoColonInSeconds(sec: string, frac: string)
    requires AllDigits(sec) && AllDigits(frac)
    ensures forall i :: 0 <= i < |sec + "." + frac| ==> (sec + "." + frac)[i] != ':'
  {
    var rest := sec + "." + frac;
    forall i | 0 <= i < |rest|
      ensures rest[i] != ':'
    {
      if i < |sec| {
        assert rest[i] == sec[i] && IsAsciiDigit(sec[i]);
      } else if i > |sec| {
        assert rest[i] == frac[i - |sec| - 1] && IsAsciiDigit(frac[i - |sec| - 1]);
      }
    }
  }

  /** A clock value `H:MM:SS.fff` denotes `h*3600000 + m*60000 + s*1000 + fraction`. */
  lemma ClockValue(h: string, m: string, sec: string, frac: string, offsetSeconds: string -> Option<nat>)
    requires h != [] && AllDigits(h) && DigitsValue(h) <= U64_MAX
    requires m != [] && AllDigits(m) && DigitsValue(m) < 60
    requires sec != [] && AllDigits(sec) && DigitsValue(sec) < 60
    requires 1 <= |frac| <= 3 && AllDigits(frac)
    ensures ParseTime(h + ":" + m + ":" + sec + "." + frac, offsetSeconds)
         == Success(ClockMs(Clock(DigitsValue(h), DigitsValue(m), DigitsValue(sec), FractionMs(frac))))
  {
    var rest := sec + "." + frac;
    var s := h + ":" + m + ":" + sec + "." + frac;
    assert s == h + ":" + m + ":" + rest;
    NoColonInSeconds(sec, frac);
    ClockSplit(h, m, rest);
    SecondsFieldValue(sec, frac);
    ClockOfFields(s, DigitsValue(h), DigitsValue(m), DigitsValue(sec), FractionMs(frac));
    assert !HasOffsetSuffix(s) by {
      assert s[|s| - 1] == frac[|frac| - 1];
      assert IsAsciiDigit(frac[|frac| - 1]);
    }
    NotOffsetIsClock(s, offsetSeconds);
  }

  lemma NotOffsetIsClock(s: string, offsetSeconds: string -> Option<nat>)
    requires !HasOffsetSuffix(s)
    ensures ParseTime(s, offsetSeconds) == ParseClock(s)
  {
  }

  /** Bare seconds have no upper bound of 60: `N` denotes N seconds for any `u64` N. */
  lemma BareSecondsUnbounded(d: string, offsetSeconds: string -> Option<nat>)
    requires d != [] && AllDigits(d) && DigitsValue(d) <= U64_MAX
    ensures ParseTime(d, offsetSeconds) == Success(DigitsValue(d) * 1000)
  {
    SplitWithout(d, ':');
    SplitWithout(d, '.');
    assert !HasOffsetSuffix(d) by {
      assert IsAsciiDigit(d[|d| - 1]);
    }
  }

  function DigitChar(n: nat): (c: char)
    requires n < 10
    ensures IsAsciiDigit(c) && c as int - '0' as int == n
  {
    ('0' as int + n) as char
  }

  /** Decimal rendering without leading zeros. */
  function NatToDigits(n: nat): (s: string)
    ensures s != [] && AllDigits(s)
  {
    if n < 10 then [DigitChar(n)] else NatToDigits(n / 10) + [DigitChar(n % 10)]
  }

  lemma {:induction false} NatToDigitsValue(n: nat)
    ensures DigitsValue(NatToDigits(n)) == n
  {
    var s := NatToDigits(n);
    if n >= 10 {
      NatToDigitsValue(n / 10);
      assert s[..|s| - 1] == NatToDigits(n / 10);
    }
  }

  /** Exactly `width` digits, leading zeros included, for `n < 10^width`. */
  function PadDigits(n: nat, width: nat): (s: string)
    requires n < Pow10(width)
    ensures |s| == width && AllDigits(s) && DigitsValue(s) == n
  {
    if width == 0 then []
    else
      var s := PadDigits(n / 10, width - 1) + [DigitChar(n % 10)];
      assert s[..|s| - 1] == PadDigits(n / 10, width - 1);
      s
  }

  /** The fields of a clock written as `H:MM:SS.mmm`. */
  function ClockText(h: nat, m: nat, sec: nat, ms: nat): string
    requires m < 100 && sec < 100 && ms < 1000
  {
    assert Pow10(2) == 100 && Pow10(3) == 1000;
    NatToDigits(h) + ":" + PadDigits(m, 2) + ":" + PadDigits(sec, 2) + "." + PadDigits(ms, 3)
  }

  /** `t` written as `H:MM:SS.mmm`. */
  function FormatClock(t: nat): string {
    ClockText(t / 3_600_000, (t % 3_600_000) / 60_000, (t % 60_000) / 1000, t % 1000)
  }

  lemma ClockArithmetic(t: nat)
    ensures (t / 3_600_000) * 3_600_000 + ((t % 3_600_000) / 60_000) * 60_000
            + ((t % 60_000) / 1000) * 1000 + t % 1000 == t
    ensures (t % 3_600_000) / 60_000 < 60 && (t % 60_000) / 1000 < 60
  {
    var r := t % 3_600_000;
    assert t == (t / 3_600_000) * 3_600_000 + r;
    var q := r / 60_000;
    assert r == q * 60_000 + r % 60_000;
    assert r % 60_000 == t % 60_000 by {
      assert t == ((t / 3_600_000) * 60) * 60_000 + q * 60_000 + r % 60_000;
      assert t == ((t / 3_600_000) * 60 + q) * 60_000 + r % 60_000;
    }
    var u := t % 60_000;
    assert u == (u / 1000) * 1000 + u % 1000;
    assert u % 1000 == t % 1000 by {
      assert t == (t / 60_000) * 60_000 + u;
      assert t == ((t / 60_000) * 60 + u / 1000) * 1000 + u % 1000;
    }
  }

  /** Every clock with minutes and seconds below 60 whose total fits in 64 bits reads back as its milliseconds. */
  lemma ClockTextParses(h: nat, m: nat, sec: nat, ms: nat, offsetSeconds: string -> Option<nat>)
    requires m < 60 && sec < 60 && ms < 1000 && ClockMs(Clock(h, m, sec, ms)) <= U64_MAX
    ensures ParseTime(ClockText(h, m, sec, ms), offsetSeconds) == Success(ClockMs(Clock(h, m, sec, ms)))
  {
    assert Pow10(0) == 1 && Pow10(2) == 100 && Pow10(3) == 1000;
    NatToDigitsValue(h);
    ClockValue(NatToDigits(h), PadDigits(m, 2), PadDigits(sec, 2), PadDigits(ms, 3), offsetSeconds);
  }

  /** Every time that fits in 64 bits has a clock rendering that parses back to it. */
  lemma FormatClockParses(t: nat, offsetSeconds: string -> Option<nat>)
    requires t <= U64_MAX
    ensures ParseTime(FormatClock(t), offsetSeconds) == Success(t)
  {
    var h, m, sec, ms := t / 3_600_000, (t % 3_600_000) / 60_000, (t % 60_000) / 1000, t % 1000;
    calc {
      ParseTime(FormatClock(t), offsetSeconds);
      ParseTime(ClockText(h, m, sec, ms), offsetSeconds);
      { ClockArithmetic(t); ClockTextParses(h, m, sec, ms, offsetSeconds); }
      Success(ClockMs(Clock(h, m, sec, ms)));
      Success(h * 3_600_000 + m * 60_000 + sec * 1000 + ms);
      { ClockArithmetic(t); }
      Success(t);
    }
  }
}
