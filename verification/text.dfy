/**
 * String helpers shared by the lyric pipeline: Rust's `char::is_whitespace`,
 * `trim`, `split_whitespace().join(" ")`, prefix tests and `split_once`.
 * Strings are sequences of Unicode scalar values.
 */
module Text {
  import opened Wrappers

  /** The Unicode White_Space property, as Rust's `char::is_whitespace` tests it. */
  predicate IsWhitespace(c: char) {
    c == ' ' || ('\t' <= c <= '\r') || c == '\U{85}' || c == '\U{A0}' || c == '\U{1680}'
    || ('\U{2000}' <= c <= '\U{200A}') || c == '\U{2028}' || c == '\U{2029}'
    || c == '\U{202F}' || c == '\U{205F}' || c == '\U{3000}'
  }

  predicate AllWhitespace(s: string) {
    forall i :: 0 <= i < |s| ==> IsWhitespace(s[i])
  }

  predicate EndsWithWhitespace(s: string) {
    s != [] && IsWhitespace(s[|s| - 1])
  }

  /** `str::trim_end`: drop trailing whitespace. */
  function TrimEnd(s: string): (r: string)
    ensures |r| <= |s| && r == s[..|r|]
    ensures r == [] || !IsWhitespace(r[|r| - 1])
    ensures forall i :: |r| <= i < |s| ==> IsWhitespace(s[i])
  {
    if s == [] || !IsWhitespace(s[|s| - 1]) then s else TrimEnd(s[..|s| - 1])
  }

  /** `str::trim`: drop whitespace at both ends; empty exactly for all-whitespace input. */
  function Trim(s: string): (r: string)
    ensures |r| <= |s|
    ensures r == [] <==> AllWhitespace(s)
    ensures r != [] ==> !IsWhitespace(r[0]) && !IsWhitespace(r[|r| - 1])
    decreases |s|
  {
    if s == [] then []
    else if IsWhitespace(s[0]) then
      assert AllWhitespace(s) <==> AllWhitespace(s[1..]) by {
        assert forall i :: 0 < i < |s| ==> s[i] == s[1..][i - 1];
      }
      Trim(s[1..])
    else if IsWhitespace(s[|s| - 1]) then
      assert AllWhitespace(s) <==> AllWhitespace(s[..|s| - 1]) by {
        assert forall i :: 0 <= i < |s| - 1 ==> s[i] == s[..|s| - 1][i];
      }
      Trim(s[..|s| - 1])
    else s
  }

  /** A slice of a slice is a slice of the whole. */
  lemma SliceOfSlice(s: string, a: nat, b: nat, c: nat, d: nat)
    requires a <= b <= |s| && c <= d <= b - a
    ensures s[a..b][c..d] == s[a + c..a + d]
  {
    forall j | 0 <= j < d - c
      ensures s[a..b][c..d][j] == s[a + c..a + d][j]
    {
    }
  }

  /** `t` occurs in `s` starting at index `i`. */
  predicate PieceAt(t: string, s: string, i: nat) {
    i + |t| <= |s| && t == s[i..i + |t|]
  }

  lemma PieceInTail(t: string, s: string, j: nat)
    requires s != [] && PieceAt(t, s[1..], j)
    ensures PieceAt(t, s, j + 1)
  {
    SliceOfSlice(s, 1, |s|, j, j + |t|);
  }

  lemma PieceInInit(t: string, s: string, i: nat)
    requires s != [] && PieceAt(t, s[..|s| - 1], i)
    ensures PieceAt(t, s, i)
  {
    SliceOfSlice(s, 0, |s| - 1, i, i + |t|);
  }

  /** `Trim` cuts a contiguous piece out of its argument; `i` is where it starts. */
  lemma {:induction false} TrimInfix(s: string) returns (i: nat)
    ensures PieceAt(Trim(s), s, i)
    decreases |s|
  {
    if s == [] {
      i := 0;
    } else if IsWhitespace(s[0]) {
      assert Trim(s) == Trim(s[1..]);
      var j := TrimInfix(s[1..]);
      PieceInTail(Trim(s), s, j);
      i := j + 1;
    } else if IsWhitespace(s[|s| - 1]) {
      assert Trim(s) == Trim(s[..|s| - 1]);
      i := TrimInfix(s[..|s| - 1]);
      PieceInInit(Trim(s), s, i);
    } else {
      i := 0;
    }
  }

  /** A trimmed string is left as it is by `Trim`. */
  lemma TrimOfTrimmed(s: string)
    requires s == [] || (!IsWhitespace(s[0]) && !IsWhitespace(s[|s| - 1]))
    ensures Trim(s) == s
  {
  }

  /** A word of `split_whitespace`: non-empty and free of whitespace. */
  predicate IsWord(w: string) {
    w != [] && forall i :: 0 <= i < |w| ==> !IsWhitespace(w[i])
  }

  /** Length of the leading run of non-whitespace characters. */
  function WordLen(s: string): (n: nat)
    ensures n <= |s|
    ensures forall i :: 0 <= i < n ==> !IsWhitespace(s[i])
    ensures n == |s| || IsWhitespace(s[n])
  {
    if s == [] || IsWhitespace(s[0]) then 0 else 1 + WordLen(s[1..])
  }

  /** `str::split_whitespace`: the maximal whitespace-free runs, in order. */
  function Words(s: string): (ws: seq<string>)
    ensures forall k :: 0 <= k < |ws| ==> IsWord(ws[k])
    ensures ws == [] <==> AllWhitespace(s)
    decreases |s|
  {
    if s == [] then []
    else if IsWhitespace(s[0]) then Words(s[1..])
    else
      var n := WordLen(s);
      [s[..n]] + Words(s[n..])
  }

  /** `join(" ")`. */
  function JoinWords(ws: seq<string>): string {
    if ws == [] then []
    else if |ws| == 1 then ws[0]
    else ws[0] + " " + JoinWords(ws[1..])
  }

  /**
   * What `normalize_text_whitespace` promises of its output: no whitespace at either
   * end, and every whitespace character inside is a single ' ' followed by a
   * non-whitespace character.
   */
  predicate IsNormalized(r: string) {
    r == [] ||
    (!IsWhitespace(r[0]) && !IsWhitespace(r[|r| - 1]) &&
     forall i :: 0 <= i < |r| && IsWhitespace(r[i]) ==> r[i] == ' ' && i + 1 < |r| && !IsWhitespace(r[i + 1]))
  }

  /** `normalize_text_whitespace` (ttml_parser.rs): trim, then collapse each whitespace run to one ' '. */
  function NormalizeWhitespace(s: string): (r: string)
    ensures r == [] <==> AllWhitespace(s)
  {
    var t := Trim(s);
    if t == [] then []
    else
      JoinWordsNormalized(Words(t));
      JoinWords(Words(t))
  }

  /** The normalised text has no outer whitespace and single spaces between its words. */
  lemma NormalizedOutput(s: string)
    ensures IsNormalized(NormalizeWhitespace(s))
  {
    var t := Trim(s);
    if t != [] {
      JoinWordsNormalized(Words(t));
    }
  }

  lemma {:induction false} JoinWordsNormalized(ws: seq<string>)
    requires forall k :: 0 <= k < |ws| ==> IsWord(ws[k])
    ensures JoinWords(ws) == [] <==> ws == []
    ensures ws != [] ==> IsWord(ws[0]) && JoinWords(ws)[0] == ws[0][0]
    ensures IsNormalized(JoinWords(ws))
  {
    if |ws| <= 1 {
    } else {
      var w, rest := ws[0], JoinWords(ws[1..]);
      JoinWordsNormalized(ws[1..]);
      var j := w + " " + rest;
      assert JoinWords(ws) == j;
      assert j[0] == w[0];
      assert j[|j| - 1] == rest[|rest| - 1];
      forall i | 0 <= i < |j| && IsWhitespace(j[i])
        ensures j[i] == ' ' && i + 1 < |j| && !IsWhitespace(j[i + 1])
      {
        if i == |w| {
          assert j[i + 1] == rest[0];
        } else if i > |w| {
          assert j[i] == rest[i - |w| - 1];
          assert i + 1 < |j| ==> j[i + 1] == rest[i - |w|];
        }
      }
    }
  }

  /** `join(" ")` of two or more words puts one space after the first. */
  lemma JoinWordsCons(w: string, rest: seq<string>)
    requires rest != []
    ensures JoinWords([w] + rest) == w + " " + JoinWords(rest)
  {
    var ws := [w] + rest;
    assert ws[0] == w && ws[1..] == rest && |ws| > 1;
  }

  lemma SplitAtSpace(t: string, n: nat)
    requires n < |t| && t[n] == ' '
    ensures t == t[..n] + " " + t[n + 1..]
  {
  }

  /** In a normalized string, the words are the first word followed by the words after its space. */
  lemma WordsAfterSpace(t: string, n: nat)
    requires IsNormalized(t) && t != [] && n == WordLen(t) && n < |t|
    ensures t[n] == ' ' && n + 1 < |t|
    ensures Words(t) == [t[..n]] + Words(t[n + 1..])
    ensures Words(t[n + 1..]) != []
  {
    var tail := t[n + 1..];
    assert Words(t) == [t[..n]] + Words(t[n..]);
    assert t[n..][1..] == tail;
    assert Words(t[n..]) == Words(tail);
    assert !IsWhitespace(tail[0]);
  }

  /** What follows the first word and its single space in a normalized string is normalized. */
  lemma NormalizedTail(t: string, n: nat)
    requires IsNormalized(t) && n + 1 < |t| && t[n] == ' '
    ensures IsNormalized(t[n + 1..])
  {
    var tail := t[n + 1..];
    assert tail[0] == t[n + 1];
    assert tail[|tail| - 1] == t[|t| - 1];
    forall i | 0 <= i < |tail| && IsWhitespace(tail[i])
      ensures tail[i] == ' ' && i + 1 < |tail| && !IsWhitespace(tail[i + 1])
    {
      assert tail[i] == t[n + 1 + i];
      assert i + 1 < |tail| ==> tail[i + 1] == t[n + 2 + i];
    }
  }

  /** On a normalized string, splitting into words and joining them again gives it back. */
  lemma {:induction false} SplitJoinNormalized(t: string)
    requires IsNormalized(t)
    ensures JoinWords(Words(t)) == t
    decreases |t|
  {
    if t != [] {
      var n := WordLen(t);
      if n == |t| {
        assert Words(t) == [t[..n]] + Words(t[n..]);
        assert t[n..] == [];
      } else {
        var tail := t[n + 1..];
        WordsAfterSpace(t, n);
        NormalizedTail(t, n);
        SplitJoinNormalized(tail);
        JoinWordsCons(t[..n], Words(tail));
        SplitAtSpace(t, n);
      }
    }
  }

  /** Normalizing is idempotent. */
  lemma NormalizeIdempotent(s: string)
    ensures NormalizeWhitespace(NormalizeWhitespace(s)) == NormalizeWhitespace(s)
  {
    var r := NormalizeWhitespace(s);
    NormalizedOutput(s);
    if r != [] {
      TrimOfTrimmed(r);
      SplitJoinNormalized(r);
    }
  }

  /** The non-whitespace characters of a string, in order. */
  function Visible(s: string): string {
    if s == [] then []
    else (if IsWhitespace(s[0]) then [] else [s[0]]) + Visible(s[1..])
  }

  lemma {:induction false} VisibleAppend(a: string, b: string)
    ensures Visible(a + b) == Visible(a) + Visible(b)
    decreases |a|
  {
    if a == [] {
      assert a + b == b;
    } else {
      assert (a + b)[1..] == a[1..] + b;
      VisibleAppend(a[1..], b);
    }
  }

  lemma {:induction false} VisibleOfAllWhitespace(s: string)
    requires AllWhitespace(s)
    ensures Visible(s) == []
    decreases |s|
  {
    if s != [] {
      VisibleOfAllWhitespace(s[1..]);
    }
  }

  lemma {:induction false} VisibleTrim(s: string)
    ensures Visible(Trim(s)) == Visible(s)
    decreases |s|
  {
    if s == [] {
    } else if IsWhitespace(s[0]) {
      VisibleTrim(s[1..]);
    } else if IsWhitespace(s[|s| - 1]) {
      var init := s[..|s| - 1];
      VisibleTrim(init);
      assert s == init + [s[|s| - 1]];
      VisibleAppend(init, [s[|s| - 1]]);
    }
  }

  lemma VisibleJoinCons(w: string, rest: seq<string>)
    ensures Visible(JoinWords([w] + rest)) == Visible(w) + Visible(JoinWords(rest))
  {
    if rest == [] {
      assert [w] + rest == [w];
      assert Visible(w) + Visible([]) == Visible(w);
    } else {
      JoinWordsCons(w, rest);
      VisibleAppend(w + " ", JoinWords(rest));
      VisibleAppend(w, " ");
      assert Visible(" ") == [] by {
        assert " "[1..] == [];
      }
    }
  }

  lemma {:induction false} VisibleWords(s: string)
    ensures Visible(JoinWords(Words(s))) == Visible(s)
    decreases |s|
  {
    if s == [] {
    } else if IsWhitespace(s[0]) {
      calc {
        Visible(JoinWords(Words(s)));
        Visible(JoinWords(Words(s[1..])));
        { VisibleWords(s[1..]); }
        Visible(s[1..]);
        { assert s == [s[0]] + s[1..]; VisibleAppend([s[0]], s[1..]); }
        Visible(s);
      }
    } else {
      var n := WordLen(s);
      var w := s[..n];
      calc {
        Visible(JoinWords(Words(s)));
        Visible(JoinWords([w] + Words(s[n..])));
        { VisibleJoinCons(w, Words(s[n..])); }
        Visible(w) + Visible(JoinWords(Words(s[n..])));
        { VisibleWords(s[n..]); }
        Visible(w) + Visible(s[n..]);
        { assert s == w + s[n..]; VisibleAppend(w, s[n..]); }
        Visible(s);
      }
    }
  }

  /** Normalizing keeps every non-whitespace character, in order, and adds none. */
  lemma NormalizeKeepsVisible(s: string)
    ensures Visible(NormalizeWhitespace(s)) == Visible(s)
  {
    VisibleTrim(s);
    var t := Trim(s);
    if t != [] {
      VisibleWords(t);
    } else {
      VisibleOfAllWhitespace(s);
    }
  }

  predicate IsOpenParen(c: char) {
    c == '(' || c == '\U{FF08}'
  }

  predicate IsCloseParen(c: char) {
    c == ')' || c == '\U{FF09}'
  }

  /** `trim_start_matches(['(', '（'])`. */
  function TrimOpenParens(s: string): (r: string)
    ensures |r| <= |s| && r == s[|s| - |r|..]
    ensures r == [] || !IsOpenParen(r[0])
  {
    if s == [] || !IsOpenParen(s[0]) then s else TrimOpenParens(s[1..])
  }

  /** `trim_end_matches([')', '）'])`. */
  function TrimCloseParens(s: string): (r: string)
    ensures |r| <= |s| && r == s[..|r|]
    ensures r == [] || !IsCloseParen(r[|r| - 1])
  {
    if s == [] || !IsCloseParen(s[|s| - 1]) then s else TrimCloseParens(s[..|s| - 1])
  }

  /**
   * `clean_parentheses_from_bg_text` (ttml_parser.rs): trim, strip leading opening and
   * trailing closing parentheses (ASCII or full-width), trim again.
   */
  function CleanParentheses(text: string): (r: string)
    ensures |r| <= |text|
    ensures r != [] ==> !IsWhitespace(r[0]) && !IsWhitespace(r[|r| - 1])
  {
    Trim(TrimCloseParens(TrimOpenParens(Trim(text))))
  }

  /** Background text written as "(words)" or "（words）" comes back as the words. */
  lemma CleanParenthesesUnwraps(open: char, w: string, close: char)
    requires IsOpenParen(open) && IsCloseParen(close)
    requires w != [] && !IsWhitespace(w[0]) && !IsWhitespace(w[|w| - 1])
    requires !IsOpenParen(w[0]) && !IsCloseParen(w[|w| - 1])
    ensures CleanParentheses([open] + w + [close]) == w
  {
    var s := [open] + w + [close];
    assert Trim(s) == s;
    assert s[1..] == w + [close];
    assert TrimOpenParens(s) == w + [close];
    assert (w + [close])[..|w|] == w;
    assert TrimCloseParens(w + [close]) == w;
    TrimOfTrimmed(w);
  }

  predicate IsPrefix(p: string, s: string) {
    |p| <= |s| && s[..|p|] == p
  }

  /** Index of the first occurrence of `pat` in `s` (Rust's `str::find`). */
  function Find(s: string, pat: string): (r: Option<nat>)
    ensures r.Some? ==> r.value + |pat| <= |s| && s[r.value..r.value + |pat|] == pat
    ensures r.Some? ==> forall k :: 0 <= k < r.value ==> !IsPrefix(pat, s[k..])
    ensures r.None? ==> forall k :: 0 <= k <= |s| ==> !IsPrefix(pat, s[k..])
    decreases |s|
  {
    if IsPrefix(pat, s) then Some(0)
    else if s == [] then None
    else
      var r := Find(s[1..], pat);
      assert forall k :: 1 <= k <= |s| ==> s[k..] == s[1..][k - 1..];
      if r.Some? then Some(r.value + 1) else None
  }

  /** Without any occurrence of `pat`, `Find` reports none. */
  lemma {:induction false} FindNone(s: string, pat: string)
    requires forall k :: 0 <= k <= |s| ==> !IsPrefix(pat, s[k..])
    ensures Find(s, pat).None?
    decreases |s|
  {
    assert s[0..] == s;
    if s != [] {
      assert forall k :: 0 <= k <= |s| - 1 ==> s[1..][k..] == s[k + 1..];
      FindNone(s[1..], pat);
    }
  }

  /** A piece of `s` that ends before the first occurrence of `pat` contains no occurrence of it. */
  lemma NoFindInPiece(s: string, pat: string, i: nat, t: string)
    requires pat != [] && i + |t| <= |s| && t == s[i..i + |t|]
    requires forall k :: 0 <= k < i + |t| ==> !IsPrefix(pat, s[k..])
    ensures Find(t, pat).None?
  {
    forall k | 0 <= k <= |t|
      ensures !IsPrefix(pat, t[k..])
    {
      if k + |pat| <= |t| {
        assert t[k..][..|pat|] == t[k..k + |pat|];
        SliceOfSlice(s, i, i + |t|, k, k + |pat|);
        assert s[i + k..][..|pat|] == s[i + k..i + k + |pat|];
      }
    }
    FindNone(t, pat);
  }

  /** `str::split_once`: the text before and after the first occurrence of `pat`. */
  function SplitOnce(s: string, pat: string): (r: Option<(string, string)>)
    ensures r.Some? ==> s == r.value.0 + pat + r.value.1
    ensures r.Some? ==> forall k :: 0 <= k < |r.value.0| ==> !IsPrefix(pat, s[k..])
    ensures r.None? <==> Find(s, pat).None?
  {
    match Find(s, pat)
    case None => None
    case Some(i) =>
      assert s == s[..i] + s[i..i + |pat|] + s[i + |pat|..];
      Some((s[..i], s[i + |pat|..]))
  }

  function ToAsciiLower(c: char): char {
    if 'A' <= c <= 'Z' then (c as int + 32) as char else c
  }

  /** `str::eq_ignore_ascii_case`. */
  predicate EqIgnoreAsciiCase(a: string, b: string) {
    |a| == |b| && forall i :: 0 <= i < |a| ==> ToAsciiLower(a[i]) == ToAsciiLower(b[i])
  }

  /** Concatenation of a sequence of strings (`collect::<String>()`). */
  function Concat(ss: seq<string>): string {
    if ss == [] then [] else ss[0] + Concat(ss[1..])
  }

  lemma {:induction false} ConcatAppend(a: seq<string>, b: seq<string>)
    ensures Concat(a + b) == Concat(a) + Concat(b)
    decreases |a|
  {
    if a == [] {
      assert a + b == b;
    } else {
      assert (a + b)[1..] == a[1..] + b;
      ConcatAppend(a[1..], b);
    }
  }
}
