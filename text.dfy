/** The handful of Python string operations the services rely on, with the
    exact semantics of CPython's `str` methods (whitespace set of
    `str.isspace`, `strip()`, `split()`, `rfind`, `sep.join`). */
module Text {

  /** `c.isspace()`: the characters Python strips and splits on. */
  predicate IsSpace(c: char) {
    c == ' ' || ('\t' <= c <= '\r') || ('\U{1C}' <= c <= '\U{1F}')
    || c == '\U{85}' || c == '\U{A0}' || c == '\U{1680}'
    || ('\U{2000}' <= c <= '\U{200A}') || c == '\U{2028}' || c == '\U{2029}'
    || c == '\U{202F}' || c == '\U{205F}' || c == '\U{3000}'
  }

  /** `not s.strip()`: empty or whitespace only. */
  predicate IsBlank(s: string) {
    forall i :: 0 <= i < |s| ==> IsSpace(s[i])
  }

  /** The first index at or after `i` that is not whitespace, or `|s|`. */
  function SkipSpaces(s: string, i: nat): (j: nat)
    requires i <= |s|
    ensures i <= j <= |s|
    decreases |s| - i
  {
    if i < |s| && IsSpace(s[i]) then SkipSpaces(s, i + 1) else i
  }

  lemma {:induction false} SkipSpacesStops(s: string, i: nat)
    requires i <= |s|
    ensures var j := SkipSpaces(s, i);
            (forall k :: i <= k < j ==> IsSpace(s[k])) && (j < |s| ==> !IsSpace(s[j]))
    decreases |s| - i
  {
    if i < |s| && IsSpace(s[i]) {
      SkipSpacesStops(s, i + 1);
    }
  }

  /** The end of `s[lo..hi]` once its trailing whitespace is dropped. */
  function BackSpaces(s: string, lo: nat, hi: nat): (j: nat)
    requires lo <= hi <= |s|
    ensures lo <= j <= hi
    decreases hi
  {
    if lo < hi && IsSpace(s[hi - 1]) then BackSpaces(s, lo, hi - 1) else hi
  }

  lemma {:induction false} BackSpacesStops(s: string, lo: nat, hi: nat)
    requires lo <= hi <= |s|
    ensures var j := BackSpaces(s, lo, hi);
            (forall k :: j <= k < hi ==> IsSpace(s[k])) && (lo < j ==> !IsSpace(s[j - 1]))
    decreases hi
  {
    if lo < hi && IsSpace(s[hi - 1]) {
      BackSpacesStops(s, lo, hi - 1);
    }
  }

  /** `s.strip()`. */
  function Strip(s: string): string {
    var lo := SkipSpaces(s, 0);
    s[lo..BackSpaces(s, lo, |s|)]
  }

  /** `s.strip()` is empty exactly when `s` is blank. */
  lemma StripBlank(s: string)
    ensures Strip(s) == [] <==> IsBlank(s)
  {
    var lo := SkipSpaces(s, 0);
    SkipSpacesStops(s, 0);
    BackSpacesStops(s, lo, |s|);
  }

  /** A non-empty result of `strip()` is not blank. */
  lemma StripNotBlank(s: string)
    ensures Strip(s) != [] ==> !IsBlank(Strip(s))
  {
    StripSpec(s);
  }

  /** `strip()` removes exactly the leading and trailing whitespace: the
      result is a slice of `s` with only whitespace outside it, it is empty
      exactly when `s` is blank, and otherwise it neither starts nor ends
      with whitespace. */
  lemma StripSpec(s: string)
    ensures var r := Strip(s);
            && |r| <= |s|
            && (r == [] <==> IsBlank(s))
            && (r != [] ==> !IsSpace(r[0]) && !IsSpace(r[|r| - 1]))
            && (exists lo, hi :: 0 <= lo <= hi <= |s| && r == s[lo..hi]
                 && (forall k :: 0 <= k < lo ==> IsSpace(s[k]))
                 && (forall k :: hi <= k < |s| ==> IsSpace(s[k])))
  {
    var lo := SkipSpaces(s, 0);
    var hi := BackSpaces(s, lo, |s|);
    SkipSpacesStops(s, 0);
    BackSpacesStops(s, lo, |s|);
    assert Strip(s) == s[lo..hi];
  }

  /** `sep.join(parts)`. */
  function Join(sep: string, parts: seq<string>): string {
    if |parts| == 0 then ""
    else if |parts| == 1 then parts[0]
    else parts[0] + sep + Join(sep, parts[1..])
  }

  lemma {:induction false} JoinAppend(sep: string, a: seq<string>, b: seq<string>)
    requires a != [] && b != []
    ensures Join(sep, a + b) == Join(sep, a) + sep + Join(sep, b)
  {
    if |a| == 1 {
      assert (a + b)[1..] == b;
    } else {
      assert (a + b)[1..] == a[1..] + b;
      JoinAppend(sep, a[1..], b);
    }
  }

  /** A join of some parts starts with the first part. */
  lemma JoinStarts(sep: string, parts: seq<string>)
    requires parts != []
    ensures StartsWith(Join(sep, parts), parts[0])
  {
    if |parts| > 1 {
      assert (parts[0] + sep + Join(sep, parts[1..]))[..|parts[0]|] == parts[0];
    }
  }

  /** A character found neither in the separator nor in any part is not in
      the join. */
  lemma {:induction false} JoinAvoids(sep: string, parts: seq<string>, c: char)
    requires c !in sep
    requires forall i :: 0 <= i < |parts| ==> c !in parts[i]
    ensures c !in Join(sep, parts)
  {
    if |parts| > 1 {
      JoinAvoids(sep, parts[1..], c);
    }
  }

  function Digit(d: nat): char
    requires d < 10
  {
    "0123456789"[d]
  }

  /** `str(n)` for a non-negative integer. */
  function NatToString(n: nat): (r: string)
    ensures r != []
    ensures forall i :: 0 <= i < |r| ==> '0' <= r[i] <= '9'
  {
    if n < 10 then [Digit(n)] else NatToString(n / 10) + [Digit(n % 10)]
  }

  predicate StartsWith(s: string, prefix: string) {
    |prefix| <= |s| && s[..|prefix|] == prefix
  }

  predicate EndsWith(s: string, suffix: string) {
    |suffix| <= |s| && s[|s| - |suffix|..] == suffix
  }

  /** Length of the longest prefix of `s` without whitespace. */
  function WordLength(s: string): (n: nat)
    ensures n <= |s|
    ensures forall i :: 0 <= i < n ==> !IsSpace(s[i])
    ensures n < |s| ==> IsSpace(s[n])
  {
    if s == [] || IsSpace(s[0]) then 0 else 1 + WordLength(s[1..])
  }

  /** `s.split()`: the maximal runs of non-whitespace characters. */
  function Words(s: string): (ws: seq<string>)
    ensures forall i :: 0 <= i < |ws| ==> ws[i] != [] && forall k :: 0 <= k < |ws[i]| ==> !IsSpace(ws[i][k])
    decreases |s|
  {
    if s == [] then []
    else if IsSpace(s[0]) then Words(s[1..])
    else
      var n := WordLength(s);
      [s[..n]] + Words(s[n..])
  }

  /** `w` is the slice of `s` starting at `a`, preceded and followed by
      whitespace or an end of `s`. */
  ghost predicate PlacedAt(w: string, s: string, a: nat) {
    && a + |w| <= |s| && w == s[a..a + |w|]
    && (0 < a ==> IsSpace(s[a - 1]))
    && (a + |w| < |s| ==> IsSpace(s[a + |w|]))
  }

  /** Every non-whitespace character of `s` from `lo` on lies in a word. */
  ghost predicate CoveredFrom(ws: seq<string>, s: string, at: seq<nat>, lo: nat)
    requires |at| == |ws|
  {
    forall i :: lo <= i < |s| && !IsSpace(s[i]) ==>
      exists k :: 0 <= k < |ws| && at[k] <= i < at[k] + |ws[k]|
  }

  /** Each word ends before the next one starts. */
  ghost predicate Apart(ws: seq<string>, at: seq<nat>)
    requires |at| == |ws|
  {
    forall k :: 0 <= k < |ws| - 1 ==> at[k] + |ws[k]| < at[k + 1]
  }

  /** `at` places each word of `ws` in `s`, in increasing order, and every
      non-whitespace character of `s` lies in one of them. */
  ghost predicate WordsAt(ws: seq<string>, s: string, at: seq<nat>) {
    && |at| == |ws|
    && (forall k :: 0 <= k < |ws| ==> PlacedAt(ws[k], s, at[k]))
    && Apart(ws, at)
    && CoveredFrom(ws, s, at, 0)
  }

  /** `ws` is the sequence of maximal non-whitespace runs of `s`, in
      order. */
  ghost predicate SplitsInto(s: string, ws: seq<string>) {
    exists at: seq<nat> :: WordsAt(ws, s, at)
  }

  function ShiftedBy(at: seq<nat>, d: nat): (r: seq<nat>)
    ensures |r| == |at| && forall k :: 0 <= k < |at| ==> r[k] == at[k] + d
  {
    seq(|at|, k requires 0 <= k < |at| => at[k] + d)
  }

  lemma PlacedShifted(w: string, s: string, a: nat, d: nat)
    requires d <= |s| && PlacedAt(w, s[d..], a)
    requires a == 0 && 0 < d ==> IsSpace(s[d - 1])
    ensures PlacedAt(w, s, a + d)
  {
    assert s[d..][a..a + |w|] == s[a + d..a + d + |w|];
    if 0 < a {
      assert s[d..][a - 1] == s[a + d - 1];
    }
    if a + d + |w| < |s| {
      assert s[d..][a + |w|] == s[a + d + |w|];
    }
  }

  lemma CoveredShifted(ws: seq<string>, s: string, at: seq<nat>, d: nat)
    requires d <= |s| && |at| == |ws| && CoveredFrom(ws, s[d..], at, 0)
    ensures CoveredFrom(ws, s, ShiftedBy(at, d), d)
  {
    var at' := ShiftedBy(at, d);
    forall i | d <= i < |s| && !IsSpace(s[i])
      ensures exists k :: 0 <= k < |ws| && at'[k] <= i < at'[k] + |ws[k]|
    {
      assert s[d..][i - d] == s[i];
      var k :| 0 <= k < |ws| && at[k] <= i - d < at[k] + |ws[k]|;
      assert at'[k] <= i < at'[k] + |ws[k]|;
    }
  }

  /** Words placed in the tail `s[d..]` are placed, `d` further on, in `s`,
      as long as a word at the tail's start is preceded by whitespace. */
  lemma WordsAtShifted(ws: seq<string>, s: string, at: seq<nat>, d: nat)
    requires 0 < d <= |s| && WordsAt(ws, s[d..], at)
    requires forall k :: 0 <= k < |at| && at[k] == 0 ==> IsSpace(s[d - 1])
    ensures forall k :: 0 <= k < |ws| ==> PlacedAt(ws[k], s, ShiftedBy(at, d)[k])
    ensures Apart(ws, ShiftedBy(at, d))
    ensures CoveredFrom(ws, s, ShiftedBy(at, d), d)
  {
    forall k | 0 <= k < |ws|
      ensures PlacedAt(ws[k], s, ShiftedBy(at, d)[k])
    {
      PlacedShifted(ws[k], s, at[k], d);
    }
    CoveredShifted(ws, s, at, d);
  }

  /** The step of `split()` past a word of length `n` at the start of `s`. */
  lemma WordThenRest(s: string, n: nat, rest: seq<string>, tail: seq<nat>)
    requires 0 < n <= |s| && |tail| == |rest|
    requires PlacedAt(s[..n], s, 0)
    requires forall k :: 0 <= k < |rest| ==> PlacedAt(rest[k], s, tail[k]) && n < tail[k]
    requires Apart(rest, tail) && CoveredFrom(rest, s, tail, n)
    requires forall i :: 0 <= i < n ==> !IsSpace(s[i])
    ensures WordsAt([s[..n]] + rest, s, [0] + tail)
  {
    var ws, at := [s[..n]] + rest, [0] + tail;
    forall k | 0 <= k < |ws|
      ensures PlacedAt(ws[k], s, at[k])
    {
      if k > 0 {
        assert at[k] == tail[k - 1] && ws[k] == rest[k - 1];
      }
    }
    forall k | 0 <= k < |ws| - 1
      ensures at[k] + |ws[k]| < at[k + 1]
    {
      if k > 0 {
        assert at[k] == tail[k - 1] && ws[k] == rest[k - 1] && at[k + 1] == tail[k];
      }
    }
    forall i | 0 <= i < |s| && !IsSpace(s[i])
      ensures exists k :: 0 <= k < |ws| && at[k] <= i < at[k] + |ws[k]|
    {
      if i < n {
        assert at[0] <= i < at[0] + |ws[0]|;
      } else {
        var k :| 0 <= k < |rest| && tail[k] <= i < tail[k] + |rest[k]|;
        assert at[k + 1] <= i < at[k + 1] + |ws[k + 1]|;
      }
    }
  }

  /** Where `split()` finds each word: the positions that show `Words(s)`
      is the sequence of maximal runs of `s`. */
  lemma {:induction false} WordsPositions(s: string) returns (at: seq<nat>)
    ensures WordsAt(Words(s), s, at)
    decreases |s|
  {
    if s == [] {
      at := [];
    } else if IsSpace(s[0]) {
      var at0 := WordsPositions(s[1..]);
      WordsAtShifted(Words(s[1..]), s, at0, 1);
      at := ShiftedBy(at0, 1);
    } else {
      var n := WordLength(s);
      var rest := Words(s[n..]);
      var at0 := WordsPositions(s[n..]);
      forall k | 0 <= k < |at0|
        ensures at0[k] != 0
      {
        assert rest[k][0] == s[n..][at0[k]];
        assert s[n..][0] == s[n];
      }
      WordsAtShifted(rest, s, at0, n);
      assert PlacedAt(s[..n], s, 0);
      WordThenRest(s, n, rest, ShiftedBy(at0, n));
      at := [0] + ShiftedBy(at0, n);
    }
  }

  /** `s.split()` gives exactly the maximal runs of non-whitespace
      characters of `s`, in order, and nothing when `s` is blank. */
  lemma WordsSpec(s: string)
    ensures SplitsInto(s, Words(s))
    ensures Words(s) == [] <==> IsBlank(s)
  {
    var at := WordsPositions(s);
    if !IsBlank(s) {
      var i :| 0 <= i < |s| && !IsSpace(s[i]);
    }
  }

  /** `s.rfind(c, lo, hi)` for `0 <= lo` and `hi <= |s|`: the last index in
      `[lo, hi)` holding `c`, or -1. */
  function LastIndexOf(s: string, c: char, lo: nat, hi: int): (r: int)
    requires hi <= |s|
    ensures r == -1 || (lo <= r < hi && s[r] == c)
    decreases hi
  {
    if hi <= lo then -1
    else if s[hi - 1] == c then hi - 1
    else LastIndexOf(s, c, lo, hi - 1)
  }

  /** `rfind` finds the last occurrence: none lies after the index it
      returns, and -1 means there is none at all. */
  lemma {:induction false} LastIndexOfIsLast(s: string, c: char, lo: nat, hi: int)
    requires hi <= |s|
    ensures forall k :: lo <= k < hi && LastIndexOf(s, c, lo, hi) < k ==> s[k] != c
    decreases hi
  {
    if hi > lo && s[hi - 1] != c {
      LastIndexOfIsLast(s, c, lo, hi - 1);
    }
  }

  /** `s.lower()` on ASCII letters. */
  function Lower(s: string): (r: string)
    ensures |r| == |s|
    ensures forall i :: 0 <= i < |s| ==> r[i] == (if 'A' <= s[i] <= 'Z' then s[i] - 'A' + 'a' else s[i])
  {
    if s == [] then []
    else [if 'A' <= s[0] <= 'Z' then s[0] - 'A' + 'a' else s[0]] + Lower(s[1..])
  }
}
