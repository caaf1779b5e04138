/**
  * The handful of Python string operations the notification and report
  * code relies on, each with the meaning Python gives it: `str.split` on
  * one character, `'\n'.join`, `startswith`/`endswith`, substring search,
  * `str.split(sep, 1)`, `str.strip()` with and without an argument,
  * `str.replace`, and the decimal rendering of integers used by f-strings
  * and `:02d`.
  */
module Text {
  import opened Wrappers

  // ---------------------------------------------------------------------
  // Prefixes, suffixes, occurrences
  // ---------------------------------------------------------------------

  predicate StartsWith(s: string, p: string) {
    |p| <= |s| && s[..|p|] == p
  }

  predicate EndsWith(s: string, p: string) {
    |p| <= |s| && s[|s| - |p|..] == p
  }

  /** `pat` occurs in `s` starting at index `i`. */
  predicate OccursAt(s: string, pat: string, i: int) {
    0 <= i && i + |pat| <= |s| && s[i..i + |pat|] == pat
  }

  /** Index of the leftmost occurrence of `pat` in `s` (Python's `str.find`). */
  function Find(s: string, pat: string): (r: Option<nat>)
    ensures r.Some? ==> OccursAt(s, pat, r.value)
    ensures r.Some? ==> forall j :: 0 <= j < r.value ==> !OccursAt(s, pat, j)
    ensures r.None? ==> forall j :: 0 <= j ==> !OccursAt(s, pat, j)
    decreases |s|
  {
    if |s| < |pat| then None
    else if s[..|pat|] == pat then Some(0)
    else
      match Find(s[1..], pat)
      case None =>
        assert forall j :: 1 <= j ==> (OccursAt(s, pat, j) <==> OccursAt(s[1..], pat, j - 1));
        None
      case Some(k) =>
        assert forall j :: 1 <= j ==> (OccursAt(s, pat, j) <==> OccursAt(s[1..], pat, j - 1));
        Some(k + 1)
  }

  /** Python's `pat in s`. */
  predicate Contains(s: string, pat: string) {
    Find(s, pat).Some?
  }

  lemma ContainsIff(s: string, pat: string)
    ensures Contains(s, pat) <==> exists j :: OccursAt(s, pat, j)
  {
  }

  /** An occurrence in a suffix is an occurrence in the whole text. */
  lemma ContainsAppend(a: string, b: string, pat: string)
    requires Contains(b, pat)
    ensures Contains(a + b, pat)
  {
    ContainsIff(b, pat);
    var j :| OccursAt(b, pat, j);
    assert (a + b)[|a| + j..|a| + j + |pat|] == b[j..j + |pat|];
    assert OccursAt(a + b, pat, |a| + j);
    ContainsIff(a + b, pat);
  }

  /** Python's `s.split(sep, 1)`: one piece when `sep` is absent, else the
      text before and after the leftmost `sep`. */
  function SplitOnce(s: string, sep: string): (r: seq<string>)
    requires |sep| > 0
    ensures Find(s, sep).None? ==> r == [s]
    ensures Find(s, sep).Some? ==> |r| == 2 && r[0] + sep + r[1] == s && !Contains(r[0] + sep[..|sep| - 1], sep)
  {
    match Find(s, sep)
    case None => [s]
    case Some(i) =>
      var before, after := s[..i], s[i + |sep|..];
      assert before + sep + after == s;
      PrefixFree(s, sep, i);
      [before, after]
  }

  /** No occurrence of `sep` ends before the leftmost one is complete. */
  lemma PrefixFree(s: string, sep: string, i: nat)
    requires |sep| > 0
    requires OccursAt(s, sep, i)
    requires forall j :: 0 <= j < i ==> !OccursAt(s, sep, j)
    ensures !Contains(s[..i] + sep[..|sep| - 1], sep)
  {
    var t := s[..i] + sep[..|sep| - 1];
    forall k | 0 <= k < |t| ensures t[k] == s[k] {
      if k >= i { assert t[k] == sep[k - i] == s[i..i + |sep|][k - i]; }
    }
    forall j | 0 <= j ensures !OccursAt(t, sep, j) {
      if j + |sep| <= |t| {
        assert j < i && !OccursAt(s, sep, j);
        assert t[j..j + |sep|] == s[j..j + |sep|];
      }
    }
  }

  // ---------------------------------------------------------------------
  // Splitting on a character and joining
  // ---------------------------------------------------------------------

  /** `parts` joined with `sep` between neighbours (Python's `sep.join`). */
  function Join(parts: seq<string>, sep: string): string {
    if |parts| == 0 then ""
    else if |parts| == 1 then parts[0]
    else parts[0] + sep + Join(parts[1..], sep)
  }

  /** A join of two or more parts opens with the first two and the
      separator between them. */
  lemma JoinStartsWith(a: string, b: string, rest: seq<string>, sep: string)
    ensures StartsWith(Join([a, b] + rest, sep), a + sep + b)
  {
    var tail := if rest == [] then "" else sep + Join(rest, sep);
    assert ([a, b] + rest)[1..] == [b] + rest;
    assert ([b] + rest)[1..] == rest;
    assert Join([b] + rest, sep) == b + tail;
    assert Join([a, b] + rest, sep) == a + sep + b + tail;
    assert (a + sep + b + tail)[..|a + sep + b|] == a + sep + b;
  }

  /** Python's `s.split(c)` for a single character `c`. */
  function SplitOn(s: string, c: char): (r: seq<string>)
    ensures |r| >= 1
    ensures forall i :: 0 <= i < |r| ==> c !in r[i]
    decreases |s|
  {
    if s == [] then [""]
    else
      var rest := SplitOn(s[1..], c);
      if s[0] == c then [""] + rest
      else [[s[0]] + rest[0]] + rest[1..]
  }

  /** Joining the pieces of a split with the separator gives back the text. */
  lemma {:induction false} JoinSplitOn(s: string, c: char)
    ensures Join(SplitOn(s, c), [c]) == s
    decreases |s|
  {
    if s != [] {
      var rest := SplitOn(s[1..], c);
      JoinSplitOn(s[1..], c);
      if s[0] == c {
        assert SplitOn(s, c) == [""] + rest;
        assert Join([""] + rest, [c]) == "" + [c] + Join(rest, [c]);
      } else {
        var r := [[s[0]] + rest[0]] + rest[1..];
        if |rest| == 1 {
          assert Join(r, [c]) == [s[0]] + rest[0];
        } else {
          assert r[1..] == rest[1..];
          assert Join(r, [c]) == [s[0]] + rest[0] + [c] + Join(rest[1..], [c]);
          assert Join(rest, [c]) == rest[0] + [c] + Join(rest[1..], [c]);
        }
      }
    }
  }

  /** Splitting a join of separator-free pieces gives back the pieces. */
  lemma {:induction false} SplitOnJoin(parts: seq<string>, c: char)
    requires |parts| >= 1
    requires forall i :: 0 <= i < |parts| ==> c !in parts[i]
    ensures SplitOn(Join(parts, [c]), c) == parts
    decreases |parts|
  {
    if |parts| == 1 {
      NoSepSplit(parts[0], c);
    } else {
      SplitOnJoin(parts[1..], c);
      SplitAfterSep(parts[0], Join(parts[1..], [c]), c);
      assert [parts[0]] + parts[1..] == parts;
    }
  }

  lemma {:induction false} NoSepSplit(s: string, c: char)
    requires c !in s
    ensures SplitOn(s, c) == [s]
    decreases |s|
  {
    if s != [] {
      NoSepSplit(s[1..], c);
      assert [s[0]] + s[1..] == s;
    }
  }

  lemma {:induction false} SplitAfterSep(a: string, b: string, c: char)
    requires c !in a
    ensures SplitOn(a + [c] + b, c) == [a] + SplitOn(b, c)
    decreases |a|
  {
    if a == [] {
      assert a + [c] + b == [c] + b;
      assert ([c] + b)[1..] == b;
    } else {
      assert (a + [c] + b)[1..] == a[1..] + [c] + b;
      SplitAfterSep(a[1..], b, c);
      assert [a[0]] + a[1..] == a;
    }
  }

  // ---------------------------------------------------------------------
  // Stripping
  // ---------------------------------------------------------------------

  /** Python's notion of whitespace for `str.strip()` with no argument. */
  predicate IsSpace(c: char) {
    ('\t' <= c <= '\r') || ('\U{1C}' <= c <= ' ') || c == '\U{85}' || c == '\U{A0}' ||
    c == '\U{1680}' || ('\U{2000}' <= c <= '\U{200A}') || c == '\U{2028}' || c == '\U{2029}' ||
    c == '\U{202F}' || c == '\U{205F}' || c == '\U{3000}'
  }

  /** The characters `str.strip('() ')` removes. */
  predicate IsParenOrSpace(c: char) {
    c == '(' || c == ')' || c == ' '
  }

  /** Drops the leading characters that satisfy `drop`. */
  function TrimStart(s: string, drop: char -> bool): (r: string)
    ensures EndsWith(s, r)
    ensures r == [] || !drop(r[0])
    ensures forall k :: 0 <= k < |s| - |r| ==> drop(s[k])
    decreases |s|
  {
    if s != [] && drop(s[0]) then TrimStart(s[1..], drop) else s
  }

  /** Drops the trailing characters that satisfy `drop`. */
  function TrimEnd(s: string, drop: char -> bool): (r: string)
    ensures StartsWith(s, r)
    ensures r == [] || !drop(r[|r| - 1])
    ensures forall k :: |r| <= k < |s| ==> drop(s[k])
    decreases |s|
  {
    if s != [] && drop(s[|s| - 1]) then TrimEnd(s[..|s| - 1], drop) else s
  }

  /** `r` is the slice of `s` at `i`, and everything outside it satisfies `drop`. */
  predicate StrippedAt(s: string, r: string, drop: char -> bool, i: int) {
    0 <= i && i + |r| <= |s| && s[i..i + |r|] == r &&
    (forall k :: 0 <= k < i ==> drop(s[k])) &&
    (forall k :: i + |r| <= k < |s| ==> drop(s[k]))
  }

  /** Python's `s.strip(chars)`: drop the leading, then the trailing
      characters that satisfy `drop`. */
  function Strip(s: string, drop: char -> bool): (r: string)
    ensures r == [] || (!drop(r[0]) && !drop(r[|r| - 1]))
  {
    TrimEnd(TrimStart(s, drop), drop)
  }

  /** What is left after stripping is a slice of the text, and everything
      removed around it satisfies `drop`. */
  lemma StripIsSlice(s: string, drop: char -> bool)
    ensures StrippedAt(s, Strip(s, drop), drop, |s| - |TrimStart(s, drop)|)
  {
    StripSliceAt(s, drop);
    StripBack(s, drop);
  }

  lemma StripSliceAt(s: string, drop: char -> bool)
    ensures var i := |s| - |TrimStart(s, drop)|;
      i + |Strip(s, drop)| <= |s| && s[i..i + |Strip(s, drop)|] == Strip(s, drop)
  {
    var t := TrimStart(s, drop);
    var r := TrimEnd(t, drop);
    var i := |s| - |t|;
    assert s[i..] == t;
    assert s[i..i + |r|] == s[i..][..|r|];
  }

  lemma StripBack(s: string, drop: char -> bool)
    ensures var i := |s| - |TrimStart(s, drop)|;
      forall k :: i + |Strip(s, drop)| <= k < |s| ==> drop(s[k])
  {
    var t := TrimStart(s, drop);
    var r := TrimEnd(t, drop);
    var i := |s| - |t|;
    assert s[i..] == t;
    forall k | i + |r| <= k < |s|
      ensures drop(s[k])
    {
      assert s[k] == t[k - i];
    }
  }

  /** Stripping a text made of droppable ends around a middle whose first
      and last characters are kept leaves exactly that middle. */
  lemma StripMiddle(a: string, m: string, b: string, drop: char -> bool)
    requires m != [] && !drop(m[0]) && !drop(m[|m| - 1])
    requires forall k :: 0 <= k < |a| ==> drop(a[k])
    requires forall k :: 0 <= k < |b| ==> drop(b[k])
    ensures Strip(a + m + b, drop) == m
  {
    var s := a + m + b;
    var r := Strip(s, drop);
    StripIsSlice(s, drop);
    var i := |s| - |TrimStart(s, drop)|;
    assert s[|a|] == m[0];
    assert s[|a| + |m| - 1] == m[|m| - 1];
    assert r != [];
    assert i == |a| by {
      assert s[i] == r[0];
    }
    assert i + |r| == |a| + |m| by {
      assert s[i + |r| - 1] == r[|r| - 1];
    }
    assert s[|a|..|a| + |m|] == m;
  }

  /** A text that starts and ends with kept characters is its own strip. */
  lemma StripKept(s: string, drop: char -> bool)
    requires s == [] || (!drop(s[0]) && !drop(s[|s| - 1]))
    ensures Strip(s, drop) == s
  {
  }

  // ---------------------------------------------------------------------
  // Replacement
  // ---------------------------------------------------------------------

  /** Python's `s.replace(pat, rep)`: every leftmost, non-overlapping
      occurrence of `pat` is replaced. */
  function ReplaceAll(s: string, pat: string, rep: string): (r: string)
    requires |pat| > 0
    ensures !Contains(s, pat) ==> r == s
    decreases |s|
  {
    if |s| < |pat| then s
    else if s[..|pat|] == pat then rep + ReplaceAll(s[|pat|..], pat, rep)
    else
      assert !Contains(s, pat) ==> !Contains(s[1..], pat) by {
        if Contains(s[1..], pat) {
          var j := Find(s[1..], pat).value;
          assert s[j + 1..j + 1 + |pat|] == s[1..][j..j + |pat|];
          assert OccursAt(s, pat, j + 1);
          ContainsIff(s, pat);
        }
      }
      [s[0]] + ReplaceAll(s[1..], pat, rep)
  }

  /** A pattern whose first two characters never stand side by side in
      `s` does not occur in it. */
  lemma AbsentPair(s: string, pat: string)
    requires |pat| >= 2
    requires forall j :: 0 <= j < |s| - 1 && s[j] == pat[0] ==> s[j + 1] != pat[1]
    ensures !Contains(s, pat)
  {
    forall j | 0 <= j
      ensures !OccursAt(s, pat, j)
    {
      if j + |pat| <= |s| {
        var w := s[j..j + |pat|];
        assert w[0] == s[j] && w[1] == s[j + 1];
      }
    }
    ContainsIff(s, pat);
  }

  /** A leading stretch without the pattern's first character passes
      through a replacement untouched. */
  lemma {:induction false} ReplaceSkip(u: string, w: string, pat: string, rep: string)
    requires |pat| > 0 && pat[0] !in u
    ensures ReplaceAll(u + w, pat, rep) == u + ReplaceAll(w, pat, rep)
    decreases |u|
  {
    if u != [] {
      var s := u + w;
      if |s| < |pat| {
        assert ReplaceAll(w, pat, rep) == w;
      } else {
        assert s[..|pat|] != pat by { assert s[0] == u[0]; }
        assert s[1..] == u[1..] + w;
        ReplaceSkip(u[1..], w, pat, rep);
        assert [u[0]] + u[1..] == u;
      }
    } else {
      assert u + w == w;
    }
  }

  /** An occurrence of the pattern at the front is replaced, and the rest
      is processed after it. */
  lemma ReplaceHead(w: string, pat: string, rep: string)
    requires |pat| > 0
    ensures ReplaceAll(pat + w, pat, rep) == rep + ReplaceAll(w, pat, rep)
  {
    assert (pat + w)[..|pat|] == pat;
    assert (pat + w)[|pat|..] == w;
  }

  // ---------------------------------------------------------------------
  // Repetition and decimal numbers
  // ---------------------------------------------------------------------

  /** Python's `c * n` for a one-character string. */
  function Repeat(c: char, n: nat): (r: string)
    ensures |r| == n && forall k :: 0 <= k < n ==> r[k] == c
  {
    if n == 0 then "" else [c] + Repeat(c, n - 1)
  }

  predicate IsDigit(c: char) {
    '0' <= c <= '9'
  }

  function DigitChar(d: nat): (c: char)
    requires d < 10
    ensures IsDigit(c) && c as int - '0' as int == d
  {
    ('0' as int + d) as char
  }

  /** The decimal rendering of `n`, as `str(n)` gives it. */
  function NatToString(n: nat): (r: string)
    ensures |r| >= 1 && forall k :: 0 <= k < |r| ==> IsDigit(r[k])
    ensures |r| > 1 ==> r[0] != '0'
    ensures n < 10 <==> |r| == 1
  {
    if n < 10 then [DigitChar(n)] else NatToString(n / 10) + [DigitChar(n % 10)]
  }

  function DigitValue(c: char): (d: nat)
    requires IsDigit(c)
    ensures d < 10
  {
    c as int - '0' as int
  }

  /** The value of a string of decimal digits. */
  function ParseDigits(s: string): nat
    requires forall k :: 0 <= k < |s| ==> IsDigit(s[k])
  {
    if s == [] then 0 else 10 * ParseDigits(s[..|s| - 1]) + DigitValue(s[|s| - 1])
  }

  /** Reading back the rendering of a number gives the number. */
  lemma {:induction false} ParseNatToString(n: nat)
    ensures ParseDigits(NatToString(n)) == n
  {
    if n >= 10 {
      ParseNatToString(n / 10);
      var s := NatToString(n);
      assert s[..|s| - 1] == NatToString(n / 10);
    }
  }

  /** Distinct numbers render differently. */
  lemma NatToStringInjective(m: nat, n: nat)
    requires NatToString(m) == NatToString(n)
    ensures m == n
  {
    ParseNatToString(m);
    ParseNatToString(n);
  }

  /** `str(i)` for any integer: a minus sign before the digits when negative. */
  function IntToString(i: int): (r: string)
    ensures |r| >= 1
    ensures i < 0 <==> r[0] == '-'
    ensures forall k :: (if i < 0 then 1 else 0) <= k < |r| ==> IsDigit(r[k])
  {
    if i < 0 then "-" + NatToString(-i) else NatToString(i)
  }

  /** The `{n:02d}` rendering: at least two digits, zero-padded on the left. */
  function ZeroPad2(n: nat): (r: string)
    ensures |r| >= 2 && forall k :: 0 <= k < |r| ==> IsDigit(r[k])
    ensures ParseDigits(r) == n
    ensures n < 100 <==> |r| == 2
  {
    ParseNatToString(n);
    var s := NatToString(n);
    if n < 10 then
      assert ("0" + s)[..1] == "0";
      "0" + s
    else
      s
  }
}
