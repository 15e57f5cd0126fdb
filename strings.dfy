/** The Python `str` operations the modelled code uses, on `string` (a sequence of
    Unicode characters): `sep.join`, `split` on one character, `in`, `find`,
    slicing with clamped bounds, `strip`, `count` of a character and `str(int)`. */
module Strings {

  // ---------------------------------------------------------------- join / split

  /** `sep.join(parts)` */
  function Join(sep: string, parts: seq<string>): string
  {
    if |parts| == 0 then ""
    else if |parts| == 1 then parts[0]
    else parts[0] + sep + Join(sep, parts[1..])
  }

  /** `s.split(c)` for a one-character separator: the pieces between separators,
      empty pieces included, and never an empty list. */
  function Split(s: string, c: char): (parts: seq<string>)
    ensures |parts| >= 1
    ensures forall i :: 0 <= i < |parts| ==> c !in parts[i]
  {
    if s == [] then [""]
    else
      var rest := Split(s[1..], c);
      if s[0] == c then [""] + rest
      else [[s[0]] + rest[0]] + rest[1..]
  }

  lemma {:induction false} SplitWithoutSeparator(p: string, c: char)
    requires c !in p
    ensures Split(p, c) == [p]
  {
    if p != [] {
      SplitWithoutSeparator(p[1..], c);
      assert [p[0]] + p[1..] == p;
    }
  }

  lemma {:induction false} SplitAfterFirstPiece(p: string, c: char, rest: string)
    requires c !in p
    ensures Split(p + [c] + rest, c) == [p] + Split(rest, c)
  {
    if p == [] {
      assert p + [c] + rest == [c] + rest;
      assert ([c] + rest)[1..] == rest;
    } else {
      SplitAfterFirstPiece(p[1..], c, rest);
      assert (p + [c] + rest)[1..] == p[1..] + [c] + rest;
      assert [p[0]] + p[1..] == p;
    }
  }

  /** Joining pieces that do not contain the separator and splitting again gives
      the pieces back. */
  lemma {:induction false} SplitJoin(parts: seq<string>, c: char)
    requires |parts| >= 1
    requires forall i :: 0 <= i < |parts| ==> c !in parts[i]
    ensures Split(Join([c], parts), c) == parts
  {
    if |parts| == 1 {
      SplitWithoutSeparator(parts[0], c);
    } else {
      SplitJoin(parts[1..], c);
      SplitAfterFirstPiece(parts[0], c, Join([c], parts[1..]));
      assert [parts[0]] + parts[1..] == parts;
    }
  }

  // ---------------------------------------------------------------- in / find

  predicate OccursAt(s: string, pat: string, k: int)
  {
    0 <= k && k + |pat| <= |s| && s[k..k + |pat|] == pat
  }

  /** `pat in s` */
  predicate Contains(s: string, pat: string)
  {
    exists k | 0 <= k <= |s| - |pat| :: OccursAt(s, pat, k)
  }

  function FindFrom(s: string, pat: string, from: nat): (i: int)
    decreases |s| - from
    ensures i == -1 || (from <= i && OccursAt(s, pat, i))
    ensures forall k :: from <= k && (i == -1 || k < i) ==> !OccursAt(s, pat, k)
  {
    if from + |pat| > |s| then -1
    else if s[from..from + |pat|] == pat then from
    else FindFrom(s, pat, from + 1)
  }

  /** `s.find(pat)`: the least index at which `pat` occurs, or -1 when it does not. */
  function Find(s: string, pat: string): (i: int)
    ensures i == -1 <==> !Contains(s, pat)
    ensures i != -1 ==> OccursAt(s, pat, i) && forall k :: 0 <= k < i ==> !OccursAt(s, pat, k)
  {
    FindFrom(s, pat, 0)
  }

  /** `find` gives an index when the pattern occurs there and nowhere before. */
  lemma FindIs(s: string, pat: string, i: nat)
    requires OccursAt(s, pat, i)
    requires forall k :: 0 <= k < i ==> !OccursAt(s, pat, k)
    ensures Find(s, pat) == i
  {
    assert Contains(s, pat);
  }

  /** A pattern occurs where a piece of the string shows it. */
  lemma OccursInPiece(s: string, off: nat, piece: string, pat: string, k: nat)
    requires off + |piece| <= |s| && s[off..off + |piece|] == piece
    requires off <= k && k + |pat| <= off + |piece|
    ensures OccursAt(s, pat, k) <==> OccursAt(piece, pat, k - off)
  {
    var window, part := s[k..k + |pat|], piece[k - off..k - off + |pat|];
    forall j | 0 <= j < |pat|
      ensures window[j] == part[j]
    {
      assert part[j] == piece[k - off + j] == s[off..off + |piece|][k - off + j];
    }
    assert window == part;
  }

  /** A pattern without a line break does not occur across one. */
  lemma NotAcrossNewline(s: string, pat: string, k: nat, n: nat)
    requires '\n' !in pat
    requires n < |s| && s[n] == '\n'
    requires k <= n < k + |pat|
    ensures !OccursAt(s, pat, k)
  {
  }

  // ---------------------------------------------------------------- slicing

  /** `s[i:j]` for non-negative bounds: both bounds are clamped to `len(s)` and a
      reversed range is empty. */
  function Slice(s: string, i: nat, j: nat): (r: string)
    ensures |r| <= |s|
    ensures i <= j <= |s| ==> r == s[i..j]
    ensures j <= i ==> r == ""
  {
    var a := if i < |s| then i else |s|;
    var b := if j < |s| then j else |s|;
    if a < b then s[a..b] else ""
  }

  /** `s[:n]` */
  function Head(s: string, n: nat): (r: string)
    ensures |r| == if n < |s| then n else |s|
    ensures r <= s
  {
    Slice(s, 0, n)
  }

  /** `s.endswith(t)` */
  predicate EndsWith(s: string, t: string)
  {
    |t| <= |s| && s[|s| - |t|..] == t
  }

  lemma PrefixOfAppend(a: string, b: string)
    ensures a <= a + b
  {
    assert (a + b)[..|a|] == a;
  }

  lemma EndsWithAppend(a: string, b: string)
    ensures EndsWith(a + b, b)
  {
    assert (a + b)[|a|..] == b;
  }

  // ---------------------------------------------------------------- strip

  /** `c.isspace()`: the characters Python counts as whitespace. */
  predicate IsSpace(c: char)
  {
    || c == ' '
    || ('\t' <= c <= '\r')
    || ('\U{1c}' <= c <= '\U{1f}')
    || c == '\U{85}' || c == '\U{a0}' || c == '\U{1680}'
    || ('\U{2000}' <= c <= '\U{200a}')
    || c == '\U{2028}' || c == '\U{2029}' || c == '\U{202f}' || c == '\U{205f}' || c == '\U{3000}'
  }

  predicate AllSpace(s: string)
  {
    forall i :: 0 <= i < |s| ==> IsSpace(s[i])
  }

  /** `s.lstrip()` */
  function LStrip(s: string): (r: string)
    ensures |r| <= |s| && r == s[|s| - |r|..]
    ensures AllSpace(s[..|s| - |r|])
    ensures r != [] ==> !IsSpace(r[0])
  {
    if s != [] && IsSpace(s[0]) then
      var r := LStrip(s[1..]);
      LStripStep(s, r);
      r
    else s
  }

  lemma LStripStep(s: string, r: string)
    requires s != [] && IsSpace(s[0])
    requires |r| <= |s| - 1 && r == s[1..][|s| - 1 - |r|..]
    requires AllSpace(s[1..][..|s| - 1 - |r|])
    ensures r == s[|s| - |r|..]
    ensures AllSpace(s[..|s| - |r|])
  {
    var n := |s| - |r|;
    forall i | 0 <= i < n ensures IsSpace(s[..n][i])
    {
      if i > 0 {
        assert s[..n][i] == s[1..][..n - 1][i - 1];
      }
    }
  }

  /** `s.rstrip()` */
  function RStrip(s: string): (r: string)
    ensures r <= s
    ensures AllSpace(s[|r|..])
    ensures r != [] ==> !IsSpace(r[|r| - 1])
  {
    if s != [] && IsSpace(s[|s| - 1]) then
      var r := RStrip(s[..|s| - 1]);
      RStripStep(s, r);
      r
    else s
  }

  lemma RStripStep(s: string, r: string)
    requires s != [] && IsSpace(s[|s| - 1])
    requires r <= s[..|s| - 1]
    requires AllSpace(s[..|s| - 1][|r|..])
    ensures r <= s
    ensures AllSpace(s[|r|..])
  {
    var n := |s| - 1;
    forall j | 0 <= j < |s| - |r| ensures IsSpace(s[|r|..][j])
    {
      if |r| + j < n {
        assert s[|r|..][j] == s[..n][|r|..][j];
      }
    }
  }

  /** `s.strip()`: the part of `s` left when the leading and the trailing
      whitespace are cut off. */
  function Strip(s: string): (r: string)
    ensures r != [] ==> !IsSpace(r[0]) && !IsSpace(r[|r| - 1])
    ensures |r| <= |s|
  {
    RStrip(LStrip(s))
  }

  /** Text without whitespace at either end is left as it is. */
  lemma StripStripped(s: string)
    requires s == [] || (!IsSpace(s[0]) && !IsSpace(s[|s| - 1]))
    ensures Strip(s) == s
  {
  }

  /** `s.strip().strip() == s.strip()` */
  lemma StripIdempotent(s: string)
    ensures Strip(Strip(s)) == Strip(s)
  {
    StripStripped(Strip(s));
  }

  lemma {:induction false} LStripAppend(s: string, c: char)
    ensures LStrip(s) == [] ==> LStrip(s + [c]) == LStrip([c])
    ensures LStrip(s) != [] ==> LStrip(s + [c]) == LStrip(s) + [c]
  {
    if s != [] {
      assert (s + [c])[0] == s[0];
      assert (s + [c])[1..] == s[1..] + [c];
      if IsSpace(s[0]) {
        LStripAppend(s[1..], c);
      }
    } else {
      assert s + [c] == [c];
    }
  }

  lemma RStripSpace(x: string, c: char)
    requires IsSpace(c)
    ensures RStrip(x + [c]) == RStrip(x)
  {
    assert (x + [c])[..|x|] == x;
  }

  /** Whitespace after the text does not change what `strip` keeps. */
  lemma {:induction false} StripTrailingSpace(s: string, t: string)
    requires AllSpace(t)
    ensures Strip(s + t) == Strip(s)
  {
    if t != [] {
      var u := t[..|t| - 1];
      var c := t[|t| - 1];
      assert s + t == (s + u) + [c];
      StripTrailingSpace(s, u);
      LStripAppend(s + u, c);
      var l := LStrip(s + u);
      if l == [] {
        assert LStrip([c]) == LStrip([c][1..]);
      } else {
        RStripSpace(l, c);
      }
    } else {
      assert s + t == s;
    }
  }

  // ---------------------------------------------------------------- count

  /** `s.count(c)` for one character */
  function CountChar(s: string, c: char): nat
  {
    if s == [] then 0 else (if s[0] == c then 1 else 0) + CountChar(s[1..], c)
  }

  lemma {:induction false} CountCharAppend(a: string, b: string, c: char)
    ensures CountChar(a + b, c) == CountChar(a, c) + CountChar(b, c)
  {
    if a == [] {
      assert a + b == b;
    } else {
      assert (a + b)[1..] == a[1..] + b;
      CountCharAppend(a[1..], b, c);
    }
  }

  lemma {:induction false} CountCharAbsent(s: string, c: char)
    requires c !in s
    ensures CountChar(s, c) == 0
  {
    if s != [] {
      CountCharAbsent(s[1..], c);
    }
  }

  // ---------------------------------------------------------------- str(int)

  function DigitChar(d: nat): char
    requires d < 10
  {
    ('0' as int + d) as char
  }

  predicate IsDigits(s: string)
  {
    |s| >= 1 && forall i :: 0 <= i < |s| ==> '0' <= s[i] <= '9'
  }

  /** `str(n)` for a natural number: its decimal digits, most significant first. */
  function Digits(n: nat): (s: string)
    ensures IsDigits(s)
  {
    if n < 10 then [DigitChar(n)] else Digits(n / 10) + [DigitChar(n % 10)]
  }

  /** `str(i)` for any integer */
  function Decimal(i: int): (s: string)
    ensures |s| >= 1
  {
    if i < 0 then "-" + Digits(-i) else Digits(i)
  }

  /** `int(s)` for a string of decimal digits */
  function DigitsValue(s: string): nat
    requires IsDigits(s)
  {
    var d := (s[|s| - 1] as int) - ('0' as int);
    if |s| == 1 then d else DigitsValue(s[..|s| - 1]) * 10 + d
  }

  /** `int(s)` for an optionally signed decimal numeral */
  function DecimalValue(s: string): int
    requires IsDigits(s) || (|s| >= 2 && s[0] == '-' && IsDigits(s[1..]))
  {
    if s[0] == '-' then -(DigitsValue(s[1..]) as int) else DigitsValue(s)
  }

  lemma {:induction false} DigitsRoundTrip(n: nat)
    ensures DigitsValue(Digits(n)) == n
  {
    if n >= 10 {
      DigitsRoundTrip(n / 10);
      var s := Digits(n / 10) + [DigitChar(n % 10)];
      assert s[..|s| - 1] == Digits(n / 10);
    }
  }

  /** `int(str(i)) == i`: the decimal text of an integer reads back as that integer. */
  lemma DecimalRoundTrip(i: int)
    ensures var s := Decimal(i); (IsDigits(s) || (|s| >= 2 && s[0] == '-' && IsDigits(s[1..]))) && DecimalValue(s) == i
  {
    if i < 0 {
      DigitsRoundTrip(-i);
      assert ("-" + Digits(-i))[1..] == Digits(-i);
    } else {
      DigitsRoundTrip(i);
    }
  }
}
