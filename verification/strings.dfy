/** The handful of Python `str` operations the core relies on, given their
    Python meaning: `sep.join(xs)`, `s.split()` with no argument, `sub in s`,
    `s.replace(old, new)`, slicing with negative and out-of-range indices,
    ASCII `lower()` and `str(n)` for integers. */
module Strings {

  /** The characters below 0x80 that Python's `str.split()` treats as
      whitespace: space, \t, \n, \x0b, \x0c, \r and the separators \x1c-\x1f. */
  predicate IsSpace(c: char) {
    c == ' ' || c == '\t' || c == '\n' || c == '\r'
    || c == '\U{000B}' || c == '\U{000C}'
    || c == '\U{001C}' || c == '\U{001D}' || c == '\U{001E}' || c == '\U{001F}'
  }

  /** A token of `split()`: non-empty, without whitespace. */
  predicate IsToken(w: string) {
    |w| > 0 && forall i :: 0 <= i < |w| ==> !IsSpace(w[i])
  }

  // ---------------------------------------------------------------------------
  // sep.join(xs)
  // ---------------------------------------------------------------------------

  function Join(sep: string, xs: seq<string>): (r: string)
    ensures |xs| == 0 ==> r == ""
    ensures |xs| > 0 ==> |xs[0]| <= |r| && r[..|xs[0]|] == xs[0]
  {
    if |xs| == 0 then ""
    else if |xs| == 1 then xs[0]
    else xs[0] + sep + Join(sep, xs[1..])
  }

  /** Joining one more element at the end inserts exactly one separator. */
  lemma {:induction false} JoinSnoc(sep: string, xs: seq<string>, y: string)
    requires |xs| > 0
    ensures Join(sep, xs + [y]) == Join(sep, xs) + sep + y
  {
    if |xs| == 1 {
      assert xs + [y] == [xs[0], y];
    } else {
      assert (xs + [y])[1..] == xs[1..] + [y];
      JoinSnoc(sep, xs[1..], y);
    }
  }

  function SumLength(xs: seq<string>): nat {
    if |xs| == 0 then 0 else |xs[0]| + SumLength(xs[1..])
  }

  /** The joined string is the elements plus one separator between neighbours. */
  lemma {:induction false} JoinLength(sep: string, xs: seq<string>)
    requires |xs| > 0
    ensures |Join(sep, xs)| == SumLength(xs) + (|xs| - 1) * |sep|
  {
    if |xs| > 1 {
      JoinLength(sep, xs[1..]);
    }
  }

  // ---------------------------------------------------------------------------
  // Counting one character
  // ---------------------------------------------------------------------------

  /** How many times `c` occurs in `s`, Python's `s.count(c)`. */
  function CountChar(c: char, s: string): nat {
    CountTo(c, s, |s|)
  }

  /** Occurrences of `c` among the first `n` characters of `s`. */
  function CountTo(c: char, s: string, n: nat): nat
    requires n <= |s|
  {
    if n == 0 then 0 else CountTo(c, s, n - 1) + (if s[n - 1] == c then 1 else 0)
  }

  lemma {:induction false} CountToAgree(c: char, s: string, t: string, n: nat)
    requires n <= |s| && n <= |t| && s[..n] == t[..n]
    ensures CountTo(c, s, n) == CountTo(c, t, n)
  {
    if n > 0 {
      assert s[n - 1] == s[..n][n - 1] && t[n - 1] == t[..n][n - 1];
      assert s[..n - 1] == s[..n][..n - 1] && t[..n - 1] == t[..n][..n - 1];
      CountToAgree(c, s, t, n - 1);
    }
  }

  lemma {:induction false} CountToShift(c: char, a: string, b: string, k: nat)
    requires k <= |b|
    ensures CountTo(c, a + b, |a| + k) == CountChar(c, a) + CountTo(c, b, k)
  {
    if k == 0 {
      assert (a + b)[..|a|] == a[..|a|];
      CountToAgree(c, a + b, a, |a|);
    } else {
      CountToShift(c, a, b, k - 1);
      assert (a + b)[|a| + k - 1] == b[k - 1];
    }
  }

  lemma CountCharConcat(c: char, a: string, b: string)
    ensures CountChar(c, a + b) == CountChar(c, a) + CountChar(c, b)
  {
    CountToShift(c, a, b, |b|);
  }

  lemma {:induction false} CountToAbsent(c: char, s: string, n: nat)
    requires n <= |s| && c !in s
    ensures CountTo(c, s, n) == 0
  {
    if n > 0 {
      assert s[n - 1] in s;
      CountToAbsent(c, s, n - 1);
    }
  }

  lemma CountCharAbsent(c: char, s: string)
    requires c !in s
    ensures CountChar(c, s) == 0
  {
    CountToAbsent(c, s, |s|);
  }

  function SumCountChar(c: char, xs: seq<string>): nat {
    if |xs| == 0 then 0 else CountChar(c, xs[0]) + SumCountChar(c, xs[1..])
  }

  /** Concatenation regrouped, one step at a time for long chains. */
  lemma ConcatAssoc(a: string, b: string, c: string)
    ensures a + (b + c) == a + b + c
  { }

  lemma MulStep(n: int, k: int)
    ensures n * k == (n - 1) * k + k
  {
  }

  /** A character occurs in a joined string as often as in the elements and
      the separators together. */
  lemma {:induction false} JoinCountChar(c: char, sep: string, xs: seq<string>)
    requires |xs| > 0
    ensures CountChar(c, Join(sep, xs)) == SumCountChar(c, xs) + (|xs| - 1) * CountChar(c, sep)
  {
    if |xs| > 1 {
      var rest := Join(sep, xs[1..]);
      var k := CountChar(c, sep);
      assert Join(sep, xs) == xs[0] + sep + rest;
      JoinCountChar(c, sep, xs[1..]);
      assert CountChar(c, rest) == SumCountChar(c, xs[1..]) + (|xs| - 2) * k;
      CountCharConcat(c, xs[0] + sep, rest);
      CountCharConcat(c, xs[0], sep);
      assert CountChar(c, Join(sep, xs)) == CountChar(c, xs[0]) + k + CountChar(c, rest);
      assert SumCountChar(c, xs) == CountChar(c, xs[0]) + SumCountChar(c, xs[1..]);
      MulStep(|xs| - 1, k);
    }
  }

  // ---------------------------------------------------------------------------
  // sub in s, s.startswith(p), s.endswith(p)
  // ---------------------------------------------------------------------------

  predicate StartsWith(s: string, p: string) {
    |p| <= |s| && s[..|p|] == p
  }

  predicate EndsWith(s: string, p: string) {
    |p| <= |s| && s[|s| - |p|..] == p
  }

  /** Python's `sub in s`. */
  predicate Contains(s: string, sub: string)
    decreases |s|
  {
    StartsWith(s, sub) || (|s| > 0 && Contains(s[1..], sub))
  }

  /** An occurrence at offset `k` makes `sub in s` true. */
  lemma {:induction false} OccurrenceContains(s: string, sub: string, k: nat)
    requires k + |sub| <= |s| && s[k..k + |sub|] == sub
    ensures Contains(s, sub)
  {
    if k == 0 {
      assert s[..|sub|] == s[k..k + |sub|];
    } else {
      assert s[1..][k - 1..k - 1 + |sub|] == s[k..k + |sub|];
      OccurrenceContains(s[1..], sub, k - 1);
    }
  }

  /** `sub in s` only when `sub` occurs at some offset of `s`. */
  lemma {:induction false} ContainsOccurrence(s: string, sub: string) returns (k: nat)
    requires Contains(s, sub)
    ensures k + |sub| <= |s| && s[k..k + |sub|] == sub
    decreases |s|
  {
    if StartsWith(s, sub) {
      k := 0;
    } else {
      var j := ContainsOccurrence(s[1..], sub);
      assert s[j + 1..j + 1 + |sub|] == s[1..][j..j + |sub|];
      k := j + 1;
    }
  }

  /** `sub in s` and `s in t` give `sub in t`. */
  lemma ContainsTrans(sub: string, s: string, t: string)
    requires Contains(s, sub) && Contains(t, s)
    ensures Contains(t, sub)
  {
    var j := ContainsOccurrence(s, sub);
    var k := ContainsOccurrence(t, s);
    forall m | 0 <= m < |sub| ensures t[k + j + m] == sub[m] {
      assert s[j + m] == s[j..j + |sub|][m];
      assert t[k + (j + m)] == t[k..k + |s|][j + m];
    }
    assert t[k + j..k + j + |sub|] == sub;
    OccurrenceContains(t, sub, k + j);
  }

  /** The middle part of a concatenation occurs in it. */
  lemma ContainsMiddle(a: string, b: string, c: string)
    ensures Contains(a + b + c, b)
  {
    assert (a + b + c)[|a|..|a| + |b|] == b;
    OccurrenceContains(a + b + c, b, |a|);
  }

  /** Every element of a joined sequence occurs in the joined string. */
  lemma {:induction false} JoinContains(sep: string, xs: seq<string>, i: nat)
    requires i < |xs|
    ensures Contains(Join(sep, xs), xs[i])
  {
    if |xs| == 1 {
      ContainsMiddle("", xs[0], "");
      assert "" + xs[0] + "" == xs[0];
    } else if i == 0 {
      ContainsMiddle("", xs[0], sep + Join(sep, xs[1..]));
      assert "" + xs[0] + (sep + Join(sep, xs[1..])) == Join(sep, xs);
    } else {
      JoinContains(sep, xs[1..], i - 1);
      ContainsMiddle(xs[0] + sep, Join(sep, xs[1..]), "");
      assert xs[0] + sep + Join(sep, xs[1..]) + "" == Join(sep, xs);
      ContainsTrans(xs[i], Join(sep, xs[1..]), Join(sep, xs));
    }
  }

  // ---------------------------------------------------------------------------
  // s.replace(pat, rep)
  // ---------------------------------------------------------------------------

  /** Python's `s.replace(old, new)`: leftmost, non-overlapping occurrences,
      scanning left to right. */
  function Replace(s: string, pat: string, rep: string): (r: string)
    requires |pat| > 0
    ensures |rep| <= |pat| ==> |r| <= |s|
    ensures !Contains(s, pat) ==> r == s
    decreases |s|
  {
    if |s| < |pat| then s
    else if s[..|pat|] == pat then rep + Replace(s[|pat|..], pat, rep)
    else [s[0]] + Replace(s[1..], pat, rep)
  }

  /** An occurrence at the front is replaced, and scanning resumes after it. */
  lemma ReplaceAtFront(pat: string, b: string, rep: string)
    requires |pat| > 0
    ensures Replace(pat + b, pat, rep) == rep + Replace(b, pat, rep)
  {
    assert (pat + b)[..|pat|] == pat;
    assert (pat + b)[|pat|..] == b;
  }

  /** A prefix in which no occurrence starts is kept as it is. */
  lemma {:induction false} ReplaceSkip(x: string, b: string, pat: string, rep: string)
    requires |pat| > 0
    requires forall k :: 0 <= k < |x| ==> !StartsWith((x + b)[k..], pat)
    ensures Replace(x + b, pat, rep) == x + Replace(b, pat, rep)
    decreases |x|
  {
    if |x| == 0 {
      assert x + b == b;
    } else {
      var s := x + b;
      assert !StartsWith(s[0..], pat);
      assert s[0..] == s;
      if |s| < |pat| {
        assert Replace(b, pat, rep) == b;
      } else {
        assert s[1..] == x[1..] + b;
        forall k | 0 <= k < |x[1..]| ensures !StartsWith((x[1..] + b)[k..], pat) {
          assert (x[1..] + b)[k..] == s[k + 1..];
        }
        ReplaceSkip(x[1..], b, pat, rep);
        assert x == [x[0]] + x[1..];
      }
    }
  }

  /** A string shorter than the pattern does not contain it. */
  lemma {:induction false} ShortNotContained(s: string, sub: string)
    requires |s| < |sub|
    ensures !Contains(s, sub)
    decreases |s|
  {
    if |s| > 0 {
      ShortNotContained(s[1..], sub);
    }
  }

  // ---------------------------------------------------------------------------
  // s.lower() on ASCII letters
  // ---------------------------------------------------------------------------

  function LowerChar(c: char): char {
    if 'A' <= c <= 'Z' then (c as int + 32) as char else c
  }

  function Lower(s: string): (r: string)
    ensures |r| == |s|
    ensures forall i :: 0 <= i < |s| ==> r[i] == LowerChar(s[i])
  {
    if |s| == 0 then "" else [LowerChar(s[0])] + Lower(s[1..])
  }

  // ---------------------------------------------------------------------------
  // s.split() and " ".join(s.split())
  // ---------------------------------------------------------------------------

  /** Length of the leading run of non-whitespace characters. */
  function TokenLength(s: string): (n: nat)
    ensures n <= |s|
    ensures forall i :: 0 <= i < n ==> !IsSpace(s[i])
    ensures n < |s| ==> IsSpace(s[n])
  {
    if |s| == 0 || IsSpace(s[0]) then 0 else 1 + TokenLength(s[1..])
  }

  /** Python's `s.split()`: the maximal whitespace-free runs, in order. */
  function Words(s: string): (ws: seq<string>)
    ensures forall i :: 0 <= i < |ws| ==> IsToken(ws[i])
    decreases |s|
  {
    if |s| == 0 then []
    else if IsSpace(s[0]) then Words(s[1..])
    else
      var n := TokenLength(s);
      [s[..n]] + Words(s[n..])
  }

  /** `" ".join(s.split())`. */
  function Normalize(s: string): string {
    Join(" ", Words(s))
  }

  /** Whitespace only as single spaces strictly between two non-whitespace
      characters: no leading or trailing whitespace, no runs. */
  predicate WellSpaced(r: string) {
    forall i :: 0 <= i < |r| && IsSpace(r[i]) ==>
      r[i] == ' ' && 0 < i < |r| - 1 && !IsSpace(r[i - 1]) && !IsSpace(r[i + 1])
  }

  lemma {:induction false} TokenLengthOfToken(w: string, rest: string)
    requires IsToken(w)
    requires |rest| == 0 || IsSpace(rest[0])
    ensures TokenLength(w + rest) == |w|
  {
    if |w| == 1 {
      assert (w + rest)[1..] == rest;
    } else {
      assert (w + rest)[1..] == w[1..] + rest;
      TokenLengthOfToken(w[1..], rest);
    }
  }

  /** Splitting a space-joined list of tokens gives the tokens back. */
  lemma {:induction false} WordsOfJoin(ws: seq<string>)
    requires forall i :: 0 <= i < |ws| ==> IsToken(ws[i])
    ensures Words(Join(" ", ws)) == ws
  {
    if |ws| == 1 {
      var w := ws[0];
      TokenLengthOfToken(w, "");
      assert w + "" == w;
      assert w[..|w|] == w;
      assert w[|w|..] == "";
    } else if |ws| > 1 {
      var w := ws[0];
      var rest := Join(" ", ws[1..]);
      var s := Join(" ", ws);
      assert s == w + (" " + rest);
      TokenLengthOfToken(w, " " + rest);
      assert s[..|w|] == w;
      assert s[|w|..] == " " + rest;
      assert (" " + rest)[1..] == rest;
      WordsOfJoin(ws[1..]);
      assert ws == [w] + ws[1..];
    }
  }

  /** Joining tokens with single spaces gives a well-spaced string. */
  lemma {:induction false} JoinTokensWellSpaced(ws: seq<string>)
    requires forall i :: 0 <= i < |ws| ==> IsToken(ws[i])
    ensures WellSpaced(Join(" ", ws))
  {
    if |ws| == 1 {
      assert IsToken(ws[0]);
    } else if |ws| > 1 {
      var w := ws[0];
      var rest := Join(" ", ws[1..]);
      JoinTokensWellSpaced(ws[1..]);
      assert IsToken(ws[1]);
      assert |rest| >= 1 && rest[0] == ws[1][0];
      var s := Join(" ", ws);
      assert s == w + " " + rest;
      forall i | 0 <= i < |s| && IsSpace(s[i])
        ensures s[i] == ' ' && 0 < i < |s| - 1 && !IsSpace(s[i - 1]) && !IsSpace(s[i + 1])
      {
        if i == |w| {
          assert s[i + 1] == rest[0];
        } else if i > |w| {
          assert s[i] == rest[i - |w| - 1];
          if i - 1 > |w| {
            assert s[i - 1] == rest[i - |w| - 2];
          }
          assert s[i + 1] == rest[i - |w|];
        }
      }
    }
  }

  /** The normalised text is well spaced and has the same tokens, in order. */
  lemma NormalizeShape(s: string)
    ensures WellSpaced(Normalize(s))
    ensures Words(Normalize(s)) == Words(s)
  {
    JoinTokensWellSpaced(Words(s));
    WordsOfJoin(Words(s));
  }

  // ---------------------------------------------------------------------------
  // Slicing s[lo:hi] with Python's index normalisation
  // ---------------------------------------------------------------------------

  /** A slice bound: negative counts from the end, then clamped to [0, n]. */
  function SliceIndex(i: int, n: nat): (r: nat)
    ensures r <= n
    ensures 0 <= i <= n ==> r == i
    ensures -(n as int) <= i < 0 ==> r as int == n as int + i
  {
    if i < 0 then (if i + n < 0 then 0 else i + n)
    else if i > n then n
    else i
  }

  /** Python's `s[lo:hi]`. */
  function Slice(s: string, lo: int, hi: int): string {
    var a := SliceIndex(lo, |s|);
    var b := SliceIndex(hi, |s|);
    if b <= a then "" else s[a..b]
  }

  /** In-range bounds slice exactly that range. */
  lemma SliceInRange(s: string, lo: int, hi: int)
    requires 0 <= lo <= hi <= |s|
    ensures Slice(s, lo, hi) == s[lo..hi]
  {
  }

  /** `s[-k:]` is the last `k` characters when `0 < k <= |s|`. */
  lemma SliceLast(s: string, k: int)
    requires 0 < k <= |s|
    ensures Slice(s, -k, |s|) == s[|s| - k..]
  {
  }

  // ---------------------------------------------------------------------------
  // str(n) for an int
  // ---------------------------------------------------------------------------

  function DigitChar(d: nat): char
    requires d < 10
  {
    "0123456789"[d]
  }

  function Digits(n: nat): (r: string)
    ensures |r| > 0
    ensures forall k :: 0 <= k < |r| ==> '0' <= r[k] <= '9'
  {
    if n < 10 then [DigitChar(n)] else Digits(n / 10) + [DigitChar(n % 10)]
  }

  /** Python's `str(n)` for an integer: optional minus sign and decimal digits. */
  function IntToString(n: int): (r: string)
    ensures |r| > 0
    ensures forall k :: 0 <= k < |r| ==> r[k] == '-' || '0' <= r[k] <= '9'
  {
    if n < 0 then "-" + Digits(-n) else Digits(n)
  }

  /** A decimal number contains no character other than a sign or a digit. */
  lemma CountCharOfNumber(c: char, s: string)
    requires c != '-' && !('0' <= c <= '9')
    requires forall k :: 0 <= k < |s| ==> s[k] == '-' || '0' <= s[k] <= '9'
    ensures CountChar(c, s) == 0
  {
    CountCharAbsent(c, s);
  }
}
