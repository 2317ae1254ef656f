/** The Python string operations the bots rely on, over `seq<char>`. */
module Text {

  /** `pat` occurs in `s` starting at index `i`. */
  predicate OccursAt(s: string, pat: string, i: int) {
    0 <= i <= |s| - |pat| && s[i..i + |pat|] == pat
  }

  /** `pat in s`: `pat` occurs as a contiguous run of `s`. */
  predicate Contains(s: string, pat: string) {
    exists i :: 0 <= i <= |s| - |pat| && OccursAt(s, pat, i)
  }

  /** Where `pat in s` can hold: never when the pattern is longer than the text; always when
      it opens or closes the text. */
  lemma ContainsPlaced(s: string, pat: string)
    ensures Contains(s, pat) ==> |pat| <= |s|
    ensures |pat| <= |s| && s[..|pat|] == pat ==> Contains(s, pat)
    ensures |pat| <= |s| && s[|s| - |pat|..] == pat ==> Contains(s, pat)
  {
    if |pat| <= |s| && s[..|pat|] == pat {
      assert OccursAt(s, pat, 0);
    }
    if |pat| <= |s| && s[|s| - |pat|..] == pat {
      assert OccursAt(s, pat, |s| - |pat|);
    }
  }

  /** A pattern with a character that never occurs in `s` cannot occur in `s`. */
  lemma AbsentCharNotContained(s: string, pat: string, j: nat)
    requires j < |pat| && pat[j] !in s
    ensures !Contains(s, pat)
  {
    forall i | 0 <= i <= |s| - |pat|
      ensures !OccursAt(s, pat, i)
    {
      assert s[i + j] in s;
    }
  }

  /** Every character of `s` is ASCII. */
  predicate IsAscii(s: string) {
    forall i :: 0 <= i < |s| ==> s[i] < '\U{80}'
  }

  /** A pattern with a non-ASCII character cannot occur in an ASCII string. */
  lemma NonAsciiNotContained(s: string, pat: string, j: nat)
    requires IsAscii(s) && j < |pat| && pat[j] >= '\U{80}'
    ensures !Contains(s, pat)
  {
    forall i | 0 <= i <= |s| - |pat|
      ensures !OccursAt(s, pat, i)
    {
      assert s[i + j] < '\U{80}';
    }
  }

  /** An occurrence in `a + b` lies in `a`, in `b`, or starts in `a` and runs past its end;
      when `pat[0]` only occurs in `a` far enough from the end, the last case is impossible. */
  lemma NotContainedInConcat(a: string, b: string, pat: string)
    requires |pat| > 0
    requires !Contains(a, pat) && !Contains(b, pat)
    requires forall i :: 0 <= i < |a| && a[i] == pat[0] ==> i + |pat| <= |a|
    ensures !Contains(a + b, pat)
  {
    forall i | 0 <= i <= |a + b| - |pat|
      ensures !OccursAt(a + b, pat, i)
    {
      if i < |a| {
        if (a + b)[i..i + |pat|] == pat {
          assert a[i] == pat[0];
          assert a[i..i + |pat|] == (a + b)[i..i + |pat|];
          assert OccursAt(a, pat, i);
        }
      } else {
        assert b[i - |a|..i - |a| + |pat|] == (a + b)[i..i + |pat|];
        assert !OccursAt(b, pat, i - |a|);
      }
    }
  }

  /** Python's `str.upper` restricted to ASCII letters. */
  function UpperChar(c: char): char {
    if 'a' <= c <= 'z' then (c as int - 32) as char else c
  }

  function Upper(s: string): (r: string)
    ensures |r| == |s| && forall i :: 0 <= i < |s| ==> r[i] == UpperChar(s[i])
  {
    seq(|s|, i requires 0 <= i < |s| => UpperChar(s[i]))
  }

  /** Upper-casing twice is upper-casing once. */
  lemma UpperIdempotent(s: string)
    ensures Upper(Upper(s)) == Upper(s)
  {
    assert forall i :: 0 <= i < |s| ==> Upper(Upper(s))[i] == Upper(s)[i];
  }

  /** An upper-case letter (or any non-letter) appears in `Upper(s)` only if it, or its
      lower-case form, appears in `s`. */
  lemma UpperMissing(s: string, c: char)
    requires !('a' <= c <= 'z') && c !in s
    requires 'A' <= c <= 'Z' ==> (c as int + 32) as char !in s
    ensures c !in Upper(s)
  {
    forall i | 0 <= i < |s|
      ensures Upper(s)[i] != c
    {
      assert s[i] in s;
    }
  }

  /** The characters for which Python's `str.isspace` holds. */
  function IsSpace(c: char): (r: bool)
    ensures c == ' ' || c == '\t' || c == '\n' || c == '\r' ==> r
    ensures '0' <= c <= '9' || 'A' <= c <= 'Z' || 'a' <= c <= 'z' ==> !r
    ensures r ==> c <= '\U{3000}'
  {
    ('\t' <= c <= '\r') || ('\U{1C}' <= c <= '\U{1F}') || c == ' ' || c == '\U{85}'
    || c == '\U{A0}' || c == '\U{1680}' || ('\U{2000}' <= c <= '\U{200A}') || c == '\U{2028}'
    || c == '\U{2029}' || c == '\U{202F}' || c == '\U{205F}' || c == '\U{3000}'
  }

  /** Where the leading white space of `s` ends. */
  function StartOfText(s: string, i: nat): (k: nat)
    requires i <= |s|
    ensures i <= k <= |s|
    ensures forall j :: i <= j < k ==> IsSpace(s[j])
    ensures k == |s| || !IsSpace(s[k])
    decreases |s| - i
  {
    if i < |s| && IsSpace(s[i]) then StartOfText(s, i + 1) else i
  }

  /** Where the trailing white space of `s[lo..hi]` starts. */
  function EndOfText(s: string, lo: nat, hi: nat): (k: nat)
    requires lo <= hi <= |s|
    ensures lo <= k <= hi
    ensures forall j :: k <= j < hi ==> IsSpace(s[j])
    ensures k == lo || !IsSpace(s[k - 1])
    decreases hi
  {
    if hi > lo && IsSpace(s[hi - 1]) then EndOfText(s, lo, hi - 1) else hi
  }

  /** `r` is `s[k..]` cut short so that only white space surrounds it in `s`. */
  predicate SpaceAround(s: string, r: string, k: int) {
    && 0 <= k <= |s| - |r| && r == s[k..k + |r|]
    && (forall i :: 0 <= i < k ==> IsSpace(s[i]))
    && (forall i :: k + |r| <= i < |s| ==> IsSpace(s[i]))
  }

  /** `s.strip()`: `s` without its leading and trailing white space. */
  function Strip(s: string): (r: string)
    ensures |r| <= |s|
    ensures exists k :: SpaceAround(s, r, k)
    ensures r == [] || (!IsSpace(r[0]) && !IsSpace(r[|r| - 1]))
    ensures r == [] <==> forall i :: 0 <= i < |s| ==> IsSpace(s[i])
  {
    var lo := StartOfText(s, 0);
    var hi := EndOfText(s, lo, |s|);
    assert lo < |s| ==> lo < hi;
    assert SpaceAround(s, s[lo..hi], lo);
    s[lo..hi]
  }

  /** `s[:n]`: the first `n` characters, or all of `s` when it is shorter. */
  function Take(s: string, n: nat): (r: string)
    ensures |r| == if |s| <= n then |s| else n
    ensures r == s[..|r|]
  {
    if |s| <= n then s else s[..n]
  }

  /** `s.replace(pat, "")`: every occurrence of `pat`, scanning left to right without
      overlap, is removed. */
  function RemoveAll(s: string, pat: string): (r: string)
    requires |pat| > 0
    ensures |r| <= |s|
    ensures multiset(r) <= multiset(s)
    decreases |s|
  {
    if |s| < |pat| then s
    else if s[..|pat|] == pat then
      assert s == s[..|pat|] + s[|pat|..];
      RemoveAll(s[|pat|..], pat)
    else
      var rest := RemoveAll(s[1..], pat);
      assert s == [s[0]] + s[1..];
      [s[0]] + rest
  }

  /** A string without the pattern is left as it is. */
  lemma {:induction false} RemoveAllAbsent(s: string, pat: string)
    requires |pat| > 0 && !Contains(s, pat)
    ensures RemoveAll(s, pat) == s
    decreases |s|
  {
    if |s| >= |pat| {
      assert s[0..0 + |pat|] == s[..|pat|];
      assert !OccursAt(s, pat, 0);
      forall i | 0 <= i <= |s[1..]| - |pat|
        ensures !OccursAt(s[1..], pat, i)
      {
        assert s[1..][i..i + |pat|] == s[i + 1..i + 1 + |pat|];
        assert !OccursAt(s, pat, i + 1);
      }
      RemoveAllAbsent(s[1..], pat);
    }
  }

  /** `sep.join(lines)`: the first line comes first and the last line last. */
  function Join(lines: seq<string>, sep: string): (r: string)
    ensures |lines| > 0 ==> |lines[0]| <= |r| && r[..|lines[0]|] == lines[0]
    ensures |lines| > 0 ==> var last := lines[|lines| - 1];
                            |last| <= |r| && r[|r| - |last|..] == last
    decreases |lines|
  {
    if |lines| == 0 then ""
    else if |lines| == 1 then lines[0]
    else
      var rest := Join(lines[1..], sep);
      EndsWith(lines[0] + sep, rest, lines[|lines| - 1]);
      lines[0] + sep + rest
  }

  /** A string ending in `x` still ends in `x` after anything is put in front of it. */
  lemma EndsWith(a: string, b: string, x: string)
    requires |x| <= |b| && b[|b| - |x|..] == x
    ensures (a + b)[|a + b| - |x|..] == x
  {
    assert (a + b)[|a + b| - |x|..] == b[|b| - |x|..];
  }

  /** Joining one more line adds the separator and that line at the end. */
  lemma {:induction false} JoinSnoc(lines: seq<string>, x: string, sep: string)
    requires |lines| > 0
    ensures Join(lines + [x], sep) == Join(lines, sep) + sep + x
    decreases |lines|
  {
    var head := lines[0];
    if |lines| > 1 {
      var rest := lines[1..];
      assert (lines + [x])[1..] == rest + [x];
      JoinSnoc(rest, x, sep);
      var j := Join(rest, sep);
      assert Join(lines + [x], sep) == head + sep + (j + sep + x);
      assert Join(lines, sep) == head + sep + j;
      assert head + sep + (j + sep + x) == head + sep + j + sep + x;
    } else {
      assert (lines + [x])[1..] == [x];
    }
  }

  /** The number a string of decimal digits denotes, most significant digit first. */
  function DigitsValue(s: string): int
    decreases |s|
  {
    if s == [] then 0 else DigitsValue(s[..|s| - 1]) * 10 + (s[|s| - 1] as int - '0' as int)
  }

  /** `str(n)` for a non-negative integer: decimal digits, without a leading zero, that
      denote `n`. */
  function Decimal(n: nat): (r: string)
    ensures |r| > 0 && forall i :: 0 <= i < |r| ==> '0' <= r[i] <= '9'
    ensures n > 0 ==> r[0] != '0'
    ensures DigitsValue(r) == n
  {
    if n < 10 then [('0' as int + n) as char]
    else
      var high := Decimal(n / 10);
      var r := high + [('0' as int + n % 10) as char];
      assert r[..|r| - 1] == high;
      r
  }
}
