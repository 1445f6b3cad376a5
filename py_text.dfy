/**
 * The pieces of Python's string semantics that the client and the front end
 * depend on: str.strip(), str.rstrip(c), str.lower() (ASCII letters only),
 * str.splitlines(), str.join() and str() of an integer.
 */
module PyText {

  /** Python's str.isspace(): the characters that str.strip() removes. */
  predicate IsSpace(c: char) {
    var n := c as int;
    (9 <= n <= 13) || (0x1c <= n <= 0x20) || n == 0x85 || n == 0xa0 || n == 0x1680
    || (0x2000 <= n <= 0x200a) || n == 0x2028 || n == 0x2029 || n == 0x202f
    || n == 0x205f || n == 0x3000
  }

  /** The line boundaries of Python's str.splitlines(). */
  predicate IsLineBreak(c: char) {
    var n := c as int;
    (10 <= n <= 13) || (0x1c <= n <= 0x1e) || n == 0x85 || n == 0x2028 || n == 0x2029
  }

  predicate AllSpace(s: string) {
    forall k :: 0 <= k < |s| ==> IsSpace(s[k])
  }

  predicate NoLineBreak(s: string) {
    forall k :: 0 <= k < |s| ==> !IsLineBreak(s[k])
  }

  /** Neither end of s is white space. */
  predicate IsStripped(s: string) {
    s == [] || (!IsSpace(s[0]) && !IsSpace(s[|s| - 1]))
  }

  /** The first position at or after i whose character is not white space, or |s|. */
  function SkipSpace(s: string, i: nat): (j: nat)
    requires i <= |s|
    ensures i <= j <= |s|
    ensures forall k :: i <= k < j ==> IsSpace(s[k])
    ensures j < |s| ==> !IsSpace(s[j])
    decreases |s| - i
  {
    if i < |s| && IsSpace(s[i]) then SkipSpace(s, i + 1) else i
  }

  /** The position just after the last character of s[lo..hi] that is not white space, or lo. */
  function SkipSpaceBack(s: string, lo: nat, hi: nat): (j: nat)
    requires lo <= hi <= |s|
    ensures lo <= j <= hi
    ensures forall k :: j <= k < hi ==> IsSpace(s[k])
    ensures j > lo ==> !IsSpace(s[j - 1])
    decreases hi
  {
    if hi > lo && IsSpace(s[hi - 1]) then SkipSpaceBack(s, lo, hi - 1) else hi
  }

  lemma {:induction false} SkipSpaceAt(s: string, i: nat, j: nat)
    requires i <= j <= |s|
    requires forall k :: i <= k < j ==> IsSpace(s[k])
    requires j < |s| ==> !IsSpace(s[j])
    ensures SkipSpace(s, i) == j
    decreases j - i
  {
    if i < j {
      SkipSpaceAt(s, i + 1, j);
    }
  }

  lemma {:induction false} SkipSpaceBackAt(s: string, lo: nat, hi: nat, j: nat)
    requires lo <= j <= hi <= |s|
    requires forall k :: j <= k < hi ==> IsSpace(s[k])
    requires j > lo ==> !IsSpace(s[j - 1])
    ensures SkipSpaceBack(s, lo, hi) == j
    decreases hi - j
  {
    if j < hi {
      SkipSpaceBackAt(s, lo, hi - 1, j);
    }
  }

  /** Where str.strip() starts keeping characters: after the leading white space. */
  function StripStart(s: string): nat {
    SkipSpace(s, 0)
  }

  /** Where str.strip() stops keeping characters: before the trailing white space. */
  function StripEnd(s: string): (e: nat)
    ensures StripStart(s) <= e <= |s|
  {
    SkipSpaceBack(s, StripStart(s), |s|)
  }

  /**
   * Python's str.strip(): the slice of s that is left once the white space
   * at either end is cut; neither of its ends is white space.
   */
  function Strip(s: string): (r: string)
    ensures IsStripped(r)
    ensures r == s[StripStart(s)..StripEnd(s)]
    ensures forall k :: 0 <= k < StripStart(s) ==> IsSpace(s[k])
    ensures forall k :: StripEnd(s) <= k < |s| ==> IsSpace(s[k])
  {
    s[StripStart(s)..StripEnd(s)]
  }

  /** A string whose ends are not white space is left as it is, so str.strip() is idempotent. */
  lemma StripStripped(s: string)
    ensures IsStripped(s) ==> Strip(s) == s
    ensures Strip(Strip(s)) == Strip(s)
  {
    if s != [] && IsStripped(s) {
      SkipSpaceAt(s, 0, 0);
      SkipSpaceBackAt(s, 0, |s|, |s|);
      assert s[0..|s|] == s;
    }
    var r := Strip(s);
    if r != [] {
      SkipSpaceAt(r, 0, 0);
      SkipSpaceBackAt(r, 0, |r|, |r|);
      assert r[0..|r|] == r;
    }
  }

  lemma StripKeepsNoLineBreak(s: string)
    requires NoLineBreak(s)
    ensures NoLineBreak(Strip(s))
  {
    var r := Strip(s);
    var a := StripStart(s);
    forall k | 0 <= k < |r|
      ensures !IsLineBreak(r[k])
    {
      assert r[k] == s[a + k];
    }
  }

  lemma AllSpaceConcat(a: string, b: string)
    requires AllSpace(a) && AllSpace(b)
    ensures AllSpace(a + b)
  {
    forall k | 0 <= k < |a + b|
      ensures IsSpace((a + b)[k])
    {
      if k < |a| {
        assert (a + b)[k] == a[k];
      } else {
        assert (a + b)[k] == b[k - |a|];
      }
    }
  }

  /** White space around a stripped string is exactly what str.strip() removes. */
  lemma StripPadding(before: string, s: string, after: string)
    requires AllSpace(before) && AllSpace(after) && IsStripped(s)
    ensures Strip(before + s + after) == s
  {
    var w := before + s + after;
    var m := |before| + |s|;
    assert forall k :: 0 <= k < |before| ==> w[k] == before[k];
    assert forall k :: m <= k < |w| ==> w[k] == after[k - m];
    if s == [] {
      SkipSpaceAt(w, 0, |w|);
      SkipSpaceBackAt(w, |w|, |w|, |w|);
    } else {
      assert w[|before|] == s[0] && w[m - 1] == s[|s| - 1];
      SkipSpaceAt(w, 0, |before|);
      SkipSpaceBackAt(w, |before|, |w|, m);
      assert w[|before|..m] == s;
    }
  }

  /** A string is its leading white space, its strip() and its trailing white space. */
  lemma StripSplits(s: string)
    ensures AllSpace(s[..StripStart(s)]) && AllSpace(s[StripEnd(s)..])
    ensures s == s[..StripStart(s)] + Strip(s) + s[StripEnd(s)..]
  {
    var a := StripStart(s);
    var b := StripEnd(s);
    assert forall k :: 0 <= k < a ==> s[..a][k] == s[k];
    assert forall k :: 0 <= k < |s| - b ==> s[b..][k] == s[b + k];
  }

  /** Any white space added around a string leaves its str.strip() unchanged. */
  lemma StripIgnoresPadding(before: string, s: string, after: string)
    requires AllSpace(before) && AllSpace(after)
    ensures Strip(before + s + after) == Strip(s)
  {
    var lead := s[..StripStart(s)];
    var trail := s[StripEnd(s)..];
    StripSplits(s);
    AllSpaceConcat(before, lead);
    AllSpaceConcat(trail, after);
    Regroup(before, lead, Strip(s), trail, after);
    StripPadding(before + lead, Strip(s), trail + after);
  }

  lemma Regroup(a: string, b: string, c: string, d: string, e: string)
    ensures a + (b + c + d) + e == (a + b) + c + (d + e)
  {
  }

  /** Python's str.rstrip(c) for a single character c. */
  function RStripChar(s: string, c: char): (r: string)
    ensures |r| <= |s| && r == s[..|r|]
    ensures r == [] || r[|r| - 1] != c
    ensures forall i :: |r| <= i < |s| ==> s[i] == c
  {
    if s != [] && s[|s| - 1] == c then RStripChar(s[..|s| - 1], c) else s
  }

  /** One more c at the end does not change what rstrip(c) leaves. */
  lemma RStripCharAppended(s: string, c: char)
    ensures RStripChar(s + [c], c) == RStripChar(s, c)
  {
    assert (s + [c])[..|s|] == s;
  }

  /** Any number of extra c's at the end do not change what rstrip(c) leaves. */
  lemma {:induction false} RStripCharPadded(s: string, pad: string, c: char)
    requires forall k :: 0 <= k < |pad| ==> pad[k] == c
    ensures RStripChar(s + pad, c) == RStripChar(s, c)
    decreases |pad|
  {
    if pad != [] {
      var front := pad[..|pad| - 1];
      assert s + pad == (s + front) + [c];
      RStripCharAppended(s + front, c);
      RStripCharPadded(s, front, c);
    } else {
      assert s + pad == s;
    }
  }

  /** str.lower() on one character, for ASCII letters only. */
  function LowerChar(c: char): char {
    if 'A' <= c <= 'Z' then (c as int + 32) as char else c
  }

  /** str.lower(), for ASCII letters only: a character-by-character map. */
  function Lower(s: string): (r: string)
    ensures |r| == |s|
    ensures forall i :: 0 <= i < |s| ==> r[i] == LowerChar(s[i])
  {
    if s == [] then [] else [LowerChar(s[0])] + Lower(s[1..])
  }

  /** Python's sep.join(parts). */
  function Join(parts: seq<string>, sep: string): string {
    if |parts| == 0 then ""
    else if |parts| == 1 then parts[0]
    else parts[0] + sep + Join(parts[1..], sep)
  }

  /** Index of the first line boundary in s, or |s| when there is none. */
  function FirstBreak(s: string): (i: nat)
    ensures i <= |s|
    ensures NoLineBreak(s[..i])
    ensures i < |s| ==> IsLineBreak(s[i])
  {
    if s == [] || IsLineBreak(s[0]) then 0 else 1 + FirstBreak(s[1..])
  }

  /**
   * Python's str.splitlines(): the text is cut at every line boundary, a
   * carriage return followed by a line feed is one boundary, and the text
   * after the last boundary is a line only when it is not empty.
   */
  function SplitLines(s: string): (lines: seq<string>)
    ensures forall k :: 0 <= k < |lines| ==> NoLineBreak(lines[k])
    decreases |s|
  {
    if s == [] then []
    else
      var i := FirstBreak(s);
      if i == |s| then [s]
      else
        var next := if s[i] == '\r' && i + 1 < |s| && s[i + 1] == '\n' then i + 2 else i + 1;
        [s[..i]] + SplitLines(s[next..])
  }

  lemma {:induction false} FirstBreakAfter(a: string, b: string)
    requires NoLineBreak(a)
    ensures FirstBreak(a + b) == |a| + FirstBreak(b)
  {
    if a != [] {
      assert (a + b)[1..] == a[1..] + b;
      assert NoLineBreak(a[1..]) by {
        assert forall k :: 0 <= k < |a| - 1 ==> a[1..][k] == a[k + 1];
      }
      FirstBreakAfter(a[1..], b);
    } else {
      assert a + b == b;
    }
  }

  /** A non-empty line without boundaries splits into just itself. */
  lemma SplitOneLine(line: string)
    requires line != [] && NoLineBreak(line)
    ensures SplitLines(line) == [line]
  {
    FirstBreakAfter(line, "");
    assert line + "" == line;
  }

  /** A line followed by "\n" splits off as the first line. */
  lemma SplitFirstLine(line: string, rest: string)
    requires line != [] && NoLineBreak(line)
    ensures SplitLines(line + "\n" + rest) == [line] + SplitLines(rest)
  {
    var s := line + "\n" + rest;
    assert s == line + ("\n" + rest);
    FirstBreakAfter(line, "\n" + rest);
    assert FirstBreak("\n" + rest) == 0;
    assert s[..|line|] == line;
    assert s[|line| + 1..] == rest;
  }

  /** Joining non-empty lines without line boundaries by "\n" and splitting them again gives them back. */
  lemma {:induction false} SplitJoinLines(xs: seq<string>)
    requires forall k :: 0 <= k < |xs| ==> xs[k] != [] && NoLineBreak(xs[k])
    ensures SplitLines(Join(xs, "\n")) == xs
  {
    if |xs| == 1 {
      SplitOneLine(xs[0]);
    } else if |xs| > 1 {
      SplitFirstLine(xs[0], Join(xs[1..], "\n"));
      SplitJoinLines(xs[1..]);
    }
  }

  function DigitChar(d: nat): char
    requires d < 10
  {
    (48 + d) as char
  }

  /** An ASCII decimal digit, '0' to '9'. */
  predicate IsDigit(c: char) {
    48 <= c as int <= 57
  }

  /** Python's str() of a non-negative int: its decimal digits. */
  function NatToString(n: nat): (r: string)
    ensures |r| >= 1
    ensures forall i :: 0 <= i < |r| ==> IsDigit(r[i])
    ensures n > 0 ==> r[0] != '0'
    ensures |r| > 1 ==> r[0] != '0'
  {
    if n < 10 then [DigitChar(n)] else NatToString(n / 10) + [DigitChar(n % 10)]
  }

  /** Python's str() of an int. */
  function IntToString(i: int): string {
    if i < 0 then "-" + NatToString(-i) else NatToString(i)
  }

  /** The value of a string of decimal digits. */
  function DigitsValue(s: string): nat
    requires forall i :: 0 <= i < |s| ==> IsDigit(s[i])
  {
    if s == [] then 0
    else
      assert IsDigit(s[|s| - 1]);
      10 * DigitsValue(s[..|s| - 1]) + (s[|s| - 1] as int - 48)
  }

  /** Reading back the decimal rendering of n gives n. */
  lemma {:induction false} NatToStringRoundTrip(n: nat)
    ensures DigitsValue(NatToString(n)) == n
  {
    if n >= 10 {
      var r := NatToString(n);
      assert r[..|r| - 1] == NatToString(n / 10);
      NatToStringRoundTrip(n / 10);
    }
  }
}
