/**
 * The two string operations the game applies to whatever the player types:
 * Python's `str.lower()` and `str.strip()` (with no argument).
 */
module Text {

  /** The characters for which Python's `str.isspace()` holds; `strip()` removes exactly these. */
  predicate IsSpace(c: char) {
    || ('\t' <= c <= '\r')                 // \t \n \x0b \x0c \r
    || ('\U{1C}' <= c <= '\U{1F}')         // file, group, record and unit separators
    || c == ' ' || c == '\U{85}' || c == '\U{A0}' || c == '\U{1680}'
    || ('\U{2000}' <= c <= '\U{200A}')
    || c == '\U{2028}' || c == '\U{2029}' || c == '\U{202F}' || c == '\U{205F}' || c == '\U{3000}'
  }

  ghost predicate AllSpace(s: string) {
    forall k :: 0 <= k < |s| ==> IsSpace(s[k])
  }

  /**
   * Lower-casing of one character. ASCII capitals map to ASCII small letters and the
   * KELVIN SIGN (U+212A) maps to 'k', as in Python; every other character is kept.
   */
  function LowerChar(c: char): (r: char)
    ensures IsSpace(r) <==> IsSpace(c)
    ensures 'a' <= r <= 'z' <==> ('a' <= c <= 'z' || 'A' <= c <= 'Z' || c == '\U{212A}')
    ensures 'A' <= c <= 'Z' ==> r as int == c as int + 32
    ensures c == '\U{212A}' ==> r == 'k'
    ensures !('A' <= c <= 'Z') && c != '\U{212A}' ==> r == c
  {
    if 'A' <= c <= 'Z' then (c - 'A' + 'a') as char
    else if c == '\U{212A}' then 'k'
    else c
  }

  function Lower(s: string): (r: string)
    ensures |r| == |s|
    ensures forall k :: 0 <= k < |s| ==> r[k] == LowerChar(s[k])
  {
    seq(|s|, k requires 0 <= k < |s| => LowerChar(s[k]))
  }

  /** How many white-space characters `s` starts with. */
  function LeadingSpaces(s: string): (n: nat)
    ensures n <= |s|
    decreases |s|
  {
    if s != [] && IsSpace(s[0]) then 1 + LeadingSpaces(s[1..]) else 0
  }

  /** How many white-space characters `s` ends with. */
  function TrailingSpaces(s: string): (n: nat)
    ensures n <= |s|
    decreases |s|
  {
    if s != [] && IsSpace(s[|s| - 1]) then 1 + TrailingSpaces(s[..|s| - 1]) else 0
  }

  /** Python's `s.strip()`: drops the leading, then the trailing white space. */
  function Strip(s: string): string {
    var rest := s[LeadingSpaces(s)..];
    rest[..|rest| - TrailingSpaces(rest)]
  }

  /** `s` is the word `w` with nothing but white space on either side of it. */
  ghost predicate PaddedBy(s: string, w: string) {
    exists i :: 0 <= i <= |s| - |w| && s[i..i + |w|] == w && AllSpace(s[..i]) && AllSpace(s[i + |w|..])
  }

  /** `w` has no white space at either end, so stripping can never eat into it. */
  predicate Trimmed(w: string) {
    w != [] && !IsSpace(w[0]) && !IsSpace(w[|w| - 1])
  }

  /** The leading white space is exactly the first `i` characters when they are white space and the next is not. */
  lemma {:induction false} LeadingSpacesAt(s: string, i: nat)
    requires i <= |s| && AllSpace(s[..i]) && (i < |s| ==> !IsSpace(s[i]))
    ensures LeadingSpaces(s) == i
    decreases i
  {
    if 0 < i {
      assert s[..i][0] == s[0];
      assert s[1..][..i - 1] == s[..i][1..];
      LeadingSpacesAt(s[1..], i - 1);
    }
  }

  /** Counting the leading white space stops at the first character that is not white space. */
  lemma {:induction false} LeadingSpacesAre(s: string)
    ensures AllSpace(s[..LeadingSpaces(s)])
    ensures LeadingSpaces(s) < |s| ==> !IsSpace(s[LeadingSpaces(s)])
    decreases |s|
  {
    if s != [] && IsSpace(s[0]) {
      LeadingSpacesAre(s[1..]);
      var n := LeadingSpaces(s);
      forall k | 0 <= k < n ensures IsSpace(s[..n][k]) {
        if 0 < k { assert s[..n][k] == s[1..][..n - 1][k - 1]; }
      }
    }
  }

  /** The trailing white space is exactly the last `|s| - n` characters when they are white space and the one before is not. */
  lemma {:induction false} TrailingSpacesAt(s: string, n: nat)
    requires n <= |s| && AllSpace(s[n..]) && (0 < n ==> !IsSpace(s[n - 1]))
    ensures TrailingSpaces(s) == |s| - n
    decreases |s| - n
  {
    if n < |s| {
      var t := s[..|s| - 1];
      assert s[n..][|s| - 1 - n] == s[|s| - 1];
      assert t[n..] == s[n..][..|s| - 1 - n];
      TrailingSpacesAt(t, n);
    }
  }

  /** Counting the trailing white space stops at the last character that is not white space. */
  lemma {:induction false} TrailingSpacesAre(s: string)
    ensures AllSpace(s[|s| - TrailingSpaces(s)..])
    ensures TrailingSpaces(s) < |s| ==> !IsSpace(s[|s| - TrailingSpaces(s) - 1])
    decreases |s|
  {
    if s != [] && IsSpace(s[|s| - 1]) {
      var t := s[..|s| - 1];
      TrailingSpacesAre(t);
      var n := |s| - TrailingSpaces(s);
      forall k | 0 <= k < |s| - n ensures IsSpace(s[n..][k]) {
        if k < |s| - n - 1 { assert s[n..][k] == t[n..][k]; }
      }
    }
  }

  lemma StrippedIsPadded(s: string, w: string)
    requires Strip(s) == w
    ensures PaddedBy(s, w)
  {
    var i := LeadingSpaces(s);
    var rest := s[i..];
    var j := i + |w|;
    LeadingSpacesAre(s);
    TrailingSpacesAre(rest);
    assert s[i..j] == w;
    assert s[j..] == rest[|rest| - TrailingSpaces(rest)..];
  }

  lemma PaddedIsStripped(s: string, w: string)
    requires Trimmed(w) && PaddedBy(s, w)
    ensures Strip(s) == w
  {
    var i :| 0 <= i <= |s| - |w| && s[i..i + |w|] == w && AllSpace(s[..i]) && AllSpace(s[i + |w|..]);
    assert s[i] == w[0];
    LeadingSpacesAt(s, i);
    var rest := s[i..];
    assert rest[..|w|] == w;
    assert rest[|w|..] == s[i + |w|..];
    TrailingSpacesAt(rest, |w|);
  }

  /** Stripping `s` yields the word `w` exactly when `s` is `w` padded with white space. */
  lemma StripIsPadded(s: string, w: string)
    requires Trimmed(w)
    ensures Strip(s) == w <==> PaddedBy(s, w)
  {
    if Strip(s) == w {
      StrippedIsPadded(s, w);
    }
    if PaddedBy(s, w) {
      PaddedIsStripped(s, w);
    }
  }
}
