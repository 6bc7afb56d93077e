/** Python `str` operations used by the reply generator, on strings as
    sequences of code points. */
module Text {

  /** The code points CPython's `str.isspace()` accepts: the ASCII controls
      TAB to CR and FS to US, SPACE, NEL, NO-BREAK SPACE, OGHAM SPACE MARK,
      EN QUAD to HAIR SPACE, LINE and PARAGRAPH SEPARATOR, NARROW NO-BREAK
      SPACE, MEDIUM MATHEMATICAL SPACE and IDEOGRAPHIC SPACE. */
  const SpaceCodes: set<int> :=
    {0x09, 0x0A, 0x0B, 0x0C, 0x0D, 0x1C, 0x1D, 0x1E, 0x1F, 0x20, 0x85, 0xA0, 0x1680,
     0x2000, 0x2001, 0x2002, 0x2003, 0x2004, 0x2005, 0x2006, 0x2007, 0x2008, 0x2009, 0x200A,
     0x2028, 0x2029, 0x202F, 0x205F, 0x3000}

  /** Python's `str.isspace()` for one code point: exactly the characters
      that `str.strip()` with no argument removes. */
  predicate IsSpace(c: char) {
    c as int in SpaceCodes
  }

  predicate AllSpace(s: string) {
    forall i :: 0 <= i < |s| ==> IsSpace(s[i])
  }

  /** Neither end of `s` is whitespace (vacuously so for the empty string). */
  predicate Trimmed(s: string) {
    |s| == 0 || (!IsSpace(s[0]) && !IsSpace(s[|s| - 1]))
  }

  /** `r` occurs in `s` at offset `i` with nothing but whitespace before
      and after it. */
  predicate PaddedAt(s: string, i: nat, r: string) {
    && i + |r| <= |s|
    && s[i..i + |r|] == r
    && AllSpace(s[..i])
    && AllSpace(s[i + |r|..])
  }

  /** Number of whitespace characters at the front of `s`: the index of the
      first non-whitespace character, or `|s|` if there is none. */
  function LeadingSpaces(s: string): (k: nat)
    ensures k <= |s|
    ensures AllSpace(s[..k])
    ensures k < |s| ==> !IsSpace(s[k])
  {
    if |s| == 0 || !IsSpace(s[0]) then 0
    else
      var k' := LeadingSpaces(s[1..]);
      assert s[..1 + k'] == [s[0]] + s[1..][..k'];
      1 + k'
  }

  /** Number of whitespace characters at the back of `s`. */
  function TrailingSpaces(s: string): (k: nat)
    ensures k <= |s|
    ensures AllSpace(s[|s| - k..])
    ensures k < |s| ==> !IsSpace(s[|s| - 1 - k])
  {
    if |s| == 0 || !IsSpace(s[|s| - 1]) then 0
    else
      var t := s[..|s| - 1];
      var k' := TrailingSpaces(t);
      assert s[|s| - (1 + k')..] == t[|t| - k'..] + [s[|s| - 1]];
      1 + k'
  }

  /** Python's `s.strip()`: leading whitespace is dropped first, then
      trailing whitespace from what remains. `StripPadded` and `StripUnique`
      characterise the result. */
  function Strip(s: string): (r: string)
    ensures |r| <= |s|
    ensures Trimmed(r)
  {
    var t := s[LeadingSpaces(s)..];
    t[..|t| - TrailingSpaces(t)]
  }

  /** The stripped string sits in `s` after its leading whitespace, with
      only whitespace after it. */
  lemma StripPadded(s: string)
    ensures PaddedAt(s, LeadingSpaces(s), Strip(s))
  {
    var i := LeadingSpaces(s);
    var t := s[i..];
    var j := |t| - TrailingSpaces(t);
    assert AllSpace(s[..i]);
    assert AllSpace(t[j..]);
    assert s[i..i + j] == t[..j];
    assert s[i + j..] == t[j..];
  }

  /** The first non-whitespace position is determined by any split of `s`
      into a whitespace run and a part not starting with whitespace. */
  lemma LeadingSpacesOfSplit(s: string, pre: string, t: string)
    requires s == pre + t
    requires AllSpace(pre)
    requires |t| > 0 && !IsSpace(t[0])
    ensures LeadingSpaces(s) == |pre|
  {
    assert forall j :: 0 <= j < |pre| ==> s[j] == pre[j];
    assert s[|pre|] == t[0];
  }

  lemma TrailingSpacesOfSplit(s: string, t: string, post: string)
    requires s == t + post
    requires AllSpace(post)
    requires |t| > 0 && !IsSpace(t[|t| - 1])
    ensures TrailingSpaces(s) == |post|
  {
    assert forall j :: 0 <= j < |post| ==> s[|t| + j] == post[j];
    assert s[|t| - 1] == t[|t| - 1];
  }

  /** Any trimmed infix with only whitespace around it is the stripped
      string: `Strip` is the only function meeting `StripPadded`. */
  lemma StripUnique(s: string, i: nat, r: string)
    requires PaddedAt(s, i, r)
    requires Trimmed(r)
    ensures Strip(s) == r
  {
    if |r| == 0 {
      StripOfBlank(s, i);
    } else {
      StripOfPadded(s, s[..i], r, s[i + |r|..]);
    }
  }

  /** A string of whitespace only strips to the empty string. */
  lemma StripOfBlank(s: string, i: nat)
    requires i <= |s|
    requires AllSpace(s[..i]) && AllSpace(s[i..])
    ensures Strip(s) == []
  {
    assert AllSpace(s) by {
      forall k | 0 <= k < |s| ensures IsSpace(s[k]) {
        if k < i { assert s[k] == s[..i][k]; } else { assert s[k] == s[i..][k - i]; }
      }
    }
    assert LeadingSpaces(s) == |s|;
  }

  /** A non-empty trimmed middle between two whitespace runs is what
      `Strip` keeps. */
  lemma StripOfPadded(s: string, pre: string, r: string, post: string)
    requires s == pre + r + post
    requires AllSpace(pre) && AllSpace(post)
    requires |r| > 0 && Trimmed(r)
    ensures Strip(s) == r
  {
    assert s == pre + (r + post);
    LeadingSpacesOfSplit(s, pre, r + post);
    var t := s[|pre|..];
    assert t == r + post;
    TrailingSpacesOfSplit(t, r, post);
  }

  /** Stripping twice is stripping once. */
  lemma StripIdempotent(s: string)
    ensures Strip(Strip(s)) == Strip(s)
  {
    var r := Strip(s);
    assert r[0..0 + |r|] == r && r[..0] == [] && r[|r|..] == [];
    StripUnique(r, 0, r);
  }

  /** Python's `s[:n]` for a non-negative bound `n`. */
  function Take(s: string, n: nat): (r: string)
    ensures |r| == (if |s| < n then |s| else n)
    ensures r <= s
  {
    if |s| <= n then s else s[..n]
  }
}
