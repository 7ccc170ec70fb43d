/**
 * String trimming as JavaScript's String.prototype.trim performs it: remove the
 * leading and trailing code points that ECMA-262 classifies as WhiteSpace
 * (section 12.2) or LineTerminator (section 12.3).
 */
module Text {

  /** WhiteSpace (ECMA-262 section 12.2, including every Zs code point) or LineTerminator (section 12.3). */
  predicate IsWhite(c: char)
    ensures c == ' ' || c == '\t' || c == '\n' || c == '\r' ==> IsWhite(c)
    ensures IsWhite(c) ==> !('0' <= c <= '9' || 'a' <= c <= 'z' || 'A' <= c <= 'Z')
    ensures IsWhite(c) ==> (c as int) < 0x10000
  {
    var n := c as int;
    // LineTerminator: LF, CR, LINE SEPARATOR, PARAGRAPH SEPARATOR
    n == 0x000A || n == 0x000D || n == 0x2028 || n == 0x2029 ||
    // WhiteSpace: TAB, VT, FF, ZWNBSP
    n == 0x0009 || n == 0x000B || n == 0x000C || n == 0xFEFF ||
    // WhiteSpace: the Space_Separator (Zs) category
    n == 0x0020 || n == 0x00A0 || n == 0x1680 || (0x2000 <= n <= 0x200A) ||
    n == 0x202F || n == 0x205F || n == 0x3000
  }

  predicate AllWhite(s: string) {
    forall i :: 0 <= i < |s| ==> IsWhite(s[i])
  }

  /** Neither the first nor the last character is white space. */
  predicate Trimmed(t: string) {
    t == [] || (!IsWhite(t[0]) && !IsWhite(t[|t| - 1]))
  }

  /**
   * Reference definition: t is s with white space removed from both ends, i.e. a
   * contiguous slice s[lo..hi] with only white space outside it and none at its ends.
   */
  ghost predicate IsTrimOf(t: string, s: string)
    ensures IsTrimOf(t, s) ==> |t| <= |s| && Trimmed(t)
  {
    exists lo, hi :: 0 <= lo <= hi <= |s| && t == s[lo..hi] &&
      AllWhite(s[..lo]) && AllWhite(s[hi..]) && Trimmed(t)
  }

  /** How many white-space characters s starts with. */
  function LeadingWhite(s: string): (n: nat)
    ensures n <= |s|
    ensures forall i :: 0 <= i < n ==> IsWhite(s[i])
    ensures n < |s| ==> !IsWhite(s[n])
  {
    if |s| > 0 && IsWhite(s[0]) then 1 + LeadingWhite(s[1..]) else 0
  }

  /** How many white-space characters s ends with. */
  function TrailingWhite(s: string): (n: nat)
    ensures n <= |s|
    ensures forall i :: |s| - n <= i < |s| ==> IsWhite(s[i])
    ensures n < |s| ==> !IsWhite(s[|s| - 1 - n])
  {
    if |s| > 0 && IsWhite(s[|s| - 1]) then 1 + TrailingWhite(s[..|s| - 1]) else 0
  }

  /** Where the trimmed slice of s starts. */
  function TrimLo(s: string): nat {
    LeadingWhite(s)
  }

  /** Where the trimmed slice of s ends: the trailing white space is counted after the leading is gone. */
  function TrimHi(s: string): nat {
    |s| - TrailingWhite(s[LeadingWhite(s)..])
  }

  /** Only white space precedes the slice. */
  lemma {:induction false} WhiteBefore(s: string)
    ensures AllWhite(s[..TrimLo(s)])
  {
    var lo := TrimLo(s);
    forall i | 0 <= i < lo
      ensures IsWhite(s[..lo][i])
    {
      assert s[..lo][i] == s[i];
    }
  }

  /** Only white space follows the slice. */
  lemma {:induction false} WhiteAfter(s: string)
    ensures TrimLo(s) <= TrimHi(s) <= |s| && AllWhite(s[TrimHi(s)..])
  {
    var lo, hi := TrimLo(s), TrimHi(s);
    var t := s[lo..];
    forall i | 0 <= i < |s| - hi
      ensures IsWhite(s[hi..][i])
    {
      assert s[hi..][i] == t[i + hi - lo];
    }
  }

  /** The slice neither starts nor ends with white space. */
  lemma {:induction false} SliceTrimmed(s: string)
    requires TrimLo(s) <= TrimHi(s) <= |s|
    ensures Trimmed(s[TrimLo(s)..TrimHi(s)])
  {
    var lo, hi := TrimLo(s), TrimHi(s);
    var t := s[lo..];
    if lo < hi {
      assert s[lo..hi][0] == s[lo];
      assert s[lo..hi][hi - lo - 1] == t[|t| - 1 - TrailingWhite(t)];
    }
  }

  /** The slice between the leading and the trailing white space meets the trim conditions. */
  lemma {:induction false} TrimSlice(s: string)
    ensures var lo, hi := TrimLo(s), TrimHi(s);
      && 0 <= lo <= hi <= |s| && AllWhite(s[..lo]) && AllWhite(s[hi..]) && Trimmed(s[lo..hi])
  {
    WhiteBefore(s);
    WhiteAfter(s);
    SliceTrimmed(s);
  }

  /** `s.trim()`. */
  function Trim(s: string): (r: string)
    ensures IsTrimOf(r, s)
  {
    TrimSlice(s);
    s[TrimLo(s)..TrimHi(s)]
  }

  /** White space on a prefix or a suffix, stated by index into s. */
  lemma WhiteOutside(s: string, lo: int, hi: int)
    requires 0 <= lo <= hi <= |s| && AllWhite(s[..lo]) && AllWhite(s[hi..])
    ensures forall i :: 0 <= i < lo ==> IsWhite(s[i])
    ensures forall i :: hi <= i < |s| ==> IsWhite(s[i])
  {
    assert forall i :: 0 <= i < lo ==> s[..lo][i] == s[i];
    assert forall i :: hi <= i < |s| ==> s[hi..][i - hi] == s[i];
  }

  /** Two slices that both satisfy the trim conditions are the same string. */
  lemma {:induction false} TrimSlicesAgree(s: string, lo1: int, hi1: int, lo2: int, hi2: int)
    requires 0 <= lo1 <= hi1 <= |s| && AllWhite(s[..lo1]) && AllWhite(s[hi1..]) && Trimmed(s[lo1..hi1])
    requires 0 <= lo2 <= hi2 <= |s| && AllWhite(s[..lo2]) && AllWhite(s[hi2..]) && Trimmed(s[lo2..hi2])
    ensures s[lo1..hi1] == s[lo2..hi2]
  {
    WhiteOutside(s, lo1, hi1);
    WhiteOutside(s, lo2, hi2);
    // A non-empty slice starts at the first non-white character and ends after the last one.
    assert lo1 < hi1 ==> !IsWhite(s[lo1]) && !IsWhite(s[hi1 - 1]) by {
      if lo1 < hi1 { assert s[lo1] == s[lo1..hi1][0] && s[hi1 - 1] == s[lo1..hi1][hi1 - 1 - lo1]; }
    }
    assert lo2 < hi2 ==> !IsWhite(s[lo2]) && !IsWhite(s[hi2 - 1]) by {
      if lo2 < hi2 { assert s[lo2] == s[lo2..hi2][0] && s[hi2 - 1] == s[lo2..hi2][hi2 - 1 - lo2]; }
    }
    assert (lo1 < hi1) == (lo2 < hi2);
  }

  /** Trim computes the only string satisfying the reference definition. */
  lemma {:induction false} TrimIsUnique(s: string, t: string)
    requires IsTrimOf(t, s)
    ensures t == Trim(s)
  {
    var lo1, hi1 :| 0 <= lo1 <= hi1 <= |s| && t == s[lo1..hi1] &&
      AllWhite(s[..lo1]) && AllWhite(s[hi1..]) && Trimmed(t);
    var r := Trim(s);
    var lo2, hi2 :| 0 <= lo2 <= hi2 <= |s| && r == s[lo2..hi2] &&
      AllWhite(s[..lo2]) && AllWhite(s[hi2..]) && Trimmed(r);
    TrimSlicesAgree(s, lo1, hi1, lo2, hi2);
  }

  /** Surrounding white space is removed and everything between, interior white space included, kept. */
  lemma {:induction false} TrimOfPadded(before: string, t: string, after: string)
    requires AllWhite(before) && AllWhite(after) && Trimmed(t)
    ensures Trim(before + t + after) == t
  {
    var s := before + t + after;
    var lo, hi := |before|, |before| + |t|;
    assert s[lo..hi] == t && s[..lo] == before && s[hi..] == after;
    TrimIsUnique(s, t);
  }

  /** A string with no surrounding white space is returned unchanged. */
  lemma {:induction false} TrimOfTrimmed(t: string)
    requires Trimmed(t)
    ensures Trim(t) == t
  {
    assert [] + t + [] == t;
    TrimOfPadded([], t, []);
  }

  /** Trimming twice is trimming once. */
  lemma {:induction false} TrimIdempotent(s: string)
    ensures Trim(Trim(s)) == Trim(s)
  {
    TrimOfTrimmed(Trim(s));
  }

  /** A version file holding "1.2.3\n" yields "1.2.3". */
  lemma {:induction false} TrimVersionLine()
    ensures Trim("1.2.3\n") == "1.2.3"
  {
    assert "1.2.3\n" == [] + "1.2.3" + "\n";
    TrimOfPadded([], "1.2.3", "\n");
  }
}
