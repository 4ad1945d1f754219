/** String helpers with ECMAScript semantics: the white-space set shared by
    String.prototype.trim and the regular-expression class \s, and trim itself. */
module Text {

  /** ECMAScript WhiteSpace (tab, vertical tab, form feed, space, no-break space, the
      other Zs space separators, zero-width no-break space) and LineTerminator (line
      feed, carriage return, line separator, paragraph separator). */
  predicate IsWhitespace(c: char): (b: bool)
    ensures '!' <= c <= '~' ==> !b
  {
    || '\t' <= c <= '\r' || c == ' ' || c == '\U{A0}' || c == '\U{1680}'
    || '\U{2000}' <= c <= '\U{200A}' || c == '\U{2028}' || c == '\U{2029}'
    || c == '\U{202F}' || c == '\U{205F}' || c == '\U{3000}' || c == '\U{FEFF}'
  }

  predicate AllWhitespace(s: string) {
    forall i :: 0 <= i < |s| ==> IsWhitespace(s[i])
  }

  /** Neither starts nor ends with white space. */
  predicate IsTrimmed(s: string) {
    s == [] || (!IsWhitespace(s[0]) && !IsWhitespace(s[|s| - 1]))
  }

  /** Scans forward from `i` past white space: the index of the first other
      character at or after `i`, or |s| when there is none. */
  function SkipLeading(s: string, i: nat): (k: nat)
    requires i <= |s|
    ensures i <= k <= |s|
    ensures forall j :: i <= j < k ==> IsWhitespace(s[j])
    ensures k < |s| ==> !IsWhitespace(s[k])
    decreases |s| - i
  {
    if i < |s| && IsWhitespace(s[i]) then SkipLeading(s, i + 1) else i
  }

  /** Scans backward from `j` past white space, stopping at `lo`: the index just after
      the last other character in s[lo..j], or `lo` when there is none. */
  function SkipTrailing(s: string, lo: nat, j: nat): (k: nat)
    requires lo <= j <= |s|
    ensures lo <= k <= j
    ensures forall m :: k <= m < j ==> IsWhitespace(s[m])
    ensures k > lo ==> !IsWhitespace(s[k - 1])
    decreases j - lo
  {
    if j > lo && IsWhitespace(s[j - 1]) then SkipTrailing(s, lo, j - 1) else j
  }

  /** String.prototype.trim: the infix left after removing white space at both ends. */
  function Trim(s: string): (r: string)
    ensures IsTrimmed(r)
    ensures |r| <= |s|
    ensures r == [] <==> AllWhitespace(s)
  {
    var i := SkipLeading(s, 0);
    var k := SkipTrailing(s, i, |s|);
    s[i..k]
  }

  /** What trim removes is white space at the two ends and nothing else: the result
      is the infix of `s` between an all-white-space prefix and suffix. */
  lemma TrimIsInfix(s: string)
    ensures exists i, k :: 0 <= i <= k <= |s| && Trim(s) == s[i..k]
                           && AllWhitespace(s[..i]) && AllWhitespace(s[k..])
  {
    var i := SkipLeading(s, 0);
    var k := SkipTrailing(s, i, |s|);
    assert Trim(s) == s[i..k];
    assert AllWhitespace(s[..i]) by {
      forall j | 0 <= j < i ensures IsWhitespace(s[..i][j]) {
        assert s[..i][j] == s[j];
      }
    }
    assert AllWhitespace(s[k..]) by {
      forall j | 0 <= j < |s| - k ensures IsWhitespace(s[k..][j]) {
        assert s[k..][j] == s[k + j];
      }
    }
  }

  /** Trimming a trimmed string changes nothing, so trim is idempotent. */
  lemma TrimIdempotent(s: string)
    ensures Trim(Trim(s)) == Trim(s)
  {
    TrimmedIsFixed(Trim(s));
  }

  lemma TrimmedIsFixed(s: string)
    requires IsTrimmed(s)
    ensures Trim(s) == s
  {
    if s != [] {
      assert SkipLeading(s, 0) == 0;
      assert SkipTrailing(s, 0, |s|) == |s|;
    }
  }
}
