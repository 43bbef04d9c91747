/** String operations that both halves of the application lean on: ASCII case
    mapping (Python's `str.lower` and JavaScript's `toLowerCase`/`toUpperCase`
    restricted to ASCII), Python's `str.rfind`, and JavaScript's
    `String.prototype.trim` and `split`. */
module Text {

  predicate IsAsciiUpper(c: char) { 'A' <= c <= 'Z' }

  predicate IsAsciiLower(c: char) { 'a' <= c <= 'z' }

  function LowerChar(c: char): (r: char)
    ensures !IsAsciiUpper(r)
    ensures IsAsciiUpper(c) ==> IsAsciiLower(r) && r as int == c as int + 32
    ensures !IsAsciiUpper(c) ==> r == c
  {
    if IsAsciiUpper(c) then (c as int + 32) as char else c
  }

  function UpperChar(c: char): (r: char)
    ensures !IsAsciiLower(r)
    ensures IsAsciiLower(c) ==> IsAsciiUpper(r) && r as int == c as int - 32
    ensures !IsAsciiLower(c) ==> r == c
  {
    if IsAsciiLower(c) then (c as int - 32) as char else c
  }

  /** Lower-cases every ASCII letter and leaves every other character alone. */
  function Lower(s: string): (r: string)
    ensures |r| == |s|
    ensures forall i {:trigger r[i]} :: 0 <= i < |s| ==> r[i] == LowerChar(s[i])
  {
    seq(|s|, i requires 0 <= i < |s| => LowerChar(s[i]))
  }

  /** Upper-cases every ASCII letter and leaves every other character alone. */
  function Upper(s: string): (r: string)
    ensures |r| == |s|
    ensures forall i :: 0 <= i < |s| ==> r[i] == UpperChar(s[i])
  {
    seq(|s|, i requires 0 <= i < |s| => UpperChar(s[i]))
  }

  lemma LowerSlice(s: string, lo: int, hi: int)
    requires 0 <= lo <= hi <= |s|
    ensures Lower(s[lo..hi]) == Lower(s)[lo..hi]
  {
    assert forall i :: 0 <= i < hi - lo ==> Lower(s[lo..hi])[i] == Lower(s)[lo..hi][i];
  }

  lemma LowerSuffix(s: string, lo: int)
    requires 0 <= lo <= |s|
    ensures Lower(s[lo..]) == Lower(s)[lo..]
  {
    assert forall i :: 0 <= i < |s| - lo ==> Lower(s[lo..])[i] == Lower(s)[lo..][i];
  }

  lemma LowerAppend(a: string, b: string)
    ensures Lower(a + b) == Lower(a) + Lower(b)
  {
    assert forall i :: 0 <= i < |a + b| ==> Lower(a + b)[i] == (Lower(a) + Lower(b))[i];
  }

  lemma LowerWithoutUpper(s: string)
    requires forall i :: 0 <= i < |s| ==> !IsAsciiUpper(s[i])
    ensures Lower(s) == s
  {
  }

  /** Python's `s.rfind(c)`: the index of the last `c` in `s`, or -1. */
  function RFind(s: string, c: char): (i: int)
    ensures -1 <= i < |s|
    ensures 0 <= i ==> s[i] == c
    ensures forall k :: i < k < |s| ==> s[k] != c
    decreases |s|
  {
    if s == [] then -1
    else if s[|s| - 1] == c then |s| - 1
    else RFind(s[..|s| - 1], c)
  }

  /** The last occurrence of `c` is at `i` when `s[i]` is `c` and none follows. */
  lemma RFindAt(s: string, c: char, i: int)
    requires 0 <= i < |s| && s[i] == c
    requires forall k :: i < k < |s| ==> s[k] != c
    ensures RFind(s, c) == i
  {
  }

  /** Lower-casing neither creates nor removes a character that is not an
      ASCII letter, so the last occurrence of one stays where it was. */
  lemma {:induction false} RFindLower(s: string, c: char)
    requires !IsAsciiLower(c) && !IsAsciiUpper(c)
    ensures RFind(Lower(s), c) == RFind(s, c)
    decreases |s|
  {
    if s != [] {
      var n := |s| - 1;
      assert Lower(s)[n] == c <==> s[n] == c;
      if s[n] != c {
        LowerSlice(s, 0, n);
        assert Lower(s)[..n] == Lower(s[..n]);
        RFindLower(s[..n], c);
      }
    }
  }

  /** The characters JavaScript's `String.prototype.trim` removes: the
      WhiteSpace and LineTerminator productions of ECMAScript. */
  predicate IsJsWhiteSpace(c: char)
  {
    || c == '\t' || c == '\n' || c == '\U{0B}' || c == '\U{0C}' || c == '\r' || c == ' '
    || c == '\U{A0}' || c == '\U{1680}' || ('\U{2000}' <= c <= '\U{200A}')
    || c == '\U{2028}' || c == '\U{2029}' || c == '\U{202F}' || c == '\U{205F}'
    || c == '\U{3000}' || c == '\U{FEFF}'
  }

  /** A string that `trim()` turns into the empty string (a falsy value in JavaScript). */
  predicate IsBlank(s: string)
  {
    forall i :: 0 <= i < |s| ==> IsJsWhiteSpace(s[i])
  }

  /** The first index at or after `i` that does not hold white space, or |s|. */
  function SkipWhiteSpace(s: string, i: nat): (r: nat)
    requires i <= |s|
    ensures i <= r <= |s|
    ensures forall k :: i <= k < r ==> IsJsWhiteSpace(s[k])
    ensures r < |s| ==> !IsJsWhiteSpace(s[r])
    decreases |s| - i
  {
    if i < |s| && IsJsWhiteSpace(s[i]) then SkipWhiteSpace(s, i + 1) else i
  }

  /** The end of `s[lo..hi]` once its trailing white space is dropped. */
  function BackSkipWhiteSpace(s: string, lo: nat, hi: nat): (r: nat)
    requires lo <= hi <= |s|
    ensures lo <= r <= hi
    ensures forall k :: r <= k < hi ==> IsJsWhiteSpace(s[k])
    ensures lo < r ==> !IsJsWhiteSpace(s[r - 1])
    decreases hi
  {
    if lo < hi && IsJsWhiteSpace(s[hi - 1]) then BackSkipWhiteSpace(s, lo, hi - 1) else hi
  }

  /** JavaScript's `s.trim()`: `s` without its leading and trailing white space. */
  function Trim(s: string): (r: string)
    ensures r == [] <==> IsBlank(s)
    ensures r != [] ==> !IsJsWhiteSpace(r[0]) && !IsJsWhiteSpace(r[|r| - 1])
    ensures |r| <= |s|
    ensures exists lo, hi :: 0 <= lo <= hi <= |s| && r == s[lo..hi] && IsBlank(s[..lo]) && IsBlank(s[hi..])
  {
    var lo := SkipWhiteSpace(s, 0);
    var hi := BackSkipWhiteSpace(s, lo, |s|);
    assert lo < |s| ==> lo < hi;
    assert IsBlank(s[..lo]) by {
      forall k | 0 <= k < lo ensures IsJsWhiteSpace(s[..lo][k]) { assert s[..lo][k] == s[k]; }
    }
    assert IsBlank(s[hi..]) by {
      forall k | 0 <= k < |s| - hi ensures IsJsWhiteSpace(s[hi..][k]) { assert s[hi..][k] == s[hi + k]; }
    }
    s[lo..hi]
  }

  /** JavaScript's `s.split(sep)` for a one-character separator: the pieces
      between separators, always at least one. */
  function Split(s: string, sep: char): (parts: seq<string>)
    ensures |parts| >= 1
    ensures forall i :: 0 <= i < |parts| ==> sep !in parts[i]
    ensures sep !in s ==> parts == [s]
    decreases |s|
  {
    if s == [] then [[]]
    else
      var init := Split(s[..|s| - 1], sep);
      var c := s[|s| - 1];
      assert s == s[..|s| - 1] + [c];
      if c == sep then init + [[]]
      else init[..|init| - 1] + [init[|init| - 1] + [c]]
  }

  /** JavaScript's `parts.join(sep)`. */
  function Join(parts: seq<string>, sep: char): string
    requires |parts| >= 1
    decreases |parts|
  {
    if |parts| == 1 then parts[0]
    else Join(parts[..|parts| - 1], sep) + [sep] + parts[|parts| - 1]
  }

  /** Joining the pieces of a split with the same separator gives back the string. */
  lemma {:induction false} JoinSplit(s: string, sep: char)
    ensures Join(Split(s, sep), sep) == s
    decreases |s|
  {
    if s != [] {
      var n := |s| - 1;
      var init := Split(s[..n], sep);
      var k := |init| - 1;
      var parts := Split(s, sep);
      JoinSplit(s[..n], sep);
      assert s == s[..n] + [s[n]];
      if s[n] == sep {
        assert parts[..|parts| - 1] == init;
      } else if k == 0 {
        assert parts == [init[0] + [s[n]]];
      } else {
        assert parts[..|parts| - 1] == init[..k];
        assert Join(init, sep) == Join(init[..k], sep) + [sep] + init[k];
      }
    }
  }

  /** `s.split(sep).pop()`: the last piece of the split. */
  function LastSegment(s: string, sep: char): string
  {
    var parts := Split(s, sep);
    parts[|parts| - 1]
  }

  /** The last piece of a split is what follows the last separator (all of `s`
      when there is none). */
  lemma {:induction false} LastSegmentAfterRFind(s: string, sep: char)
    ensures LastSegment(s, sep) == s[RFind(s, sep) + 1..]
    decreases |s|
  {
    if s != [] {
      var n := |s| - 1;
      var t, c := s[..n], s[n];
      var init := Split(t, sep);
      if c == sep {
        assert Split(s, sep) == init + [[]];
        assert RFind(s, sep) == n;
      } else {
        assert Split(s, sep) == init[..|init| - 1] + [init[|init| - 1] + [c]];
        assert LastSegment(s, sep) == LastSegment(t, sep) + [c];
        var k := RFind(t, sep);
        assert RFind(s, sep) == k;
        LastSegmentAfterRFind(t, sep);
        assert s[k + 1..] == t[k + 1..] + [c];
      }
    }
  }
}
