/** Cutting a byte string to a limit without splitting a character. Well-formedness follows the
grammar of section 4 of RFC 3629. */
module Utf8 {

  type byte = b: int | 0 <= b < 256

  predicate Tail(b: byte) {
    0x80 <= b <= 0xBF
  }

  // The length of the well-formed character at the front, or 0 if there is none.
  function CharLength(s: seq<byte>): (n: nat)
    ensures n <= |s| && n <= 4
  {
    if s == [] then 0
    else if s[0] <= 0x7F then 1
    else if |s| < 2 then 0
    else if 0xC2 <= s[0] <= 0xDF && Tail(s[1]) then 2
    else if |s| < 3 || !Tail(s[2]) then 0
    else if s[0] == 0xE0 && 0xA0 <= s[1] <= 0xBF then 3
    else if (0xE1 <= s[0] <= 0xEC || 0xEE <= s[0] <= 0xEF) && Tail(s[1]) then 3
    else if s[0] == 0xED && 0x80 <= s[1] <= 0x9F then 3
    else if |s| < 4 || !Tail(s[3]) then 0
    else if s[0] == 0xF0 && 0x90 <= s[1] <= 0xBF then 4
    else if 0xF1 <= s[0] <= 0xF3 && Tail(s[1]) then 4
    else if s[0] == 0xF4 && 0x80 <= s[1] <= 0x8F then 4
    else 0
  }

  predicate ValidString(s: seq<byte>)
    decreases |s|
  {
    s == [] || (CharLength(s) > 0 && ValidString(s[CharLength(s)..]))
  }

  // r is the longest well-formed prefix of s among those of at most max bytes.
  ghost predicate IsLongestPrefix(r: seq<byte>, s: seq<byte>, max: nat) {
    && |r| <= |s| && r == s[..|r|]
    && |r| <= max && ValidString(r)
    && forall k :: |r| < k <= max && k <= |s| ==> !ValidString(s[..k])
  }

  method TruncateBytes(s: seq<byte>, max: int) returns (r: seq<byte>)
    ensures max <= 0 || |s| <= max ==> r == s
    ensures 0 < max < |s| ==> IsLongestPrefix(r, s, max)
  {
    if max <= 0 || |s| <= max {
      return s;
    }
    r := s[..max];
    while !ValidString(r) && |r| > 0
      invariant |r| <= max && r == s[..|r|]
      invariant forall k :: |r| < k <= max ==> !ValidString(s[..k])
    {
      r := r[..|r| - 1];
    }
  }

  method TruncateUTF8ByBytes(s: seq<byte>, maxBytes: nat) returns (r: seq<byte>)
    ensures |s| <= maxBytes ==> r == s
    ensures maxBytes < |s| ==> IsLongestPrefix(r, s, maxBytes)
  {
    if |s| <= maxBytes {
      return s;
    }
    r := s[..maxBytes];
    while |r| > 0 && !ValidString(r)
      invariant |r| <= maxBytes && r == s[..|r|]
      invariant forall k :: |r| < k <= maxBytes ==> !ValidString(s[..k])
    {
      r := r[..|r| - 1];
    }
  }

  /** The longest prefix is unique, so the two implementations agree wherever both truncate. */
  lemma LongestPrefixUnique(a: seq<byte>, b: seq<byte>, s: seq<byte>, max: nat)
    requires IsLongestPrefix(a, s, max) && IsLongestPrefix(b, s, max)
    ensures a == b
  {
  }

  // Both truncations of one string, side by side.
  method TruncateBothWays(s: seq<byte>, max: nat) returns (a: seq<byte>, b: seq<byte>)
    ensures max > 0 ==> a == b
    ensures max == 0 ==> a == s && b == []
  {
    a := TruncateBytes(s, max);
    b := TruncateUTF8ByBytes(s, max);
    if 0 < max < |s| {
      LongestPrefixUnique(a, b, s, max);
    }
  }

  lemma CharLengthOfPrefix(s: seq<byte>, m: nat)
    requires CharLength(s) <= m <= |s|
    ensures CharLength(s) > 0 ==> CharLength(s[..m]) == CharLength(s)
  {
  }

  lemma {:induction false} ValidNearby(s: seq<byte>, max: nat) returns (k: nat)
    requires ValidString(s) && max <= |s|
    ensures max - 3 <= k <= max && ValidString(s[..k])
    decreases |s|
  {
    var n := CharLength(s);
    if s == [] || max < n {
      k := 0;
    } else {
      k := ValidNearby(s[n..], max - n);
      k := k + n;
      CharLengthOfPrefix(s, k);
      assert s[..k][n..] == s[n..][..k - n];
    }
  }

  /** Truncating a well-formed string loses at most three bytes below the limit. */
  lemma AtMostThreeBytesLost(s: seq<byte>, r: seq<byte>, max: nat)
    requires ValidString(s) && max < |s| && IsLongestPrefix(r, s, max)
    ensures max - 3 <= |r| <= max
  {
    var k := ValidNearby(s, max);
  }

  // ---------- Cutting without care ----------

  lemma CharLengthCut(s: seq<byte>, m: nat)
    requires 0 < m < CharLength(s)
    ensures CharLength(s[..m]) == 0 && Tail(s[m])
  {
  }

  lemma FirstIsNoTail(s: seq<byte>)
    requires CharLength(s) > 0
    ensures !Tail(s[0])
  {
  }

  /** A prefix of a well-formed string is well-formed exactly if the next byte does not continue a character. */
  lemma {:induction false} CutExactly(s: seq<byte>, max: nat)
    requires ValidString(s) && max < |s|
    ensures ValidString(s[..max]) <==> !Tail(s[max])
    decreases |s|
  {
    var n := CharLength(s);
    if max == 0 {
      FirstIsNoTail(s);
    } else if max < n {
      CharLengthCut(s, max);
    } else {
      CharLengthOfPrefix(s, max);
      assert s[..max][n..] == s[n..][..max - n];
      if max == n {
        if s[n..] != [] {
          FirstIsNoTail(s[n..]);
        }
      } else {
        CutExactly(s[n..], max - n);
      }
    }
  }

  predicate Ascii(s: seq<byte>) {
    forall b :: b in s ==> b <= 0x7F
  }

  lemma {:induction false} AsciiValid(s: seq<byte>)
    requires Ascii(s)
    ensures ValidString(s)
  {
    if s != [] {
      assert s[0] in s && s == [s[0]] + s[1..];
      forall b | b in s[1..] ensures b <= 0x7F {
        assert b in s;
      }
      AsciiValid(s[1..]);
    }
  }

  lemma CharLengthBefore(s: seq<byte>, note: seq<byte>)
    requires s != [] && Ascii(note)
    ensures CharLength(s + note) == CharLength(s)
  {
    assert forall i :: 0 <= i < |note| ==> (s + note)[|s| + i] == note[i] && note[i] in note;
    assert forall i :: 0 <= i < |s| ==> (s + note)[i] == s[i];
  }

  lemma {:induction false} NoteDoesNotMatter(s: seq<byte>, note: seq<byte>)
    requires Ascii(note)
    ensures ValidString(s + note) <==> ValidString(s)
    decreases |s|
  {
    if s == [] {
      assert s + note == note;
      AsciiValid(note);
    } else {
      CharLengthBefore(s, note);
      var n := CharLength(s);
      if n > 0 {
        assert (s + note)[n..] == s[n..] + note;
        NoteDoesNotMatter(s[n..], note);
      }
    }
  }

  /** A tool's result that is cut at a byte limit and followed by a plain note stays well-formed exactly if the
  first byte cut off does not continue a character. */
  lemma CutResultExactly(s: seq<byte>, max: nat, note: seq<byte>)
    requires ValidString(s) && max < |s| && Ascii(note)
    ensures ValidString(s[..max] + note) <==> !Tail(s[max])
  {
    NoteDoesNotMatter(s[..max], note);
    CutExactly(s, max);
  }
}
