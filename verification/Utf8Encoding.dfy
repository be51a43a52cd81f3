/** The byte strings that count as well-formed are the encodings of character numbers, following section 3 of
RFC 3629. */
module Utf8Encoding {
  import opened Utf8

  // A character number, other than a surrogate.
  type scalar = c: int | 0 <= c <= 0xD7FF || 0xE000 <= c <= 0x10FFFF witness 0

  // Section 3 of RFC 3629.
  function Encode(c: scalar): (r: seq<byte>)
    ensures 1 <= |r| <= 4
  {
    if c < 0x80 then [c]
    else if c < 0x800 then [0xC0 + c / 0x40, 0x80 + c % 0x40]
    else if c < 0x10000 then [0xE0 + c / 0x1000, 0x80 + c / 0x40 % 0x40, 0x80 + c % 0x40]
    else [0xF0 + c / 0x40000, 0x80 + c / 0x1000 % 0x40, 0x80 + c / 0x40 % 0x40, 0x80 + c % 0x40]
  }

  function EncodeAll(cs: seq<scalar>): seq<byte> {
    if cs == [] then [] else Encode(cs[0]) + EncodeAll(cs[1..])
  }

  lemma EncodedIsFront(c: scalar, rest: seq<byte>)
    ensures CharLength(Encode(c) + rest) == |Encode(c)|
  {
  }

  // The character that these bytes stand for.
  function Two(a: int, b: int): int {
    (a - 0xC0) * 0x40 + (b - 0x80)
  }

  function Three(a: int, b: int, c: int): int {
    (a - 0xE0) * 0x1000 + (b - 0x80) * 0x40 + (c - 0x80)
  }

  function Four(a: int, b: int, c: int, d: int): int {
    (a - 0xF0) * 0x40000 + (b - 0x80) * 0x1000 + (c - 0x80) * 0x40 + (d - 0x80)
  }

  lemma TwoAgain(a: byte, b: byte) returns (x: scalar)
    requires 0xC2 <= a <= 0xDF && Tail(b)
    ensures Encode(x) == [a, b]
  {
    x := Two(a, b);
  }

  lemma ThreeAgain(a: byte, b: byte, c: byte) returns (x: scalar)
    requires 0xE0 <= a <= 0xEF && Tail(b) && Tail(c)
    requires (a == 0xE0 ==> b >= 0xA0) && (a == 0xED ==> b <= 0x9F)
    ensures Encode(x) == [a, b, c]
  {
    x := Three(a, b, c);
    assert x / 0x40 == (a - 0xE0 as int) * 0x40 + (b - 0x80 as int);
  }

  lemma FourAgain(a: byte, b: byte, c: byte, d: byte) returns (x: scalar)
    requires 0xF0 <= a <= 0xF4 && Tail(b) && Tail(c) && Tail(d)
    requires (a == 0xF0 ==> b >= 0x90) && (a == 0xF4 ==> b <= 0x8F)
    ensures Encode(x) == [a, b, c, d]
  {
    x := Four(a, b, c, d);
    assert x / 0x40 == Three(a - 0x10, b, c);
    assert x / 0x1000 == Two(a - 0x30, b);
  }

  lemma DecodedAgain(s: seq<byte>) returns (x: scalar)
    requires CharLength(s) > 0
    ensures Encode(x) == s[..CharLength(s)]
  {
    match CharLength(s) {
      case 1 =>
        x := s[0];
      case 2 =>
        x := TwoAgain(s[0], s[1]);
      case 3 =>
        x := ThreeAgain(s[0], s[1], s[2]);
      case _ =>
        x := FourAgain(s[0], s[1], s[2], s[3]);
    }
  }

  lemma {:induction false} EncodedIsValid(cs: seq<scalar>)
    ensures ValidString(EncodeAll(cs))
  {
    if cs != [] {
      var r := Encode(cs[0]);
      EncodedIsFront(cs[0], EncodeAll(cs[1..]));
      EncodedIsValid(cs[1..]);
      assert (r + EncodeAll(cs[1..]))[|r|..] == EncodeAll(cs[1..]);
    }
  }

  lemma OneMoreChar(s: seq<byte>, n: nat, c: scalar, rest: seq<scalar>)
    requires n <= |s| && Encode(c) == s[..n] && s[n..] == EncodeAll(rest)
    ensures s == EncodeAll([c] + rest)
  {
    assert ([c] + rest)[1..] == rest && s == s[..n] + s[n..];
  }

  lemma {:induction false} ValidIsEncoded(s: seq<byte>) returns (cs: seq<scalar>)
    requires ValidString(s)
    ensures s == EncodeAll(cs)
    decreases |s|
  {
    cs := [];
    if s != [] {
      var n := CharLength(s);
      var rest := ValidIsEncoded(s[n..]);
      var c := DecodedAgain(s);
      OneMoreChar(s, n, c, rest);
      cs := [c] + rest;
    }
  }

  /** A string is well-formed exactly if it is the encoding of some characters. */
  lemma ValidExactly(s: seq<byte>)
    ensures ValidString(s) <==> exists cs :: s == EncodeAll(cs)
  {
    if ValidString(s) {
      var cs := ValidIsEncoded(s);
    }
    if cs :| s == EncodeAll(cs) {
      EncodedIsValid(cs);
    }
  }
}
