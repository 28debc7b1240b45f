/** UTF-8 encoding of text (section 3 of RFC 3629). */
module Utf8 {
  type Byte = b: int | 0 <= b < 256

  function EncodeChar(c: char): (r: seq<Byte>)
    ensures 1 <= |r| <= 4
    ensures c as int < 0x80 ==> r == [c as int]
    ensures c as int >= 0x80 ==> forall b | b in r :: b >= 0x80
  {
    var n := c as int;
    if n < 0x80 then [n]
    else if n < 0x800 then [0xC0 + n / 0x40, 0x80 + n % 0x40]
    else if n < 0x1_0000 then [0xE0 + n / 0x1000, 0x80 + n / 0x40 % 0x40, 0x80 + n % 0x40]
    else [0xF0 + n / 0x4_0000, 0x80 + n / 0x1000 % 0x40, 0x80 + n / 0x40 % 0x40, 0x80 + n % 0x40]
  }

  function Encode(s: string): seq<Byte> {
    if s == "" then [] else EncodeChar(s[0]) + Encode(s[1..])
  }

  // The length and the scalar value that a well-formed lead promises.
  function Width(lead: Byte): nat {
    if lead < 0x80 then 1 else if lead < 0xE0 then 2 else if lead < 0xF0 then 3 else 4
  }

  function Scalar(u: seq<int>): int
    requires 1 <= |u| <= 4
  {
    if |u| == 1 then u[0]
    else if |u| == 2 then (u[0] - 0xC0) * 0x40 + (u[1] - 0x80)
    else if |u| == 3 then (u[0] - 0xE0) * 0x1000 + (u[1] - 0x80) * 0x40 + (u[2] - 0x80)
    else (u[0] - 0xF0) * 0x4_0000 + (u[1] - 0x80) * 0x1000 + (u[2] - 0x80) * 0x40 + (u[3] - 0x80)
  }

  lemma EncodeCharDecodes(c: char)
    ensures Width(EncodeChar(c)[0]) == |EncodeChar(c)|
    ensures Scalar(EncodeChar(c)) == c as int
  {
    var n := c as int;
    assert n / 0x1000 == n / 0x40 / 0x40;
    assert n / 0x4_0000 == n / 0x1000 / 0x40;
  }

  lemma EncodeCharIsPrefixFree(a: char, b: char, x: seq<Byte>, y: seq<Byte>)
    requires EncodeChar(a) + x == EncodeChar(b) + y
    ensures a == b && x == y
  {
    var ea, eb := EncodeChar(a), EncodeChar(b);
    EncodeCharDecodes(a);
    EncodeCharDecodes(b);
    assert ea[0] == (ea + x)[0] == (eb + y)[0] == eb[0];
    assert ea == (ea + x)[..|ea|] == eb;
    assert x == (ea + x)[|ea|..] == y;
  }

  /** No two texts share a byte form. */
  lemma {:induction false} EncodeInjective(s: string, t: string)
    requires Encode(s) == Encode(t)
    ensures s == t
  {
    if s != "" && t != "" {
      EncodeCharIsPrefixFree(s[0], t[0], Encode(s[1..]), Encode(t[1..]));
      EncodeInjective(s[1..], t[1..]);
      assert s == [s[0]] + s[1..] && t == [t[0]] + t[1..];
    }
  }

  /** An ASCII byte in the output is an ASCII character of the input. */
  lemma {:induction false} AsciiByteIsAsciiChar(s: string, b: Byte)
    requires b in Encode(s) && b < 0x80
    ensures b as char in s
  {
    if b in EncodeChar(s[0]) {
      assert EncodeChar(s[0]) == [b];
      assert s[0] == b as char;
    } else {
      AsciiByteIsAsciiChar(s[1..], b);
    }
  }
}
