/** Base 64 as Python's base64 module has it (sections 4 and 3.5 of RFC 4648). */
module Base64 {
  import opened Wrappers
  import opened JsonValues
  import opened Utf8

  type Sextet = n: int | 0 <= n < 64

  function Symbol(n: Sextet): char {
    if n < 26 then (n + 65) as char
    else if n < 52 then (n + 71) as char
    else if n < 62 then (n - 4) as char
    else if n == 62 then '+'
    else '/'
  }

  // The value of a symbol, or -1 for a character outside the alphabet.
  function Value(c: char): (n: int)
    ensures -1 <= n < 64
  {
    if 'A' <= c <= 'Z' then c as int - 65
    else if 'a' <= c <= 'z' then c as int - 71
    else if '0' <= c <= '9' then c as int + 4
    else if c == '+' then 62
    else if c == '/' then 63
    else -1
  }

  lemma SymbolHasValue(n: Sextet)
    ensures Value(Symbol(n)) == n && Symbol(n) != '='
  {
  }

  function First6(a: Byte): Sextet { a / 4 }
  function Next6(a: Byte, b: Byte): Sextet { a % 4 * 16 + b / 16 }
  function Third6(b: Byte, c: Byte): Sextet { b % 16 * 4 + c / 64 }
  function Last6(c: Byte): Sextet { c % 64 }

  // The symbols of one to three bytes, padded to four.
  function Quad(group: seq<Byte>): (r: string)
    requires 1 <= |group| <= 3
    ensures |r| == 4
  {
    var a := group[0];
    if |group| == 1 then [Symbol(First6(a)), Symbol(Next6(a, 0)), '=', '=']
    else if |group| == 2 then [Symbol(First6(a)), Symbol(Next6(a, group[1])), Symbol(Third6(group[1], 0)), '=']
    else [Symbol(First6(a)), Symbol(Next6(a, group[1])), Symbol(Third6(group[1], group[2])), Symbol(Last6(group[2]))]
  }

  // base64.b64encode
  function Encode(raw: seq<Byte>): string {
    if raw == [] then ""
    else if |raw| <= 3 then Quad(raw)
    else Quad(raw[..3]) + Encode(raw[3..])
  }

  // The bytes of one group of four characters. Surplus low bits are dropped.
  function GroupBytes(q: string): Option<seq<Byte>>
    requires |q| == 4
  {
    var a, b, c, d := Value(q[0]), Value(q[1]), Value(q[2]), Value(q[3]);
    if a < 0 || b < 0 then None
    else if q[2] == '=' && q[3] == '=' then Some([a * 4 + b / 16])
    else if c < 0 then None
    else if q[3] == '=' then Some([a * 4 + b / 16, b % 16 * 16 + c / 4])
    else if d < 0 then None
    else Some([a * 4 + b / 16, b % 16 * 16 + c / 4, c % 4 * 64 + d])
  }

  // base64.b64decode(..., validate=True): padding only at the very end.
  function Decode(s: string): Option<seq<Byte>> {
    if s == "" then Some([])
    else if |s| < 4 then None
    else
      match GroupBytes(s[..4])
      case None => None
      case Some(group) =>
        if |s| == 4 then Some(group)
        else if |group| < 3 then None
        else
          match Decode(s[4..])
          case None => None
          case Some(others) => Some(group + others)
  }

  lemma SextetsRegroup(a: Byte, b: Byte, c: Byte)
    ensures First6(a) * 4 + Next6(a, b) / 16 == a
    ensures Next6(a, b) % 16 * 16 + Third6(b, c) / 4 == b
    ensures Third6(b, c) % 4 * 64 + Last6(c) == c
  {
  }

  lemma QuadHasBytes(group: seq<Byte>)
    requires 1 <= |group| <= 3
    ensures GroupBytes(Quad(group)) == Some(group)
  {
    var a := group[0];
    var b: Byte := if |group| > 1 then group[1] else 0;
    var c: Byte := if |group| > 2 then group[2] else 0;
    SextetsRegroup(a, b, c);
    SymbolHasValue(First6(a));
    SymbolHasValue(Next6(a, b));
    SymbolHasValue(Third6(b, c));
    SymbolHasValue(Last6(c));
    hide Symbol, First6, Next6, Third6, Last6;
    if |group| == 1 {
      assert group == [a];
    } else if |group| == 2 {
      assert group == [a, b];
    } else {
      assert group == [a, b, c];
    }
  }

  /** Decoding undoes encoding. */
  lemma {:induction false} DecodeInvertsEncode(raw: seq<Byte>)
    ensures Decode(Encode(raw)) == Some(raw)
    ensures |Encode(raw)| % 4 == 0
  {
    hide GroupBytes, Quad;
    if raw == [] {
    } else if |raw| <= 3 {
      QuadHasBytes(raw);
      assert Encode(raw)[..4] == Quad(raw);
    } else {
      QuadHasBytes(raw[..3]);
      DecodeInvertsEncode(raw[3..]);
      EncodeNonEmpty(raw[3..]);
      var s := Encode(raw);
      assert s[..4] == Quad(raw[..3]) && s[4..] == Encode(raw[3..]);
      assert raw == raw[..3] + raw[3..];
    }
  }

  lemma EncodeNonEmpty(raw: seq<Byte>)
    requires raw != []
    ensures |Encode(raw)| >= 4
  {
  }

  predicate InAlphabet(s: string) {
    forall c | c in s :: Value(c) >= 0
  }

  // How many padding characters end s, at most two.
  function Padding(s: string): (n: nat)
    ensures n <= |s|
  {
    if |s| < 1 || s[|s| - 1] != '=' then 0 else if |s| < 2 || s[|s| - 2] != '=' then 1 else 2
  }

  // _B64_RE: symbols, at least one, then at most two padding characters.
  predicate Shaped(s: string) {
    var n := |s| - Padding(s);
    n > 0 && InAlphabet(s[..n])
  }

  lemma QuadShaped(group: seq<Byte>)
    requires 1 <= |group| <= 3
    ensures Padding(Quad(group)) == 3 - |group| && Shaped(Quad(group))
    ensures |group| == 3 ==> InAlphabet(Quad(group))
  {
    forall n: Sextet ensures Value(Symbol(n)) == n && Symbol(n) != '=' {
      SymbolHasValue(n);
    }
    hide Symbol, Value, First6, Next6, Third6, Last6;
  }

  lemma {:induction false} EncodeShaped(raw: seq<Byte>)
    requires raw != []
    ensures Shaped(Encode(raw))
  {
    if |raw| <= 3 {
      QuadShaped(raw);
    } else {
      QuadShaped(raw[..3]);
      EncodeShaped(raw[3..]);
      EncodeNonEmpty(raw[3..]);
      ShapedBehind(Quad(raw[..3]), Encode(raw[3..]));
    }
  }

  lemma ShapedBehind(q: string, s: string)
    requires InAlphabet(q) && Shaped(s) && |s| >= 2
    ensures Shaped(q + s)
  {
    var n := |s| - Padding(s);
    assert Padding(q + s) == Padding(s);
    assert (q + s)[..|q| + n] == q + s[..n];
  }

  // passport._strict_b64; every refusal is one exception.
  function Strict(value: Json, length: nat): Option<seq<Byte>> {
    if !value.Str? || |value.s| % 4 != 0 || !Shaped(value.s) then None
    else
      match Decode(value.s)
      case None => None
      case Some(raw) => if |raw| == length && Encode(raw) == value.s then Some(raw) else None
  }

  /** The strict reader accepts exactly the canonical encodings of strings of the given
      length, and reads each as the bytes it encodes. */
  lemma StrictIsCanonical(value: Json, length: nat, raw: seq<Byte>)
    requires length > 0
    ensures Strict(value, length) == Some(raw) <==> |raw| == length && value == Str(Encode(raw))
  {
    hide Encode, Decode, Shaped;
    if |raw| == length && value == Str(Encode(raw)) {
      DecodeInvertsEncode(raw);
      EncodeShaped(raw);
    }
  }
}
