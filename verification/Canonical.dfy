/**
 arena/canonical.py: canonical text, canonical bytes, digest and chain.

 Canonical text is JSON (RFC 8259) with object keys in code-point order, no
 insignificant whitespace, and only the escapes that section 7 requires.
 */
module Canonical {
  import opened Wrappers
  import opened JsonValues
  import opened Utf8
  import KeyOrder

  // Why a value has no canonical bytes. UnicodeEncode is raised by str.encode,
  // after the float check has passed.
  datatype EncodeError = NonCanonical | UnicodeEncode

  function ErrorName(e: EncodeError): string {
    if e.NonCanonical? then "NonCanonical" else "UnicodeEncodeError"
  }

  predicate IsHexDigit(c: char) {
    '0' <= c <= '9' || 'a' <= c <= 'f'
  }

  predicate Hex64(s: string) {
    |s| == 64 && forall c | c in s :: IsHexDigit(c)
  }

  // replay._hex64 and transcript._hex64 on a value of any type.
  predicate Hex64Value(j: Json) {
    j.Str? && Hex64(j.s)
  }

  function Zeros(n: nat): (r: string)
    ensures |r| == n && forall c | c in r :: c == '0'
  {
    if n == 0 then "" else "0" + Zeros(n - 1)
  }

  const GENESIS: string := Zeros(64)

  const SEPARATOR: Byte := 0x1f

  // hashlib.sha256(...).hexdigest(), about which nothing else is known.
  type Sha = f: seq<Byte> -> string | forall b :: Hex64(f(b)) witness (b: seq<Byte>) => GENESIS

  function HexDigit(d: int): char
    requires 0 <= d < 16
  {
    if d < 10 then (d + 48) as char else (d + 87) as char
  }

  function EscapeChar(c: char): (r: string)
    ensures r != ""
  {
    if c == '\"' then "\\\""
    else if c == '\\' then "\\\\"
    else if c == '\n' then "\\n"
    else if c == '\r' then "\\r"
    else if c == '\t' then "\\t"
    else if c as int == 8 then "\\b"
    else if c as int == 12 then "\\f"
    else if c as int < 0x20 then "\\u00" + [HexDigit(c as int / 16), HexDigit(c as int % 16)]
    else [c]
  }

  // The rest of a string literal once its quote is open, then what follows it.
  function WriteChars(s: string, rest: string): (r: string)
    ensures r != ""
  {
    if s == "" then "\"" + rest else EscapeChar(s[0]) + WriteChars(s[1..], rest)
  }

  function Digits(n: nat): (r: string)
    ensures r != ""
    ensures forall c | c in r :: '0' <= c <= '9'
    ensures r[0] == '0' ==> n == 0
    ensures n == 0 ==> r == "0"
  {
    if n < 10 then [(n + 48) as char] else Digits(n / 10) + [(n % 10 + 48) as char]
  }

  function Decimal(n: int): string {
    if n < 0 then "-" + Digits(-n) else Digits(n)
  }

  // The canonical text of j, followed by rest.
  function Write(j: Json, rest: string): string
    requires Encodable(j)
    decreases j, 1, 0
  {
    match j
    case Null => "null" + rest
    case Bool(b) => if b then "true" + rest else "false" + rest
    case Int(n) => Decimal(n) + rest
    case Str(s) => "\"" + WriteChars(s, rest)
    case List(items) => "[" + WriteItems(j, 0, "]" + rest)
    case Obj(m) => "{" + WriteMembers(j, KeyOrder.Sorted(m.Keys), "}" + rest)
  }

  function WriteItems(j: Json, from: nat, rest: string): string
    requires j.List? && Encodable(j) && from <= |j.items|
    decreases j, 0, |j.items| - from
  {
    if from == |j.items| then rest
    else Write(j.items[from], if from + 1 == |j.items| then rest else "," + WriteItems(j, from + 1, rest))
  }

  function WriteMembers(j: Json, keys: seq<string>, rest: string): string
    requires j.Obj? && Encodable(j) && forall k | k in keys :: k in j.fields
    decreases j, 0, |keys|
  {
    if keys == [] then rest
    else
      var after := if |keys| == 1 then rest else "," + WriteMembers(j, keys[1..], rest);
      "\"" + WriteChars(keys[0], ":" + Write(j.fields[keys[0]], after))
  }

  function Text(j: Json): string
    requires Encodable(j)
  {
    Write(j, "")
  }

  function CanonicalBytes(j: Json): Result<seq<Byte>, EncodeError> {
    if !Checked(j) then Err(NonCanonical)
    else if !Textual(j) then Err(UnicodeEncode)
    else Ok(Encode(Text(j)))
  }

  function Digest(sha: Sha, j: Json): Result<string, EncodeError> {
    var bytes :- CanonicalBytes(j);
    Ok(sha(bytes))
  }

  function ChainPreimage(prev: string, body: Json): seq<Byte>
    requires Encodable(body)
  {
    Encode(prev) + [SEPARATOR] + Encode(Text(body))
  }

  function Chain(sha: Sha, prev: string, body: Json): Result<string, EncodeError> {
    var _ :- CanonicalBytes(body);
    Ok(sha(ChainPreimage(prev, body)))
  }

  // Two different inputs with one hash.
  ghost predicate Collision(sha: Sha, x: seq<Byte>, y: seq<Byte>) {
    x != y && sha(x) == sha(y)
  }
}
