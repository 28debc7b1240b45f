/**
 json.loads as the transcript loader calls it: the grammar of RFC 8259 with
 Python's NaN and Infinity, read strictly (no raw control characters in strings),
 with object_pairs_hook refusing repeated keys. Every parser consumes a prefix of
 its input and returns the rest.
 */
module JsonLoads {
  import opened Wrappers
  import opened JsonValues

  datatype ParseError = Malformed | DuplicateKey
  type Parsed<T> = Result<(T, string), ParseError>

  predicate IsSpace(c: char) {
    c == ' ' || c == '\t' || c == '\n' || c == '\r'
  }

  predicate IsDigit(c: char) {
    '0' <= c <= '9'
  }

  function SkipSpace(s: string): (r: string)
    ensures |r| <= |s|
  {
    if s != "" && IsSpace(s[0]) then SkipSpace(s[1..]) else s
  }

  function DigitRun(s: string): (n: nat)
    ensures n <= |s|
    ensures forall i | 0 <= i < n :: IsDigit(s[i])
  {
    if s != "" && IsDigit(s[0]) then 1 + DigitRun(s[1..]) else 0
  }

  function DigitValue(c: char): nat
    requires IsDigit(c)
  {
    c as int - 48
  }

  function NatOf(ds: string): nat
    requires forall c | c in ds :: IsDigit(c)
  {
    if ds == "" then 0 else NatOf(ds[..|ds| - 1]) * 10 + DigitValue(ds[|ds| - 1])
  }

  // Length of the fraction and of the exponent at the head of s; 0 when absent.
  function FractionLength(s: string): (n: nat)
    ensures n <= |s|
  {
    if s != "" && s[0] == '.' && DigitRun(s[1..]) > 0 then 1 + DigitRun(s[1..]) else 0
  }

  function SignLength(s: string): (n: nat)
    ensures n <= |s|
  {
    if s != "" && (s[0] == '+' || s[0] == '-') then 1 else 0
  }

  function ExponentLength(s: string): (n: nat)
    ensures n <= |s|
  {
    if s == "" || (s[0] != 'e' && s[0] != 'E') then 0
    else
      var sign := SignLength(s[1..]);
      var run := DigitRun(s[1..][sign..]);
      if run > 0 then 1 + sign + run else 0
  }

  function ParseNumber(s: string): (r: Parsed<Json>)
    ensures r.Ok? ==> |r.value.1| < |s|
  {
    var sign := if s != "" && s[0] == '-' then 1 else 0;
    var t := s[sign..];
    if t == "" || !IsDigit(t[0]) then
      Err(Malformed)
    else
      var n := if t[0] == '0' then 1 else DigitRun(t);
      var fraction := FractionLength(t[n..]);
      var exponent := ExponentLength(t[n + fraction..]);
      var rest := t[n + fraction + exponent..];
      if fraction + exponent > 0 then
        Ok((Float(s[..|s| - |rest|]), rest))
      else
        var value: int := NatOf(t[..n]);
        Ok((Int(if sign == 1 then -value else value), rest))
  }

  function HexValue(c: char): int {
    if '0' <= c <= '9' then c as int - 48
    else if 'a' <= c <= 'f' then c as int - 87
    else if 'A' <= c <= 'F' then c as int - 55
    else -1
  }

  // The code unit of \uXXXX at the head of s, or -1.
  function UnicodeEscape(s: string): int {
    if |s| < 6 || s[0] != '\\' || s[1] != 'u' || exists i | 2 <= i < 6 :: HexValue(s[i]) < 0 then -1
    else ((HexValue(s[2]) * 16 + HexValue(s[3])) * 16 + HexValue(s[4])) * 16 + HexValue(s[5])
  }

  function SimpleEscape(c: char): int {
    match c
    case '\"' => 34
    case '\\' => 92
    case '/' => 47
    case 'b' => 8
    case 'f' => 12
    case 'n' => 10
    case 'r' => 13
    case 't' => 9
    case _ => -1
  }

  // One character of a string body: its code point and the rest.
  function ParseChar(s: string): (r: Parsed<int>)
    requires s != ""
    ensures r.Ok? ==> |r.value.1| < |s|
  {
    if s[0] as int < 0x20 then Err(Malformed)
    else if s[0] != '\\' then Ok((s[0] as int, s[1..]))
    else if |s| == 1 then Err(Malformed)
    else if SimpleEscape(s[1]) >= 0 then Ok((SimpleEscape(s[1]), s[2..]))
    else
      var unit := UnicodeEscape(s);
      if unit < 0 then Err(Malformed)
      else
        var low := UnicodeEscape(s[6..]);
        if 0xD800 <= unit < 0xDC00 && 0xDC00 <= low < 0xE000 then
          Ok((0x1_0000 + (unit - 0xD800) * 0x400 + (low - 0xDC00), s[12..]))
        else
          Ok((unit, s[6..]))
  }

  // The code points up to the closing quote.
  function ParseChars(s: string): (r: Parsed<seq<int>>)
    ensures r.Ok? ==> |r.value.1| < |s|
    decreases |s|
  {
    if s == "" then Err(Malformed)
    else if s[0] == '\"' then Ok(([], s[1..]))
    else
      var (first, tail) :- ParseChar(s);
      var (others, rest) :- ParseChars(tail);
      Ok(([first] + others, rest))
  }

  predicate IsScalar(n: int) {
    0 <= n < 0xD800 || 0xE000 <= n < 0x11_0000
  }

  function TextValue(codePoints: seq<int>): Json {
    if forall n | n in codePoints :: IsScalar(n) then
      Str(seq(|codePoints|, i requires 0 <= i < |codePoints| && IsScalar(codePoints[i]) => codePoints[i] as char))
    else
      Broken(codePoints)
  }

  // _object_without_duplicate_keys
  function DictOfPairs(pairs: seq<(string, Json)>): Result<Body, ParseError> {
    if pairs == [] then Ok(map[])
    else
      var last := pairs[|pairs| - 1];
      var others :- DictOfPairs(pairs[..|pairs| - 1]);
      if last.0 in others then Err(DuplicateKey) else Ok(others[last.0 := last.1])
  }

  function ParseLiteral(s: string, word: string, value: Json): (r: Parsed<Json>)
    requires word != ""
    ensures r.Ok? ==> |r.value.1| < |s|
  {
    if word <= s then Ok((value, s[|word|..])) else Err(Malformed)
  }

  function ParseValue(s: string): (r: Parsed<Json>)
    ensures r.Ok? ==> |r.value.1| < |s|
    decreases |s|, 1
  {
    if s == "" then Err(Malformed)
    else if s[0] == '\"' then
      var (codePoints, rest) :- ParseChars(s[1..]);
      Ok((TextValue(codePoints), rest))
    else if s[0] == '{' then
      var t := SkipSpace(s[1..]);
      if t != "" && t[0] == '}' then Ok((Obj(map[]), t[1..]))
      else
        var (pairs, rest) :- ParseMembers(t);
        var fields :- DictOfPairs(pairs);
        Ok((Obj(fields), rest))
    else if s[0] == '[' then
      var t := SkipSpace(s[1..]);
      if t != "" && t[0] == ']' then Ok((List([]), t[1..]))
      else
        var (items, rest) :- ParseItems(t);
        Ok((List(items), rest))
    else if s[0] == 'n' then ParseLiteral(s, "null", Null)
    else if s[0] == 't' then ParseLiteral(s, "true", Bool(true))
    else if s[0] == 'f' then ParseLiteral(s, "false", Bool(false))
    else if s[0] == 'N' then ParseLiteral(s, "NaN", Float("nan"))
    else if s[0] == 'I' then ParseLiteral(s, "Infinity", Float("inf"))
    else if "-Infinity" <= s then ParseLiteral(s, "-Infinity", Float("-inf"))
    else ParseNumber(s)
  }

  // Elements up to and including the closing bracket.
  function ParseItems(s: string): (r: Parsed<seq<Json>>)
    ensures r.Ok? ==> |r.value.1| < |s|
    decreases |s|, 2
  {
    var (first, tail) :- ParseValue(s);
    var t := SkipSpace(tail);
    if t == "" then Err(Malformed)
    else if t[0] == ']' then Ok(([first], t[1..]))
    else if t[0] != ',' then Err(Malformed)
    else
      var (others, rest) :- ParseItems(SkipSpace(t[1..]));
      Ok(([first] + others, rest))
  }

  // Members up to and including the closing brace. A key holding an unpaired
  // surrogate is reported as malformed.
  function ParseMembers(s: string): (r: Parsed<seq<(string, Json)>>)
    ensures r.Ok? ==> |r.value.1| < |s|
    decreases |s|, 2
  {
    if s == "" || s[0] != '\"' then Err(Malformed)
    else
      var (codePoints, afterKey) :- ParseChars(s[1..]);
      var key := TextValue(codePoints);
      var t := SkipSpace(afterKey);
      if !key.Str? || t == "" || t[0] != ':' then Err(Malformed)
      else
        var (value, tail) :- ParseValue(SkipSpace(t[1..]));
        var u := SkipSpace(tail);
        if u == "" then Err(Malformed)
        else if u[0] == '}' then Ok(([(key.s, value)], u[1..]))
        else if u[0] != ',' then Err(Malformed)
        else
          var (others, rest) :- ParseMembers(SkipSpace(u[1..]));
          Ok(([(key.s, value)] + others, rest))
  }

  function Loads(s: string): Result<Json, ParseError> {
    var (value, rest) :- ParseValue(SkipSpace(s));
    if SkipSpace(rest) == "" then Ok(value) else Err(Malformed)
  }
}
