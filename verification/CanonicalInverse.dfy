/**
 json.loads is a left inverse of canonical text: every float-free value with UTF-8
 text is recovered from its encoding, so the encoding is injective.
 */
module CanonicalInverse {
  import opened Wrappers
  import opened JsonValues
  import opened Utf8
  import opened Canonical
  import opened JsonLoads
  import KeyOrder

  // What may follow a value inside canonical text.
  predicate Ends(rest: string) {
    rest == "" || rest[0] == ',' || rest[0] == ']' || rest[0] == '}'
  }

  function CodePoints(s: string): seq<int> {
    seq(|s|, i requires 0 <= i < |s| => s[i] as int)
  }

  // -- strings ------------------------------------------------------------

  lemma HexEscapeParses(c: char, rest: string)
    requires c as int < 0x20
    ensures UnicodeEscape("\\u00" + [HexDigit(c as int / 16), HexDigit(c as int % 16)] + rest) == c as int
  {
    var s := "\\u00" + [HexDigit(c as int / 16), HexDigit(c as int % 16)] + rest;
    assert s[2] == '0' && s[3] == '0' && s[4] == HexDigit(c as int / 16) && s[5] == HexDigit(c as int % 16);
    HexDigitValue(c as int / 16);
    HexDigitValue(c as int % 16);
  }

  lemma HexDigitValue(d: int)
    requires 0 <= d < 16
    ensures HexValue(HexDigit(d)) == d
  {
  }

  lemma ShortEscapeParses(c: char, e: char, rest: string)
    requires EscapeChar(c) == ['\\', e] && SimpleEscape(e) == c as int
    ensures ParseChar(EscapeChar(c) + rest) == Ok((c as int, rest))
  {
    var s := EscapeChar(c) + rest;
    assert s[0] == '\\' && s[1] == e && s[2..] == rest;
  }

  lemma LongEscapeParses(c: char, rest: string)
    requires c as int < 0x20
    requires EscapeChar(c) == "\\u00" + [HexDigit(c as int / 16), HexDigit(c as int % 16)]
    ensures ParseChar(EscapeChar(c) + rest) == Ok((c as int, rest))
  {
    var s := EscapeChar(c) + rest;
    HexEscapeParses(c, rest);
    assert s[0] == '\\' && s[1] == 'u' && s[6..] == rest;
    assert SimpleEscape('u') == -1;
  }

  lemma EscapedCharParses(c: char, rest: string)
    ensures ParseChar(EscapeChar(c) + rest) == Ok((c as int, rest))
    ensures EscapeChar(c)[0] != '\"'
  {
    if c == '\"' { ShortEscapeParses(c, '\"', rest); }
    else if c == '\\' { ShortEscapeParses(c, '\\', rest); }
    else if c == '\n' { ShortEscapeParses(c, 'n', rest); }
    else if c == '\r' { ShortEscapeParses(c, 'r', rest); }
    else if c == '\t' { ShortEscapeParses(c, 't', rest); }
    else if c as int == 8 { ShortEscapeParses(c, 'b', rest); }
    else if c as int == 12 { ShortEscapeParses(c, 'f', rest); }
    else if c as int < 0x20 { LongEscapeParses(c, rest); }
    else {
      assert ([c] + rest)[1..] == rest;
    }
  }

  lemma {:induction false} CharsParse(s: string, rest: string)
    ensures ParseChars(WriteChars(s, rest)) == Ok((CodePoints(s), rest))
  {
    var input := WriteChars(s, rest);
    if s == "" {
      assert input[1..] == rest;
    } else {
      var tail := WriteChars(s[1..], rest);
      EscapedCharParses(s[0], tail);
      assert input[0] == EscapeChar(s[0])[0];
      CharsParse(s[1..], rest);
      assert [s[0] as int] + CodePoints(s[1..]) == CodePoints(s);
    }
  }

  lemma CodePointsAreText(s: string)
    ensures TextValue(CodePoints(s)) == Str(s)
  {
    var cs := CodePoints(s);
    forall n | n in cs ensures IsScalar(n) {
      var i :| 0 <= i < |cs| && cs[i] == n;
      assert n == s[i] as int;
    }
    assert TextValue(cs).Str? && TextValue(cs).s == s;
  }

  // -- integers -----------------------------------------------------------

  lemma {:induction false} DigitsValue(n: nat)
    ensures NatOf(Digits(n)) == n
  {
    if n < 10 {
      assert NatOf("") == 0;
      assert Digits(n)[..0] == "";
    } else {
      DigitsValue(n / 10);
      var ds := Digits(n);
      assert ds[..|ds| - 1] == Digits(n / 10);
    }
  }

  lemma {:induction false} DigitRunStops(ds: string, rest: string)
    requires forall c | c in ds :: IsDigit(c)
    requires Ends(rest)
    ensures DigitRun(ds + rest) == |ds|
  {
    if ds == "" {
      assert ds + rest == rest;
    } else {
      assert (ds + rest)[1..] == ds[1..] + rest;
      DigitRunStops(ds[1..], rest);
    }
  }

  // ParseNumber on an unsigned or signed run of digits, read off the input.
  lemma IntegerSteps(s: string, sign: nat, run: nat, value: nat)
    requires sign == (if s != "" && s[0] == '-' then 1 else 0)
    requires 0 < run && sign + run <= |s| && IsDigit(s[sign..][0])
    requires DigitRun(s[sign..]) == run && NatOf(s[sign..][..run]) == value
    requires s[sign] == '0' ==> run == 1
    requires Ends(s[sign..][run..])
    ensures ParseNumber(s) == Ok((Int(if sign == 1 then -(value as int) else value), s[sign..][run..]))
  {
    var rest := s[sign..][run..];
    NoMoreNumber(rest);
    hide DigitRun, FractionLength, ExponentLength, NatOf, Ends;
    assert rest[0..] == rest;
  }

  lemma NoMoreNumber(rest: string)
    requires Ends(rest)
    ensures FractionLength(rest) == 0 && ExponentLength(rest) == 0
  {
  }

  lemma DigitsThen(n: nat, rest: string)
    requires Ends(rest)
    ensures var s := Digits(n) + rest;
      && IsDigit(s[0]) && DigitRun(s) == |Digits(n)|
      && NatOf(s[..|Digits(n)|]) == n && s[|Digits(n)|..] == rest
      && (s[0] == '0' ==> |Digits(n)| == 1)
  {
    var s := Digits(n) + rest;
    DigitRunStops(Digits(n), rest);
    DigitsValue(n);
    assert s[..|Digits(n)|] == Digits(n);
  }

  lemma NegativeParses(n: nat, rest: string)
    requires Ends(rest)
    ensures ParseValue("-" + (Digits(n) + rest)) == Ok((Int(-(n as int)), rest))
  {
    var t := Digits(n) + rest;
    var s := "-" + t;
    DigitsThen(n, rest);
    assert s[1..] == t && s[1] == t[0];
    DigitStartsNumber(s);
    IntegerSteps(s, 1, |Digits(n)|, n);
    hide ParseValue, ParseNumber, Digits, DigitRun, NatOf, Ends;
  }

  lemma DigitStartsNumber(s: string)
    requires s != "" && (IsDigit(s[0]) || (|s| >= 2 && s[0] == '-' && IsDigit(s[1])))
    ensures ParseValue(s) == ParseNumber(s)
  {
    hide ParseNumber, ParseMembers, ParseItems, ParseChars, ParseLiteral, SkipSpace, DictOfPairs, TextValue;
    NotInfinite(s);
  }

  lemma NotInfinite(s: string)
    requires s != "" && (IsDigit(s[0]) || (|s| >= 2 && IsDigit(s[1])))
    ensures !("-Infinity" <= s)
  {
    assert "-Infinity"[0] == '-' && "-Infinity"[1] == 'I';
  }

  lemma NaturalParses(n: nat, rest: string)
    requires Ends(rest)
    ensures ParseValue(Digits(n) + rest) == Ok((Int(n), rest))
  {
    var s := Digits(n) + rest;
    DigitsThen(n, rest);
    assert s[0..] == s;
    DigitStartsNumber(s);
    IntegerSteps(s, 0, |Digits(n)|, n);
    hide ParseValue, ParseNumber, Digits, DigitRun, NatOf, Ends;
  }

  lemma MinusRegroups(ds: string, rest: string)
    ensures ("-" + ds) + rest == "-" + (ds + rest)
  {
  }

  lemma NumberParses(n: int, rest: string)
    requires Ends(rest)
    ensures ParseValue(Decimal(n) + rest) == Ok((Int(n), rest))
  {
    hide ParseValue, Digits, Ends;
    if n < 0 {
      NegativeParses(-n, rest);
      MinusRegroups(Digits(-n), rest);
    } else {
      NaturalParses(n, rest);
    }
  }

  // -- values -------------------------------------------------------------

  lemma DecimalStart(n: int)
    ensures Decimal(n)[0] == '-' || IsDigit(Decimal(n)[0])
  {
    if n >= 0 {
      assert Digits(n)[0] in Digits(n);
    }
  }

  lemma WriteStart(j: Json, rest: string)
    requires Encodable(j)
    ensures Write(j, rest) != ""
    ensures !IsSpace(Write(j, rest)[0]) && Write(j, rest)[0] != ']'
    ensures j.Obj? <==> Write(j, rest)[0] == '{'
  {
    if j.Int? {
      DecimalStart(j.n);
      assert Write(j, rest)[0] == Decimal(j.n)[0];
    }
  }

  lemma {:induction false} ValueParses(j: Json, rest: string)
    requires Encodable(j) && Ends(rest)
    ensures ParseValue(Write(j, rest)) == Ok((j, rest))
    decreases j, 1, 0
  {
    match j
    case Null => WordParses("null", Null, rest);
    case Bool(b) => WordParses(if b then "true" else "false", j, rest);
    case Int(n) => NumberParses(n, rest);
    case Str(s) => StringParses(s, rest);
    case List(items) => ListParses(j, rest);
    case Obj(m) => ObjectParses(j, rest);
  }

  lemma WordParses(word: string, value: Json, rest: string)
    requires (word, value) in [("null", Null), ("true", Bool(true)), ("false", Bool(false))]
    ensures ParseValue(word + rest) == Ok((value, rest))
  {
    assert (word + rest)[0] == word[0];
    assert (word + rest)[|word|..] == rest && word <= word + rest;
  }

  lemma StringParses(s: string, rest: string)
    ensures ParseValue("\"" + WriteChars(s, rest)) == Ok((Str(s), rest))
  {
    var input := "\"" + WriteChars(s, rest);
    assert input[1..] == WriteChars(s, rest);
    CharsParse(s, rest);
    CodePointsAreText(s);
  }

  lemma {:induction false} ListParses(j: Json, rest: string)
    requires j.List? && Encodable(j) && Ends(rest)
    ensures ParseValue(Write(j, rest)) == Ok((j, rest))
    decreases j, 0, |j.items| + 1
  {
    var t := WriteItems(j, 0, "]" + rest);
    assert Write(j, rest) == "[" + t;
    assert ("[" + t)[1..] == t && ("]" + rest)[1..] == rest;
    if j.items != [] {
      ItemsParse(j, 0, rest);
      assert j.items[0..] == j.items;
    }
    ListStep("[" + t, t, j.items, rest);
  }

  // ParseValue once the bracket is read.
  lemma ListStep(s: string, t: string, items: seq<Json>, rest: string)
    requires s != "" && s[0] == '[' && s[1..] == t && t != "" && SkipSpace(t) == t
    requires if items == [] then t[0] == ']' && t[1..] == rest else t[0] != ']' && ParseItems(t) == Ok((items, rest))
    ensures ParseValue(s) == Ok((List(items), rest))
  {
  }

  // ParseItems when the value read is the last one, and when another follows.
  lemma LastItemStep(s: string, v: Json, t: string)
    requires ParseValue(s) == Ok((v, t)) && t != "" && t[0] == ']'
    ensures ParseItems(s) == Ok(([v], t[1..]))
  {
  }

  lemma NextItemStep(s: string, v: Json, t: string, others: seq<Json>, rest: string)
    requires ParseValue(s) == Ok((v, t)) && t != "" && t[0] == ','
    requires ParseItems(SkipSpace(t[1..])) == Ok((others, rest))
    ensures ParseItems(s) == Ok(([v] + others, rest))
  {
  }

  lemma {:induction false} ItemsParse(j: Json, from: nat, rest: string)
    requires j.List? && Encodable(j) && Ends(rest) && from < |j.items|
    ensures var s := WriteItems(j, from, "]" + rest);
      && s != "" && SkipSpace(s) == s && s[0] != ']'
      && ParseItems(s) == Ok((j.items[from..], rest))
    decreases j, 0, |j.items| - from
  {
    var x := j.items[from];
    var s := WriteItems(j, from, "]" + rest);
    if from + 1 == |j.items| {
      var after := "]" + rest;
      assert after[1..] == rest && j.items[from..] == [x];
      WriteStart(x, after);
      ValueParses(x, after);
      LastItemStep(s, x, after);
    } else {
      var tail := WriteItems(j, from + 1, "]" + rest);
      var after := "," + tail;
      assert after[1..] == tail && j.items[from..] == [x] + j.items[from + 1..];
      WriteStart(x, after);
      ValueParses(x, after);
      ItemsParse(j, from + 1, rest);
      NextItemStep(s, x, after, j.items[from + 1..], rest);
    }
  }

  function PairsOf(m: Body, keys: seq<string>): seq<(string, Json)>
    requires forall k | k in keys :: k in m
  {
    if keys == [] then [] else [(keys[0], m[keys[0]])] + PairsOf(m, keys[1..])
  }

  lemma {:induction false} ObjectParses(j: Json, rest: string)
    requires j.Obj? && Encodable(j) && Ends(rest)
    ensures ParseValue(Write(j, rest)) == Ok((j, rest))
    decreases j, 0, |j.fields| + 1
  {
    var keys := KeyOrder.Sorted(j.fields.Keys);
    var t := WriteMembers(j, keys, "}" + rest);
    assert Write(j, rest) == "{" + t;
    assert ("{" + t)[1..] == t && ("}" + rest)[1..] == rest;
    if keys == [] {
      assert j.fields.Keys == {};
      assert j.fields == map[];
      EmptyObjectStep("{" + t, t);
    } else {
      MembersParse(j, keys, rest);
      PairsRebuild(j.fields, keys);
      ObjectStep("{" + t, t, PairsOf(j.fields, keys), j.fields, rest);
    }
  }

  // ParseValue once the brace is read.
  lemma EmptyObjectStep(s: string, t: string)
    requires s != "" && s[0] == '{' && s[1..] == t && t != "" && t[0] == '}'
    ensures ParseValue(s) == Ok((Obj(map[]), t[1..]))
  {
  }

  lemma ObjectStep(s: string, t: string, pairs: seq<(string, Json)>, fields: Body, rest: string)
    requires s != "" && s[0] == '{' && s[1..] == t && t != "" && t[0] == '\"'
    requires ParseMembers(t) == Ok((pairs, rest)) && DictOfPairs(pairs) == Ok(fields)
    ensures ParseValue(s) == Ok((Obj(fields), rest))
  {
  }

  // The input opens with a quoted key and a colon, and its value starts at s1.
  ghost predicate KeyAhead(s: string, k: string, s1: string) {
    && s != "" && s[0] == '\"'
    && var r := ParseChars(s[1..]);
    && r.Ok? && TextValue(r.value.0) == Str(k)
    && var t := SkipSpace(r.value.1);
    && t != "" && t[0] == ':' && SkipSpace(t[1..]) == s1
  }

  lemma QuotedKeyAhead(k: string, s1: string)
    requires s1 != "" && !IsSpace(s1[0])
    ensures KeyAhead("\"" + WriteChars(k, ":" + s1), k, s1)
  {
    var s := "\"" + WriteChars(k, ":" + s1);
    assert s[1..] == WriteChars(k, ":" + s1);
    CharsParse(k, ":" + s1);
    CodePointsAreText(k);
    assert (":" + s1)[1..] == s1;
  }

  // ParseMembers over one key and its value, by what follows the value.
  lemma LastMemberStep(s: string, k: string, s1: string, v: Json, t: string)
    requires KeyAhead(s, k, s1) && ParseValue(s1) == Ok((v, t)) && t != "" && t[0] == '}'
    ensures ParseMembers(s) == Ok(([(k, v)], t[1..]))
  {
  }

  lemma NextMemberStep(s: string, k: string, s1: string, v: Json, t: string,
                       others: seq<(string, Json)>, rest: string)
    requires KeyAhead(s, k, s1) && ParseValue(s1) == Ok((v, t)) && t != "" && t[0] == ','
    requires ParseMembers(SkipSpace(t[1..])) == Ok((others, rest))
    ensures ParseMembers(s) == Ok(([(k, v)] + others, rest))
  {
  }

  lemma {:induction false} MembersParse(j: Json, keys: seq<string>, rest: string)
    requires j.Obj? && Encodable(j) && Ends(rest) && keys != []
    requires forall k | k in keys :: k in j.fields
    ensures var s := WriteMembers(j, keys, "}" + rest);
      && s != "" && s[0] == '\"' && ParseMembers(s) == Ok((PairsOf(j.fields, keys), rest))
    decreases j, 0, |keys|
  {
    hide Write, ParseMembers, ParseValue, WriteChars, KeyAhead;
    var k, v := keys[0], j.fields[keys[0]];
    var s := WriteMembers(j, keys, "}" + rest);
    if |keys| == 1 {
      var after := "}" + rest;
      assert after[1..] == rest && PairsOf(j.fields, keys[1..]) == [];
      assert PairsOf(j.fields, keys) == [(k, v)];
      WriteStart(v, after);
      ValueParses(v, after);
      QuotedKeyAhead(k, Write(v, after));
      LastMemberStep(s, k, Write(v, after), v, after);
    } else {
      var tail := WriteMembers(j, keys[1..], "}" + rest);
      var after := "," + tail;
      assert after[1..] == tail;
      WriteStart(v, after);
      ValueParses(v, after);
      QuotedKeyAhead(k, Write(v, after));
      MembersParse(j, keys[1..], rest);
      NextMemberStep(s, k, Write(v, after), v, after, PairsOf(j.fields, keys[1..]), rest);
    }
  }

  // The dict hook rebuilds a map from its own listing.
  lemma {:induction false} PairsRebuild(m: Body, keys: seq<string>)
    requires KeyOrder.Ascending(keys) && forall k :: k in keys <==> k in m
    ensures DictOfPairs(PairsOf(m, keys)) == Ok(m)
  {
    PairsRebuildPrefix(m, keys);
    assert (map k | k in keys :: m[k]) == m;
  }

  lemma {:induction false} PairsRebuildPrefix(m: Body, keys: seq<string>)
    requires KeyOrder.Ascending(keys) && forall k | k in keys :: k in m
    ensures DictOfPairs(PairsOf(m, keys)) == Ok(map k | k in keys :: m[k])
  {
    if keys != [] {
      var front, last := keys[..|keys| - 1], keys[|keys| - 1];
      PairsSplit(m, front, last);
      assert front + [last] == keys;
      PairsRebuildPrefix(m, front);
      assert last !in front by {
        if last in front {
          var i :| 0 <= i < |front| && front[i] == last;
          KeyOrder.BeforeTrichotomy(keys[i], keys[|keys| - 1]);
          assert false;
        }
      }
      assert (map k | k in keys :: m[k]) == (map k | k in front :: m[k])[last := m[last]];
    }
  }

  lemma {:induction false} PairsSplit(m: Body, front: seq<string>, last: string)
    requires last in m && forall k | k in front :: k in m
    ensures forall k | k in front + [last] :: k in m
    ensures PairsOf(m, front + [last]) == PairsOf(m, front) + [(last, m[last])]
  {
    if front == [] {
      assert front + [last] == [last];
      assert PairsOf(m, [last][1..]) == [];
    } else {
      PairsSplit(m, front[1..], last);
      assert (front + [last])[0] == front[0] && (front + [last])[1..] == front[1..] + [last];
    }
  }

  // -- the results --------------------------------------------------------

  /** Reading canonical text gives back the value it was written from. */
  lemma LoadsInvertsText(j: Json)
    requires Encodable(j)
    ensures Loads(Text(j)) == Ok(j)
  {
    ValueParses(j, "");
    WriteStart(j, "");
  }

  /** Two values with the same canonical bytes are the same value. */
  lemma CanonicalBytesInjective(a: Json, b: Json)
    requires Encodable(a) && Encodable(b)
    ensures CanonicalBytes(a) == CanonicalBytes(b) <==> a == b
  {
    if CanonicalBytes(a) == CanonicalBytes(b) {
      EncodeInjective(Text(a), Text(b));
      LoadsInvertsText(a);
      LoadsInvertsText(b);
    }
  }

  // -- the last character -------------------------------------------------

  function Last(s: string): char
    requires s != ""
  {
    s[|s| - 1]
  }

  lemma PrefixKeepsLast(prefix: string, rest: string)
    requires rest != ""
    ensures prefix + rest != "" && Last(prefix + rest) == Last(rest)
  {
  }

  lemma {:induction false} CharsKeepLast(s: string, rest: string)
    ensures Last(WriteChars(s, rest)) == if rest == "" then '\"' else Last(rest)
  {
    if s == "" {
      assert rest != "" ==> Last("\"" + rest) == Last(rest);
    } else {
      CharsKeepLast(s[1..], rest);
      PrefixKeepsLast(EscapeChar(s[0]), WriteChars(s[1..], rest));
    }
  }

  lemma {:induction false} WriteKeepsLast(j: Json, rest: string)
    requires Encodable(j) && rest != ""
    ensures Write(j, rest) != "" && Last(Write(j, rest)) == Last(rest)
    decreases j, 1, 0
  {
    match j
    case Null => PrefixKeepsLast("null", rest);
    case Bool(b) => PrefixKeepsLast(if b then "true" else "false", rest);
    case Int(n) => PrefixKeepsLast(Decimal(n), rest);
    case Str(s) =>
      CharsKeepLast(s, rest);
      PrefixKeepsLast("\"", WriteChars(s, rest));
    case List(_) =>
      PrefixKeepsLast("]", rest);
      ItemsKeepLast(j, 0, "]" + rest);
      PrefixKeepsLast("[", WriteItems(j, 0, "]" + rest));
    case Obj(m) =>
      PrefixKeepsLast("}", rest);
      MembersKeepLast(j, KeyOrder.Sorted(m.Keys), "}" + rest);
      PrefixKeepsLast("{", WriteMembers(j, KeyOrder.Sorted(m.Keys), "}" + rest));
  }

  lemma {:induction false} ItemsKeepLast(j: Json, from: nat, rest: string)
    requires j.List? && Encodable(j) && from <= |j.items| && rest != ""
    ensures WriteItems(j, from, rest) != "" && Last(WriteItems(j, from, rest)) == Last(rest)
    decreases j, 0, |j.items| - from
  {
    if from < |j.items| {
      ItemsKeepLast(j, from + 1, rest);
      PrefixKeepsLast(",", WriteItems(j, from + 1, rest));
      WriteKeepsLast(j.items[from], if from + 1 == |j.items| then rest else "," + WriteItems(j, from + 1, rest));
    }
  }

  lemma MemberKeepsLast(key: string, value: string)
    requires value != ""
    ensures Last("\"" + WriteChars(key, ":" + value)) == Last(value)
  {
    PrefixKeepsLast(":", value);
    CharsKeepLast(key, ":" + value);
    PrefixKeepsLast("\"", WriteChars(key, ":" + value));
  }

  lemma {:induction false} MembersKeepLast(j: Json, keys: seq<string>, rest: string)
    requires j.Obj? && Encodable(j) && rest != ""
    requires forall k | k in keys :: k in j.fields
    ensures WriteMembers(j, keys, rest) != "" && Last(WriteMembers(j, keys, rest)) == Last(rest)
    decreases j, 0, |keys|
  {
    if keys != [] {
      MembersKeepLast(j, keys[1..], rest);
      PrefixKeepsLast(",", WriteMembers(j, keys[1..], rest));
      var after := if |keys| == 1 then rest else "," + WriteMembers(j, keys[1..], rest);
      WriteKeepsLast(j.fields[keys[0]], after);
      MemberKeepsLast(keys[0], Write(j.fields[keys[0]], after));
    }
  }

  lemma ObjectTextIsBraced(j: Json)
    requires j.Obj? && Encodable(j)
    ensures Text(j) != "" && Text(j)[0] == '{' && Last(Text(j)) == '}'
  {
    MembersKeepLast(j, KeyOrder.Sorted(j.fields.Keys), "}");
    assert "}" + "" == "}";
  }

  // -- the separator ------------------------------------------------------

  predicate Printable(s: string) {
    forall c | c in s :: c as int >= 0x20
  }

  lemma {:induction false} CharsArePrintable(s: string, rest: string)
    requires Printable(rest)
    ensures Printable(WriteChars(s, rest))
  {
    if s != "" {
      CharsArePrintable(s[1..], rest);
    }
  }

  lemma {:induction false} WriteIsPrintable(j: Json, rest: string)
    requires Encodable(j) && Printable(rest)
    ensures Printable(Write(j, rest))
    decreases j, 1, 0
  {
    match j
    case Null =>
    case Bool(_) =>
    case Int(n) =>
    case Str(s) => CharsArePrintable(s, rest);
    case List(_) => ItemsArePrintable(j, 0, "]" + rest);
    case Obj(m) => MembersArePrintable(j, KeyOrder.Sorted(m.Keys), "}" + rest);
  }

  lemma {:induction false} ItemsArePrintable(j: Json, from: nat, rest: string)
    requires j.List? && Encodable(j) && from <= |j.items| && Printable(rest)
    ensures Printable(WriteItems(j, from, rest))
    decreases j, 0, |j.items| - from
  {
    if from < |j.items| {
      ItemsArePrintable(j, from + 1, rest);
      WriteIsPrintable(j.items[from], if from + 1 == |j.items| then rest else "," + WriteItems(j, from + 1, rest));
    }
  }

  lemma {:induction false} MembersArePrintable(j: Json, keys: seq<string>, rest: string)
    requires j.Obj? && Encodable(j) && Printable(rest)
    requires forall k | k in keys :: k in j.fields
    ensures Printable(WriteMembers(j, keys, rest))
    decreases j, 0, |keys|
  {
    if keys != [] {
      MembersArePrintable(j, keys[1..], rest);
      var after := if |keys| == 1 then rest else "," + WriteMembers(j, keys[1..], rest);
      WriteIsPrintable(j.fields[keys[0]], after);
      CharsArePrintable(keys[0], ":" + Write(j.fields[keys[0]], after));
    }
  }

  /** The separator byte never occurs in canonical bytes; neither does a line break. */
  lemma SeparatorNeverOccurs(j: Json)
    requires Encodable(j)
    ensures SEPARATOR !in Encode(Text(j))
    ensures '\n' !in Text(j) && '\r' !in Text(j)
  {
    WriteIsPrintable(j, "");
    if SEPARATOR in Encode(Text(j)) {
      AsciiByteIsAsciiChar(Text(j), SEPARATOR);
    }
  }

  lemma LastSeparatorIndex(x: seq<Byte>, y: seq<Byte>)
    requires SEPARATOR !in y
    ensures var s := x + [SEPARATOR] + y;
      s[|x|] == SEPARATOR && forall i | |x| < i < |s| :: s[i] != SEPARATOR
  {
    var s := x + [SEPARATOR] + y;
    forall i | |x| < i < |s| ensures s[i] != SEPARATOR {
      assert s[i] == y[i - |x| - 1];
    }
  }

  lemma LastSeparatorSplits(x: seq<Byte>, y: seq<Byte>, x': seq<Byte>, y': seq<Byte>)
    requires x + [SEPARATOR] + y == x' + [SEPARATOR] + y'
    requires SEPARATOR !in y && SEPARATOR !in y'
    ensures x == x' && y == y'
  {
    var s := x + [SEPARATOR] + y;
    LastSeparatorIndex(x, y);
    LastSeparatorIndex(x', y');
    assert |x| == |x'|;
    assert x == s[..|x|] == x' && y == s[|x| + 1..] == y';
  }

  /** A chain preimage fixes both the previous hash and the record it commits to,
      whatever text stands in the place of the hash. */
  lemma PreimageDeterminesRecord(prev: string, body: Json, prev': string, body': Json)
    requires Encodable(body) && Encodable(body')
    requires ChainPreimage(prev, body) == ChainPreimage(prev', body')
    ensures prev == prev' && body == body'
  {
    SeparatorNeverOccurs(body);
    SeparatorNeverOccurs(body');
    LastSeparatorSplits(Encode(prev), Encode(Text(body)), Encode(prev'), Encode(Text(body')));
    EncodeInjective(prev, prev');
    CanonicalBytesInjective(body, body');
  }

  /** Equal digests mean equal values, or two explicit inputs that collide. */
  lemma EqualDigestsMeanEqualValues(sha: Sha, a: Json, b: Json)
    requires Encodable(a) && Encodable(b) && Digest(sha, a) == Digest(sha, b)
    ensures a == b || Collision(sha, Encode(Text(a)), Encode(Text(b)))
  {
    if a != b {
      CanonicalBytesInjective(a, b);
    }
  }
}
