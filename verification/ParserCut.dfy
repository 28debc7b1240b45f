/**
 Cutting off text that a json.loads parser has not consumed changes nothing but the rest it
 returns.
 */
module ParserCut {
  import opened Wrappers
  import opened JsonValues
  import opened JsonLoads
  import opened ParserSuffix

  // One result is the other, with z still to come.
  predicate Same<T(==)>(whole: Parsed<T>, cut: Parsed<T>, z: string) {
    && whole.Ok? && cut.Ok? && whole.value.0 == cut.value.0
    && whole.value.1 == cut.value.1 + z
  }

  lemma EndOf(s: string, z: string, k: nat)
    requires k <= |s|
    ensures (s + z)[k..] == s[k..] + z
  {
  }

  lemma {:induction false} SkipSpaceCut(s: string, z: string)
    requires |SkipSpace(s + z)| >= |z|
    ensures SkipSpace(s + z) == SkipSpace(s) + z
  {
    if s == "" {
      assert s + z == z;
      SkipSpaceEnds(z);
      assert "" + z == z;
    } else {
      assert (s + z)[0] == s[0];
      EndOf(s, z, 1);
      if IsSpace(s[0]) {
        SkipSpaceCut(s[1..], z);
      }
    }
  }

  lemma UnicodeEscapeCut(s: string, z: string)
    ensures UnicodeEscape(s) >= 0 ==> UnicodeEscape(s + z) == UnicodeEscape(s)
    ensures |s| >= 6 ==> UnicodeEscape(s + z) == UnicodeEscape(s)
  {
    if |s| >= 6 {
      assert forall i | 0 <= i < 6 :: (s + z)[i] == s[i];
    }
  }

  lemma ParseCharCut(s: string, z: string)
    requires s + z != "" && ParseChar(s + z).Ok? && |ParseChar(s + z).value.1| >= |z|
    ensures s != "" && Same(ParseChar(s + z), ParseChar(s), z)
  {
    hide UnicodeEscape, SimpleEscape;
    assert (s + z)[0] == s[0];
    EndOf(s, z, 1);
    if s[0] == '\\' {
      LongEnough(s + z);
      if |s + z| >= 6 {
        LongEnough((s + z)[6..]);
      }
      assert |s| > 1;
      assert (s + z)[1] == s[1];
      EndOf(s, z, 2);
      if SimpleEscape(s[1]) < 0 {
        EscapeCut(s, z);
      }
    }
  }

  lemma EscapeCut(s: string, z: string)
    requires |s| > 1 && s[0] == '\\' && SimpleEscape(s[1]) < 0
    requires ParseChar(s + z).Ok? && |ParseChar(s + z).value.1| >= |z|
    ensures Same(ParseChar(s + z), ParseChar(s), z)
  {
    UnicodeEscapeCut(s, z);
    hide UnicodeEscape;
    assert (s + z)[0] == s[0] && (s + z)[1] == s[1];
    LongEnough(s + z);
    LongEnough((s + z)[6..]);
    EndOf(s, z, 6);
    UnicodeEscapeCut(s[6..], z);
    if |s| >= 12 {
      EndOf(s, z, 12);
    } else {
      ShortEscape(s[6..]);
    }
  }

  lemma LongEnough(s: string)
    ensures UnicodeEscape(s) >= 0 ==> |s| >= 6
  {
  }

  lemma ShortEscape(s: string)
    requires |s| < 6
    ensures UnicodeEscape(s) < 0
  {
  }

  lemma {:induction false} ParseCharsCut(s: string, z: string)
    requires ParseChars(s + z).Ok? && |ParseChars(s + z).value.1| >= |z|
    ensures Same(ParseChars(s + z), ParseChars(s), z)
    decreases |s|
  {
    hide ParseChar;
    assert (s + z)[0] == s[0];
    EndOf(s, z, 1);
    if s[0] != '\"' {
      ParseCharCut(s, z);
      ParseCharsCut(ParseChar(s).value.1, z);
    }
  }

  lemma ParseLiteralCut(s: string, z: string, word: string, value: Json)
    requires word != "" && ParseLiteral(s + z, word, value).Ok? && |ParseLiteral(s + z, word, value).value.1| >= |z|
    ensures Same(ParseLiteral(s + z, word, value), ParseLiteral(s, word, value), z)
  {
    assert word == (s + z)[..|word|] == s[..|word|];
    EndOf(s, z, |word|);
  }

  // -- numbers ------------------------------------------------------------------------

  lemma {:induction false} DigitRunCut(s: string, z: string)
    ensures DigitRun(s) == if DigitRun(s + z) <= |s| then DigitRun(s + z) else |s|
  {
    if s != "" {
      assert (s + z)[0] == s[0];
      EndOf(s, z, 1);
      DigitRunCut(s[1..], z);
    }
  }

  lemma FractionCut(s: string, z: string)
    requires FractionLength(s + z) <= |s|
    ensures FractionLength(s) == FractionLength(s + z)
  {
    if s != "" {
      assert (s + z)[0] == s[0];
      EndOf(s, z, 1);
      DigitRunCut(s[1..], z);
    }
    hide DigitRun;
  }

  lemma ExponentCut(s: string, z: string)
    requires ExponentLength(s + z) <= |s|
    ensures ExponentLength(s) == ExponentLength(s + z)
  {
    hide DigitRun;
    if s != "" && (s[0] == 'e' || s[0] == 'E') {
      assert (s + z)[0] == s[0];
      EndOf(s, z, 1);
      var t := s[1..];
      if t != "" {
        assert (t + z)[0] == t[0];
        var sign := SignLength(t);
        assert SignLength(t + z) == sign;
        EndOf(t, z, sign);
        DigitRunCut(t[sign..], z);
      } else {
        assert DigitRun(t[SignLength(t)..]) == 0;
      }
    } else if s != "" {
      assert (s + z)[0] == s[0];
    }
  }

  function IntegerLength(t: string): (n: nat)
    requires t != "" && IsDigit(t[0])
    ensures n <= |t|
  {
    if t[0] == '0' then 1 else DigitRun(t)
  }

  // How much of t the integer part, fraction and exponent take.
  function NumberLength(t: string): (n: nat)
    requires t != "" && IsDigit(t[0])
    ensures 1 <= IntegerLength(t) <= n <= |t|
  {
    assert DigitRun(t) >= 1;
    var k := IntegerLength(t) + FractionLength(t[IntegerLength(t)..]);
    k + ExponentLength(t[k..])
  }

  lemma NumberPartsCut(t: string, z: string)
    requires t != "" && IsDigit(t[0]) && (t + z)[0] == t[0] && NumberLength(t + z) <= |t|
    ensures NumberLength(t) == NumberLength(t + z) && IntegerLength(t) == IntegerLength(t + z)
  {
    hide DigitRun, FractionLength, ExponentLength, IntegerLength, IsDigit;
    IntegerCut(t, z);
    var n := IntegerLength(t);
    FractionCutAt(t, z, n);
    var k := n + FractionLength(t[n..]);
    ExponentCutAt(t, z, k);
  }

  lemma IntegerCut(t: string, z: string)
    requires t != "" && IsDigit(t[0]) && (t + z)[0] == t[0] && IntegerLength(t + z) <= |t|
    ensures IntegerLength(t) == IntegerLength(t + z)
  {
    hide DigitRun;
    DigitRunCut(t, z);
  }

  lemma FractionCutAt(t: string, z: string, n: nat)
    requires n <= |t| && n + FractionLength((t + z)[n..]) <= |t|
    ensures FractionLength(t[n..]) == FractionLength((t + z)[n..])
  {
    EndOf(t, z, n);
    hide FractionLength;
    FractionCut(t[n..], z);
  }

  lemma ExponentCutAt(t: string, z: string, k: nat)
    requires k <= |t| && k + ExponentLength((t + z)[k..]) <= |t|
    ensures ExponentLength(t[k..]) == ExponentLength((t + z)[k..])
  {
    EndOf(t, z, k);
    hide ExponentLength;
    ExponentCut(t[k..], z);
  }

  // The number that starts t, read after a sign.
  function NumberValue(t: string, negative: bool): Json
    requires t != "" && IsDigit(t[0])
  {
    var n, k := IntegerLength(t), NumberLength(t);
    if k > n then Float((if negative then "-" else "") + t[..k])
    else
      assert forall c | c in t[..n] :: IsDigit(c);
      if negative then Int(-(NatOf(t[..n]) as int)) else Int(NatOf(t[..n]))
  }

  function Unsigned(s: string): string {
    if s != "" && s[0] == '-' then s[1..] else s
  }

  lemma FloatText(s: string, k: nat)
    requires k <= |Unsigned(s)| && s != ""
    ensures s[..|s| - |Unsigned(s)[k..]|] == (if s[0] == '-' then "-" else "") + Unsigned(s)[..k]
  {
  }

  lemma ParseNumberIs(s: string)
    ensures ParseNumber(s).Ok? <==> Unsigned(s) != "" && IsDigit(Unsigned(s)[0])
    ensures ParseNumber(s).Ok? ==>
      var t := Unsigned(s);
      ParseNumber(s) == Ok((NumberValue(t, s[0] == '-'), t[NumberLength(t)..]))
  {
    hide ParseNumber, DigitRun, FractionLength, ExponentLength, NatOf, NumberLength, NumberValue, IntegerLength,
         IsDigit;
    var t := Unsigned(s);
    NumberStarts(s);
    if t != "" && IsDigit(t[0]) {
      var n := IntegerLength(t);
      var f := FractionLength(t[n..]);
      NumberReads(s, t, n, f, ExponentLength(t[n + f..]));
    }
  }

  lemma NumberReads(s: string, t: string, n: nat, f: nat, e: nat)
    requires s != "" && t == Unsigned(s) && t != "" && IsDigit(t[0]) && n == IntegerLength(t)
    requires n + f + e <= |t| && f == FractionLength(t[n..]) && e == ExponentLength(t[n + f..])
    ensures ParseNumber(s) == Ok((NumberValue(t, s[0] == '-'), t[NumberLength(t)..]))
  {
    hide ParseNumber, DigitRun, FractionLength, ExponentLength, NatOf, NumberLength, NumberValue, IntegerLength,
         Unsigned, IsDigit;
    LengthAdds(t, n, f, e);
    NumberUnfolds(s, n, f, e);
    FloatText(s, n + f + e);
    ValueReads(t, s[0] == '-', n, n + f + e);
  }

  lemma LengthAdds(t: string, n: nat, f: nat, e: nat)
    requires t != "" && IsDigit(t[0]) && n == IntegerLength(t)
    requires f == FractionLength(t[n..]) && n + f <= |t| && e == ExponentLength(t[n + f..])
    ensures NumberLength(t) == n + f + e
  {
    hide DigitRun, FractionLength, ExponentLength, IntegerLength, IsDigit;
  }

  lemma ValueReads(t: string, negative: bool, n: nat, k: nat)
    requires t != "" && IsDigit(t[0]) && n == IntegerLength(t) && k == NumberLength(t)
    ensures (forall c | c in t[..n] :: IsDigit(c)) && n <= k <= |t|
    ensures NumberValue(t, negative) ==
      if k > n then Float((if negative then "-" else "") + t[..k])
      else Int(if negative then -(NatOf(t[..n]) as int) else NatOf(t[..n]))
  {
    hide FractionLength, ExponentLength, NatOf, NumberLength;
  }

  lemma NumberStarts(s: string)
    ensures ParseNumber(s).Ok? <==> Unsigned(s) != "" && IsDigit(Unsigned(s)[0])
  {
    hide DigitRun, FractionLength, ExponentLength, NatOf, IsDigit;
    assert s != "" ==> Unsigned(s) == s[if s[0] == '-' then 1 else 0..];
  }

  lemma NumberUnfolds(s: string, n: nat, f: nat, e: nat)
    requires var t := Unsigned(s);
      && t != "" && IsDigit(t[0]) && n == IntegerLength(t) && n + f + e <= |t|
      && f == FractionLength(t[n..]) && e == ExponentLength(t[n + f..])
    ensures var t := Unsigned(s);
      ParseNumber(s) ==
        if f + e > 0 then Ok((Float(s[..|s| - |t[n + f + e..]|]), t[n + f + e..]))
        else Ok((Int(if s[0] == '-' then -(NatOf(t[..n]) as int) else NatOf(t[..n])), t[n + f + e..]))
  {
    hide DigitRun, FractionLength, ExponentLength, NatOf, IsDigit;
    assert Unsigned(s) == s[if s[0] == '-' then 1 else 0..];
  }

  lemma NumberValueCut(t: string, z: string, negative: bool)
    requires t != "" && IsDigit(t[0]) && (t + z)[0] == t[0] && NumberLength(t + z) <= |t|
    ensures NumberLength(t) == NumberLength(t + z)
    ensures NumberValue(t, negative) == NumberValue(t + z, negative)
  {
    hide FractionLength, ExponentLength, NatOf, DigitRun, IntegerLength, NumberLength;
    NumberPartsCut(t, z);
    PrefixKept(t, z, IntegerLength(t));
    PrefixKept(t, z, NumberLength(t));
  }

  lemma PrefixKept(t: string, z: string, n: nat)
    requires n <= |t|
    ensures (t + z)[..n] == t[..n]
  {
  }

  lemma ParseNumberCut(s: string, z: string)
    requires s != "" && ParseNumber(s + z).Ok? && |ParseNumber(s + z).value.1| >= |z|
    ensures Same(ParseNumber(s + z), ParseNumber(s), z)
  {
    assert (s + z)[0] == s[0];
    EndOf(s, z, if s[0] == '-' then 1 else 0);
    var t := Unsigned(s);
    assert Unsigned(s + z) == t + z;
    ParseNumberIs(s + z);
    ParseNumberIs(s);
    hide ParseNumber, NumberLength, NumberValue;
    assert t != "";
    assert (t + z)[0] == t[0];
    NumberValueCut(t, z, s[0] == '-');
    EndOf(t, z, NumberLength(t));
  }

  // -- values ----------------------------------------------------------------------------

  lemma {:induction false} ParseValueCut(s: string, z: string)
    requires ParseValue(s + z).Ok? && |ParseValue(s + z).value.1| >= |z|
    ensures Same(ParseValue(s + z), ParseValue(s), z)
    decreases |s|, 1
  {
    hide ParseNumber, ParseItems, ParseMembers, ParseChars, SkipSpace, DictOfPairs, TextValue, ParseLiteral;
    assert s != "";
    assert (s + z)[0] == s[0];
    EndOf(s, z, 1);
    if s[0] == '\"' {
      ParseCharsCut(s[1..], z);
    } else if s[0] == '{' {
      ObjectCut(s, z);
    } else if s[0] == '[' {
      ArrayCut(s, z);
    } else {
      ScalarCut(s, z);
    }
  }

  lemma ScalarCut(s: string, z: string)
    requires s != "" && s[0] !in ['\"', '{', '[']
    requires ParseValue(s + z).Ok? && |ParseValue(s + z).value.1| >= |z|
    ensures Same(ParseValue(s + z), ParseValue(s), z)
  {
    assert (s + z)[0] == s[0];
    hide ParseNumber, ParseItems, ParseMembers, ParseChars, SkipSpace, ParseLiteral;
    if s[0] == 'n' {
      ParseLiteralCut(s, z, "null", Null);
    } else if s[0] == 't' {
      ParseLiteralCut(s, z, "true", Bool(true));
    } else if s[0] == 'f' {
      ParseLiteralCut(s, z, "false", Bool(false));
    } else if s[0] == 'N' {
      ParseLiteralCut(s, z, "NaN", Float("nan"));
    } else if s[0] == 'I' {
      ParseLiteralCut(s, z, "Infinity", Float("inf"));
    } else {
      SignedCut(s, z);
    }
  }

  lemma SignedCut(s: string, z: string)
    requires s != "" && s[0] !in ['\"', '{', '[', 'n', 't', 'f', 'N', 'I']
    requires ParseValue(s + z).Ok? && |ParseValue(s + z).value.1| >= |z|
    ensures Same(ParseValue(s + z), ParseValue(s), z)
  {
    assert (s + z)[0] == s[0];
    hide ParseNumber, ParseItems, ParseMembers, ParseChars, SkipSpace;
    var word := "-Infinity";
    if word <= s + z {
      ParseLiteralCut(s, z, word, Float("-inf"));
    } else {
      assert word <= s ==> word <= s + z;
      ParseNumberCut(s, z);
    }
  }

  lemma {:induction false} ObjectCut(s: string, z: string)
    requires s != "" && s[0] == '{' && ParseValue(s + z).Ok? && |ParseValue(s + z).value.1| >= |z|
    ensures Same(ParseValue(s + z), ParseValue(s), z)
    decreases |s|, 0
  {
    hide ParseNumber, ParseItems, ParseMembers, ParseChars, SkipSpace, DictOfPairs, TextValue;
    assert (s + z)[0] == s[0];
    EndOf(s, z, 1);
    SkipSpaceCut(s[1..], z);
    var t := SkipSpace(s[1..]);
    assert t != "";
    assert (t + z)[0] == t[0];
    EndOf(t, z, 1);
    if t[0] != '}' {
      ParseMembersCut(t, z);
    }
  }

  lemma {:induction false} ArrayCut(s: string, z: string)
    requires s != "" && s[0] == '[' && ParseValue(s + z).Ok? && |ParseValue(s + z).value.1| >= |z|
    ensures Same(ParseValue(s + z), ParseValue(s), z)
    decreases |s|, 0
  {
    hide ParseNumber, ParseItems, ParseMembers, ParseChars, SkipSpace, DictOfPairs, TextValue;
    assert (s + z)[0] == s[0];
    EndOf(s, z, 1);
    SkipSpaceCut(s[1..], z);
    var t := SkipSpace(s[1..]);
    assert t != "";
    assert (t + z)[0] == t[0];
    EndOf(t, z, 1);
    if t[0] != ']' {
      ParseItemsCut(t, z);
    }
  }

  lemma {:induction false} ParseItemsCut(s: string, z: string)
    requires ParseItems(s + z).Ok? && |ParseItems(s + z).value.1| >= |z|
    ensures Same(ParseItems(s + z), ParseItems(s), z)
    decreases |s|, 2
  {
    hide ParseValue, SkipSpace;
    ParseValueCut(s, z);
    var tail := ParseValue(s).value.1;
    SkipSpaceCut(tail, z);
    var t := SkipSpace(tail);
    assert t != "";
    assert (t + z)[0] == t[0];
    EndOf(t, z, 1);
    if t[0] == ',' {
      SkipSpaceCut(t[1..], z);
      ParseItemsCut(SkipSpace(t[1..]), z);
    }
  }

  // Up to the value of the first member.
  lemma FirstValueCut(s: string, z: string)
    requires ParseMembers(s + z).Ok? && |FirstValue(s + z)| > |z|
    ensures s != "" && s[0] == '\"' && Same(ParseChars((s + z)[1..]), ParseChars(s[1..]), z)
    ensures var t := SkipSpace(ParseChars(s[1..]).value.1);
      && t != "" && t[0] == ':' && FirstValue(s + z) == SkipSpace(t[1..]) + z
      && SkipSpace(ParseChars((s + z)[1..]).value.1) == t + z
  {
    hide ParseValue, SkipSpace, ParseChars, TextValue;
    assert s != "";
    assert (s + z)[0] == s[0];
    EndOf(s, z, 1);
    ParseCharsCut(s[1..], z);
    var afterKey := ParseChars(s[1..]).value.1;
    SkipSpaceCut(afterKey, z);
    var t := SkipSpace(afterKey);
    assert t != "";
    assert (t + z)[0] == t[0];
    EndOf(t, z, 1);
    SkipSpaceCut(t[1..], z);
  }

  lemma {:induction false} ParseMembersCut(s: string, z: string)
    requires ParseMembers(s + z).Ok? && |ParseMembers(s + z).value.1| >= |z|
    ensures Same(ParseMembers(s + z), ParseMembers(s), z)
    decreases |s|, 2
  {
    hide ParseValue, SkipSpace, ParseChars, TextValue, FirstValue, Ends;
    FirstValueEnds(s + z);
    FirstValueStarts(s + z);
    FirstValueCut(s, z);
    var v := SkipSpace(SkipSpace(ParseChars(s[1..]).value.1)[1..]);
    ParseValueCut(v, z);
    var tail := ParseValue(v).value.1;
    SkipSpaceCut(tail, z);
    var u := SkipSpace(tail);
    assert u != "";
    assert (u + z)[0] == u[0];
    EndOf(u, z, 1);
    if u[0] == ',' {
      SkipSpaceCut(u[1..], z);
      ParseMembersCut(SkipSpace(u[1..]), z);
    }
  }

  // The rest of the members is shorter than the first value and what follows it.
  lemma FirstValueStarts(s: string)
    requires ParseMembers(s).Ok?
    ensures ParseValue(FirstValue(s)).Ok?
    ensures FirstValue(s) == SkipSpace(SkipSpace(ParseChars(s[1..]).value.1)[1..])
    ensures |ParseMembers(s).value.1| < |SkipSpace(ParseValue(FirstValue(s)).value.1)| <=
      |ParseValue(FirstValue(s)).value.1| < |FirstValue(s)|
  {
    hide ParseValue, SkipSpace, ParseChars, TextValue;
  }
}
