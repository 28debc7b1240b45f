/**
 Every json.loads parser consumes a prefix and is blind to what follows it: its rest is a
 suffix of its input, and cutting that suffix short changes nothing else.
 */
module ParserSuffix {
  import opened JsonValues
  import opened JsonLoads

  predicate Ends(s: string, q: string) {
    |q| <= |s| && s[|s| - |q|..] == q
  }

  lemma EndsAfter(s: string, k: nat, q: string)
    requires k <= |s| && Ends(s[k..], q)
    ensures Ends(s, q)
  {
    assert s[k..][|s| - k - |q|..] == s[|s| - |q|..];
  }

  lemma EndsTwice(s: string, t: string, q: string)
    requires Ends(s, t) && Ends(t, q)
    ensures Ends(s, q)
  {
    EndsAfter(s, |s| - |t|, q);
  }

  lemma {:induction false} SkipSpaceEnds(s: string)
    ensures Ends(s, SkipSpace(s))
  {
    if s != "" && IsSpace(s[0]) {
      SkipSpaceEnds(s[1..]);
      EndsAfter(s, 1, SkipSpace(s));
    }
  }

  lemma SpaceThen(s: string, t: string)
    requires Ends(s, t)
    ensures Ends(s, SkipSpace(t))
  {
    SkipSpaceEnds(t);
    EndsTwice(s, t, SkipSpace(t));
  }

  lemma TailThen(s: string, t: string)
    requires Ends(s, t) && t != ""
    ensures Ends(s, t[1..])
  {
    EndsAfter(s, |s| - |t| + 1, t[1..]);
  }

  lemma Whole(s: string)
    ensures Ends(s, s)
  {
  }

  lemma ParseCharEnds(s: string)
    requires s != "" && ParseChar(s).Ok?
    ensures Ends(s, ParseChar(s).value.1)
  {
  }

  lemma {:induction false} ParseCharsEnds(s: string)
    requires ParseChars(s).Ok?
    ensures Ends(s, ParseChars(s).value.1)
    decreases |s|
  {
    hide ParseChar;
    if s[0] != '\"' {
      ParseCharEnds(s);
      var tail := ParseChar(s).value.1;
      ParseCharsEnds(tail);
      EndsTwice(s, tail, ParseChars(tail).value.1);
    }
  }

  lemma ParseNumberEnds(s: string)
    requires ParseNumber(s).Ok?
    ensures Ends(s, ParseNumber(s).value.1)
  {
    hide DigitRun, FractionLength, ExponentLength, NatOf;
    var sign := if s[0] == '-' then 1 else 0;
    var t := s[sign..];
    var n := if t[0] == '0' then 1 else DigitRun(t);
    var k := n + FractionLength(t[n..]) + ExponentLength(t[n + FractionLength(t[n..])..]);
    assert t[k..] == s[sign + k..];
  }

  lemma LiteralEnds(s: string, word: string, value: Json)
    requires word != "" && ParseLiteral(s, word, value).Ok?
    ensures Ends(s, ParseLiteral(s, word, value).value.1)
  {
  }

  lemma ScalarEnds(s: string)
    requires s != "" && s[0] !in ['\"', '{', '['] && ParseValue(s).Ok?
    ensures Ends(s, ParseValue(s).value.1)
  {
    hide ParseNumber, ParseItems, ParseMembers, ParseChars, SkipSpace, DictOfPairs, ParseLiteral, Ends;
    if s[0] == 'n' {
      LiteralEnds(s, "null", Null);
    } else if s[0] == 't' {
      LiteralEnds(s, "true", Bool(true));
    } else if s[0] == 'f' {
      LiteralEnds(s, "false", Bool(false));
    } else if s[0] == 'N' {
      LiteralEnds(s, "NaN", Float("nan"));
    } else if s[0] == 'I' {
      LiteralEnds(s, "Infinity", Float("inf"));
    } else if "-Infinity" <= s {
      LiteralEnds(s, "-Infinity", Float("-inf"));
    } else {
      ParseNumberEnds(s);
    }
  }

  lemma {:induction false} ParseValueEnds(s: string)
    requires ParseValue(s).Ok?
    ensures Ends(s, ParseValue(s).value.1)
    decreases |s|, 1
  {
    hide ParseNumber, ParseItems, ParseMembers, ParseChars, SkipSpace, DictOfPairs, ParseLiteral, TextValue;
    if s[0] == '\"' {
      ParseCharsEnds(s[1..]);
      EndsAfter(s, 1, ParseChars(s[1..]).value.1);
    } else if s[0] == '{' || s[0] == '[' {
      ContainerEnds(s);
    } else {
      ScalarEnds(s);
    }
  }

  lemma {:induction false} ContainerEnds(s: string)
    requires ParseValue(s).Ok? && (s[0] == '{' || s[0] == '[')
    ensures Ends(s, ParseValue(s).value.1)
    decreases |s|, 0
  {
    hide ParseItems, ParseMembers, SkipSpace, DictOfPairs, ParseNumber, ParseChars, Ends;
    Whole(s);
    TailThen(s, s);
    var t := SkipSpace(s[1..]);
    SpaceThen(s, s[1..]);
    if s[0] == '{' && !(t != "" && t[0] == '}') {
      ParseMembersEnds(t);
      EndsTwice(s, t, ParseMembers(t).value.1);
    } else if s[0] == '[' && !(t != "" && t[0] == ']') {
      ParseItemsEnds(t);
      EndsTwice(s, t, ParseItems(t).value.1);
    } else {
      TailThen(s, t);
    }
  }

  lemma {:induction false} ParseItemsEnds(s: string)
    requires ParseItems(s).Ok?
    ensures Ends(s, ParseItems(s).value.1)
    decreases |s|, 2
  {
    hide ParseValue, SkipSpace, Ends;
    ParseValueEnds(s);
    var tail := ParseValue(s).value.1;
    var t := SkipSpace(tail);
    SpaceThen(s, tail);
    TailThen(s, t);
    if t[0] == ',' {
      var u := SkipSpace(t[1..]);
      SpaceThen(s, t[1..]);
      ParseItemsEnds(u);
      EndsTwice(s, u, ParseItems(u).value.1);
    }
  }

  // The text of the value in the first member, where one parses.
  function FirstValue(s: string): string
    requires ParseMembers(s).Ok?
  {
    SkipSpace(SkipSpace(ParseChars(s[1..]).value.1)[1..])
  }

  lemma FirstValueEnds(s: string)
    requires ParseMembers(s).Ok?
    ensures Ends(s, FirstValue(s)) && |FirstValue(s)| < |s| && ParseValue(FirstValue(s)).Ok?
  {
    hide ParseValue, SkipSpace, ParseChars, TextValue, Ends;
    Whole(s);
    TailThen(s, s);
    ParseCharsEnds(s[1..]);
    var afterKey := ParseChars(s[1..]).value.1;
    EndsTwice(s, s[1..], afterKey);
    SpaceThen(s, afterKey);
    TailThen(s, SkipSpace(afterKey));
    SpaceThen(s, SkipSpace(afterKey)[1..]);
  }

  lemma {:induction false} ParseMembersEnds(s: string)
    requires ParseMembers(s).Ok?
    ensures Ends(s, ParseMembers(s).value.1)
    decreases |s|, 2
  {
    hide ParseValue, SkipSpace, ParseChars, TextValue, Ends;
    FirstValueEnds(s);
    var v := FirstValue(s);
    ParseValueEnds(v);
    var tail := ParseValue(v).value.1;
    EndsTwice(s, v, tail);
    var u := SkipSpace(tail);
    SpaceThen(s, tail);
    TailThen(s, u);
    if u[0] == ',' {
      var w := SkipSpace(u[1..]);
      SpaceThen(s, u[1..]);
      ParseMembersEnds(w);
      EndsTwice(s, w, ParseMembers(w).value.1);
    }
  }
}
