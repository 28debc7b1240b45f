/**
 The wrapper parses whole lines, the engine's loader lines that were stripped first. Where
 the wrapper reads objects the two read the same.
 */
module LoaderAgreement {
  import opened Wrappers
  import opened JsonValues
  import opened JsonLoads
  import opened ParserSuffix
  import opened ParserCut
  import opened Transcript
  import opened ChainCheck
  import opened Games
  import opened Replay
  import opened HeaderSeats
  import opened Verdict
  import opened Endings
  import opened MatchRunner
  import opened Verifier
  import opened Preflight

  predicate AllSpace(s: string) {
    forall c | c in s :: IsSpace(c)
  }

  lemma {:induction false} SkippedIsSpace(s: string)
    ensures Ends(s, SkipSpace(s)) && AllSpace(s[..|s| - |SkipSpace(s)|])
    ensures SkipSpace(s) != "" ==> !IsSpace(SkipSpace(s)[0])
  {
    SkipSpaceEnds(s);
    if s != "" && IsSpace(s[0]) {
      SkippedIsSpace(s[1..]);
      var k := |s| - |SkipSpace(s)|;
      assert s[..k] == [s[0]] + s[1..][..k - 1];
    }
  }

  // Space at both ends is what strip takes off.
  lemma {:induction false} StripsToCore(front: string, core: string, back: string)
    requires AllSpace(front) && AllSpace(back)
    requires core != "" && !IsWhitespace(core[0]) && !IsWhitespace(core[|core| - 1])
    ensures Stripped(front + core + back) == core
    decreases |front| + |back|
  {
    var s := front + core + back;
    if front != "" {
      assert s[0] == front[0] && front[0] in front;
      assert s[1..] == front[1..] + core + back;
      StripsToCore(front[1..], core, back);
    } else if back != "" {
      assert s[0] == core[0];
      var n := |back| - 1;
      assert s[|s| - 1] == back[n] && back[n] in back;
      assert s[..|s| - 1] == front + core + back[..n];
      StripsToCore(front, core, back[..n]);
    } else {
      assert s == core;
    }
  }

  // The text of an object ends in its closing brace.
  lemma {:induction false} MembersClose(s: string)
    requires ParseMembers(s).Ok?
    ensures var q := ParseMembers(s).value.1; |q| < |s| && s[|s| - |q| - 1] == '}'
    decreases |s|
  {
    hide ParseValue, SkipSpace, ParseChars, TextValue, FirstValue;
    FirstValueEnds(s);
    FirstValueStarts(s);
    var v := FirstValue(s);
    hide Ends;
    ParseValueEnds(v);
    var tail := ParseValue(v).value.1;
    EndsTwice(s, v, tail);
    SpaceThen(s, tail);
    var u := SkipSpace(tail);
    EndsAt(s, u, 0);
    if u[0] == ',' {
      TailThen(s, u);
      SpaceThen(s, u[1..]);
      var w := SkipSpace(u[1..]);
      MembersClose(w);
      var q := ParseMembers(w).value.1;
      EndsAt(s, w, |w| - |q| - 1);
    }
  }

  lemma EndsAt(s: string, t: string, i: nat)
    requires Ends(s, t) && i < |t|
    ensures t[i] == s[|s| - |t| + i]
  {
    assert s[|s| - |t|..][i] == t[i];
  }

  lemma ObjectCloses(s: string)
    requires ParseValue(s).Ok? && ParseValue(s).value.0.Obj?
    ensures s[0] == '{'
    ensures var q := ParseValue(s).value.1; |q| < |s| && s[|s| - |q| - 1] == '}'
  {
    hide ParseMembers, ParseItems, ParseNumber, SkipSpace, ParseChars, DictOfPairs, Ends;
    NumbersAreNoObjects(s);
    Whole(s);
    TailThen(s, s);
    var t := SkipSpace(s[1..]);
    SpaceThen(s, s[1..]);
    EndsAt(s, t, 0);
    if t[0] != '}' {
      MembersClose(t);
      EndsAt(s, t, |t| - |ParseMembers(t).value.1| - 1);
    }
  }

  lemma NumbersAreNoObjects(s: string)
    ensures ParseNumber(s).Ok? ==> !ParseNumber(s).value.0.Obj?
  {
  }

  /** A line that parses to an object parses to the same object once stripped. */
  lemma ObjectLineStrips(line: string)
    requires Loads(line).Ok? && Loads(line).value.Obj?
    ensures Stripped(line) != "" && Loads(Stripped(line)) == Loads(line)
  {
    hide ParseValue, SkipSpace, Stripped, AllSpace, Ends, IsSpace;
    var s := SkipSpace(line);
    SkippedIsSpace(line);
    var (v, rest) := ParseValue(s).value;
    ParseValueEnds(s);
    SkippedIsSpace(rest);
    assert rest[..|rest|] == rest;
    var front, core := line[..|line| - |s|], s[..|s| - |rest|];
    EndsSplit(line, s, front);
    EndsSplit(s, rest, core);
    CoreIsBraced(s, core, rest);
    Regroup(front, core, rest);
    StripsToCore(front, core, rest);
    CoreParses(core, rest, v);
    CoreLoads(core, v);
  }

  lemma CoreIsBraced(s: string, core: string, rest: string)
    requires ParseValue(s).Ok? && ParseValue(s).value.0.Obj? && ParseValue(s).value.1 == rest && s == core + rest
    ensures core != "" && core[0] == '{' && core[|core| - 1] == '}'
  {
    hide ParseValue;
    ObjectCloses(s);
  }

  lemma CoreParses(core: string, rest: string, v: Json)
    requires ParseValue(core + rest) == Ok((v, rest))
    ensures ParseValue(core) == Ok((v, ""))
  {
    hide ParseValue;
    ParseValueCut(core, rest);
    assert ParseValue(core).value.1 == "";
  }

  lemma EndsSplit(s: string, t: string, front: string)
    requires Ends(s, t) && front == s[..|s| - |t|]
    ensures s == front + t
  {
  }

  lemma Regroup(a: string, b: string, c: string)
    ensures a + (b + c) == a + b + c
  {
  }

  lemma CoreLoads(core: string, v: Json)
    requires core != "" && core[0] == '{' && ParseValue(core) == Ok((v, ""))
    ensures Loads(core) == Ok(v)
  {
    hide ParseValue;
  }

  lemma {:induction false} RowsAreLoaded(lines: seq<string>, lineNo: nat)
    requires Rows(lines).Some? && forall r | r in Rows(lines).value :: r.Obj?
    ensures LoadedFrom(lines, lineNo) == Ok(Rows(lines).value)
    decreases |lines|
  {
    hide Stripped, Loads;
    if lines != [] {
      RowsFromFront(lines);
      var first := Stripped(lines[0]);
      if first != "" {
        var row := Loads(lines[0]).value;
        assert row in Rows(lines).value;
        ObjectLineStrips(lines[0]);
      }
      var rest := Rows(lines[1..]).value;
      assert [] + rest == rest;
      assert forall r | r in rest :: r in Rows(lines).value;
      RowsAreLoaded(lines[1..], lineNo + 1);
    }
  }

  lemma {:induction false} RowsFromFront(lines: seq<string>)
    requires lines != [] && Rows(lines).Some?
    ensures Rows(lines[1..]).Some?
    ensures Stripped(lines[0]) != "" ==> Loads(lines[0]).Ok?
    ensures Rows(lines).value ==
      (if Stripped(lines[0]) == "" then [] else [Loads(lines[0]).value]) + Rows(lines[1..]).value
    decreases |lines|
  {
    hide Stripped, Loads;
    var n := |lines| - 1;
    if n == 0 {
      assert Rows(lines[..0]) == Some([]) && lines[1..] == [];
    } else {
      RowsFromFront(lines[..n]);
      assert lines[..n][1..] == lines[1..][..n - 1];
    }
  }

  /** On any text: if the wrapper reads rows that are all objects, the engine's loader
      returns exactly those rows. */
  lemma LoaderReadsSameRows(text: string)
    requires TextRows(text).Some? && forall r | r in TextRows(text).value :: r.Obj?
    ensures Loaded(text) == Ok(TextRows(text).value)
  {
    RowsAreLoaded(Lines(Translated(text)), 1);
  }

  // Where the wrapper found the header, the engine finds it too.
  lemma HeadersAgree(rows: seq<Json>)
    requires Proper(rows) && rows == RecordsJson(AsRecords(rows))
    ensures var header := FirstOf(EntriesOf(AsRecords(rows)), "header");
      header.Some? && HeaderOf(rows) == Obj(header.value)
  {
    hide RowsCanonical, RowSigned, AnyMentions, AsRecord;
    var rs := AsRecords(rows);
    assert |rs| == |rows| && rows[0] == RecordJson(rs[0]);
    assert EntriesOf(rs)[0] == EntryOf(rs[0]);
  }

  /** No signed downgrade, said of the records the engine judged: on any text, an effective
      PASS where some record mentions a passport has one in an entrant row of the header the
      engine read, and that engine, which contains the passport module, found it valid and
      bound to its row. */
  lemma MentionedPassportIsVerified(b: Bundle, text: string) returns (seat: nat)
    requires b.Packed() && Trusted(b, text)
    requires AnyMentions(TextRows(text).value, KEY)
    ensures Loaded(text) == Ok(TextRows(text).value)
    ensures var engine := b.engines[RecordedDigest(TextRows(text).value).s];
      var header := FirstOf(EntriesOf(AsRecords(Loaded(text).value)), "header");
      && Capable(b.sources[RecordedDigest(TextRows(text).value).s])
      && header.Some? && IdentityHolds(engine, header.value)
      && seat < 2 && var row := Get(header.value, "entrants").items[seat].fields;
      && KEY in row && engine.passport(row[KEY]).Some? && DeclarationBound(row, engine.passport(row[KEY]).value)
  {
    hide TextRows, Loaded, Verified, Sound, AnyMentions, RecordedDigest, ChainCheck.Accepted, Chained, Examined, IsPlay,
         RuledWinner, AsRecords, RecordsJson, EntriesOf, FirstOf, DeclarationBound;
    var rows := TextRows(text).value;
    var engine := b.engines[RecordedDigest(rows).s];
    LoaderReadsSameRows(text);
    PassRestsOnChain(engine, text);
    PassedTextIsPlay(engine, text);
    HeadersAgree(rows);
    NoSignedDowngrade(b, text);
    SoundIdentity(engine, EntriesOf(AsRecords(rows)));
    var header := FirstOf(EntriesOf(AsRecords(rows)), "header").value;
    seat := if KEY in Get(header, "entrants").items[0].fields then 0 else 1;
  }

  lemma SoundIdentity(engine: Engine, entries: seq<Entry>)
    requires Sound(engine, entries)
    ensures FirstOf(entries, "header").Some? && IdentityHolds(engine, FirstOf(entries, "header").value)
  {
  }
}
