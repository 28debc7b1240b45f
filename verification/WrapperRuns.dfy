/**
 What the wrapper of the generated verifier makes of the transcript of a run.
 */
module WrapperRuns {
  import opened Wrappers
  import opened JsonValues
  import opened Transcript
  import opened Games
  import opened Scoring
  import opened Referee
  import opened Replay
  import opened LiveScore
  import opened RunVerdict
  import opened MatchRunner
  import opened ChainCheck
  import opened Completeness
  import opened RunLawful
  import opened IdentityBinding
  import opened Verifier
  import opened Preflight
  import JsonLoads

  lemma LineLoads(r: Record)
    requires Writable(r)
    ensures Transcript.Stripped(LineText(r)) != "" && JsonLoads.Loads(LineText(r)) == Ok(RecordJson(r))
  {
    hide Writable, LineText, Transcript.Stripped;
    LineTextIsOneLine(r);
  }

  lemma {:induction false} WrittenRowsUpTo(rs: seq<Record>, n: nat)
    requires (forall r | r in rs :: Writable(r)) && n <= |rs|
    ensures |LineTexts(rs)| == |rs| + 1
    ensures Rows(LineTexts(rs)[..n]) == Some(RecordsJson(rs)[..n])
  {
    hide Writable, LineText, Transcript.Stripped, JsonLoads.Loads, RecordJson, LineTexts;
    LineTextAt(rs, n);
    if n > 0 {
      WrittenRowsUpTo(rs, n - 1);
      LineTextAt(rs, n - 1);
      LineLoads(rs[n - 1]);
      RowsStep(LineTexts(rs), n - 1);
      assert RecordsJson(rs)[..n] == RecordsJson(rs)[..n - 1] + [RecordJson(rs[n - 1])];
    }
  }

  /** The wrapper reads a written file as the records written. */
  lemma WrittenFileRows(rs: seq<Record>)
    requires forall r | r in rs :: Writable(r)
    ensures TextRows(FileText(rs)) == Some(RecordsJson(rs))
  {
    FileTextLines(rs);
    TranslatedNoReturn(FileText(rs));
    WrittenRowsUpTo(rs, |rs|);
    LineTextAt(rs, |rs|);
    hide Rows, FileText, LineTexts;
    RowsStep(LineTexts(rs), |rs|);
    assert LineTexts(rs)[..|rs| + 1] == LineTexts(rs);
    assert RecordsJson(rs)[..|rs|] == RecordsJson(rs);
  }

  predicate AnyPassport(seats: seq<Seat>) {
    exists s | s in seats :: s.passport.Some?
  }

  lemma SeatsSigned(engine: Engine, m: Match)
    requires |m.seats| == 2
    ensures RowsCanonical(Get(HeaderBody(engine, m), "entrants"))
    ensures RowSigned(HeaderBody(engine, m)) <==> AnyPassport(m.seats)
  {
    hide HeaderBody, SeatRow, SeatRows, GameBlock, EngineBlock, AttestationBlock;
    HeaderFields(engine, m);
    TwoRows(m.seats);
    SeatRowFields(0, m.seats[0]);
    SeatRowFields(1, m.seats[1]);
    var a, b := SeatRow(0, m.seats[0]), SeatRow(1, m.seats[1]);
    assert [a, b][0] in [a, b] && [a, b][1] in [a, b];
    assert m.seats == [m.seats[0], m.seats[1]];
  }

  // Records whose first is the only header.
  lemma RecordRows(rs: seq<Record>, header: Body)
    requires rs != [] && rs[0].kind == "header" && rs[0].body == header
    requires forall i | 1 <= i < |rs| :: rs[i].kind != "header"
    ensures var rows := RecordsJson(rs);
      Proper(rows) <==>
        RowsCanonical(Get(header, "entrants")) && (AnyMentions(rows, KEY) <==> RowSigned(header))
  {
    hide RowsCanonical, RowSigned, Mentions, AnyMentions;
    var rows := RecordsJson(rs);
    forall i | 0 <= i < |rows| ensures rows[i].Obj? && (IsHeader(rows[i]) <==> rs[i].kind == "header") {
    }
    forall r | r in rows ensures r.Obj? {
    }
    forall r | r in rows[1..] ensures !IsHeader(r) {
      var i :| 1 <= i < |rows| && rows[i] == r;
    }
    assert HeaderOf(rows) == Obj(header);
  }

  /** The wrapper's shape check on the file of a run fails in exactly one way: no seat was
      signed and yet some record mentions a passport. A run's own replies can bring that
      about, since what an entrant says is recorded whole. */
  lemma RunIsProper(engine: Engine, m: Match, entrants: Entrants, rs: seq<Record>)
    requires RunOf(engine, m, entrants).Ok? && |m.seats| == 2
    requires Chained(engine.sha, rs) && EntriesOf(rs) == RunOf(engine, m, entrants).value.entries
    ensures TextRows(FileText(rs)) == Some(RecordsJson(rs))
    ensures Proper(RecordsJson(rs)) <==> (AnyMentions(RecordsJson(rs), KEY) ==> AnyPassport(m.seats))
  {
    hide RunOf, HeaderBody, FileText, Chained, RecordsJson, Proper, RowsCanonical, RowSigned, AnyMentions,
         AnyPassport, TextRows;
    ChainedEncodable(engine.sha, rs);
    WrittenFileRows(rs);
    SeatsSigned(engine, m);
    RunHeaders(engine, m, entrants, rs);
    RecordRows(rs, HeaderBody(engine, m));
    if AnyPassport(m.seats) {
      SignedMentions(rs, HeaderBody(engine, m));
    }
  }

  lemma SignedMentions(rs: seq<Record>, header: Body)
    requires rs != [] && rs[0].body == header && RowSigned(header)
    ensures AnyMentions(RecordsJson(rs), KEY)
  {
    var row := RecordJson(rs[0]);
    assert row.fields["body"] == Obj(header);
    assert Mentions(Get(header, "entrants"), KEY);
    assert Mentions(Obj(header), KEY);
    assert Mentions(row, KEY);
    assert RecordsJson(rs)[0] == row;
    assert row in RecordsJson(rs);
  }

  lemma RunHeaders(engine: Engine, m: Match, entrants: Entrants, rs: seq<Record>)
    requires RunOf(engine, m, entrants).Ok? && EntriesOf(rs) == RunOf(engine, m, entrants).value.entries
    ensures rs != [] && rs[0].kind == "header" && rs[0].body == HeaderBody(engine, m)
    ensures forall i | 1 <= i < |rs| :: rs[i].kind != "header"
  {
    hide RunOf, Scene, InnerKinds, HeaderBody, ScoreOf, Agrees, Bodies, ResultEntry;
    LiveIsRecomputed(engine, m, entrants);
    SceneHeader(engine, m, entrants);
    var run := RunOf(engine, m, entrants).value;
    var es := Scene(engine, m, entrants).value.entries;
    assert EntriesOf(rs)[0] == es[0];
    ResultIsNoHeader(run.scored, m);
    forall i | 1 <= i < |rs| ensures rs[i].kind != "header" {
      assert EntriesOf(rs)[i].kind == rs[i].kind;
      if i < |es| {
        assert EntriesOf(rs)[i] == es[1..][i - 1];
        InnerIsNoHeader(es[1..], i - 1);
      }
    }
  }

  lemma ResultIsNoHeader(scored: Scored, m: Match)
    ensures ResultEntry(scored, m).kind == "result"
  {
  }

  lemma InnerIsNoHeader(es: seq<Entry>, i: nat)
    requires InnerKinds(es) && i < |es|
    ensures es[i].kind != "header"
  {
    assert es[i] in es;
  }

  lemma ExaminedDigest(engine: Engine, entries: seq<Entry>)
    requires Examined(engine, entries).pass
    ensures Examined(engine, entries).digestMatch
  {
    hide StructureOk, KindsOk, IsolationOk, AttestationOk, DigestMatches, GameOf, Replayed, FirstOf, ForfeitEvidence;
    hide StatesHold, AdjudicationOk, ErrorsShape, VoidOutcome, ResultMatches, IdentityOf, ScoreOf;
  }

  lemma VerifiedDigest(engine: Engine, text: string)
    requires Verified(engine, text).pass
    ensures Verified(engine, text).digestMatch
  {
    hide Examined, FirstObjection, Loaded;
    ExaminedDigest(engine, EntriesOf(AsRecords(Loaded(text).value)));
  }

  lemma RunRecordsDigest(engine: Engine, m: Match, rs: seq<Record>)
    requires rs != [] && rs[0].body == HeaderBody(engine, m)
    ensures RecordedDigest(RecordsJson(rs)) == Str(engine.digest)
  {
    HeaderFields(engine, m);
    hide HeaderBody, GameBlock, AttestationBlock, SeatRows;
    assert RecordsJson(rs)[0] == RecordJson(rs[0]);
    assert HeaderOf(RecordsJson(rs)) == Obj(HeaderBody(engine, m));
  }

  /** From the seats to the effective verdict: the bundle that embeds the refereeing engine
      trusts the file of a run exactly when its moves name seats, its ending is replayable,
      and no record mentions a passport unless a seat was signed and the engine can tell. */
  lemma RunIsTrustedIff(b: Bundle, engine: Engine, m: Match, entrants: Entrants, rs: seq<Record>)
    requires b.Packed() && engine.digest in b.engines && b.engines[engine.digest] == engine
    requires RunOf(engine, m, entrants).Ok? && Honest(engine, m) && |m.seats| == 2
    requires Chained(engine.sha, rs) && EntriesOf(rs) == RunOf(engine, m, entrants).value.entries
    ensures var run := RunOf(engine, m, entrants).value;
      Trusted(b, FileText(rs)) <==>
        && SeatsTyped(run.entries) && Replayable(m.game, run.ending)
        && (AnyMentions(RecordsJson(rs), KEY) ==> AnyPassport(m.seats) && Capable(b.sources[engine.digest]))
  {
    hide RunOf, HeaderBody, FileText, Chained, RecordsJson, Proper, AnyMentions, AnyPassport, TextRows, Verified,
         Honest;
    hide SeatsTyped, Replayable, RecordedDigest, Capable;
    RunHeaders(engine, m, entrants, rs);
    RunRecordsDigest(engine, m, rs);
    RunIsProper(engine, m, entrants, rs);
    FilePassesIffReplayable(engine, m, entrants, rs);
    if Verified(engine, FileText(rs)).pass {
      VerifiedDigest(engine, FileText(rs));
    }
  }
}
