/**
 arena/replay.py, verify: from the text of a transcript to a report, and the two
 halves joined: what the referee writes, the verifier reads back and classifies.
 */
module Verifier {
  import opened Wrappers
  import opened JsonValues
  import opened Canonical
  import opened Transcript
  import opened ChainCheck
  import opened Games
  import opened Scoring
  import opened Referee
  import opened Replay
  import opened HeaderSeats
  import opened Lawful
  import opened Verdict
  import opened Endings
  import opened LiveScore
  import opened RunLawful
  import opened Completeness
  import opened RunVerdict
  import opened MatchRunner

  /** The replay loop over the records. */
  method ReplayRecords(engine: Engine, game: Game, header: Body, entries: seq<Entry>)
    returns (r: Result<ReplayState, Fault>)
    ensures r == Replayed(engine, game, header, entries)
  {
    hide Step;
    var rs := START;
    for i := 0 to |entries|
      invariant Replayed(engine, game, header, entries[..i]) == Ok(rs)
    {
      assert entries[..i + 1][..i] == entries[..i];
      var next := Step(engine, game, header, rs, entries[i]);
      if next.Err? {
        ReplayStops(engine, game, header, entries, i, next.error);
        return Err(next.error);
      }
      rs := next.value;
    }
    assert entries[..|entries|] == entries;
    return Ok(rs);
  }

  // An exception while replaying one record ends the replay.
  lemma {:induction false} ReplayStops(engine: Engine, game: Game, header: Body, entries: seq<Entry>, i: nat,
                                       fault: Fault)
    requires i < |entries| && Replayed(engine, game, header, entries[..i]).Ok?
    requires Step(engine, game, header, Replayed(engine, game, header, entries[..i]).value, entries[i]) == Err(fault)
    ensures Replayed(engine, game, header, entries) == Err(fault)
  {
    hide Step;
    if i + 1 < |entries| {
      var front := entries[..|entries| - 1];
      assert front[..i] == entries[..i];
      ReplayStops(engine, game, header, front, i, fault);
    }
  }

  /** _verify_header_identity: the seats in order, each signing agent at most once. */
  method VerifyHeaderIdentity(engine: Engine, header: Body) returns (status: IdentityStatus)
    ensures status == IdentityOf(engine, header)
  {
    var rows := Get(header, "entrants");
    if !RowsCanonical(rows) {
      return IdentityInvalid;
    }
    var seats: seq<SeatIdentity> := [];
    var seen: set<string> := {};
    assert rows.items[0..] == rows.items;
    for i := 0 to |rows.items|
      invariant SeatIdentities(engine, rows.items, {}) == seats + SeatIdentities(engine, rows.items[i..], seen)
    {
      assert rows.items[i..][1..] == rows.items[i + 1..];
      var (seat, seen') := SeatIdentityOf(engine, rows.items[i].fields, seen);
      SeatsRegroup(seats, seat, SeatIdentities(engine, rows.items[i + 1..], seen'));
      seats := seats + [seat];
      seen := seen';
    }
    assert seats + [] == seats;
    return Summary(seats);
  }

  lemma SeatsRegroup(seats: seq<SeatIdentity>, seat: SeatIdentity, others: seq<SeatIdentity>)
    ensures seats + ([seat] + others) == seats + [seat] + others
  {
  }

  // The report on the text of a transcript.
  function Verified(engine: Engine, text: string): Report {
    match Loaded(text)
    case Err(_) => FAILED
    case Ok(js) =>
      if js == [] || FirstObjection(engine.sha, js, 0, GENESIS).Some? then FAILED
      else Examined(engine, EntriesOf(AsRecords(js)))
  }

  /** verify: total on hostile text, it always comes to a report. */
  method Verify(engine: Engine, text: string) returns (report: Report)
    ensures report == Verified(engine, text)
  {
    hide Judged, GameOf, Replayed, FirstObjection, Loaded, StructureOk, KindsOk, IsolationOk, AttestationOk,
         DigestMatches;
    var loaded := Load(text);
    if loaded.Err? || loaded.value == [] {
      return FAILED;
    }
    var broken := VerifyChain(engine.sha, loaded.value);
    if broken.Some? {
      return FAILED;
    }
    var entries := EntriesOf(AsRecords(loaded.value));
    report := FAILED.(chainOk := true);
    var header := FirstOf(entries, "header");
    if header.None? {
      return;
    }
    report := report.(
      structureOk := StructureOk(entries), kindsOk := KindsOk(entries),
      isolationOk := IsolationOk(engine, header.value), attestationOk := AttestationOk(header.value),
      digestMatch := DigestMatches(engine, header.value));
    var game := GameOf(engine, header.value);
    if game.None? {
      return;
    }
    var replayed := ReplayRecords(engine, game.value, header.value, entries);
    if replayed.Err? {
      return;
    }
    report := Judged(engine, game.value, header.value, report, replayed.value, entries);
  }

  // -- the two halves -----------------------------------------------------

  /** A PASS on any text whatever rests on a chain that verify_chain accepts, and on
      entries that pass the examination. */
  lemma PassRestsOnChain(engine: Engine, text: string)
    requires Verified(engine, text).pass
    ensures Loaded(text).Ok? && Loaded(text).value != []
    ensures var js := Loaded(text).value;
      && ChainCheck.Accepted(engine.sha, js) && js == RecordsJson(AsRecords(js)) && Chained(engine.sha, AsRecords(js))
      && Examined(engine, EntriesOf(AsRecords(js))).pass
  {
    hide Examined, Loaded, FirstObjection, Chained, ChainCheck.Accepted;
    var js := Loaded(text).value;
    NoObjectionIsAccepted(engine.sha, js);
    AcceptedIsChained(engine.sha, js);
  }

  // What a PASS says of a list of entries.
  ghost predicate Sound(engine: Engine, entries: seq<Entry>) {
    && FirstOf(entries, "header").Some? && FirstOf(entries, "result").Some?
    && GameOf(engine, FirstOf(entries, "header").value).Some?
    && var header, result := FirstOf(entries, "header").value, FirstOf(entries, "result").value;
    var game := GameOf(engine, header).value;
    var moves, states := AcceptedMoves(entries), Bodies(entries, "state");
    && IsPlay(engine.sha, game, header, moves, states) && |states| >= 1
    && (|states| == |moves| + 1 || (|entries| >= 2 && entries[|entries| - 2].kind == "engine_error"))
    && (Get(result, "winner").Int? ==>
          RuledWinner(engine, game, header, entries, result, Get(result, "winner").n))
    && (!Get(result, "winner").Int? && Bodies(entries, "engine_error") == [] ==>
          NoWinnerAtTheEnd(engine, game, header, entries, result))
    && Bodies(entries, "abort") == []
    && |Bodies(entries, "forfeit")| + |Bodies(entries, "engine_error")| <= 1
    && (Bodies(entries, "engine_error") != [] ==> Records(result, Void(|Bodies(entries, "move")|)))
    && IdentityHolds(engine, header)
  }

  lemma PassHasIdentity(engine: Engine, entries: seq<Entry>)
    requires Examined(engine, entries).pass
    ensures FirstOf(entries, "header").Some? && IdentityHolds(engine, FirstOf(entries, "header").value)
  {
    hide Examined, IdentityHolds, IdentityOf, Replayed, ScoreOf, StatesHold, AdjudicationOk, ResultMatches, VoidOutcome;
    PassIsEveryCheck(engine, entries);
    var header, game, rs, result, scored :| PassedWith(engine, entries, header, game, rs, result, scored);
    StatusIffHolds(engine, header);
  }

  lemma PassIsSound(engine: Engine, entries: seq<Entry>)
    requires Examined(engine, entries).pass
    ensures Sound(engine, entries)
  {
    hide Examined, IsPlay, IsLawful, RuledWinner, GameOf, FirstOf, Records, IdentityHolds, AcceptedMoves, Bodies,
         NoWinnerAtTheEnd;
    PassIsPlay(engine, entries);
    EndingsAreExclusive(engine, entries);
    PassHasIdentity(engine, entries);
    var winner := Get(FirstOf(entries, "result").value, "winner");
    if winner.Int? {
      WinnerIsRuled(engine, entries, winner.n);
    } else if Bodies(entries, "engine_error") == [] {
      NoWinnerIsRuled(engine, entries);
    }
  }

  /** Soundness on hostile text: a PASS means the accepted moves are a play of the game
      from the recorded seed with the recorded states its positions, up to the last one
      unless an engine error follows; a recorded winner is one the rules of that game give,
      and where none is recorded they give none;
      no two endings stand together; and every passport in an entrant row is valid, bound to
      that row, and of an agent in no other seat. */
  lemma PassedTextIsPlay(engine: Engine, text: string)
    requires Verified(engine, text).pass
    ensures Loaded(text).Ok? && Sound(engine, EntriesOf(AsRecords(Loaded(text).value)))
  {
    PassRestsOnChain(engine, text);
    hide Verified, Examined, Loaded, Sound, ChainCheck.Accepted, Chained;
    PassIsSound(engine, EntriesOf(AsRecords(Loaded(text).value)));
  }

  predicate Named(es: seq<Entry>) {
    forall e | e in es :: e.kind != ""
  }

  lemma NamedRecords(rs: seq<Record>)
    requires Named(EntriesOf(rs))
    ensures forall r | r in rs :: r.kind != ""
  {
    forall r | r in rs ensures r.kind != "" {
      var i :| 0 <= i < |rs| && rs[i] == r;
      assert EntriesOf(rs)[i] in EntriesOf(rs);
    }
  }

  /** The file a writer leaves reads back as the records it wrote, and is judged on
      their entries. */
  lemma WrittenFileIsExamined(engine: Engine, rs: seq<Record>)
    requires Chained(engine.sha, rs) && rs != [] && Named(EntriesOf(rs))
    ensures Verified(engine, FileText(rs)) == Examined(engine, EntriesOf(rs))
  {
    hide Examined, Loaded, FileText, Chained, ChainCheck.Accepted, FirstObjection;
    NamedRecords(rs);
    WrittenFileLoads(engine.sha, rs);
    WrittenRecordsAreAccepted(engine.sha, rs);
    NoObjectionIsAccepted(engine.sha, RecordsJson(rs));
  }

  lemma RunIsNamed(engine: Engine, m: Match, entrants: Entrants)
    requires RunOf(engine, m, entrants).Ok?
    ensures RunOf(engine, m, entrants).value.entries != [] && Named(RunOf(engine, m, entrants).value.entries)
  {
    hide RunOf, Scene, InnerKinds, HeaderBody, ScoreOf, Agrees, Bodies, Named, ResultEntry;
    LiveIsRecomputed(engine, m, entrants);
    SceneHeader(engine, m, entrants);
    var es := Scene(engine, m, entrants).value.entries;
    var scored := RunOf(engine, m, entrants).value.scored;
    ResultIsNamed(es, scored, m);
  }

  lemma ResultIsNamed(es: seq<Entry>, scored: Scored, m: Match)
    requires es != [] && es[0].kind == "header" && InnerKinds(es[1..])
    ensures Named(es + [ResultEntry(scored, m)])
  {
    hide InnerKinds;
    var result := ResultEntry(scored, m);
    forall e | e in es + [result] ensures e.kind != "" {
      if e in es {
        InnerOrHeader(es, e);
      }
    }
  }

  lemma InnerOrHeader(es: seq<Entry>, e: Entry)
    requires es != [] && e in es && es[0].kind == "header" && InnerKinds(es[1..])
    ensures e.kind == "header" || e.kind in INNER_KINDS
  {
    var i :| 0 <= i < |es| && es[i] == e;
    if i > 0 {
      assert es[1..][i - 1] == e;
    }
  }

  /** End to end: the file of a run, verified by the same engine, passes exactly when
      the run's move records name seats and its ending is replayable. */
  lemma FilePassesIffReplayable(engine: Engine, m: Match, entrants: Entrants, rs: seq<Record>)
    requires RunOf(engine, m, entrants).Ok? && Honest(engine, m)
    requires Chained(engine.sha, rs) && EntriesOf(rs) == RunOf(engine, m, entrants).value.entries
    ensures var run := RunOf(engine, m, entrants).value;
      Verified(engine, FileText(rs)).pass <==> SeatsTyped(run.entries) && Replayable(m.game, run.ending)
  {
    RunIsNamed(engine, m, entrants);
    hide Examined, RunOf, Honest, FileText, Chained, SeatsTyped, Replayable, Verified;
    WrittenFileIsExamined(engine, rs);
    PassIffReplayable(engine, m, entrants);
  }
}
