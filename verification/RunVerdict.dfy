/** The classification theorem: which runs of the referee the verifier passes. */
module RunVerdict {
  import opened Wrappers
  import opened JsonValues
  import opened Canonical
  import opened Games
  import opened Scoring
  import opened Referee
  import opened Replay
  import opened Lawful
  import opened Verdict
  import opened Endings
  import opened Adjudication
  import opened LiveScore
  import opened RunLawful
  import opened Completeness

  /** The verifying engine is the refereeing one: it knows the game, accepts the
      isolation profile and finds no fault with the identities in the header. */
  ghost predicate Honest(engine: Engine, m: Match) {
    && Hex64(engine.digest)
    && m.game.name in engine.games && engine.games[m.game.name] == m.game
    && (m.isolation == Null || engine.isolationValid(m.isolation))
    && IdentityOf(engine, HeaderBody(engine, m)) != IdentityInvalid
  }

  lemma HeaderFields(engine: Engine, m: Match)
    ensures var h := HeaderBody(engine, m);
      && "seed" in h && h["seed"] == Int(m.seed)
      && Get(h, "isolation") == m.isolation && Get(h, "entrants") == List(SeatRows(m.seats))
      && Get(h, "game") == GameBlock(m.game)
      && Get(h, "engine") == EngineBlock(engine, m.engineFiles)
      && Get(h, "attestation") == AttestationBlock(m.attestationReason)
  {
    hide GameBlock, EngineBlock, AttestationBlock, SeatRows;
  }

  lemma HonestHeader(engine: Engine, m: Match)
    requires Honest(engine, m)
    ensures var h := HeaderBody(engine, m);
      && GameOf(engine, h) == Some(m.game)
      && IsolationOk(engine, h) && AttestationOk(h) && DigestMatches(engine, h)
      && IdentityOf(engine, h) != IdentityInvalid
  {
    HeaderFields(engine, m);
    hide HeaderBody, IdentityOf, SeatRows;
  }

  lemma ResultRecords(scored: Scored, m: Match)
    ensures Records(ResultEntry(scored, m).body, scored)
  {
  }

  // The entries of a run with its result, and everything known of them.
  ghost predicate Finished(engine: Engine, m: Match, header: Body, state: Json, p: Played, scored: Scored) {
    && WellPlayed(engine, m, header, state, p)
    && Summarizes(m.game, state, p.entries, p.live, p.ending) && HasState(p.entries)
    && ScoreOf(m.game, engine.str, p.entries + [ResultEntry(scored, m)]) == Ok(scored)
    && Agrees(scored, p.live, p.ending)
    && GameOf(engine, header) == Some(m.game)
    && IsolationOk(engine, header) && AttestationOk(header) && DigestMatches(engine, header)
    && IdentityOf(engine, header) != IdentityInvalid
  }

  lemma FinishedIsFramed(engine: Engine, m: Match, header: Body, state: Json, p: Played, scored: Scored)
    requires Finished(engine, m, header, state, p, scored)
    ensures Framed(p.entries + [ResultEntry(scored, m)], header, ResultEntry(scored, m).body)
  {
    hide IsLawful, Tail, SeatsTyped, RulingReplays, AcceptedMoves, Bodies, ScoreOf, Summarizes, Agrees, IdentityOf;
    var entries := p.entries + [ResultEntry(scored, m)];
    assert entries[1..|entries| - 1] == p.entries[1..];
  }

  // Lawfulness of the finished transcript.
  lemma FinishedLawful(engine: Engine, m: Match, header: Body, state: Json, p: Played, scored: Scored)
    requires Finished(engine, m, header, state, p, scored)
    ensures var entries := p.entries + [ResultEntry(scored, m)];
      && (IsLawful(engine, m.game, header, entries) <==> SeatsTyped(p.entries) && RulingReplays(m.game, p.ending))
      && (SeatsTyped(entries) <==> SeatsTyped(p.entries))
  {
    hide IsLawful, Tail, SeatsTyped, RulingReplays, ScoreOf, Summarizes, Agrees, IdentityOf, Paced, AcceptedMoves,
         Bodies;
    OtherIsLawful(engine, m.game, header, p.entries, ResultEntry(scored, m));
    UnscoredByResult(p.entries, ResultEntry(scored, m));
  }

  // The phase the replay ends in is one the verifier tolerates.
  lemma FinishedStatesHold(engine: Engine, m: Match, header: Body, state: Json, p: Played, scored: Scored,
                           rs: ReplayState)
    requires Finished(engine, m, header, state, p, scored)
    requires Tracks(m.game, header, p.entries + [ResultEntry(scored, m)], rs)
    requires rs.engineErrors == Bodies(p.entries + [ResultEntry(scored, m)], "engine_error")
    ensures rs.setupOk && rs.movesOk && StatesHold(rs, p.entries + [ResultEntry(scored, m)])
  {
    var es, result := p.entries, ResultEntry(scored, m);
    UnscoredByResult(es, result);
    BodiesMembership(es, "engine_error");
    assert es[|es| - 1] in es && es[|es| - 1] == Entry(es[|es| - 1].kind, es[|es| - 1].body);
    assert (es + [result])[|es| - 1] == es[|es| - 1];
    hide IsLawful, Tail, SeatsTyped, RulingReplays, ScoreOf, Summarizes, Agrees, IdentityOf, AcceptedMoves, Bodies;
    hide PositionAfter, GameOf, AttestationOk, DigestMatches;
  }

  // The verdict's checks on the result record.
  lemma FinishedResult(engine: Engine, m: Match, header: Body, state: Json, p: Played, scored: Scored, rs: ReplayState)
    requires Finished(engine, m, header, state, p, scored)
    requires rs.forfeits == Bodies(p.entries, "forfeit") && rs.engineErrors == Bodies(p.entries, "engine_error")
    ensures var result := ResultEntry(scored, m).body;
      && ResultMatches(scored, result)
      && AdjudicationOk(rs, true, result)
      && (rs.engineErrors != [] ==> VoidOutcome(scored, result))
  {
    var es, result := p.entries, ResultEntry(scored, m);
    ResultRecords(scored, m);
    ScoreReads(m.game, engine.str, es + [result]);
    UnscoredByResult(es, result);
    MatchesIsRecords(scored, result.body);
    hide IsLawful, Tail, SeatsTyped, RulingReplays, ScoreOf, IdentityOf, AcceptedMoves, Bodies;
    hide PositionAfter, GameOf, AttestationOk, DigestMatches, ResultEntry, WellPlayed, TerminalScore;
    ExactEqualIsIdentity(Points(0, 0), Points(0, 0)) by { PointsAreChecked(0, 0); }
    WinnerAdjudicates(m.game, state, es, p.live, p.ending, scored, rs, result.body);
  }

  lemma WinnerAdjudicates(game: Game, start: Json, es: seq<Entry>, live: Live, ending: Ending, scored: Scored,
                          rs: ReplayState, result: Body)
    requires Summarizes(game, start, es, live, ending) && Agrees(scored, live, ending)
    requires rs.forfeits == Bodies(es, "forfeit") && Records(result, scored)
    ensures AdjudicationOk(rs, true, result)
  {
    hide Bodies, AllStates, LastState, ErrorRecorded;
  }

  lemma FinishedPasses(engine: Engine, m: Match, header: Body, state: Json, p: Played, scored: Scored)
    requires Finished(engine, m, header, state, p, scored)
    requires SeatsTyped(p.entries) && Replayable(m.game, p.ending)
    ensures Examined(engine, p.entries + [ResultEntry(scored, m)]).pass
  {
    var entries := p.entries + [ResultEntry(scored, m)];
    ReplayableRules(m.game, p.ending);
    FinishedLawful(engine, m, header, state, p, scored);
    CleanIffLawful(engine, m.game, header, entries);
    Collected(engine, m.game, header, entries);
    var rs := Replayed(engine, m.game, header, entries).value;
    FinishedIsFramed(engine, m, header, state, p, scored);
    FramedIsStructured(entries, header, ResultEntry(scored, m).body);
    FinishedStatesHold(engine, m, header, state, p, scored, rs);
    UnscoredByResult(p.entries, ResultEntry(scored, m));
    FinishedResult(engine, m, header, state, p, scored, rs);
    EndingDecidesChecks(m.game, state, p.entries, ResultEntry(scored, m), p.live, p.ending);
    PassIsEveryCheck(engine, entries);
    hide IsLawful, Tail, SeatsTyped, RulingReplays, ScoreOf, IdentityOf, AcceptedMoves, Bodies, Examined, Replayed;
    hide GameOf, AttestationOk, DigestMatches, IsolationOk, StructureOk, KindsOk, StatesHold, AdjudicationOk;
    hide ForfeitEvidence, ErrorsShape, VoidOutcome, ResultMatches, Summarizes, WellPlayed, Tracks, FirstOf, ResultEntry;
    assert PassedWith(engine, entries, header, m.game, rs, ResultEntry(scored, m).body, scored);
  }

  lemma ReplayableRules(game: Game, ending: Ending)
    requires Replayable(game, ending)
    ensures RulingReplays(game, ending)
  {
  }

  lemma PassedIsReplayable(engine: Engine, m: Match, header: Body, state: Json, p: Played, scored: Scored)
    requires Finished(engine, m, header, state, p, scored)
    requires Examined(engine, p.entries + [ResultEntry(scored, m)]).pass
    ensures SeatsTyped(p.entries) && Replayable(m.game, p.ending)
  {
    var entries := p.entries + [ResultEntry(scored, m)];
    FinishedIsFramed(engine, m, header, state, p, scored);
    FramedIsStructured(entries, header, ResultEntry(scored, m).body);
    PassIsEveryCheck(engine, entries);
    var h, g, rs, result, sc :| PassedWith(engine, entries, h, g, rs, result, sc);
    assert h == header && g == m.game;
    hide IsLawful, Tail, SeatsTyped, RulingReplays, ScoreOf, IdentityOf, AcceptedMoves, Bodies, Examined, Replayed;
    hide GameOf, AttestationOk, DigestMatches, IsolationOk, StructureOk, KindsOk, AdjudicationOk;
    hide ForfeitEvidence, ErrorsShape, VoidOutcome, ResultMatches, Summarizes, WellPlayed, Tracks, FirstOf, ResultEntry;
    CleanIffLawful(engine, m.game, header, entries);
    FinishedLawful(engine, m, header, state, p, scored);
    Collected(engine, m.game, header, entries);
    FinishedEnding(engine, m, header, state, p, scored);
    assert EndingChecks(entries);
  }

  lemma FinishedEnding(engine: Engine, m: Match, header: Body, state: Json, p: Played, scored: Scored)
    requires Finished(engine, m, header, state, p, scored)
    requires SeatsTyped(p.entries) && RulingReplays(m.game, p.ending)
    ensures EndingChecks(p.entries + [ResultEntry(scored, m)]) <==> Replayable(m.game, p.ending)
  {
    hide SeatsTyped, RulingReplays, ScoreOf, Summarizes, Tail, EndingChecks, Replayable;
    EndingDecidesChecks(m.game, state, p.entries, ResultEntry(scored, m), p.live, p.ending);
  }

  lemma RunIsFinished(engine: Engine, m: Match, entrants: Entrants)
    requires RunOf(engine, m, entrants).Ok? && Honest(engine, m)
    ensures Scene(engine, m, entrants).Ok? && m.game.setup(Int(m.seed)).Ok?
    ensures
      var run := RunOf(engine, m, entrants).value;
      var p := Scene(engine, m, entrants).value;
      && run.entries == p.entries + [ResultEntry(run.scored, m)] && run.ending == p.ending && run.live == p.live
      && Finished(engine, m, HeaderBody(engine, m), m.game.setup(Int(m.seed)).value, p, run.scored)
  {
    LiveIsRecomputed(engine, m, entrants);
    SceneSummary(engine, m, entrants);
    HonestHeader(engine, m);
    HeaderFields(engine, m);
    var state := m.game.setup(Int(m.seed)).value;
    OpenedIsWellPlayed(engine, m, entrants, HeaderBody(engine, m), state, Digest(engine.sha, state).value,
                       m.game.moveBound(state).value);
    hide HeaderBody, WellPlayed, Summarizes, HasState, ScoreOf, Agrees, IdentityOf, GameOf, Opened, Digest,
         CanonicalBytes;
    hide AttestationOk, DigestMatches, IsolationOk;
  }

  /** Replay completeness, exactly. A run of the same engine passes replay if and only
      if every move record names a seat and the run ended at a terminal position, on an
      illegal move whose ruling and reason reproduce from the record, or on an engine
      fault not raised while applying an accepted move. A runtime forfeit or the move
      bound never passes. */
  lemma PassIffReplayable(engine: Engine, m: Match, entrants: Entrants)
    requires RunOf(engine, m, entrants).Ok? && Honest(engine, m)
    ensures var run := RunOf(engine, m, entrants).value;
      Examined(engine, run.entries).pass <==> SeatsTyped(run.entries) && Replayable(m.game, run.ending)
  {
    RunIsFinished(engine, m, entrants);
    hide Finished, Replayable, SeatsTyped, Examined, HeaderBody, Scene, RunOf;
    var run := RunOf(engine, m, entrants).value;
    var p := Scene(engine, m, entrants).value;
    var header, state := HeaderBody(engine, m), m.game.setup(Int(m.seed)).value;
    FinishedLawful(engine, m, header, state, p, run.scored);
    if Examined(engine, run.entries).pass {
      PassedIsReplayable(engine, m, header, state, p, run.scored);
    }
    if SeatsTyped(p.entries) && Replayable(m.game, p.ending) {
      FinishedPasses(engine, m, header, state, p, run.scored);
    }
  }
}
