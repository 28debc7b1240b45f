/**
 How a transcript that passes can end: with the game's own winner, with a reproducible
 illegal move, unfinished, or void.
 */
module Endings {
  import opened Wrappers
  import opened JsonValues
  import opened Utf8
  import opened Canonical
  import opened Games
  import opened Scoring
  import opened Replay
  import opened Lawful
  import opened Verdict

  // -- scored and recorded ------------------------------------------------

  // The recorded result carries exactly these values.
  predicate Records(result: Body, scored: Scored) {
    && Get(result, "winner") == WinnerJson(scored.winner)
    && Get(result, "reason") == Str(scored.reason)
    && Get(result, "moves") == Int(scored.moves)
    && Get(result, "points") == scored.points
    && Get(result, "decisive") == Bool(scored.decisive)
  }

  lemma MatchesIsRecords(scored: Scored, result: Body)
    requires Checked(scored.points)
    ensures ResultMatches(scored, result) <==> Records(result, scored)
  {
    ExactEqualIsIdentity(WinnerJson(scored.winner), Get(result, "winner"));
    ExactEqualIsIdentity(Str(scored.reason), Get(result, "reason"));
    ExactEqualIsIdentity(Int(scored.moves), Get(result, "moves"));
    ExactEqualIsIdentity(scored.points, Get(result, "points"));
    ExactEqualIsIdentity(Bool(scored.decisive), Get(result, "decisive"));
  }

  lemma PointsAreChecked(zero: int, one: int)
    ensures Encodable(Points(zero, one))
  {
    var m := map["0" := Int(zero), "1" := Int(one)];
    assert forall k | k in m :: m[k].Int?;
  }

  lemma ScorePointsChecked(game: Game, str: Json -> string, projection: seq<Entry>)
    requires Score(game, str, projection).Ok?
    ensures Checked(Score(game, str, projection).value.points)
  {
    PointsAreChecked(0, 0);
    PointsAreChecked(1, 0);
    PointsAreChecked(0, 1);
  }

  function PointSum(points: Json): int {
    if points.Obj? && Get(points.fields, "0").Int? && Get(points.fields, "1").Int? then
      points.fields["0"].n + points.fields["1"].n
    else 0
  }

  /** A score awards one point exactly when its winner is seat 0 or seat 1, is decisive
      exactly when there is a winner, and so agrees on both exactly when the winner is
      a seat of the match or nobody. */
  lemma PointsFollowWinner(game: Game, str: Json -> string, projection: seq<Entry>)
    requires Score(game, str, projection).Ok?
    ensures var s := Score(game, str, projection).value;
      && PointSum(s.points) == (if s.winner == Some(0) || s.winner == Some(1) then 1 else 0)
      && (s.decisive <==> s.winner.Some?)
      && ((s.decisive <==> PointSum(s.points) == 1) <==> s.winner in {None, Some(0), Some(1)})
  {
    var s := Score(game, str, projection).value;
    AwardSum(s.winner);
    AwardSum(None);
  }

  lemma AwardSum(winner: Option<int>)
    ensures PointSum(Award(winner)) == if winner == Some(0) || winner == Some(1) then 1 else 0
    ensures PointSum(Obj(map[])) == 0
  {
  }

  // -- forfeits -----------------------------------------------------------

  lemma {:induction false} ForfeitPositions(entries: seq<Entry>)
    ensures |ForfeitIndexes(entries)| == |Bodies(entries, "forfeit")|
    ensures forall i | 0 <= i < |ForfeitIndexes(entries)| ::
      var at := ForfeitIndexes(entries)[i];
      entries[at].kind == "forfeit" && Bodies(entries, "forfeit")[i] == entries[at].body
  {
    if entries != [] {
      ForfeitPositions(entries[..|entries| - 1]);
    }
  }

  // A replayable forfeit stands alone, after the move it punishes and before the result.
  lemma ForfeitStandsLast(entries: seq<Entry>)
    requires ForfeitEvidence(entries).DeterministicIllegalMove?
    ensures var n := |entries|;
      && n >= 3 && entries[n - 2].kind == "forfeit" && Bodies(entries, "forfeit") == [entries[n - 2].body]
      && ForfeitShape(entries[n - 2].body) && Corroborates(entries[n - 3], entries[n - 2].body)
  {
    hide ForfeitShape, Corroborates, Bodies, ForfeitIndexes;
    ForfeitPositions(entries);
    assert |Bodies(entries, "forfeit")| == 1;
    assert Bodies(entries, "forfeit") == [Bodies(entries, "forfeit")[0]];
  }

  // The last move was rejected, and its player forfeits to the other seat w.
  ghost predicate LostByIllegalMove(game: Game, position: Json, entries: seq<Entry>, w: int) {
    var n := |entries|;
    && n >= 3 && entries[n - 3].kind == "move" && entries[n - 2].kind == "forfeit"
    && 0 <= w <= 1 && Get(entries[n - 3].body, "player") == Int(1 - w)
    && Get(entries[n - 3].body, "legal") == Bool(false)
    && Get(entries[n - 2].body, "player") == Int(1 - w)
    && position.Obj? && EqualsInt(1 - w, Get(position.fields, "to_move"))
    && game.terminal(position) == Ok(None)
    && var ruling := game.legal(position, Get(entries[n - 3].body, "move"));
    && ruling.Ok? && !ruling.value.0
  }

  lemma AcceptedMovesOfTail(entries: seq<Entry>, n: nat)
    requires n <= |entries| && forall i | n <= i < |entries| :: !IsAcceptedMove(entries[i])
    ensures AcceptedMoves(entries) == AcceptedMoves(entries[..n])
    decreases |entries|
  {
    if n == |entries| {
      assert entries[..n] == entries;
    } else {
      var front := entries[..|entries| - 1];
      assert front[..n] == entries[..n];
      AcceptedMovesOfTail(front, n);
      assert AcceptedMoves(front) + [] == AcceptedMoves(front);
    }
  }

  lemma IllegalMoveIsRuled(engine: Engine, game: Game, header: Body, entries: seq<Entry>, w: int)
    requires IsLawful(engine, game, header, entries) && StructureOk(entries)
    requires ForfeitEvidence(entries).DeterministicIllegalMove?
    requires OneMinus(Get(entries[|entries| - 2].body, "player")) == Ok(w)
    ensures PositionAfter(game, header, AcceptedMoves(entries)).Some?
    ensures LostByIllegalMove(game, PositionAfter(game, header, AcceptedMoves(entries)).value, entries, w)
  {
    hide PositionAfter, ForfeitEvidence, LostByIllegalMove, IsLawful, AcceptedMoves, Bodies;
    var n := |entries|;
    ForfeitStandsLast(entries);
    assert !IsAcceptedMove(entries[n - 3]) && !IsAcceptedMove(entries[n - 2]) && !IsAcceptedMove(entries[n - 1]);
    AcceptedMovesOfTail(entries, n - 3);
    RejectedMoveIsRuled(engine, game, header, entries, w);
  }

  lemma RejectedMoveIsRuled(engine: Engine, game: Game, header: Body, entries: seq<Entry>, w: int)
    requires |entries| >= 3 && IsLawful(engine, game, header, entries)
    requires entries[|entries| - 2].kind == "forfeit" && ForfeitShape(entries[|entries| - 2].body)
    requires Corroborates(entries[|entries| - 3], entries[|entries| - 2].body)
    requires OneMinus(Get(entries[|entries| - 2].body, "player")) == Ok(w)
    ensures var position := PositionAfter(game, header, AcceptedMoves(entries[..|entries| - 3]));
      position.Some? && LostByIllegalMove(game, position.value, entries, w)
  {
    hide PositionAfter, AcceptedMoves, Bodies;
    assert LawfulAt(engine, game, header, entries, |entries| - 3);
  }

  // -- winners ------------------------------------------------------------

  // The game declares winner w at the last recorded state, which is the last position
  // of the play unless two digests collide.
  ghost predicate WonAtTheEnd(sha: Sha, game: Game, position: Json, states: seq<Body>, w: int, reason: string) {
    && states != []
    && var last := Get(states[|states| - 1], "state");
    && game.terminal(last) == Ok(Some(End(Some(w), reason)))
    && Encodable(last) && Encodable(position)
    && (last == position || Collision(sha, Encode(Text(last)), Encode(Text(position))))
  }

  lemma LastStateIsPosition(engine: Engine, game: Game, header: Body, entries: seq<Entry>)
    requires IsPlay(engine.sha, game, header, AcceptedMoves(entries), Bodies(entries, "state"))
    requires |Bodies(entries, "state")| == |AcceptedMoves(entries)| + 1
    ensures var position := PositionAfter(game, header, AcceptedMoves(entries));
      var last := Get(Bodies(entries, "state")[|AcceptedMoves(entries)|], "state");
      && position.Some? && Encodable(last) && Encodable(position.value)
      && (last == position.value || Collision(engine.sha, Encode(Text(last)), Encode(Text(position.value))))
  {
    var moves, states := AcceptedMoves(entries), Bodies(entries, "state");
    assert PositionedAt(engine.sha, game, header, moves, states, |moves|);
    assert moves[..|moves|] == moves;
    BoundIsEqual(engine.sha, states[|moves|], PositionAfter(game, header, moves).value);
  }

  // What the score of the raw entries was read from.
  ghost predicate ScoredFrom(game: Game, entries: seq<Entry>, s: Scored) {
    var states, forfeits, moves := Bodies(entries, "state"), Bodies(entries, "forfeit"), |Bodies(entries, "move")|;
    && Checked(s.points)
    && if Bodies(entries, "engine_error") != [] then s == Void(moves)
       else if states == [] then s.winner.None?
       else if forfeits != [] then
         s.winner.Some? && OneMinus(Get(forfeits[0], "player")) == Ok(s.winner.value) && s.points == Award(s.winner)
         && s.decisive
       else TerminalScore(game, Get(states[|states| - 1], "state"), moves) == Ok(s)
  }

  lemma LastProjectedState(entries: seq<Entry>)
    requires Projected(entries).Ok? && Bodies(entries, "state") != []
    requires forall b | b in Bodies(Projected(entries).value, "state") :: "state" in b
    ensures var ps, states := Bodies(Projected(entries).value, "state"), Bodies(entries, "state");
      |ps| == |states| && "state" in ps[|ps| - 1] && ps[|ps| - 1]["state"] == Get(states[|states| - 1], "state")
  {
    ProjectedBodies(entries, "state");
    var ps, states := Bodies(Projected(entries).value, "state"), Bodies(entries, "state");
    assert ps[|ps| - 1] in ps && ps[|ps| - 1] == Stripped(states[|states| - 1]);
    StrippedKeeps(states[|states| - 1], "state");
  }

  lemma FirstProjectedForfeit(entries: seq<Entry>)
    requires Projected(entries).Ok? && Bodies(entries, "forfeit") != []
    ensures var ps, forfeits := Bodies(Projected(entries).value, "forfeit"), Bodies(entries, "forfeit");
      ps != [] && Get(ps[0], "player") == Get(forfeits[0], "player")
      && ("player" in ps[0] <==> "player" in forfeits[0])
  {
    ProjectedBodies(entries, "forfeit");
    StrippedKeeps(Bodies(entries, "forfeit")[0], "player");
  }

  lemma ScoreReads(game: Game, str: Json -> string, entries: seq<Entry>)
    requires ScoreOf(game, str, entries).Ok?
    ensures ScoredFrom(game, entries, ScoreOf(game, str, entries).value)
  {
    hide Projected, Bodies, TerminalScore, Award;
    var p := Projected(entries).value;
    ProjectedBodies(entries, "state");
    ProjectedBodies(entries, "forfeit");
    ProjectedBodies(entries, "move");
    ProjectedBodies(entries, "engine_error");
    ScorePointsChecked(game, str, p);
    if Bodies(entries, "forfeit") != [] {
      FirstProjectedForfeit(entries);
    }
    if Bodies(entries, "state") != [] {
      LastProjectedState(entries);
    }
  }

  // -- the theorems -------------------------------------------------------

  lemma NoErrorMeansLastState(engine: Engine, entries: seq<Entry>, header: Body, game: Game,
                              rs: ReplayState, result: Body, scored: Scored)
    requires PassedWith(engine, entries, header, game, rs, result, scored)
    requires Bodies(entries, "engine_error") == []
    ensures |Bodies(entries, "state")| == |AcceptedMoves(entries)| + 1
  {
    hide IsLawful, PositionAfter, IdentityOf, GameOf;
    CleanIffLawful(engine, game, header, entries);
    Collected(engine, game, header, entries);
  }

  lemma WinnerAtTheEnd(engine: Engine, entries: seq<Entry>, header: Body, game: Game, scored: Scored, w: int)
    requires IsPlay(engine.sha, game, header, AcceptedMoves(entries), Bodies(entries, "state"))
    requires |Bodies(entries, "state")| == |AcceptedMoves(entries)| + 1
    requires ScoredFrom(game, entries, scored) && Bodies(entries, "engine_error") == []
    requires Bodies(entries, "forfeit") == [] && scored.winner == Some(w)
    ensures var position := PositionAfter(game, header, AcceptedMoves(entries));
      && position.Some?
      && WonAtTheEnd(engine.sha, game, position.value, Bodies(entries, "state"), w, scored.reason)
    ensures scored.decisive && scored.points == Award(Some(w))
  {
    hide PositionAfter, AcceptedMoves, Bodies, Encode, Text, Encodable, Collision, IsPlay, Award;
    LastStateIsPosition(engine, game, header, entries);
  }

  lemma WinnerByForfeit(engine: Engine, entries: seq<Entry>, header: Body, game: Game, scored: Scored, w: int)
    requires IsLawful(engine, game, header, entries) && StructureOk(entries)
    requires ForfeitEvidenceOk(ForfeitEvidence(entries))
    requires ScoredFrom(game, entries, scored) && Bodies(entries, "engine_error") == []
    requires Bodies(entries, "forfeit") != [] && scored.winner == Some(w)
    ensures var position := PositionAfter(game, header, AcceptedMoves(entries));
      position.Some? && LostByIllegalMove(game, position.value, entries, w)
    ensures scored.decisive && scored.points == Award(Some(w))
  {
    hide IsLawful, PositionAfter, LostByIllegalMove;
    ForfeitPositions(entries);
    assert ForfeitEvidence(entries).DeterministicIllegalMove?;
    ForfeitStandsLast(entries);
    IllegalMoveIsRuled(engine, game, header, entries, w);
  }

  // A decided result is the game's, by its last position or by its last ruling.
  ghost predicate RuledWinner(engine: Engine, game: Game, header: Body, entries: seq<Entry>, result: Body, w: int) {
    var position := PositionAfter(game, header, AcceptedMoves(entries));
    && position.Some?
    && Get(result, "decisive") == Bool(true) && Get(result, "points") == Award(Some(w)) && Get(result, "reason").Str?
    && if Bodies(entries, "forfeit") == [] then
         WonAtTheEnd(engine.sha, game, position.value, Bodies(entries, "state"), w, Get(result, "reason").s)
       else
         LostByIllegalMove(game, position.value, entries, w)
  }

  lemma NoErrorWithWinner(engine: Engine, entries: seq<Entry>, header: Body, game: Game,
                          rs: ReplayState, result: Body, scored: Scored, w: int)
    requires PassedWith(engine, entries, header, game, rs, result, scored) && Get(result, "winner") == Int(w)
    ensures Records(result, scored) && scored.winner == Some(w) && ScoredFrom(game, entries, scored)
    ensures Bodies(entries, "engine_error") == [] && Bodies(entries, "abort") == []
  {
    hide Replayed, IdentityOf, GameOf, Projected, Bodies, TerminalScore, Award;
    ScoreReads(game, engine.str, entries);
    MatchesIsRecords(scored, result);
    Collected(engine, game, header, entries);
  }

  /** A PASS with a winner means the game says so: either the game declares that
      winner at the final position of the replayed play, or the game rejects the other
      seat's last move there, and the forfeit follows that move immediately. */
  lemma WinnerIsRuled(engine: Engine, entries: seq<Entry>, w: int)
    requires Examined(engine, entries).pass
    requires FirstOf(entries, "result").Some? && Get(FirstOf(entries, "result").value, "winner") == Int(w)
    ensures FirstOf(entries, "header").Some? && GameOf(engine, FirstOf(entries, "header").value).Some?
    ensures Bodies(entries, "engine_error") == [] && Bodies(entries, "abort") == []
    ensures var header := FirstOf(entries, "header").value;
      RuledWinner(engine, GameOf(engine, header).value, header, entries, FirstOf(entries, "result").value, w)
  {
    PassIsEveryCheck(engine, entries);
    PassIsPlay(engine, entries);
    var header, game, rs, result, scored :| PassedWith(engine, entries, header, game, rs, result, scored);
    NoErrorWithWinner(engine, entries, header, game, rs, result, scored, w);
    hide IsLawful, IsPlay, PositionAfter, LostByIllegalMove, Replayed, IdentityOf, GameOf, WonAtTheEnd;
    hide StructureOk, KindsOk, ScoredFrom, ForfeitEvidence, AdjudicationOk, ResultMatches, VoidOutcome, Examined;
    if Bodies(entries, "forfeit") == [] {
      NoErrorMeansLastState(engine, entries, header, game, rs, result, scored);
      WinnerAtTheEnd(engine, entries, header, game, scored, w);
    } else {
      WinnerByForfeit(engine, entries, header, game, scored, w);
    }
  }

  // No winner, and nothing went wrong: at the last recorded state the game declares a draw
  // or no end, and the result says which, for no points.
  ghost predicate NoWinnerAtTheEnd(engine: Engine, game: Game, header: Body, entries: seq<Entry>, result: Body) {
    var position, states := PositionAfter(game, header, AcceptedMoves(entries)), Bodies(entries, "state");
    && position.Some? && states != [] && Bodies(entries, "forfeit") == []
    && var last := Get(states[|states| - 1], "state");
    && Encodable(last) && Encodable(position.value)
    && (last == position.value || Collision(engine.sha, Encode(Text(last)), Encode(Text(position.value))))
    && Get(result, "decisive") == Bool(false) && Get(result, "points") == Points(0, 0) && Get(result, "reason").Str?
    && (|| game.terminal(last) == Ok(Some(End(None, Get(result, "reason").s)))
        || (game.terminal(last) == Ok(None) && Get(result, "reason") == Str("unfinished")))
  }

  lemma NoErrorNoWinner(engine: Engine, entries: seq<Entry>, header: Body, game: Game,
                        rs: ReplayState, result: Body, scored: Scored)
    requires PassedWith(engine, entries, header, game, rs, result, scored) && !Get(result, "winner").Int?
    ensures Records(result, scored) && scored.winner == None && ScoredFrom(game, entries, scored)
  {
    hide Replayed, IdentityOf, GameOf, Projected, Bodies, TerminalScore, Award;
    ScoreReads(game, engine.str, entries);
    MatchesIsRecords(scored, result);
  }

  lemma NobodyAtTheEnd(engine: Engine, entries: seq<Entry>, header: Body, game: Game, result: Body, scored: Scored)
    requires IsPlay(engine.sha, game, header, AcceptedMoves(entries), Bodies(entries, "state"))
    requires |Bodies(entries, "state")| == |AcceptedMoves(entries)| + 1
    requires ScoredFrom(game, entries, scored) && Bodies(entries, "engine_error") == []
    requires Records(result, scored) && scored.winner == None
    ensures NoWinnerAtTheEnd(engine, game, header, entries, result)
  {
    hide PositionAfter, AcceptedMoves, Bodies, Encode, Text, Encodable, Collision, IsPlay;
    LastStateIsPosition(engine, game, header, entries);
  }

  /** A PASS without a winner and without an engine error means the game says so too: at the
      last recorded state it declares a draw, or no end. */
  lemma NoWinnerIsRuled(engine: Engine, entries: seq<Entry>)
    requires Examined(engine, entries).pass && Bodies(entries, "engine_error") == []
    requires FirstOf(entries, "result").Some? && !Get(FirstOf(entries, "result").value, "winner").Int?
    ensures FirstOf(entries, "header").Some? && GameOf(engine, FirstOf(entries, "header").value).Some?
    ensures var header := FirstOf(entries, "header").value;
      NoWinnerAtTheEnd(engine, GameOf(engine, header).value, header, entries, FirstOf(entries, "result").value)
  {
    PassIsEveryCheck(engine, entries);
    PassIsPlay(engine, entries);
    var header, game, rs, result, scored :| PassedWith(engine, entries, header, game, rs, result, scored);
    NoErrorNoWinner(engine, entries, header, game, rs, result, scored);
    NoErrorMeansLastState(engine, entries, header, game, rs, result, scored);
    hide PassedWith, IsPlay, ScoredFrom, Records, NoWinnerAtTheEnd, Examined, GameOf, FirstOf, Bodies, AcceptedMoves;
    NobodyAtTheEnd(engine, entries, header, game, result, scored);
  }

  /** Endings exclude one another: no PASS holds an abort, none holds both a forfeit and
      an engine error, and one with an engine error is an exact zero-point void. */
  lemma EndingsAreExclusive(engine: Engine, entries: seq<Entry>)
    requires Examined(engine, entries).pass
    ensures Bodies(entries, "abort") == []
    ensures |Bodies(entries, "forfeit")| + |Bodies(entries, "engine_error")| <= 1
    ensures FirstOf(entries, "result").Some?
    ensures Bodies(entries, "engine_error") != [] ==>
            Records(FirstOf(entries, "result").value, Void(|Bodies(entries, "move")|))
  {
    PassIsEveryCheck(engine, entries);
    var header, game, rs, result, scored :| PassedWith(engine, entries, header, game, rs, result, scored);
    hide Replayed, IdentityOf, GameOf, Projected, Bodies, TerminalScore, Award, Examined, StructureOk;
    ScoreReads(game, engine.str, entries);
    MatchesIsRecords(scored, result);
    Collected(engine, game, header, entries);
    ForfeitPositions(entries);
    // a forfeit needs a recorded winner, an engine error records none
    assert Bodies(entries, "forfeit") != [] ==> Get(result, "winner").Int?;
    assert Bodies(entries, "engine_error") != [] ==> Get(result, "winner") == Null;
  }
}
