/**
 What a game module promises about the positions it can reach, and what that buys:
 every run the rules decide passes replay.
 */
module GameContract {
  import opened Wrappers
  import opened JsonValues
  import opened Canonical
  import opened Games
  import opened Scoring
  import opened Referee
  import opened Replay
  import opened Lawful
  import opened Adjudication
  import opened LiveScore
  import opened RunLawful
  import opened Completeness
  import opened RunVerdict

  // Every move of the play was accepted, at a position that was not over.
  ghost predicate PlaysOn(game: Game, header: Body, moves: seq<Body>) {
    moves == [] ||
    var front, last := moves[..|moves| - 1], moves[|moves| - 1];
    var before := PositionAfter(game, header, front);
    && PlaysOn(game, header, front) && before.Some? && AcceptedThere(game, before.value, Get(last, "move"))
  }

  predicate AcceptedThere(game: Game, state: Json, move: Json) {
    game.terminal(state) == Ok(None) && var ruling := game.legal(state, move); ruling.Ok? && ruling.value.0
  }

  ghost predicate Reachable(game: Game, header: Body, state: Json) {
    exists moves :: PlaysOn(game, header, moves) && PositionAfter(game, header, moves) == Some(state)
  }

  // A position that is not over says whose turn it is, by seat number.
  predicate NamesSeat(game: Game, state: Json) {
    game.terminal(state) == Ok(None) && state.Obj? ==> IsSeat(Get(state.fields, "to_move"))
  }

  // Rulings at a position: null is no move, and a rejection gives its reason.
  ghost predicate RejectsWithReason(game: Game, state: Json) {
    && (var ruling := game.legal(state, Null); ruling.Ok? && !ruling.value.0)
    && forall move :: game.legal(state, move).Ok? && !game.legal(state, move).value.0 ==>
      game.legal(state, move).value.1 != ""
  }

  ghost predicate Contract(game: Game, header: Body) {
    forall state | Reachable(game, header, state) :: NamesSeat(game, state) && RejectsWithReason(game, state)
  }

  lemma NextReachable(game: Game, header: Body, state: Json, move: Json, next: Json)
    requires Reachable(game, header, state) && AcceptedThere(game, state, move) && game.apply(state, move) == Ok(next)
    ensures Reachable(game, header, next)
  {
    var moves :| PlaysOn(game, header, moves) && PositionAfter(game, header, moves) == Some(state);
    var body: Body := map["move" := move];
    assert (moves + [body])[..|moves|] == moves;
    assert PositionAfter(game, header, moves + [body]) == Some(next);
    assert PlaysOn(game, header, moves + [body]);
  }

  // How an illegal move ends a run, seen from a reachable position.
  ghost predicate RejectedThere(game: Game, header: Body, ending: Ending) {
    ending.IllegalMove? ==>
      && Reachable(game, header, ending.state)
      && exists move :: RejectedMove(game, ending.state, move, ending.recorded, ending.why)
  }

  ghost predicate RejectedMove(game: Game, state: Json, move: Json, recorded: Json, why: string) {
    var ruling := game.legal(state, move);
    && ruling.Ok? && !ruling.value.0 && ruling.value.1 == why
    && (recorded == move || (recorded == Null && !Encodable(move)))
  }

  lemma HeardRejection(game: Game, engine: Engine, state: Json, seat: Json, reply: Reply)
    requires var r := HearMove(game, engine, state, seat, reply); r.Ok? && r.value.Rejected?
    ensures var t := HearMove(game, engine, state, seat, reply).value;
      exists move :: RejectedMove(game, state, move, t.recorded, t.why)
  {
    hide RuleOn;
    RulingFacts(game, engine, state, seat, reply.value);
    var t := HearMove(game, engine, state, seat, reply).value;
    assert RejectedMove(game, state, Get(reply.value.fields, "move"), t.recorded, t.why);
  }

  lemma TurnRejection(game: Game, engine: Engine, entrants: Entrants, state: Json, turn: nat, bound: int)
    requires var r := TakeTurn(game, engine, entrants, state, turn, bound); r.Ok? && r.value.Rejected?
    ensures var t := TakeTurn(game, engine, entrants, state, turn, bound).value;
      exists move :: RejectedMove(game, state, move, t.recorded, t.why)
  {
    hide HearMove, SeatIndex, RejectedMove;
    HeardRejection(game, engine, state, ToMove(state).value, entrants.move(turn));
  }

  lemma SeatIsNamed(game: Game, header: Body, engine: Engine, entrants: Entrants, state: Json, turn: nat, bound: int)
    requires Contract(game, header) && Reachable(game, header, state)
    requires var r := TakeTurn(game, engine, entrants, state, turn, bound);
      r.Ok? && (r.value.Accepted? || r.value.Rejected?)
    ensures IsSeat(TakeTurn(game, engine, entrants, state, turn, bound).value.seat)
  {
    TurnFacts(game, engine, entrants, state, turn, bound);
    hide TakeTurn, SeatIndex;
    assert NamesSeat(game, state);
  }

  /** Under the contract, play from a reachable position names seats throughout, and an
      illegal move that ends it was rejected at a reachable position. */
  lemma {:induction false} PlayKeepsContract(game: Game, header: Body, engine: Engine, entrants: Entrants,
                                             state: Json, turn: nat, bound: int)
    requires Contract(game, header) && Reachable(game, header, state)
    ensures var p := PlayFrom(game, engine, entrants, state, turn, bound);
      SeatsTyped(p.entries) && RejectedThere(game, header, p.ending)
    decreases if turn < bound then bound - turn else 0
  {
    TurnFacts(game, engine, entrants, state, turn, bound);
    hide TakeTurn, Reachable, Contract, Digest, ToMove, SeatIndex, SeatWinner, RejectedMove, SeatsTyped;
    var r := TakeTurn(game, engine, entrants, state, turn, bound);
    var p := PlayFrom(game, engine, entrants, state, turn, bound);
    if r.Ok? && r.value.Accepted? {
      SeatIsNamed(game, header, engine, entrants, state, turn, bound);
      AcceptedKeepsContract(game, header, engine, entrants, state, turn, bound);
    } else if r.Ok? && r.value.Rejected? {
      SeatIsNamed(game, header, engine, entrants, state, turn, bound);
      TurnRejection(game, engine, entrants, state, turn, bound);
      var e := RejectedEntry(r.value.seat, turn, r.value.recorded, r.value.why, r.value.message);
      assert Get(e.body, "player") == r.value.seat;
      TypedOne(e);
      TypedPair(e, MoveForfeit(r.value.seat, "illegal_move", Some(r.value.why), turn));
    } else if p.entries == [] {
      EmptyBodiesTyped();
    } else {
      TypedOne(p.entries[0]);
      assert p.entries == [p.entries[0]];
    }
  }

  lemma {:induction false} AcceptedKeepsContract(game: Game, header: Body, engine: Engine, entrants: Entrants,
                                                 state: Json, turn: nat, bound: int)
    requires Contract(game, header) && Reachable(game, header, state) && turn < bound
    requires var r := TakeTurn(game, engine, entrants, state, turn, bound);
      r.Ok? && r.value.Accepted? && IsSeat(r.value.seat)
    ensures var p := PlayFrom(game, engine, entrants, state, turn, bound);
      SeatsTyped(p.entries) && RejectedThere(game, header, p.ending)
    decreases bound - turn, 0
  {
    AcceptedFacts(game, engine, entrants, state, turn, bound);
    hide TakeTurn, Reachable, Contract, Digest, SeatsTyped;
    var t := TakeTurn(game, engine, entrants, state, turn, bound).value;
    var a := AcceptedEntry(t.seat, turn, t.move, t.message);
    assert Get(a.body, "player") == t.seat;
    TypedOne(a);
    var next := game.apply(state, t.move);
    if next.Ok? && Digest(engine.sha, next.value).Ok? {
      NextReachable(game, header, state, t.move, next.value);
      PlayKeepsContract(game, header, engine, entrants, next.value, turn + 1, bound);
      PlayUnfolds(game, engine, entrants, state, turn, bound);
      hide PlayFrom;
      var s := StateEntry(next.value, Digest(engine.sha, next.value).value, turn + 1);
      TypedPair(a, s);
      TypedAppend([a, s], PlayFrom(game, engine, entrants, next.value, turn + 1, bound).entries);
    } else {
      var p := PlayFrom(game, engine, entrants, state, turn, bound);
      TypedPair(a, p.entries[1]);
      assert p.entries == [a, p.entries[1]];
    }
  }

  lemma OpenedKeepsContract(engine: Engine, m: Match, entrants: Entrants, header: Body, opening: Entry, state: Json,
                            bound: int)
    requires Contract(m.game, header) && Reachable(m.game, header, state) && opening.kind == "state"
    ensures var p := Opened(engine, m, entrants, opening, state, bound);
      SeatsTyped(p.entries) && RejectedThere(m.game, header, p.ending)
  {
    ShakeIsOffBoard(engine, entrants, 0);
    hide Reachable, Contract, SeatsTyped, PlayFrom, ShakeFrom;
    var shake := ShakeFrom(engine, entrants, 0);
    OffBoardPlaysNothing(engine, m.game, header, shake.entries);
    TypedOne(opening);
    TypedAppend(shake.entries, [opening]);
    match (shake.fault, shake.outcome)
    case (Some((seat, fault)), _) =>
      var error := HandshakeError(fault, seat);
      TypedOne(error);
      TypedPair(error, opening);
      TypedAppend(shake.entries, [error, opening]);
    case (None, Some(_)) =>
    case (None, None) =>
      PlayKeepsContract(m.game, header, engine, entrants, state, 0, bound);
      TypedAppend(shake.entries + [opening], PlayFrom(m.game, engine, entrants, state, 0, bound).entries);
  }

  lemma SceneKeepsContract(engine: Engine, m: Match, entrants: Entrants)
    requires Scene(engine, m, entrants).Ok? && Contract(m.game, HeaderBody(engine, m))
    ensures var p := Scene(engine, m, entrants).value;
      SeatsTyped(p.entries) && RejectedThere(m.game, HeaderBody(engine, m), p.ending)
  {
    HeaderFields(engine, m);
    hide HeaderBody, Contract, SeatsTyped, Opened, Digest, CanonicalBytes;
    var header := HeaderBody(engine, m);
    var state := m.game.setup(Int(m.seed)).value;
    assert PlaysOn(m.game, header, []) && PositionAfter(m.game, header, []) == Some(state);
    var opening := StateEntry(state, Digest(engine.sha, state).value, 0);
    OpenedKeepsContract(engine, m, entrants, header, opening, state, m.game.moveBound(state).value);
    TypedOne(Entry("header", header));
    TypedAppend([Entry("header", header)],
      Opened(engine, m, entrants, opening, state, m.game.moveBound(state).value).entries);
  }

  lemma RejectionReplays(game: Game, header: Body, ending: Ending)
    requires Contract(game, header) && RejectedThere(game, header, ending) && ending.IllegalMove?
    ensures Replayable(game, ending)
  {
    hide Reachable;
    var move :| RejectedMove(game, ending.state, move, ending.recorded, ending.why);
    assert RejectsWithReason(game, ending.state);
  }

  /** For a game that keeps the contract and any replies whatever: a run the rules
      decide, at a terminal position or on an illegal move, passes replay; a runtime
      forfeit and an exhausted move bound fail it; and a fault passes exactly when it can
      be replayed. */
  lemma RulesDecidedRunsPass(engine: Engine, m: Match, entrants: Entrants)
    requires RunOf(engine, m, entrants).Ok? && Honest(engine, m) && Contract(m.game, HeaderBody(engine, m))
    ensures var run := RunOf(engine, m, entrants).value;
      && (run.ending.Terminal? || run.ending.IllegalMove? ==> Examined(engine, run.entries).pass)
      && (run.ending.RuntimeForfeit? || run.ending.MoveBound? ==> !Examined(engine, run.entries).pass)
      && (run.ending.EngineFault? ==> (Examined(engine, run.entries).pass <==> Replayable(m.game, run.ending)))
  {
    PassIffReplayable(engine, m, entrants);
    LiveIsRecomputed(engine, m, entrants);
    SceneKeepsContract(engine, m, entrants);
    hide HeaderBody, Contract, SeatsTyped, Examined, Honest, ScoreOf, Agrees, Scene, RejectedThere;
    var run := RunOf(engine, m, entrants).value;
    UnscoredByResult(Scene(engine, m, entrants).value.entries, ResultEntry(run.scored, m));
    if run.ending.IllegalMove? {
      RejectionReplays(m.game, HeaderBody(engine, m), run.ending);
    }
  }
}
