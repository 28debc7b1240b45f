/**
 The transcript a run leaves is lawful, exactly when every move record names a seat,
 the ruling on an illegal move reproduces on the move as recorded, and no exception
 came from applying an accepted move.
 */
module RunLawful {
  import opened Wrappers
  import opened JsonValues
  import opened Canonical
  import opened Games
  import opened Referee
  import opened Replay
  import opened Lawful
  import opened Adjudication

  // Every move record carries a seat number: the state's to_move was 0 or 1, not a
  // boolean or a negative index that names a seat to Python.
  predicate SeatsTyped(entries: seq<Entry>) {
    forall b | b in Bodies(entries, "move") :: IsSeat(Get(b, "player"))
  }

  // The ruling that ended the play can be reproduced from the records.
  predicate RulingReplays(game: Game, ending: Ending) {
    match ending
    case IllegalMove(_, state, recorded, _) =>
      var ruling := game.legal(state, recorded);
      ruling.Ok? && !ruling.value.0
    case EngineFault(_, inApply) => !inApply
    case _ => true
  }

  // The records so far stand at a position after n accepted moves, its state recorded.
  ghost predicate Stands(game: Game, header: Body, before: seq<Entry>, state: Json, n: nat) {
    && PositionAfter(game, header, AcceptedMoves(before)) == Some(state)
    && |AcceptedMoves(before)| == n && |Bodies(before, "state")| == n + 1
  }

  lemma {:induction false} LawfulPrefix(engine: Engine, game: Game, header: Body, a: seq<Entry>, b: seq<Entry>)
    requires IsLawful(engine, game, header, a + b)
    ensures IsLawful(engine, game, header, a)
    decreases |b|
  {
    hide IsLawful;
    if b == [] {
      assert a + b == a;
    } else {
      var front, last := b[..|b| - 1], b[|b| - 1];
      assert a + b == (a + front) + [last];
      LawfulPush(engine, game, header, a + front, last);
      LawfulPrefix(engine, game, header, a, front);
    }
  }

  // -- what a turn knows --------------------------------------------------

  lemma RulingFacts(game: Game, engine: Engine, state: Json, seat: Json, value: Json)
    requires value.Obj?
    ensures var r := RuleOn(game, engine, state, seat, value);
      && (r.Ok? && r.value.Accepted? ==>
            var ruling := game.legal(state, r.value.move); ruling.Ok? && ruling.value.0)
      && (r.Ok? && r.value.Rejected? ==>
            var move := Get(value.fields, "move");
            var ruling := game.legal(state, move);
            && ruling.Ok? && !ruling.value.0 && ruling.value.1 == r.value.why
            && (r.value.recorded == move || (r.value.recorded == Null && !Encodable(move))))
  {
    hide Safe;
  }

  lemma HeardFacts(game: Game, engine: Engine, state: Json, seat: Json, reply: Reply)
    ensures var r := HearMove(game, engine, state, seat, reply);
      r.Ok? && r.value.Accepted? ==> var ruling := game.legal(state, r.value.move); ruling.Ok? && ruling.value.0
  {
    hide RuleOn;
    if reply.Message? && reply.value.Obj? {
      RulingFacts(game, engine, state, seat, reply.value);
    }
  }

  lemma AcceptedFacts(game: Game, engine: Engine, entrants: Entrants, state: Json, turn: nat, bound: int)
    requires var r := TakeTurn(game, engine, entrants, state, turn, bound); r.Ok? && r.value.Accepted?
    ensures var t := TakeTurn(game, engine, entrants, state, turn, bound).value;
      && state.Obj? && Get(state.fields, "to_move") == t.seat && game.terminal(state) == Ok(None)
      && var ruling := game.legal(state, t.move); ruling.Ok? && ruling.value.0
  {
    TurnFacts(game, engine, entrants, state, turn, bound);
    hide HearMove, SeatIndex;
    HeardFacts(game, engine, state, ToMove(state).value, entrants.move(turn));
  }

  // -- one turn -----------------------------------------------------------

  lemma AcceptedIsLawful(engine: Engine, game: Game, header: Body, before: seq<Entry>, state: Json, turn: nat,
                         seat: Json, move: Json, message: Json)
    requires Stands(game, header, before, state, turn)
    requires state.Obj? && Get(state.fields, "to_move") == seat && game.terminal(state) == Ok(None)
    requires var ruling := game.legal(state, move); ruling.Ok? && ruling.value.0
    ensures LawfulNext(engine, game, header, before, AcceptedEntry(seat, turn, move, message)) <==>
            IsSeat(seat) && game.apply(state, move).Ok?
  {
    hide PositionAfter, AcceptedMoves, Bodies;
    var body := AcceptedEntry(seat, turn, move, message).body;
    assert Get(body, "player") == seat && Get(body, "turn") == Int(turn) && Get(body, "move") == move
        && Get(body, "legal") == Bool(true);
  }

  lemma RejectedIsLawful(engine: Engine, game: Game, header: Body, before: seq<Entry>, state: Json, turn: nat,
                         seat: Json, recorded: Json, why: string, message: Json)
    requires Stands(game, header, before, state, turn)
    requires state.Obj? && Get(state.fields, "to_move") == seat && game.terminal(state) == Ok(None)
    ensures LawfulNext(engine, game, header, before, RejectedEntry(seat, turn, recorded, why, message)) <==>
            IsSeat(seat) && var ruling := game.legal(state, recorded); ruling.Ok? && !ruling.value.0
  {
    hide PositionAfter, AcceptedMoves, Bodies;
    var body := RejectedEntry(seat, turn, recorded, why, message).body;
    assert Get(body, "player") == seat && Get(body, "turn") == Int(turn) && Get(body, "move") == recorded
        && Get(body, "legal") == Bool(false);
  }

  lemma DigestBinds(sha: Sha, state: Json, digest: string, turn: nat)
    requires Digest(sha, state) == Ok(digest)
    ensures LawfulState(sha, state, turn, StateEntry(state, digest, turn).body)
  {
    var body := StateEntry(state, digest, turn).body;
    assert Get(body, "state") == state && Get(body, "state_digest") == Str(digest) && Get(body, "turn") == Int(turn);
  }

  // After an accepted move and its state, the records stand at the next position.
  lemma TurnAdvances(engine: Engine, game: Game, header: Body, before: seq<Entry>, state: Json, turn: nat,
                     accepted: Entry, next: Json, digest: string)
    requires Stands(game, header, before, state, turn) && IsAcceptedMove(accepted)
    requires "move" in accepted.body && game.apply(state, accepted.body["move"]) == Ok(next)
    requires Digest(engine.sha, next) == Ok(digest)
    ensures var s := StateEntry(next, digest, turn + 1);
      && LawfulNext(engine, game, header, before + [accepted], s)
      && Stands(game, header, before + [accepted] + [s], next, turn + 1)
  {
    hide LawfulState, Digest;
    var s := StateEntry(next, digest, turn + 1);
    DigestBinds(engine.sha, next, digest, turn + 1);
    MoveMade(game, header, before, state, turn, accepted, next);
    AcceptedPush(before + [accepted], s);
    BodiesPush(before + [accepted], s, "state");
    assert AcceptedMoves(before + [accepted]) + [] == AcceptedMoves(before + [accepted]);
    hide AcceptedMoves, Bodies, PositionAfter;
  }

  // The position once an accepted move is on record, its state still to come.
  lemma MoveMade(game: Game, header: Body, before: seq<Entry>, state: Json, turn: nat, accepted: Entry, next: Json)
    requires Stands(game, header, before, state, turn) && IsAcceptedMove(accepted)
    requires "move" in accepted.body && game.apply(state, accepted.body["move"]) == Ok(next)
    ensures var after := before + [accepted];
      && PositionAfter(game, header, AcceptedMoves(after)) == Some(next)
      && |AcceptedMoves(after)| == turn + 1 && |Bodies(after, "state")| == turn + 1
  {
    AcceptedPush(before, accepted);
    BodiesPush(before, accepted, "state");
    var moves := AcceptedMoves(before);
    assert (moves + [accepted.body])[..|moves|] == moves;
    hide AcceptedMoves, Bodies;
  }

  // An entry that is neither a state nor a move is lawful anywhere.
  lemma OtherIsLawful(engine: Engine, game: Game, header: Body, front: seq<Entry>, e: Entry)
    requires e.kind != "state" && e.kind != "move"
    ensures IsLawful(engine, game, header, front + [e]) <==> IsLawful(engine, game, header, front)
    ensures AcceptedMoves(front + [e]) == AcceptedMoves(front)
    ensures Bodies(front + [e], "state") == Bodies(front, "state")
  {
    LawfulPush(engine, game, header, front, e);
    AcceptedPush(front, e);
    BodiesPush(front, e, "state");
    assert AcceptedMoves(front) + [] == AcceptedMoves(front) && Bodies(front, "state") + [] == Bodies(front, "state");
    hide IsLawful;
  }

  // -- the play -----------------------------------------------------------

  lemma TypedOne(e: Entry)
    ensures SeatsTyped([e]) <==> (e.kind == "move" ==> IsSeat(Get(e.body, "player")))
  {
    BodiesOfOne(e, "move");
  }

  lemma TypedAppend(a: seq<Entry>, b: seq<Entry>)
    ensures SeatsTyped(a + b) <==> SeatsTyped(a) && SeatsTyped(b)
  {
    BodiesAppend(a, b, "move");
  }

  lemma TypedPair(a: Entry, b: Entry)
    requires b.kind != "move"
    ensures SeatsTyped([a, b]) <==> SeatsTyped([a])
  {
    TypedOne(b);
    TypedAppend([a], [b]);
    assert [a] + [b] == [a, b];
  }

  lemma RejectedFacts(game: Game, engine: Engine, entrants: Entrants, state: Json, turn: nat, bound: int)
    requires var r := TakeTurn(game, engine, entrants, state, turn, bound); r.Ok? && r.value.Rejected?
    ensures var t := TakeTurn(game, engine, entrants, state, turn, bound).value;
      state.Obj? && Get(state.fields, "to_move") == t.seat && game.terminal(state) == Ok(None)
  {
    TurnFacts(game, engine, entrants, state, turn, bound);
  }

  // The play stops at once.
  lemma StopIsLawful(engine: Engine, game: Game, header: Body, entrants: Entrants, before: seq<Entry>,
                     state: Json, turn: nat, bound: int)
    requires Stands(game, header, before, state, turn) && IsLawful(engine, game, header, before)
    requires var r := TakeTurn(game, engine, entrants, state, turn, bound); !(r.Ok? && r.value.Accepted?)
    ensures var p := PlayFrom(game, engine, entrants, state, turn, bound);
      IsLawful(engine, game, header, before + p.entries) <==> SeatsTyped(p.entries) && RulingReplays(game, p.ending)
  {
    TurnFacts(game, engine, entrants, state, turn, bound);
    hide TakeTurn, Stands, IsLawful, Bodies, ToMove, SeatIndex, SeatsTyped, SeatWinner;
    match TakeTurn(game, engine, entrants, state, turn, bound)
    case Err(fault) => OneStopIsLawful(engine, game, header, before, RefereeError(fault, turn));
    case Ok(Over) =>
      assert before + [] == before;
      EmptyBodiesTyped();
    case Ok(OutOfMoves) => OneStopIsLawful(engine, game, header, before, AbortEntry(bound));
    case Ok(NoReply(seat, reason, detail)) =>
      OneStopIsLawful(engine, game, header, before, MoveForfeit(seat, reason, detail, turn));
    case Ok(Rejected(seat, recorded, why, message)) =>
      RejectedFacts(game, engine, entrants, state, turn, bound);
      RejectionIsLawful(engine, game, header, before, state, turn, seat, recorded, why, message);
  }

  lemma RejectionIsLawful(engine: Engine, game: Game, header: Body, before: seq<Entry>, state: Json, turn: nat,
                          seat: Json, recorded: Json, why: string, message: Json)
    requires Stands(game, header, before, state, turn) && IsLawful(engine, game, header, before)
    requires state.Obj? && Get(state.fields, "to_move") == seat && game.terminal(state) == Ok(None)
    ensures
      var stop := [RejectedEntry(seat, turn, recorded, why, message),
                   MoveForfeit(seat, "illegal_move", Some(why), turn)];
      IsLawful(engine, game, header, before + stop)
      <==> SeatsTyped(stop) && RulingReplays(game, IllegalMove(seat, state, recorded, why))
  {
    hide Stands, IsLawful, Bodies, LawfulNext, SeatsTyped;
    var r, f := RejectedEntry(seat, turn, recorded, why, message), MoveForfeit(seat, "illegal_move", Some(why), turn);
    RejectedIsLawful(engine, game, header, before, state, turn, seat, recorded, why, message);
    LawfulPush(engine, game, header, before, r);
    OtherIsLawful(engine, game, header, before + [r], f);
    assert before + [r, f] == before + [r] + [f];
    TypedPair(r, f);
    TypedOne(r);
    assert Get(r.body, "player") == seat;
  }

  lemma EmptyBodiesTyped()
    ensures SeatsTyped([])
  {
  }

  lemma OneStopIsLawful(engine: Engine, game: Game, header: Body, before: seq<Entry>, e: Entry)
    requires IsLawful(engine, game, header, before) && e.kind != "state" && e.kind != "move"
    ensures IsLawful(engine, game, header, before + [e]) && SeatsTyped([e])
  {
    hide IsLawful;
    OtherIsLawful(engine, game, header, before, e);
    TypedOne(e);
  }

  // An accepted move whose successor never got recorded.
  lemma BrokenTurnIsLawful(engine: Engine, game: Game, header: Body, before: seq<Entry>, state: Json, turn: nat,
                           accepted: Entry, seat: Json, error: Entry, applied: bool)
    requires IsLawful(engine, game, header, before) && error.kind == "engine_error" && accepted.kind == "move"
    requires Get(accepted.body, "player") == seat
    requires LawfulNext(engine, game, header, before, accepted) <==> IsSeat(seat) && applied
    ensures IsLawful(engine, game, header, before + ([accepted] + [error])) <==>
      SeatsTyped([accepted] + [error]) && applied
  {
    hide IsLawful, LawfulNext;
    LawfulPush(engine, game, header, before, accepted);
    OtherIsLawful(engine, game, header, before + [accepted], error);
    assert before + ([accepted] + [error]) == before + [accepted] + [error];
    assert [accepted] + [error] == [accepted, error];
    TypedPair(accepted, error);
    TypedOne(accepted);
  }

  /** Play from any lawful record of a position is lawful in turn, exactly when its move
      records name seats and the ruling that ended it reproduces. */
  lemma {:induction false} PlayIsLawful(engine: Engine, game: Game, header: Body, entrants: Entrants,
                                        before: seq<Entry>, state: Json, turn: nat, bound: int)
    requires Stands(game, header, before, state, turn) && IsLawful(engine, game, header, before)
    ensures var p := PlayFrom(game, engine, entrants, state, turn, bound);
      IsLawful(engine, game, header, before + p.entries) <==> SeatsTyped(p.entries) && RulingReplays(game, p.ending)
    decreases if turn < bound then bound - turn else 0
  {
    var r := TakeTurn(game, engine, entrants, state, turn, bound);
    if !(r.Ok? && r.value.Accepted?) {
      StopIsLawful(engine, game, header, entrants, before, state, turn, bound);
    } else {
      AcceptedFacts(game, engine, entrants, state, turn, bound);
      TurnFacts(game, engine, entrants, state, turn, bound);
      var t := r.value;
      var accepted := AcceptedEntry(t.seat, turn, t.move, t.message);
      assert Get(accepted.body, "player") == t.seat;
      AcceptedIsLawful(engine, game, header, before, state, turn, t.seat, t.move, t.message);
      hide TakeTurn, Stands, IsLawful, Digest, LawfulNext, SeatsTyped;
      var next := game.apply(state, t.move);
      if next.Err? {
        BrokenTurnIsLawful(engine, game, header, before, state, turn, accepted, t.seat,
          RefereeError(next.error, turn), false);
      } else if Digest(engine.sha, next.value).Err? {
        var fault := ErrorName(Digest(engine.sha, next.value).error);
        BrokenTurnIsLawful(engine, game, header, before, state, turn, accepted, t.seat,
          RefereeError(fault, turn + 1), true);
      } else {
        FullTurnIsLawful(engine, game, header, entrants, before, state, turn, bound, t.seat, t.move, t.message,
                         next.value, Digest(engine.sha, next.value).value);
      }
    }
  }

  lemma {:induction false} FullTurnIsLawful(engine: Engine, game: Game, header: Body, entrants: Entrants,
                                            before: seq<Entry>, state: Json, turn: nat, bound: int,
                                            seat: Json, move: Json, message: Json, next: Json, digest: string)
    requires Stands(game, header, before, state, turn) && IsLawful(engine, game, header, before) && turn < bound
    requires game.apply(state, move) == Ok(next) && Digest(engine.sha, next) == Ok(digest)
    requires LawfulNext(engine, game, header, before, AcceptedEntry(seat, turn, move, message)) <==> IsSeat(seat)
    ensures var later := PlayFrom(game, engine, entrants, next, turn + 1, bound);
      var es := [AcceptedEntry(seat, turn, move, message), StateEntry(next, digest, turn + 1)] + later.entries;
      IsLawful(engine, game, header, before + es) <==> SeatsTyped(es) && RulingReplays(game, later.ending)
    decreases bound - turn, 0
  {
    hide Stands, IsLawful, PlayFrom, LawfulNext, SeatsTyped, Digest, PositionAfter;
    var accepted, s := AcceptedEntry(seat, turn, move, message), StateEntry(next, digest, turn + 1);
    var later := PlayFrom(game, engine, entrants, next, turn + 1, bound);
    assert Get(accepted.body, "player") == seat && "move" in accepted.body && accepted.body["move"] == move;
    assert IsAcceptedMove(accepted);
    var two := before + [accepted] + [s];
    RegroupTurn(before, accepted, s, later.entries);
    LawfulPush(engine, game, header, before, accepted);
    TypedPair(accepted, s);
    TypedOne(accepted);
    TypedAppend([accepted, s], later.entries);
    if IsSeat(seat) {
      TurnAdvances(engine, game, header, before, state, turn, accepted, next, digest);
      LawfulPush(engine, game, header, before + [accepted], s);
      PlayIsLawful(engine, game, header, entrants, two, next, turn + 1, bound);
    } else if IsLawful(engine, game, header, before + ([accepted, s] + later.entries)) {
      LawfulPrefix(engine, game, header, before + [accepted], [s] + later.entries);
    }
  }

  lemma RegroupTurn(before: seq<Entry>, a: Entry, s: Entry, later: seq<Entry>)
    ensures before + ([a, s] + later) == before + [a] + [s] + later
    ensures before + ([a, s] + later) == (before + [a]) + ([s] + later)
  {
  }
}
