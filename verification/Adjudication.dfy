/**
 The outcome decided while playing is the outcome recomputed from the transcript, and
 the shape and length of every transcript a run can leave.
 */
module Adjudication {
  import opened Wrappers
  import opened JsonValues
  import opened Canonical
  import opened Games
  import opened Referee
  import opened Replay
  import opened Lawful

  // -- shape --------------------------------------------------------------

  predicate IsRejectedMove(e: Entry) {
    e.kind == "move" && Get(e.body, "legal") == Bool(false)
  }

  // Accepted moves each followed by their state, then at most one ending.
  predicate PlayShape(es: seq<Entry>) {
    || es == []
    || (|es| == 1 && es[0].kind in {"abort", "forfeit", "engine_error"})
    || (|es| == 2 && IsRejectedMove(es[0]) && es[1].kind == "forfeit")
    || (|es| == 2 && IsAcceptedMove(es[0]) && es[1].kind == "engine_error")
    || (|es| >= 2 && IsAcceptedMove(es[0]) && es[1].kind == "state" && PlayShape(es[2..]))
  }

  lemma FollowShape(a: Entry, s: Entry, later: seq<Entry>)
    requires IsAcceptedMove(a) && s.kind == "state" && PlayShape(later)
    ensures PlayShape([a, s] + later)
    ensures |Bodies([a, s] + later, "move")| == 1 + |Bodies(later, "move")|
  {
    var es := [a, s] + later;
    assert es[2..] == later && es[0] == a && es[1] == s;
    FollowCount(a, s, later);
    hide Bodies;
  }

  lemma FollowCount(a: Entry, s: Entry, later: seq<Entry>)
    requires a.kind == "move" && s.kind == "state"
    ensures |Bodies([a, s] + later, "move")| == 1 + |Bodies(later, "move")|
  {
    BodiesOfTwo(a, s, "move");
    BodiesAppend([a, s], later, "move");
    hide Bodies;
  }

  lemma SmallCounts(a: Entry, b: Entry)
    ensures |Bodies([a], "move")| <= 1 && |Bodies([a, b], "move")| <= 2
    ensures a.kind != "move" ==> Bodies([a], "move") == []
    ensures b.kind != "move" ==> |Bodies([a, b], "move")| <= 1
  {
    BodiesMembership([a], "move");
    BodiesMembership([a, b], "move");
    BodiesPush([a], b, "move");
    BodiesPush([], a, "move");
    assert [a] + [b] == [a, b] && [] + [a] == [a];
  }

  lemma TurnsAreInBound(game: Game, engine: Engine, entrants: Entrants, state: Json, turn: nat, bound: int)
    requires var r := TakeTurn(game, engine, entrants, state, turn, bound);
      r.Ok? && !r.value.Over? && !r.value.OutOfMoves?
    ensures turn < bound
  {
    hide HearMove, ToMove, SeatIndex;
  }

  /** However the entrants reply, play stops after at most bound - turn more moves, and
      records accepted moves paired with states, then at most one ending. */
  lemma {:induction false} PlayHasShape(game: Game, engine: Engine, entrants: Entrants, state: Json, turn: nat,
                                        bound: int)
    ensures var p := PlayFrom(game, engine, entrants, state, turn, bound);
      && PlayShape(p.entries)
      && |Bodies(p.entries, "move")| <= (if turn < bound then bound - turn else 0)
    decreases if turn < bound then bound - turn else 0
  {
    var r := TakeTurn(game, engine, entrants, state, turn, bound);
    var p := PlayFrom(game, engine, entrants, state, turn, bound);
    if r.Ok? && !r.value.Over? && !r.value.OutOfMoves? {
      TurnsAreInBound(game, engine, entrants, state, turn, bound);
    }
    EmptyShape();
    hide TakeTurn, Digest, PlayShape, Bodies, IsAcceptedMove, IsRejectedMove;
    if r.Ok? && r.value.Accepted? {
      var accepted := AcceptedEntry(r.value.seat, turn, r.value.move, r.value.message);
      AcceptedIsAccepted(r.value.seat, turn, r.value.move, r.value.message);
      var next := game.apply(state, r.value.move);
      if next.Ok? && Digest(engine.sha, next.value).Ok? {
        PlayHasShape(game, engine, entrants, next.value, turn + 1, bound);
        var s := StateEntry(next.value, Digest(engine.sha, next.value).value, turn + 1);
        FollowShape(accepted, s, PlayFrom(game, engine, entrants, next.value, turn + 1, bound).entries);
      } else {
        assert p.entries == [accepted, p.entries[1]];
        TwoShape(accepted, p.entries[1]);
      }
    } else if r.Ok? && r.value.Rejected? {
      RejectedIsRejected(r.value.seat, turn, r.value.recorded, r.value.why, r.value.message);
      assert p.entries == [p.entries[0], p.entries[1]];
      TwoShape(p.entries[0], p.entries[1]);
    } else if p.entries != [] {
      assert p.entries == [p.entries[0]];
      OneShape(p.entries[0]);
    }
  }

  lemma EmptyShape()
    ensures PlayShape([]) && Bodies([], "move") == []
  {
  }

  lemma OneShape(e: Entry)
    requires e.kind in {"abort", "forfeit", "engine_error"}
    ensures PlayShape([e]) && Bodies([e], "move") == []
  {
    SmallCounts(e, e);
  }

  lemma TwoShape(a: Entry, b: Entry)
    requires (IsRejectedMove(a) && b.kind == "forfeit") || (IsAcceptedMove(a) && b.kind == "engine_error")
    ensures PlayShape([a, b]) && |Bodies([a, b], "move")| <= 1
  {
    SmallCounts(a, b);
  }

  lemma AcceptedIsAccepted(seat: Json, turn: nat, move: Json, message: Json)
    ensures IsAcceptedMove(AcceptedEntry(seat, turn, move, message))
  {
  }

  lemma RejectedIsRejected(seat: Json, turn: nat, recorded: Json, why: string, message: Json)
    ensures IsRejectedMove(RejectedEntry(seat, turn, recorded, why, message))
  {
  }

  // -- what decides a score -----------------------------------------------

  predicate AllStates(bodies: seq<Body>) {
    forall b | b in bodies :: "state" in b
  }

  function LastState(start: Json, states: seq<Body>): Json {
    if states == [] then start else Get(states[|states| - 1], "state")
  }

  // One forfeit, charged to the seat the live outcome rules against.
  predicate ForfeitRecorded(forfeits: seq<Body>, live: Live) {
    && |forfeits| == 1 && "player" in forfeits[0] && "reason" in forfeits[0] && forfeits[0]["reason"].Str?
    && OneMinus(forfeits[0]["player"]).Ok?
    && live == Live(Some(OneMinus(forfeits[0]["player"]).value), "forfeit:" + forfeits[0]["reason"].s)
  }

  // One engine error, well formed unless the exception has no fit name.
  predicate ErrorRecorded(errors: seq<Body>, fault: Fault) {
    |errors| == 1 && (ErrorShape(errors[0]) <==> 0 < |fault| <= 160)
  }

  // The entries record the ending: the score can be read off them.
  predicate Summarizes(game: Game, start: Json, es: seq<Entry>, live: Live, ending: Ending) {
    var states, forfeits := Bodies(es, "state"), Bodies(es, "forfeit");
    var errors, aborts := Bodies(es, "engine_error"), Bodies(es, "abort");
    && AllStates(states)
    && match ending
       case Terminal(end) =>
         errors == [] && forfeits == [] && aborts == [] && live == Live(end.winner, end.reason)
         && game.terminal(LastState(start, states)) == Ok(Some(end))
       case MoveBound =>
         errors == [] && forfeits == [] && aborts != [] && live == Live(None, "move_bound_exceeded")
         && game.terminal(LastState(start, states)) == Ok(None)
       case RuntimeForfeit => errors == [] && aborts == [] && ForfeitRecorded(forfeits, live)
       case IllegalMove(_, _, _, _) => errors == [] && aborts == [] && ForfeitRecorded(forfeits, live)
       case EngineFault(fault, _) =>
         ErrorRecorded(errors, fault) && forfeits == [] && aborts == [] && live == VOIDED
  }

  // Entries that leave the score alone, apart from the states they add.
  predicate Neutral(pre: seq<Entry>) {
    && Bodies(pre, "forfeit") == [] && Bodies(pre, "engine_error") == [] && Bodies(pre, "abort") == []
    && AllStates(Bodies(pre, "state"))
  }

  lemma SummaryFollows(game: Game, start: Json, next: Json, pre: seq<Entry>, es: seq<Entry>, live: Live, ending: Ending)
    requires Neutral(pre) && Summarizes(game, next, es, live, ending)
    requires LastState(start, Bodies(pre, "state")) == next || ending.EngineFault?
    ensures Summarizes(game, start, pre + es, live, ending)
  {
    hide ErrorRecorded, ForfeitRecorded, Bodies, AllStates, LastState;
    BodiesAfterNone(pre, es, "forfeit");
    BodiesAfterNone(pre, es, "engine_error");
    BodiesAfterNone(pre, es, "abort");
    BodiesAppend(pre, es, "state");
    StatesFollow(start, Bodies(pre, "state"), Bodies(es, "state"));
  }

  lemma StatesFollow(start: Json, a: seq<Body>, b: seq<Body>)
    requires AllStates(a) && AllStates(b)
    ensures AllStates(a + b) && LastState(start, a + b) == LastState(LastState(start, a), b)
  {
    assert b == [] ==> a + b == a;
  }

  lemma BodiesAfterNone(pre: seq<Entry>, es: seq<Entry>, kind: string)
    requires Bodies(pre, kind) == []
    ensures Bodies(pre + es, kind) == Bodies(es, kind)
  {
    BodiesAppend(pre, es, kind);
    assert [] + Bodies(es, kind) == Bodies(es, kind);
  }

  lemma BodiesOfOne(e: Entry, kind: string)
    ensures Bodies([e], kind) == if e.kind == kind then [e.body] else []
  {
    BodiesPush([], e, kind);
    assert [] + [e] == [e];
    assert forall s: seq<Body> :: [] + s == s;
  }

  lemma BodiesOfTwo(a: Entry, b: Entry, kind: string)
    ensures Bodies([a, b], kind) ==
      (if a.kind == kind then [a.body] else []) + (if b.kind == kind then [b.body] else [])
  {
    BodiesOfOne(a, kind);
    BodiesPush([a], b, kind);
    assert [a] + [b] == [a, b];
  }

  lemma HeardMoves(game: Game, engine: Engine, state: Json, seat: Json, reply: Reply)
    ensures var r := HearMove(game, engine, state, seat, reply);
      r.Ok? ==> !r.value.Over? && !r.value.OutOfMoves? && r.value.seat == seat
  {
    hide RuleOn;
    if reply.Message? && reply.value.Obj? {
      RuledMoves(game, engine, state, seat, reply.value);
    }
  }

  lemma RuledMoves(game: Game, engine: Engine, state: Json, seat: Json, value: Json)
    requires value.Obj?
    ensures var r := RuleOn(game, engine, state, seat, value);
      r.Ok? ==> (r.value.Rejected? || r.value.Accepted?) && r.value.seat == seat
  {
    hide CanonicalBytes, Safe, EncodableOrRaise;
  }

  // What is known of the position from how a turn goes.
  lemma TurnFacts(game: Game, engine: Engine, entrants: Entrants, state: Json, turn: nat, bound: int)
    ensures var r := TakeTurn(game, engine, entrants, state, turn, bound);
      && (r == Ok(Over) ==> game.terminal(state).Ok? && game.terminal(state).value.Some?)
      && (r == Ok(OutOfMoves) ==> game.terminal(state) == Ok(None))
      && (r.Ok? && !r.value.Over? && !r.value.OutOfMoves? ==>
            && game.terminal(state) == Ok(None) && turn < bound
            && ToMove(state) == Ok(r.value.seat) && SeatIndex(r.value.seat).Ok?)
  {
    hide HearMove, ToMove, SeatIndex;
    var seat := ToMove(state);
    if seat.Ok? {
      HeardMoves(game, engine, state, seat.value, entrants.move(turn));
    }
  }

  lemma SeatsHaveWinners(seat: Json)
    requires SeatIndex(seat).Ok?
    ensures OneMinus(seat).Ok? && SeatWinner(seat) == Some(OneMinus(seat).value)
  {
  }

  lemma ErrorsAreShaped(fault: Fault, turn: nat, seat: nat)
    ensures ErrorRecorded([RefereeError(fault, turn).body], fault)
    ensures seat < 2 ==> ErrorRecorded([HandshakeError(fault, seat).body], fault)
  {
    assert RefereeError(fault, turn).body.Keys == {"detail", "code", "phase", "turn"};
    assert HandshakeError(fault, seat).body.Keys == {"detail", "code", "phase", "seat"};
  }

  lemma StopWithOne(e: Entry)
    ensures Bodies([e], "abort") == if e.kind == "abort" then [e.body] else []
    ensures Bodies([e], "state") == if e.kind == "state" then [e.body] else []
    ensures Bodies([e], "forfeit") == if e.kind == "forfeit" then [e.body] else []
    ensures Bodies([e], "engine_error") == if e.kind == "engine_error" then [e.body] else []
  {
    BodiesOfOne(e, "state");
    BodiesOfOne(e, "forfeit");
    BodiesOfOne(e, "engine_error");
    BodiesOfOne(e, "abort");
  }

  lemma ForfeitSummary(seat: Json, reason: string, detail: Option<string>, turn: nat)
    requires SeatIndex(seat).Ok?
    ensures ForfeitRecorded([MoveForfeit(seat, reason, detail, turn).body], Live(SeatWinner(seat), "forfeit:" + reason))
  {
    SeatsHaveWinners(seat);
  }

  // The ways play stops without another accepted move.
  lemma StopSummary(game: Game, engine: Engine, entrants: Entrants, state: Json, turn: nat, bound: int)
    requires var r := TakeTurn(game, engine, entrants, state, turn, bound); !(r.Ok? && r.value.Accepted?)
    ensures var p := PlayFrom(game, engine, entrants, state, turn, bound);
      Summarizes(game, state, p.entries, p.live, p.ending)
  {
    TurnFacts(game, engine, entrants, state, turn, bound);
    hide TakeTurn, Bodies, ForfeitRecorded, SeatIndex, ToMove, SeatWinner, ErrorRecorded;
    hide Summarizes;
    match TakeTurn(game, engine, entrants, state, turn, bound)
    case Err(fault) => ErrorStops(game, state, fault, turn);
    case Ok(Over) => QuietStops(game, state, bound);
    case Ok(OutOfMoves) => QuietStops(game, state, bound);
    case Ok(NoReply(seat, reason, detail)) => SilenceStops(game, state, seat, reason, detail, turn);
    case Ok(Rejected(seat, recorded, why, message)) => RejectionStops(game, state, seat, recorded, why, message, turn);
  }

  lemma ErrorStops(game: Game, state: Json, fault: Fault, turn: nat)
    ensures Summarizes(game, state, [RefereeError(fault, turn)], VOIDED, EngineFault(fault, false))
  {
    hide Bodies, ErrorRecorded;
    StopWithOne(RefereeError(fault, turn));
    ErrorsAreShaped(fault, turn, 0);
  }

  lemma QuietStops(game: Game, state: Json, bound: int)
    requires game.terminal(state).Ok?
    ensures game.terminal(state).value.Some? ==>
      var end := game.terminal(state).value.value;
      Summarizes(game, state, [], Live(end.winner, end.reason), Terminal(end))
    ensures game.terminal(state).value.None? ==>
      Summarizes(game, state, [AbortEntry(bound)], Live(None, "move_bound_exceeded"), MoveBound)
  {
    EmptyBodies();
    StopWithOne(AbortEntry(bound));
    hide Bodies;
  }

  lemma SilenceStops(game: Game, state: Json, seat: Json, reason: string, detail: Option<string>, turn: nat)
    requires SeatIndex(seat).Ok?
    ensures Summarizes(game, state, [MoveForfeit(seat, reason, detail, turn)],
      Live(SeatWinner(seat), "forfeit:" + reason), RuntimeForfeit)
  {
    hide Bodies, ForfeitRecorded, SeatIndex, SeatWinner;
    StopWithOne(MoveForfeit(seat, reason, detail, turn));
    ForfeitSummary(seat, reason, detail, turn);
  }

  lemma RejectionStops(game: Game, state: Json, seat: Json, recorded: Json, why: string, message: Json, turn: nat)
    requires SeatIndex(seat).Ok?
    ensures Summarizes(game, state,
      [RejectedEntry(seat, turn, recorded, why, message), MoveForfeit(seat, "illegal_move", Some(why), turn)],
      Live(SeatWinner(seat), "forfeit:illegal_move"), IllegalMove(seat, state, recorded, why))
  {
    hide Bodies, ForfeitRecorded, SeatIndex, SeatWinner;
    StopWithTwo(RejectedEntry(seat, turn, recorded, why, message), MoveForfeit(seat, "illegal_move", Some(why), turn));
    ForfeitSummary(seat, "illegal_move", Some(why), turn);
    assert "forfeit:" + "illegal_move" == "forfeit:illegal_move";
  }

  lemma EmptyBodies()
    ensures Bodies([], "state") == [] && Bodies([], "forfeit") == []
    ensures Bodies([], "engine_error") == [] && Bodies([], "abort") == []
  {
  }

  lemma StopWithTwo(a: Entry, b: Entry)
    requires a.kind == "move" && b.kind == "forfeit"
    ensures Bodies([a, b], "state") == [] && Bodies([a, b], "forfeit") == [b.body]
    ensures Bodies([a, b], "engine_error") == [] && Bodies([a, b], "abort") == []
  {
    BodiesOfTwo(a, b, "abort");
    BodiesOfTwo(a, b, "state");
    BodiesOfTwo(a, b, "forfeit");
    BodiesOfTwo(a, b, "engine_error");
  }

  /** From any position and for any replies, play leaves a record of its outcome. */
  lemma {:induction false} PlaySummary(game: Game, engine: Engine, entrants: Entrants, state: Json, turn: nat,
                                       bound: int)
    ensures var p := PlayFrom(game, engine, entrants, state, turn, bound);
      Summarizes(game, state, p.entries, p.live, p.ending)
    decreases if turn < bound then bound - turn else 0
  {
    var r := TakeTurn(game, engine, entrants, state, turn, bound);
    if !(r.Ok? && r.value.Accepted?) {
      StopSummary(game, engine, entrants, state, turn, bound);
    } else {
      TurnFacts(game, engine, entrants, state, turn, bound);
      hide TakeTurn, Summarizes, Digest;
      var t := r.value;
      var accepted := AcceptedEntry(t.seat, turn, t.move, t.message);
      var next := game.apply(state, t.move);
      if next.Err? {
        FaultSummary(game, state, accepted, next.error, turn, true);
      } else if Digest(engine.sha, next.value).Err? {
        FaultSummary(game, state, accepted, ErrorName(Digest(engine.sha, next.value).error), turn + 1, false);
      } else {
        var s := StateEntry(next.value, Digest(engine.sha, next.value).value, turn + 1);
        var later := PlayFrom(game, engine, entrants, next.value, turn + 1, bound);
        PlaySummary(game, engine, entrants, next.value, turn + 1, bound);
        TurnIsNeutral(accepted, s, next.value, state);
        SummaryFollows(game, state, next.value, [accepted, s], later.entries, later.live, later.ending);
      }
    }
  }

  lemma TurnIsNeutral(a: Entry, s: Entry, next: Json, start: Json)
    requires a.kind == "move" && s.kind == "state" && "state" in s.body && s.body["state"] == next
    ensures Neutral([a, s]) && LastState(start, Bodies([a, s], "state")) == next
  {
    BodiesOfTwo(a, s, "state");
    BodiesOfTwo(a, s, "forfeit");
    BodiesOfTwo(a, s, "engine_error");
    BodiesOfTwo(a, s, "abort");
  }

  lemma FaultSummary(game: Game, start: Json, a: Entry, fault: Fault, turn: nat, inApply: bool)
    requires a.kind == "move"
    ensures Summarizes(game, start, [a] + Faulted(fault, turn, inApply).entries, VOIDED, EngineFault(fault, inApply))
  {
    var e := RefereeError(fault, turn);
    assert [a] + [e] == [a, e];
    BodiesOfTwo(a, e, "state");
    BodiesOfTwo(a, e, "forfeit");
    BodiesOfTwo(a, e, "engine_error");
    BodiesOfTwo(a, e, "abort");
    ErrorsAreShaped(fault, turn, 0);
  }
}
