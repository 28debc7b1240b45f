/**
 What a transcript has to be for the replay loop to find no fault in it, said of the
 records themselves: a play of the game, interleaved with its positions.
 */
module Lawful {
  import opened Wrappers
  import opened JsonValues
  import opened Canonical
  import opened Games
  import opened Replay

  predicate IsAcceptedMove(e: Entry) {
    e.kind == "move" && Get(e.body, "legal") == Bool(true)
  }

  // The moves the referee accepted, in order.
  function AcceptedMoves(entries: seq<Entry>): seq<Body> {
    if entries == [] then []
    else
      var last := entries[|entries| - 1];
      AcceptedMoves(entries[..|entries| - 1]) + (if IsAcceptedMove(last) then [last.body] else [])
  }

  // The position the game reaches from the seed by playing the given moves.
  function PositionAfter(game: Game, header: Body, moves: seq<Body>): Option<Json> {
    if moves == [] then
      if "seed" !in header then None
      else
        match game.setup(header["seed"])
        case Ok(state) => Some(state)
        case Err(_) => None
    else
      var last := moves[|moves| - 1];
      match PositionAfter(game, header, moves[..|moves| - 1])
      case None => None
      case Some(state) =>
        if "move" !in last then None
        else
          match game.apply(state, last["move"])
          case Ok(next) => Some(next)
          case Err(_) => None
  }

  // A move record ruled on at a position, after n accepted moves.
  predicate LawfulMove(game: Game, state: Json, n: nat, body: Body) {
    && state.Obj? && IsSeat(Get(body, "player"))
    && EqualsInt(Get(body, "player").n, Get(state.fields, "to_move"))
    && TurnIs(body, n) && Get(body, "legal").Bool?
    && game.terminal(state) == Ok(None)
    && var ruling := game.legal(state, Get(body, "move"));
    && ruling.Ok? && ruling.value.0 == Get(body, "legal").b
    && (ruling.value.0 ==> "move" in body && game.apply(state, body["move"]).Ok?)
  }

  // A state record that repeats a position, after n accepted moves.
  predicate LawfulState(sha: Sha, state: Json, n: nat, body: Body) {
    TurnIs(body, n) && Bound(sha, body, state) == Ok(true)
  }

  // The entry at k, judged by what stands before it.
  ghost predicate LawfulNext(engine: Engine, game: Game, header: Body, before: seq<Entry>, e: Entry) {
    var moves, states := AcceptedMoves(before), |Bodies(before, "state")|;
    var position := PositionAfter(game, header, moves);
    match e.kind
    case "state" => states == |moves| && position.Some? && LawfulState(engine.sha, position.value, |moves|, e.body)
    case "move" => states == |moves| + 1 && position.Some? && LawfulMove(game, position.value, |moves|, e.body)
    case _ => true
  }

  ghost predicate LawfulAt(engine: Engine, game: Game, header: Body, entries: seq<Entry>, k: nat)
    requires k < |entries|
  {
    LawfulNext(engine, game, header, entries[..k], entries[k])
  }

  /** Every recorded position is the game's own and every ruling is the game's own. */
  ghost predicate IsLawful(engine: Engine, game: Game, header: Body, entries: seq<Entry>) {
    forall k | 0 <= k < |entries| :: LawfulAt(engine, game, header, entries, k)
  }

  lemma LawfulPush(engine: Engine, game: Game, header: Body, front: seq<Entry>, e: Entry)
    ensures IsLawful(engine, game, header, front + [e]) <==>
            IsLawful(engine, game, header, front) && LawfulNext(engine, game, header, front, e)
  {
    var all := front + [e];
    assert forall k | 0 <= k < |front| :: all[..k] == front[..k] && all[k] == front[k];
    assert all[..|front|] == front && all[|front|] == e;
    if IsLawful(engine, game, header, all) {
      assert LawfulAt(engine, game, header, all, |front|);
      forall k | 0 <= k < |front| ensures LawfulAt(engine, game, header, front, k) {
        assert LawfulAt(engine, game, header, all, k);
      }
    }
    if IsLawful(engine, game, header, front) && LawfulNext(engine, game, header, front, e) {
      forall k | 0 <= k < |all| ensures LawfulAt(engine, game, header, all, k) {
        assert k < |front| ==> LawfulAt(engine, game, header, front, k);
      }
    }
  }

  // No fault found so far.
  predicate Clean(r: Result<ReplayState, Fault>) {
    r.Ok? && r.value.movesOk && r.value.statesOk
  }

  // What the replay state holds after a clean run over entries.
  ghost predicate Tracks(game: Game, header: Body, entries: seq<Entry>, rs: ReplayState) {
    var moves, states := AcceptedMoves(entries), |Bodies(entries, "state")|;
    && rs.movesOk && rs.statesOk
    && rs.expectedTurn == |moves|
    && (states == |moves| || states == |moves| + 1)
    && rs.stateExpected == (states == |moves|)
    && rs.seenInitial == (states > 0)
    && rs.setupOk == (states > 0)
    && (states > 0 ==> PositionAfter(game, header, moves) == Some(rs.computed))
    && (states == 0 ==> rs.computed == Null && moves == [])
  }

  lemma AcceptedPush(front: seq<Entry>, e: Entry)
    ensures AcceptedMoves(front + [e]) == AcceptedMoves(front) + (if IsAcceptedMove(e) then [e.body] else [])
  {
    assert (front + [e])[..|front|] == front;
  }

  lemma StateStepTracks(engine: Engine, game: Game, header: Body, front: seq<Entry>, rs: ReplayState, e: Entry)
    requires Tracks(game, header, front, rs) && e.kind == "state"
    ensures Clean(Step(engine, game, header, rs, e)) <==> LawfulNext(engine, game, header, front, e)
    ensures Clean(Step(engine, game, header, rs, e)) ==>
            Tracks(game, header, front + [e], Step(engine, game, header, rs, e).value)
  {
    hide Bound, Bodies, AcceptedMoves;
    BodiesPush(front, e, "state");
    NoMovePushed(front, e);
  }

  lemma NoMovePushed(front: seq<Entry>, e: Entry)
    requires !IsAcceptedMove(e)
    ensures AcceptedMoves(front + [e]) == AcceptedMoves(front)
  {
    AcceptedPush(front, e);
    assert AcceptedMoves(front) + [] == AcceptedMoves(front);
  }

  lemma MoveStepTracks(engine: Engine, game: Game, header: Body, front: seq<Entry>, rs: ReplayState, e: Entry)
    requires Tracks(game, header, front, rs) && e.kind == "move"
    ensures Clean(Step(engine, game, header, rs, e)) <==> LawfulNext(engine, game, header, front, e)
    ensures Clean(Step(engine, game, header, rs, e)) ==>
            Tracks(game, header, front + [e], Step(engine, game, header, rs, e).value)
  {
    BodiesPush(front, e, "state");
    AcceptedPush(front, e);
    assert Bodies(front, "state") + [] == Bodies(front, "state");
    if IsAcceptedMove(e) {
      var moves := AcceptedMoves(front);
      assert (moves + [e.body])[..|moves|] == moves;
    } else {
      assert AcceptedMoves(front) + [] == AcceptedMoves(front);
    }
  }

  lemma OtherStepTracks(engine: Engine, game: Game, header: Body, front: seq<Entry>, rs: ReplayState, e: Entry)
    requires Tracks(game, header, front, rs) && e.kind != "state" && e.kind != "move"
    ensures Clean(Step(engine, game, header, rs, e)) && LawfulNext(engine, game, header, front, e)
    ensures Tracks(game, header, front + [e], Step(engine, game, header, rs, e).value)
  {
    hide Bodies, AcceptedMoves, PositionAfter;
    BodiesPush(front, e, "state");
    assert Bodies(front, "state") + [] == Bodies(front, "state");
    NoMovePushed(front, e);
  }

  lemma UncleanStays(engine: Engine, game: Game, header: Body, rs: ReplayState, e: Entry)
    requires !(rs.movesOk && rs.statesOk)
    ensures !Clean(Step(engine, game, header, rs, e))
  {
    hide Bound, MoveShape;
  }

  /** The replay loop finds no fault exactly when the transcript is lawful, for every
      list of entries; and then its variables hold the position, the turn and the
      phase that the records themselves determine. */
  lemma {:induction false} CleanIffLawful(engine: Engine, game: Game, header: Body, entries: seq<Entry>)
    ensures Clean(Replayed(engine, game, header, entries)) <==> IsLawful(engine, game, header, entries)
    ensures Clean(Replayed(engine, game, header, entries)) ==>
            Tracks(game, header, entries, Replayed(engine, game, header, entries).value)
  {
    hide Step, LawfulNext, Tracks;
    if entries == [] {
      StartTracks(game, header);
    } else {
      var front, e := entries[..|entries| - 1], entries[|entries| - 1];
      assert entries == front + [e];
      CleanIffLawful(engine, game, header, front);
      LawfulPush(engine, game, header, front, e);
      var r := Replayed(engine, game, header, front);
      if Clean(r) {
        if e.kind == "state" {
          StateStepTracks(engine, game, header, front, r.value, e);
        } else if e.kind == "move" {
          MoveStepTracks(engine, game, header, front, r.value, e);
        } else {
          OtherStepTracks(engine, game, header, front, r.value, e);
        }
      } else if r.Ok? {
        UncleanStays(engine, game, header, r.value, e);
      }
    }
  }

  lemma StartTracks(game: Game, header: Body)
    ensures Tracks(game, header, [], START)
  {
  }

  predicate SameCollections(rs: ReplayState, next: ReplayState) {
    rs.forfeits == next.forfeits && rs.aborts == next.aborts && rs.engineErrors == next.engineErrors
  }

  lemma OpeningCollectsNothing(engine: Engine, game: Game, header: Body, rs: ReplayState, body: Body)
    ensures var r := OpeningStep(engine, game, header, rs, body); r.Ok? ==> SameCollections(rs, r.value)
  {
    hide Bound;
  }

  lemma StateCollectsNothing(engine: Engine, rs: ReplayState, body: Body)
    ensures var r := StateStep(engine, rs, body); r.Ok? ==> SameCollections(rs, r.value)
  {
    hide Bound;
  }

  lemma MoveCollectsNothing(game: Game, rs: ReplayState, body: Body)
    ensures var r := MoveStep(game, rs, body); r.Ok? ==> SameCollections(rs, r.value)
  {
    hide MoveShape;
  }

  // What one step adds to the collected bodies.
  lemma StepCollects(engine: Engine, game: Game, header: Body, rs: ReplayState, e: Entry)
    requires Step(engine, game, header, rs, e).Ok?
    ensures var next := Step(engine, game, header, rs, e).value;
      && next.forfeits == rs.forfeits + (if e.kind == "forfeit" then [e.body] else [])
      && next.aborts == rs.aborts + (if e.kind == "abort" then [e.body] else [])
      && next.engineErrors == rs.engineErrors + (if e.kind == "engine_error" then [e.body] else [])
  {
    hide OpeningStep, StateStep, MoveStep;
    OpeningCollectsNothing(engine, game, header, rs, e.body);
    StateCollectsNothing(engine, rs, e.body);
    MoveCollectsNothing(game, rs, e.body);
    assert rs.forfeits + [] == rs.forfeits && rs.aborts + [] == rs.aborts && rs.engineErrors + [] == rs.engineErrors;
  }

  /** What the loop collects, whatever it finds: all the bodies of the other kinds. */
  lemma {:induction false} Collected(engine: Engine, game: Game, header: Body, entries: seq<Entry>)
    requires Replayed(engine, game, header, entries).Ok?
    ensures var rs := Replayed(engine, game, header, entries).value;
      && rs.forfeits == Bodies(entries, "forfeit") && rs.aborts == Bodies(entries, "abort")
      && rs.engineErrors == Bodies(entries, "engine_error")
  {
    hide Step;
    if entries != [] {
      var front, e := entries[..|entries| - 1], entries[|entries| - 1];
      Collected(engine, game, header, front);
      StepCollects(engine, game, header, Replayed(engine, game, header, front).value, e);
    }
  }
}
