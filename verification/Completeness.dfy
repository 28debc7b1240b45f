/**
 Which runs earn a PASS: an exact classification by how the run ended.
 */
module Completeness {
  import opened Wrappers
  import opened JsonValues
  import opened Canonical
  import opened Games
  import opened Referee
  import opened Replay
  import opened Lawful
  import opened Endings
  import opened Adjudication
  import opened LiveScore
  import opened RunLawful

  // -- how a transcript ends ----------------------------------------------

  predicate RejectionRecorded(es: seq<Entry>, seat: Json, recorded: Json, why: string) {
    && |es| >= 2
    && es[|es| - 2].kind == "move" && es[|es| - 1].kind == "forfeit"
    && Get(es[|es| - 2].body, "player") == seat && Get(es[|es| - 2].body, "legal") == Bool(false)
    && Get(es[|es| - 2].body, "rejected_because") == Str(why) && Get(es[|es| - 2].body, "turn").Int?
    && es[|es| - 1].body.Keys == FORFEIT_KEYS
    && es[|es| - 1].body["player"] == seat && es[|es| - 1].body["reason"] == Str("illegal_move")
    && es[|es| - 1].body["phase"] == Str("move") && es[|es| - 1].body["detail"] == Str(why)
    && es[|es| - 1].body["turn"] == Get(es[|es| - 2].body, "turn") && es[|es| - 1].body["turn"].n >= 0
  }

  // The last entries before the result.
  predicate Tail(es: seq<Entry>, ending: Ending) {
    match ending
    case RuntimeForfeit =>
      |es| >= 2 && (es[|es| - 1].kind == "state" || (es[|es| - 1].kind == "forfeit" && es[|es| - 2].kind == "state"))
    case IllegalMove(seat, _, recorded, why) => RejectionRecorded(es, seat, recorded, why)
    case _ => true
  }

  lemma RejectionIsRecorded(before: seq<Entry>, seat: Json, turn: nat, recorded: Json, why: string, message: Json)
    ensures RejectionRecorded(before + [RejectedEntry(seat, turn, recorded, why, message),
                                        MoveForfeit(seat, "illegal_move", Some(why), turn)], seat, recorded, why)
  {
    var r, f := RejectedEntry(seat, turn, recorded, why, message), MoveForfeit(seat, "illegal_move", Some(why), turn);
    assert f.body.Keys == FORFEIT_KEYS;
    assert Get(r.body, "player") == seat && Get(r.body, "legal") == Bool(false)
        && Get(r.body, "rejected_because") == Str(why) && Get(r.body, "turn") == Int(turn);
  }

  lemma {:induction false} PlayTail(game: Game, engine: Engine, entrants: Entrants, before: seq<Entry>,
                                    state: Json, turn: nat, bound: int)
    requires before != [] && before[|before| - 1].kind == "state"
    ensures var p := PlayFrom(game, engine, entrants, state, turn, bound); Tail(before + p.entries, p.ending)
    decreases if turn < bound then bound - turn else 0
  {
    TurnFacts(game, engine, entrants, state, turn, bound);
    hide TakeTurn, RejectionRecorded, Digest, ToMove, SeatIndex, SeatWinner;
    var r := TakeTurn(game, engine, entrants, state, turn, bound);
    if r.Ok? && r.value.Rejected? {
      RejectionIsRecorded(before, r.value.seat, turn, r.value.recorded, r.value.why, r.value.message);
    } else if r.Ok? && r.value.Accepted? {
      var next := game.apply(state, r.value.move);
      if next.Ok? && Digest(engine.sha, next.value).Ok? {
        var a := AcceptedEntry(r.value.seat, turn, r.value.move, r.value.message);
        var s := StateEntry(next.value, Digest(engine.sha, next.value).value, turn + 1);
        hide PlayFrom, Tail;
        PlayTail(game, engine, entrants, before + [a] + [s], next.value, turn + 1, bound);
        RegroupTurn(before, a, s, PlayFrom(game, engine, entrants, next.value, turn + 1, bound).entries);
        PlayUnfolds(game, engine, entrants, state, turn, bound);
      }
    }
  }

  // PlayFrom over one full turn.
  lemma PlayUnfolds(game: Game, engine: Engine, entrants: Entrants, state: Json, turn: nat, bound: int)
    requires var r := TakeTurn(game, engine, entrants, state, turn, bound);
      && r.Ok? && r.value.Accepted? && var next := game.apply(state, r.value.move);
      next.Ok? && Digest(engine.sha, next.value).Ok?
    ensures var t := TakeTurn(game, engine, entrants, state, turn, bound).value;
      var next := game.apply(state, t.move).value;
      PlayFrom(game, engine, entrants, state, turn, bound) ==
      Follow([AcceptedEntry(t.seat, turn, t.move, t.message),
              StateEntry(next, Digest(engine.sha, next).value, turn + 1)],
             PlayFrom(game, engine, entrants, next, turn + 1, bound))
  {
    hide TakeTurn, Digest;
  }

  // -- accepted moves and states keep pace --------------------------------

  lemma {:induction false} AcceptedAppend(a: seq<Entry>, b: seq<Entry>)
    ensures AcceptedMoves(a + b) == AcceptedMoves(a) + AcceptedMoves(b)
  {
    if b == [] {
      assert a + b == a;
      assert AcceptedMoves(a) + [] == AcceptedMoves(a);
    } else {
      var n := |b| - 1;
      assert (a + b)[..|a| + n] == a + b[..n] && (a + b)[|a| + n] == b[n];
      AcceptedAppend(a, b[..n]);
    }
  }

  // As many states as accepted moves, or one fewer where a fault cut in.
  predicate Paced(es: seq<Entry>) {
    var moves, states := |AcceptedMoves(es)|, |Bodies(es, "state")|;
    states == moves || (states + 1 == moves && es != [] && es[|es| - 1].kind == "engine_error")
  }

  lemma CountPair(a: Entry, b: Entry)
    ensures |AcceptedMoves([a, b])| == (if IsAcceptedMove(a) then 1 else 0) + (if IsAcceptedMove(b) then 1 else 0)
    ensures |Bodies([a, b], "state")| == (if a.kind == "state" then 1 else 0) + (if b.kind == "state" then 1 else 0)
    ensures |AcceptedMoves([a])| == (if IsAcceptedMove(a) then 1 else 0)
  {
    BodiesOfTwo(a, b, "state");
    AcceptedPush([a], b);
    AcceptedPush([], a);
    assert [a] + [b] == [a, b] && [] + [a] == [a];
  }

  lemma PacedFollow(a: Entry, s: Entry, later: seq<Entry>)
    requires IsAcceptedMove(a) && s.kind == "state" && Paced(later)
    ensures Paced([a, s] + later)
  {
    CountPair(a, s);
    AcceptedAppend([a, s], later);
    BodiesAppend([a, s], later, "state");
    hide AcceptedMoves, Bodies;
    assert later != [] ==> ([a, s] + later)[|later| + 1] == later[|later| - 1];
  }

  lemma {:induction false} ShapeIsPaced(es: seq<Entry>)
    requires PlayShape(es)
    ensures Paced(es)
  {
    if |es| == 1 {
      CountPair(es[0], es[0]);
      BodiesOfOne(es[0], "state");
      hide AcceptedMoves, Bodies, PlayShape;
      assert es == [es[0]];
    } else if |es| >= 2 && es[1].kind == "state" {
      ShapeIsPaced(es[2..]);
      hide AcceptedMoves, Bodies, PlayShape, Paced;
      PacedFollow(es[0], es[1], es[2..]);
      assert es == [es[0], es[1]] + es[2..];
    } else if |es| >= 2 {
      CountPair(es[0], es[1]);
      hide AcceptedMoves, Bodies, PlayShape;
      assert es == [es[0], es[1]];
    }
  }

  // -- the whole transcript -----------------------------------------------

  // Header, entries of inner kinds, result.
  ghost predicate Framed(entries: seq<Entry>, header: Body, result: Body) {
    && |entries| >= 2 && entries[0] == Entry("header", header) && entries[|entries| - 1] == Entry("result", result)
    && InnerKinds(entries[1..|entries| - 1])
  }

  lemma {:induction false} FirstOfSkips(es: seq<Entry>, n: nat, kind: string)
    requires n < |es| && es[n].kind == kind && forall i | 0 <= i < n :: es[i].kind != kind
    ensures FirstOf(es, kind) == Some(es[n].body)
    decreases n
  {
    if n > 0 {
      FirstOfSkips(es[1..], n - 1, kind);
    }
  }

  lemma InnerAt(entries: seq<Entry>, i: nat)
    requires 1 <= i < |entries| - 1 && InnerKinds(entries[1..|entries| - 1])
    ensures entries[i].kind in INNER_KINDS
  {
    assert entries[1..|entries| - 1][i - 1] == entries[i];
  }

  lemma FramedIsStructured(entries: seq<Entry>, header: Body, result: Body)
    requires Framed(entries, header, result)
    ensures StructureOk(entries) && KindsOk(entries)
    ensures FirstOf(entries, "header") == Some(header) && FirstOf(entries, "result") == Some(result)
  {
    var n := |entries| - 1;
    forall i | 0 <= i < |entries|
      ensures entries[i].kind == "header" ==> i == 0
      ensures entries[i].kind == "result" ==> i == n
      ensures entries[i].kind in KNOWN_KINDS
    {
      if 1 <= i < n {
        InnerAt(entries, i);
      }
    }
    FirstOfSkips(entries, 0, "header");
    FirstOfSkips(entries, n, "result");
  }

  // -- the run as a whole -------------------------------------------------

  // What completeness needs of a run's entries before the result, besides the summary.
  ghost predicate WellPlayed(engine: Engine, m: Match, header: Body, state: Json, p: Played) {
    && p.entries != [] && p.entries[0] == Entry("header", header) && InnerKinds(p.entries[1..])
    && Tail(p.entries, p.ending)
    && (IsLawful(engine, m.game, header, p.entries) <==> SeatsTyped(p.entries) && RulingReplays(m.game, p.ending))
    && var moves, states := |AcceptedMoves(p.entries)|, |Bodies(p.entries, "state")|;
    && (states == moves + 1 || (states == moves && p.entries[|p.entries| - 1].kind == "engine_error"))
  }

  // The header and handshake: nothing on the board yet.
  ghost predicate NothingPlayed(engine: Engine, game: Game, header: Body, before: seq<Entry>) {
    && IsLawful(engine, game, header, before)
    && AcceptedMoves(before) == [] && Bodies(before, "state") == [] && SeatsTyped(before)
  }

  predicate OffBoard(es: seq<Entry>) {
    forall e | e in es :: e.kind != "state" && e.kind != "move"
  }

  lemma {:induction false} OffBoardPlaysNothing(engine: Engine, game: Game, header: Body, es: seq<Entry>)
    requires OffBoard(es)
    ensures NothingPlayed(engine, game, header, es)
  {
    if es != [] {
      var front, last := es[..|es| - 1], es[|es| - 1];
      assert es == front + [last];
      OffBoardPlaysNothing(engine, game, header, front);
      OtherIsLawful(engine, game, header, front, last);
      TypedOne(last);
      TypedAppend(front, [last]);
      hide IsLawful, AcceptedMoves, Bodies;
    }
  }

  lemma {:induction false} ShakeIsOffBoard(engine: Engine, entrants: Entrants, i: nat)
    requires i <= 2
    ensures OffBoard(ShakeFrom(engine, entrants, i).entries)
    decreases 2 - i
  {
    hide Greet;
    if i < 2 {
      ShakeIsOffBoard(engine, entrants, i + 1);
    }
  }

  lemma OpeningStands(engine: Engine, m: Match, header: Body, before: seq<Entry>, state: Json, digest: string)
    requires NothingPlayed(engine, m.game, header, before)
    requires "seed" in header && m.game.setup(header["seed"]) == Ok(state) && Digest(engine.sha, state) == Ok(digest)
    ensures var opening := StateEntry(state, digest, 0);
      && IsLawful(engine, m.game, header, before + [opening])
      && Stands(m.game, header, before + [opening], state, 0) && SeatsTyped(before + [opening])
  {
    hide IsLawful, LawfulState;
    var opening := StateEntry(state, digest, 0);
    DigestBinds(engine.sha, state, digest, 0);
    LawfulPush(engine, m.game, header, before, opening);
    AcceptedPush(before, opening);
    BodiesPush(before, opening, "state");
    TypedOne(opening);
    TypedAppend(before, [opening]);
    assert AcceptedMoves(before) + [] == [] && [] + [opening.body] == [opening.body];
    hide AcceptedMoves, Bodies, SeatsTyped, Digest;
  }

  // Play from the opening position, after any header and handshake.
  lemma PlayedThrough(engine: Engine, m: Match, header: Body, entrants: Entrants, before: seq<Entry>,
                      state: Json, bound: int)
    requires before != [] && before[|before| - 1].kind == "state"
    requires IsLawful(engine, m.game, header, before) && Stands(m.game, header, before, state, 0) && SeatsTyped(before)
    ensures var p := PlayFrom(m.game, engine, entrants, state, 0, bound);
      var all := before + p.entries;
      && Tail(all, p.ending)
      && (IsLawful(engine, m.game, header, all) <==> SeatsTyped(all) && RulingReplays(m.game, p.ending))
      && var moves, states := |AcceptedMoves(all)|, |Bodies(all, "state")|;
      && (states == moves + 1 || (states == moves && all[|all| - 1].kind == "engine_error"))
  {
    hide IsLawful, PlayFrom, Tail, RulingReplays, SeatsTyped, AcceptedMoves, Bodies, PlayShape, PositionAfter;
    var p := PlayFrom(m.game, engine, entrants, state, 0, bound);
    PlayTail(m.game, engine, entrants, before, state, 0, bound);
    PlayIsLawful(engine, m.game, header, entrants, before, state, 0, bound);
    TypedAppend(before, p.entries);
    PlayHasShape(m.game, engine, entrants, state, 0, bound);
    ShapeIsPaced(p.entries);
    AcceptedAppend(before, p.entries);
    BodiesAppend(before, p.entries, "state");
    assert p.entries != [] ==> (before + p.entries)[|before| + |p.entries| - 1] == p.entries[|p.entries| - 1];
  }

  lemma Regroup3(h: Entry, shake: seq<Entry>, o: Entry, play: seq<Entry>)
    ensures [h] + (shake + [o] + play) == [h] + shake + [o] + play
    ensures [h] + (shake + [o]) == [h] + shake + [o]
    ensures ([h] + shake + [o])[|shake| + 1] == o
  {
  }

  lemma Regroup4(h: Entry, shake: seq<Entry>, e: Entry, o: Entry)
    ensures [h] + (shake + [e, o]) == [h] + shake + [e] + [o]
    ensures ([h] + shake + [e] + [o])[|shake| + 2] == o
  {
  }

  // The opened run, put behind its header.
  lemma OpenedIsWellPlayed(engine: Engine, m: Match, entrants: Entrants, header: Body, state: Json, digest: string,
                           bound: int)
    requires "seed" in header && m.game.setup(header["seed"]) == Ok(state) && Digest(engine.sha, state) == Ok(digest)
    ensures var p := Opened(engine, m, entrants, StateEntry(state, digest, 0), state, bound);
      WellPlayed(engine, m, header, state, Follow([Entry("header", header)], p))
  {
    hide IsLawful, PlayFrom, ShakeFrom, RulingReplays, SeatsTyped, AcceptedMoves, Bodies, Digest, RejectionRecorded;
    var h, opening, shake := Entry("header", header), StateEntry(state, digest, 0), ShakeFrom(engine, entrants, 0);
    OpenedInnerKinds(engine, m, entrants, opening, state, bound);
    ShakeIsOffBoard(engine, entrants, 0);
    ShakeHasSummary(engine, entrants, 0);
    RuntimeReplays(m.game);
    hide ForfeitRecorded;
    match (shake.fault, shake.outcome)
    case (Some((seat, fault)), _) =>
      var error := HandshakeError(fault, seat);
      Regroup4(h, shake.entries, error, opening);
      OffBoardPlaysNothing(engine, m.game, header, [h] + shake.entries + [error]);
      OpenedAlone(engine, m, header, [h] + shake.entries + [error], state, digest);
    case (None, Some(live)) =>
      Regroup3(h, shake.entries, opening, []);
      OffBoardPlaysNothing(engine, m.game, header, [h] + shake.entries);
      OpenedAlone(engine, m, header, [h] + shake.entries, state, digest);
    case (None, None) =>
      var play := PlayFrom(m.game, engine, entrants, state, 0, bound);
      Regroup3(h, shake.entries, opening, play.entries);
      OffBoardPlaysNothing(engine, m.game, header, [h] + shake.entries);
      OpeningStands(engine, m, header, [h] + shake.entries, state, digest);
      PlayedThrough(engine, m, header, entrants, [h] + shake.entries + [opening], state, bound);
  }

  // A board set up and never played on.
  lemma OpenedAlone(engine: Engine, m: Match, header: Body, before: seq<Entry>, state: Json, digest: string)
    requires NothingPlayed(engine, m.game, header, before)
    requires "seed" in header && m.game.setup(header["seed"]) == Ok(state) && Digest(engine.sha, state) == Ok(digest)
    ensures var all := before + [StateEntry(state, digest, 0)];
      && IsLawful(engine, m.game, header, all) && SeatsTyped(all)
      && AcceptedMoves(all) == [] && |Bodies(all, "state")| == 1
  {
    hide IsLawful, Digest, SeatsTyped, AcceptedMoves, Bodies;
    var opening := StateEntry(state, digest, 0);
    OpeningStands(engine, m, header, before, state, digest);
    AcceptedPush(before, opening);
    BodiesPush(before, opening, "state");
  }

  lemma RuntimeReplays(game: Game)
    ensures RulingReplays(game, RuntimeForfeit)
    ensures forall f :: RulingReplays(game, EngineFault(f, false))
  {
  }

  // -- the verdict on a run -----------------------------------------------

  // The endings a verifier can reproduce from the records.
  predicate Replayable(game: Game, ending: Ending) {
    match ending
    case Terminal(_) => true
    case IllegalMove(_, _, _, why) => why != "" && RulingReplays(game, ending)
    case EngineFault(fault, inApply) => !inApply && 0 < |fault| <= 160
    case RuntimeForfeit => false
    case MoveBound => false
  }

  lemma {:induction false} ForfeitIsIndexed(entries: seq<Entry>, i: nat)
    requires i < |entries| && entries[i].kind == "forfeit"
    ensures i in ForfeitIndexes(entries)
  {
    if i < |entries| - 1 {
      ForfeitIsIndexed(entries[..|entries| - 1], i);
    }
  }

  lemma NoForfeitEvidence(entries: seq<Entry>)
    requires Bodies(entries, "forfeit") == []
    ensures ForfeitEvidenceOk(ForfeitEvidence(entries))
  {
    ForfeitPositions(entries);
  }

  // A runtime forfeit follows a state, or is itself followed by one: never evidence.
  lemma RuntimeForfeitFails(es: seq<Entry>, result: Entry)
    requires Tail(es, RuntimeForfeit) && |Bodies(es + [result], "forfeit")| == 1
    ensures !ForfeitEvidenceOk(ForfeitEvidence(es + [result]))
  {
    var entries := es + [result];
    assert entries[..|es|] == es;
    assert entries[|es| - 1] == es[|es| - 1] && entries[|es| - 2] == es[|es| - 2];
    ForfeitPositions(entries);
    hide Bodies, ForfeitIndexes, ForfeitShape;
  }

  lemma RejectionIsEvidence(es: seq<Entry>, result: Entry, seat: Json, state: Json, recorded: Json, why: string)
    requires Tail(es, IllegalMove(seat, state, recorded, why)) && |Bodies(es + [result], "forfeit")| == 1
    ensures ForfeitEvidenceOk(ForfeitEvidence(es + [result])) <==> why != "" && IsSeat(seat)
  {
    var entries := es + [result];
    assert entries[|es| - 1] == es[|es| - 1] && entries[|es| - 2] == es[|es| - 2];
    ForfeitPositions(entries);
    ForfeitIsIndexed(entries, |es| - 1);
    assert ForfeitIndexes(entries) == [ForfeitIndexes(entries)[0]];
    hide Bodies, ForfeitIndexes;
  }

  lemma RejectedSeatIsTyped(es: seq<Entry>, seat: Json, state: Json, recorded: Json, why: string)
    requires Tail(es, IllegalMove(seat, state, recorded, why)) && SeatsTyped(es)
    ensures IsSeat(seat)
  {
    BodiesMembership(es, "move");
    assert es[|es| - 2] in es && es[|es| - 2] == Entry("move", es[|es| - 2].body);
  }

  lemma UnscoredByResult(es: seq<Entry>, result: Entry)
    requires result.kind == "result"
    ensures Bodies(es + [result], "state") == Bodies(es, "state")
    ensures Bodies(es + [result], "forfeit") == Bodies(es, "forfeit")
    ensures Bodies(es + [result], "abort") == Bodies(es, "abort")
    ensures Bodies(es + [result], "engine_error") == Bodies(es, "engine_error")
    ensures Bodies(es + [result], "move") == Bodies(es, "move")
    ensures SeatsTyped(es + [result]) <==> SeatsTyped(es)
    ensures AcceptedMoves(es + [result]) == AcceptedMoves(es)
  {
    OtherKindStays(es, result, "state");
    OtherKindStays(es, result, "forfeit");
    OtherKindStays(es, result, "abort");
    OtherKindStays(es, result, "engine_error");
    OtherKindStays(es, result, "move");
    AcceptedPush(es, result);
    hide Bodies, AcceptedMoves;
    assert AcceptedMoves(es) + [] == AcceptedMoves(es);
  }

  lemma OtherKindStays(es: seq<Entry>, e: Entry, kind: string)
    requires e.kind != kind
    ensures Bodies(es + [e], kind) == Bodies(es, kind)
  {
    BodiesPush(es, e, kind);
    hide Bodies;
    assert Bodies(es, kind) + [] == Bodies(es, kind);
  }

  // The checks that depend on how the run ended.
  ghost predicate EndingChecks(entries: seq<Entry>) {
    && ForfeitEvidenceOk(ForfeitEvidence(entries))
    && Bodies(entries, "abort") == [] && ErrorsShape(Bodies(entries, "engine_error"))
  }

  /** The forfeit, abort and engine-error checks come out by the ending alone. */
  lemma EndingDecidesChecks(game: Game, start: Json, es: seq<Entry>, result: Entry, live: Live, ending: Ending)
    requires Summarizes(game, start, es, live, ending) && Tail(es, ending) && result.kind == "result"
    requires SeatsTyped(es) && RulingReplays(game, ending)
    ensures EndingChecks(es + [result]) <==> Replayable(game, ending)
  {
    UnscoredByResult(es, result);
    hide SeatsTyped, RulingReplays, ForfeitEvidence, AllStates, LastState, Bodies, ErrorShape;
    match ending
    case Terminal(_) => NoForfeitEvidence(es + [result]);
    case MoveBound =>
    case EngineFault(_, _) =>
      NoForfeitEvidence(es + [result]);
      FaultReplays(game, ending);
    case RuntimeForfeit => RuntimeForfeitFails(es, result);
    case IllegalMove(seat, state, recorded, why) =>
      RejectionIsEvidence(es, result, seat, state, recorded, why);
      RejectedSeatIsTyped(es, seat, state, recorded, why);
  }

  lemma FaultReplays(game: Game, ending: Ending)
    requires ending.EngineFault?
    ensures RulingReplays(game, ending) <==> !ending.inApply
  {
  }
}
