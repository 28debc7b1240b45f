/**
 For a deterministic game the score of a finished run never faults and agrees with the
 outcome decided while playing, and a transcript never grows past the move bound.
 */
module LiveScore {
  import opened Wrappers
  import opened JsonValues
  import opened Canonical
  import opened Games
  import opened Scoring
  import opened Referee
  import opened Verdict
  import opened Adjudication

  // -- the handshake ------------------------------------------------------

  predicate ShakeSummary(sh: Shake) {
    && Bodies(sh.entries, "state") == [] && Bodies(sh.entries, "engine_error") == []
    && Bodies(sh.entries, "move") == [] && Bodies(sh.entries, "abort") == []
    && (sh.fault.Some? ==> sh.fault.value.0 < 2)
    && !(sh.outcome.Some? && sh.fault.Some?)
    && if sh.outcome.Some? then ForfeitRecorded(Bodies(sh.entries, "forfeit"), sh.outcome.value)
       else Bodies(sh.entries, "forfeit") == []
  }

  lemma EmptyShake()
    ensures ShakeSummary(Shake([], None, None))
    ensures forall f: (nat, Fault) | f.0 < 2 :: ShakeSummary(Shake([], None, Some(f)))
  {
  }

  lemma ForfeitShake(i: nat, reason: string, detail: Option<string>)
    ensures var outcome := Some(Live(Some(1 - i), "forfeit:" + reason));
      ShakeSummary(Shake([HandshakeForfeit(i, reason, detail)], outcome, None))
  {
    var e := HandshakeForfeit(i, reason, detail);
    StopWithOne(e);
    BodiesOfOne(e, "move");
  }

  lemma ReadyShake(e: Entry, later: Shake)
    requires e.kind == "ready" && ShakeSummary(later)
    ensures ShakeSummary(later.(entries := [e] + later.entries))
  {
    hide ForfeitRecorded, Bodies;
    OtherKindAdds(e, later.entries, "state");
    OtherKindAdds(e, later.entries, "engine_error");
    OtherKindAdds(e, later.entries, "move");
    OtherKindAdds(e, later.entries, "abort");
    OtherKindAdds(e, later.entries, "forfeit");
  }

  lemma OtherKindAdds(e: Entry, later: seq<Entry>, kind: string)
    requires e.kind != kind
    ensures Bodies([e] + later, kind) == Bodies(later, kind)
  {
    hide Bodies;
    BodiesOfOne(e, kind);
    BodiesAfterNone([e], later, kind);
  }

  lemma {:induction false} ShakeHasSummary(engine: Engine, entrants: Entrants, i: nat)
    requires i <= 2
    ensures ShakeSummary(ShakeFrom(engine, entrants, i))
    decreases 2 - i
  {
    hide ShakeSummary, Greet;
    EmptyShake();
    if i < 2 {
      match Greet(engine, entrants.hello(i))
      case Refused(reason, detail) => ForfeitShake(i, reason, detail);
      case Broke(_) =>
      case Ready(message) =>
        ShakeHasSummary(engine, entrants, i + 1);
        ReadyShake(ReadyEntry(i, message), ShakeFrom(engine, entrants, i + 1));
    }
  }

  // -- from the opening on ------------------------------------------------

  predicate HasState(es: seq<Entry>) {
    Bodies(es, "state") != []
  }

  lemma OpeningFacts(pre: seq<Entry>, e: Entry, state: Json, start: Json)
    requires e.kind == "state" && "state" in e.body && e.body["state"] == state
    requires Bodies(pre, "state") == []
    ensures Bodies(pre + [e], "state") == [e.body] && LastState(start, Bodies(pre + [e], "state")) == state
    ensures Bodies(pre + [e], "forfeit") == Bodies(pre, "forfeit")
    ensures Bodies(pre + [e], "engine_error") == Bodies(pre, "engine_error")
    ensures Bodies(pre + [e], "move") == Bodies(pre, "move")
    ensures Bodies(pre + [e], "abort") == Bodies(pre, "abort")
  {
    forall kind | kind in ["state", "forfeit", "engine_error", "move", "abort"]
      ensures Bodies(pre + [e], kind) == Bodies(pre, kind) + (if e.kind == kind then [e.body] else [])
    {
      BodiesPush(pre, e, kind);
    }
    assert forall s: seq<Body> :: s + [] == s && [] + s == s;
  }

  lemma OpenedSummary(engine: Engine, m: Match, entrants: Entrants, opening: Entry, state: Json, bound: int)
    requires opening.kind == "state" && "state" in opening.body && opening.body["state"] == state
    ensures var p := Opened(engine, m, entrants, opening, state, bound);
      && Summarizes(m.game, state, p.entries, p.live, p.ending) && HasState(p.entries)
      && |Bodies(p.entries, "move")| <= (if 0 < bound then bound else 0)
  {
    var sh := ShakeFrom(engine, entrants, 0);
    ShakeHasSummary(engine, entrants, 0);
    hide ForfeitRecorded, ShakeFrom, PlayFrom;
    OpeningFacts(sh.entries, opening, state, state);
    match (sh.fault, sh.outcome)
    case (Some((seat, fault)), _) => FaultedShake(m.game, sh, fault, seat, opening, state);
    case (None, Some(live)) =>
    case (None, None) =>
      var later := PlayFrom(m.game, engine, entrants, state, 0, bound);
      PlaySummary(m.game, engine, entrants, state, 0, bound);
      PlayHasShape(m.game, engine, entrants, state, 0, bound);
      SummaryFollows(m.game, state, state, sh.entries + [opening], later.entries, later.live, later.ending);
      BodiesAppend(sh.entries + [opening], later.entries, "move");
      BodiesAppend(sh.entries + [opening], later.entries, "state");
  }

  lemma FaultedShake(game: Game, sh: Shake, fault: Fault, seat: nat, opening: Entry, state: Json)
    requires ShakeSummary(sh) && sh.fault == Some((seat, fault))
    requires opening.kind == "state" && "state" in opening.body
    ensures var es := sh.entries + [HandshakeError(fault, seat), opening];
      && Summarizes(game, state, es, VOIDED, EngineFault(fault, false))
      && HasState(es) && Bodies(es, "move") == []
  {
    var error := HandshakeError(fault, seat);
    var tail := [error, opening];
    ErrorsAreShaped(fault, 0, seat);
    hide Bodies, ForfeitRecorded, ErrorRecorded;
    BodiesAfterNone(sh.entries, tail, "state");
    BodiesAfterNone(sh.entries, tail, "forfeit");
    BodiesAfterNone(sh.entries, tail, "engine_error");
    BodiesAfterNone(sh.entries, tail, "abort");
    BodiesAfterNone(sh.entries, tail, "move");
    BodiesOfTwo(error, opening, "state");
    BodiesOfTwo(error, opening, "forfeit");
    BodiesOfTwo(error, opening, "engine_error");
    BodiesOfTwo(error, opening, "abort");
    BodiesOfTwo(error, opening, "move");
    assert [error.body] + [] == [error.body] && [] + [opening.body] == [opening.body];
  }

  lemma SceneSummary(engine: Engine, m: Match, entrants: Entrants)
    requires Scene(engine, m, entrants).Ok?
    ensures m.game.setup(Int(m.seed)).Ok?
    ensures var state := m.game.setup(Int(m.seed)).value;
      && m.game.moveBound(state).Ok? && Digest(engine.sha, state).Ok?
      && var bound := m.game.moveBound(state).value;
      && var p := Scene(engine, m, entrants).value;
      && Summarizes(m.game, state, p.entries, p.live, p.ending) && HasState(p.entries)
      && |Bodies(p.entries, "move")| <= (if 0 < bound then bound else 0)
  {
    hide Summarizes, Opened, HeaderBody, Digest, Neutral, Bodies;
    var header := Entry("header", HeaderBody(engine, m));
    var state := m.game.setup(Int(m.seed)).value;
    var bound := m.game.moveBound(state).value;
    var opening := StateEntry(state, Digest(engine.sha, state).value, 0);
    var p := Opened(engine, m, entrants, opening, state, bound);
    OpenedSummary(engine, m, entrants, opening, state, bound);
    HeaderIsNeutral(header, state);
    SummaryFollows(m.game, state, state, [header], p.entries, p.live, p.ending);
    BodiesAppend([header], p.entries, "move");
    BodiesAppend([header], p.entries, "state");
    BodiesOfOne(header, "move");
  }

  lemma HeaderIsNeutral(e: Entry, state: Json)
    requires e.kind == "header"
    ensures Neutral([e]) && LastState(state, Bodies([e], "state")) == state
  {
    StopWithOne(e);
  }

  // -- the projection of a run --------------------------------------------

  predicate Projectable(e: Entry) {
    ProjectedEntry(e).Ok?
  }

  lemma {:induction false} ProjectableEntries(es: seq<Entry>)
    requires forall e | e in es :: Projectable(e)
    ensures Projected(es).Ok?
  {
    if es != [] {
      assert es[|es| - 1] in es;
      ProjectableEntries(es[..|es| - 1]);
    }
  }

  lemma {:induction false} StrippedRowsOk(rows: seq<Json>)
    requires forall r | r in rows :: r.Obj?
    ensures StrippedRows(rows).Ok?
  {
    if rows != [] {
      StrippedRowsOk(rows[1..]);
    }
  }

  lemma HeaderProjects(engine: Engine, m: Match)
    ensures Projectable(Entry("header", HeaderBody(engine, m)))
  {
    var body := HeaderBody(engine, m);
    StrippedKeeps(body, "entrants");
    assert body["entrants"] == List(SeatRows(m.seats));
    StrippedRowsOk(SeatRows(m.seats));
  }

  // The kinds that may stand between the header and the result.
  const INNER_KINDS: set<string> := {"ready", "state", "move", "forfeit", "abort", "engine_error"}

  predicate InnerKinds(es: seq<Entry>) {
    forall e | e in es :: e.kind in INNER_KINDS
  }

  lemma {:induction false} PlayInnerKinds(game: Game, engine: Engine, entrants: Entrants, state: Json, turn: nat,
                                          bound: int)
    ensures InnerKinds(PlayFrom(game, engine, entrants, state, turn, bound).entries)
    decreases if turn < bound then bound - turn else 0
  {
    PlayHasShape(game, engine, entrants, state, turn, bound);
    ShapeInnerKinds(PlayFrom(game, engine, entrants, state, turn, bound).entries);
  }

  lemma {:induction false} ShapeInnerKinds(es: seq<Entry>)
    requires PlayShape(es)
    ensures InnerKinds(es)
  {
    if |es| >= 2 && es[1].kind == "state" {
      ShapeInnerKinds(es[2..]);
      assert es == [es[0], es[1]] + es[2..];
    }
  }

  lemma {:induction false} ShakeInnerKinds(engine: Engine, entrants: Entrants, i: nat)
    requires i <= 2
    ensures InnerKinds(ShakeFrom(engine, entrants, i).entries)
    decreases 2 - i
  {
    hide Greet;
    if i < 2 {
      ShakeInnerKinds(engine, entrants, i + 1);
    }
  }

  lemma OpenedInnerKinds(engine: Engine, m: Match, entrants: Entrants, opening: Entry, state: Json, bound: int)
    requires opening.kind == "state"
    ensures InnerKinds(Opened(engine, m, entrants, opening, state, bound).entries)
  {
    ShakeInnerKinds(engine, entrants, 0);
    PlayInnerKinds(m.game, engine, entrants, state, 0, bound);
    hide ShakeFrom, PlayFrom;
  }

  lemma SceneHeader(engine: Engine, m: Match, entrants: Entrants)
    requires Scene(engine, m, entrants).Ok?
    ensures var es := Scene(engine, m, entrants).value.entries;
      && es != [] && es[0] == Entry("header", HeaderBody(engine, m)) && InnerKinds(es[1..])
  {
    hide HeaderBody, Opened, Digest, CanonicalBytes, InnerKinds;
    var state := m.game.setup(Int(m.seed)).value;
    var bound := m.game.moveBound(state).value;
    var opening := StateEntry(state, Digest(engine.sha, state).value, 0);
    OpenedInnerKinds(engine, m, entrants, opening, state, bound);
    var es := Scene(engine, m, entrants).value.entries;
    assert es[1..] == Opened(engine, m, entrants, opening, state, bound).entries;
  }

  lemma InnersProject(es: seq<Entry>)
    requires InnerKinds(es)
    ensures forall e | e in es :: Projectable(e)
  {
  }

  lemma HeaderedProjects(engine: Engine, m: Match, es: seq<Entry>)
    requires es != [] && es[0] == Entry("header", HeaderBody(engine, m)) && InnerKinds(es[1..])
    ensures Projected(es).Ok?
  {
    HeaderProjects(engine, m);
    hide HeaderBody, Projectable, InnerKinds, Projected;
    InnersProject(es[1..]);
    forall e | e in es ensures Projectable(e) {
      if e != es[0] {
        assert e in es[1..];
      }
    }
    ProjectableEntries(es);
  }

  // -- the score ----------------------------------------------------------

  lemma ProjectedStates(es: seq<Entry>)
    requires Projected(es).Ok? && AllStates(Bodies(es, "state"))
    ensures AllStates(Bodies(Projected(es).value, "state"))
  {
    ProjectedBodies(es, "state");
    var states := Bodies(es, "state");
    forall i | 0 <= i < |states| ensures "state" in Stripped(states[i]) {
      assert states[i] in states;
      StrippedKeeps(states[i], "state");
    }
  }

  lemma ForfeitScores(str: Json -> string, es: seq<Entry>, live: Live, moves: nat)
    requires Projected(es).Ok? && ForfeitRecorded(Bodies(es, "forfeit"), live)
    ensures var ps := Bodies(Projected(es).value, "forfeit");
      ps != [] && ForfeitScore(str, ps[0], moves) ==
        Ok(Scored(live.winner, live.reason, moves, Award(live.winner), true))
  {
    ProjectedBodies(es, "forfeit");
    var f := Bodies(es, "forfeit")[0];
    StrippedKeeps(f, "player");
    StrippedKeeps(f, "reason");
    hide Projected, Bodies;
  }

  // The committed score is the live outcome, but for the words used at the bound.
  predicate Agrees(s: Scored, live: Live, ending: Ending) {
    && s.winner == live.winner
    && (if ending.MoveBound? then s.reason == "unfinished" && live.reason == "move_bound_exceeded"
        else s.reason == live.reason)
  }

  lemma VoidAgrees(game: Game, str: Json -> string, states: seq<Body>, forfeits: seq<Body>, moves: nat,
                   live: Live, ending: Ending)
    requires AllStates(states) && ending.EngineFault? && live == VOIDED
    ensures var s := ScoreParts(game, str, states, forfeits, true, moves);
      s.Ok? && Agrees(s.value, live, ending) && s.value.moves == moves
  {
  }

  lemma DecidedAgrees(game: Game, str: Json -> string, states: seq<Body>, forfeits: seq<Body>, moves: nat,
                      live: Live, ending: Ending)
    requires AllStates(states) && states != [] && forfeits != [] && (ending.RuntimeForfeit? || ending.IllegalMove?)
    requires ForfeitScore(str, forfeits[0], moves) ==
      Ok(Scored(live.winner, live.reason, moves, Award(live.winner), true))
    ensures var s := ScoreParts(game, str, states, forfeits, false, moves);
      s.Ok? && Agrees(s.value, live, ending) && s.value.moves == moves
  {
    hide ForfeitScore, Award;
  }

  lemma PlayedOutAgrees(game: Game, str: Json -> string, states: seq<Body>, moves: nat, live: Live, ending: Ending)
    requires AllStates(states) && states != []
    requires var last := states[|states| - 1];
      && "state" in last
      && match ending
         case Terminal(end) => game.terminal(last["state"]) == Ok(Some(end)) && live == Live(end.winner, end.reason)
         case MoveBound => game.terminal(last["state"]) == Ok(None) && live == Live(None, "move_bound_exceeded")
         case _ => false
    ensures var s := ScoreParts(game, str, states, [], false, moves);
      s.Ok? && Agrees(s.value, live, ending) && s.value.moves == moves
  {
    hide Award;
  }

  lemma ScoreAgrees(game: Game, str: Json -> string, start: Json, es: seq<Entry>, live: Live, ending: Ending)
    requires Projected(es).Ok? && Summarizes(game, start, es, live, ending) && HasState(es)
    ensures ScoreOf(game, str, es).Ok? && Agrees(ScoreOf(game, str, es).value, live, ending)
    ensures ScoreOf(game, str, es).value.moves == |Bodies(es, "move")|
  {
    hide Projected, ForfeitRecorded, Bodies, ForfeitScore, LastState, Award, ScoreParts, Agrees, AllStates;
    var p := Projected(es).value;
    ProjectedBodies(es, "state");
    ProjectedBodies(es, "forfeit");
    ProjectedBodies(es, "engine_error");
    ProjectedBodies(es, "move");
    ProjectedStates(es);
    LastProjectedStateIs(es, start);
    var states, forfeits, moves := Bodies(p, "state"), Bodies(p, "forfeit"), |Bodies(es, "move")|;
    match ending
    case EngineFault(_, _) => VoidAgrees(game, str, states, forfeits, moves, live, ending);
    case RuntimeForfeit =>
      ForfeitScores(str, es, live, moves);
      DecidedAgrees(game, str, states, forfeits, moves, live, ending);
    case IllegalMove(_, _, _, _) =>
      ForfeitScores(str, es, live, moves);
      DecidedAgrees(game, str, states, forfeits, moves, live, ending);
    case Terminal(_) => PlayedOutAgrees(game, str, states, moves, live, ending);
    case MoveBound => PlayedOutAgrees(game, str, states, moves, live, ending);
  }

  lemma LastProjectedStateIs(es: seq<Entry>, start: Json)
    requires Projected(es).Ok? && HasState(es) && AllStates(Bodies(es, "state"))
    ensures var ps := Bodies(Projected(es).value, "state");
      ps != [] && "state" in ps[|ps| - 1] && ps[|ps| - 1]["state"] == LastState(start, Bodies(es, "state"))
  {
    ProjectedBodies(es, "state");
    var states := Bodies(es, "state");
    assert states[|states| - 1] in states;
    StrippedKeeps(states[|states| - 1], "state");
  }

  // Entries of other kinds than the scored ones do not move the score.
  lemma ResultLeavesScore(game: Game, str: Json -> string, es: seq<Entry>, result: Entry)
    requires result.kind == "result" && Projected(es).Ok?
    ensures ScoreOf(game, str, es + [result]) == ScoreOf(game, str, es)
    ensures Projected(es + [result]).Ok?
  {
    var p, q := Projected(es).value, ProjectedEntry(result).value;
    assert (es + [result])[..|es|] == es;
    assert Projected(es + [result]) == Ok(p + [q]);
    forall kind | kind in ["state", "forfeit", "engine_error", "move"]
      ensures Bodies(p + [q], kind) == Bodies(p, kind)
    {
      BodiesPush(p, q, kind);
      assert Bodies(p, kind) + [] == Bodies(p, kind);
    }
    hide Projected, Bodies, ScoreParts;
  }

  /** Where points and decisiveness part: a seat named -1 is asked like seat 1, and its forfeit
      is won by a seat 2, decisively, for no points. */
  lemma SeatTwoWinsNothing(game: Game, str: Json -> string, state: Json, digest: string, reason: string)
    ensures SeatIndex(Int(-1)) == Ok(1)
    ensures
      var entries := [StateEntry(state, digest, 0), MoveForfeit(Int(-1), reason, None, 0)];
      Score(game, str, entries) == Ok(Scored(Some(2), "forfeit:" + reason, 0, Points(0, 0), true))
  {
    var s, f := StateEntry(state, digest, 0), MoveForfeit(Int(-1), reason, None, 0);
    BodiesOfTwo(s, f, "state");
    BodiesOfTwo(s, f, "forfeit");
    BodiesOfTwo(s, f, "engine_error");
    BodiesOfTwo(s, f, "move");
    hide Bodies;
  }

  /** Live adjudication equals recomputation. For every deterministic game and any
      replies, scoring never faults; the committed winner is the one decided while
      playing, with the same reason except at the move bound; the result record does
      not change what the transcript scores to; and the run makes no more moves than
      the bound its opening position gave. */
  lemma LiveIsRecomputed(engine: Engine, m: Match, entrants: Entrants)
    requires RunOf(engine, m, entrants).Ok?
    ensures Scene(engine, m, entrants).Ok? && m.game.setup(Int(m.seed)).Ok?
    ensures m.game.moveBound(m.game.setup(Int(m.seed)).value).Ok?
    ensures
      var run := RunOf(engine, m, entrants).value;
      var bound := m.game.moveBound(m.game.setup(Int(m.seed)).value).value;
      && run.entries == Scene(engine, m, entrants).value.entries + [ResultEntry(run.scored, m)]
      && Agrees(run.scored, run.live, run.ending)
      && ScoreOf(m.game, engine.str, run.entries) == Ok(run.scored)
      && run.scored.moves == |Bodies(run.entries, "move")| <= (if 0 < bound then bound else 0)
  {
    SceneSummary(engine, m, entrants);
    SceneHeader(engine, m, entrants);
    hide Summarizes, Scene, InnerKinds, HeaderBody, ScoreOf, Agrees;
    var p := Scene(engine, m, entrants).value;
    HeaderedProjects(engine, m, p.entries);
    ScoreAgrees(m.game, engine.str, m.game.setup(Int(m.seed)).value, p.entries, p.live, p.ending);
    var result := ResultEntry(ScoreOf(m.game, engine.str, p.entries).value, m);
    ResultLeavesScore(m.game, engine.str, p.entries, result);
    BodiesPush(p.entries, result, "move");
    assert Bodies(p.entries, "move") + [] == Bodies(p.entries, "move");
  }
}
