/**
 A message that cannot be recorded voids the match it is sent in (arena/match.py, _safe
 and the fault boundary around play), and the void passes replay.
 */
module VoidingReplies {
  import opened Wrappers
  import opened JsonValues
  import opened Canonical
  import opened Games
  import opened Referee
  import opened LiveScore
  import opened Completeness
  import opened RunVerdict
  import opened GameContract
  import opened Replay
  import Scoring
  import opened Noninterference
  import opened Example

  // A reply the game rules on, one way or the other.
  predicate RuledOn(game: Game, state: Json, reply: Reply) {
    reply.Message? && reply.value.Obj? && game.legal(state, Get(reply.value.fields, "move")).Ok?
  }

  /** For every game and position: a seat that is asked to move, and whose move is ruled on,
      voids the match by a reply that cannot be recorded. */
  lemma UnrecordableVoids(game: Game, engine: Engine, a: Entrants, state: Json, turn: nat, bound: int)
    requires Asks(game, state, turn, bound) && RuledOn(game, state, a.move(turn))
    requires Unrecordable(a.move(turn).value)
    ensures PlayFrom(game, engine, a, state, turn, bound) == Faulted(UNRECORDED, turn, false)
  {
    AskedIsHeard(game, engine, a, state, turn, bound);
    RulingReads(game, engine, state, ToMove(state).value, a.move(turn).value);
    hide RuleOn, Unrecordable, Asks, TakeTurn;
    TurnStarts(game, engine, a, state, turn, bound);
  }

  // -- the same reply with a note -----------------------------------------------------

  // Half of a surrogate pair, in a key that no rule reads.
  const NOTE: Json := Broken([0xD800])

  function Noted(reply: Reply): Reply {
    if reply.Message? && reply.value.Obj? then Message(Obj(reply.value.fields["note" := NOTE])) else reply
  }

  // The same entrants, but for a note in the reply of one turn.
  function Noting(a: Entrants, t: nat): Entrants {
    Entrants(a.hello, (turn: nat) => if turn == t then Noted(a.move(turn)) else a.move(turn))
  }

  lemma NotedIsTwin(reply: Reply)
    ensures SameReply("move", reply, Noted(reply))
    ensures reply.Message? && reply.value.Obj? && Checked(reply.value) ==> Unrecordable(Noted(reply).value)
  {
    if reply.Message? && reply.value.Obj? {
      var fields := Noted(reply).value.fields;
      assert fields["note"] == NOTE && !Textual(NOTE);
    }
  }

  lemma NotingIsTwin(a: Entrants, t: nat)
    ensures Twins(a, Noting(a, t))
  {
    hide Noted;
    NotedIsTwin(a.move(t));
  }

  // The position at turn t of a play that has reached this one.
  function PositionAt(game: Game, engine: Engine, a: Entrants, state: Json, turn: nat, bound: int, t: nat): Option<Json>
    requires turn <= t
    decreases t - turn
  {
    if turn == t then Some(state)
    else
      match NextPosition(game, engine, a, state, turn, bound)
      case Some(next) => PositionAt(game, engine, a, next, turn + 1, bound, t)
      case None => None
  }

  lemma NoteIsLater(game: Game, engine: Engine, a: Entrants, state: Json, turn: nat, bound: int, t: nat)
    requires turn != t
    ensures NextPosition(game, engine, a, state, turn, bound) ==
      NextPosition(game, engine, Noting(a, t), state, turn, bound)
  {
    hide HearMove, Noted, Digest, ToMove, SeatIndex;
    assert Noting(a, t).move(turn) == a.move(turn);
  }

  lemma {:induction false} NoteVoidsPlay(game: Game, engine: Engine, a: Entrants, state: Json, turn: nat, bound: int,
                                         t: nat)
    requires turn <= t && PositionAt(game, engine, a, state, turn, bound, t).Some?
    requires var s := PositionAt(game, engine, a, state, turn, bound, t).value;
      Asks(game, s, t, bound) && RuledOn(game, s, a.move(t)) && Checked(a.move(t).value)
    ensures var p := PlayFrom(game, engine, Noting(a, t), state, turn, bound); Spoiled(p.live, p.ending)
    decreases t - turn
  {
    hide PlayFrom, NextPosition, Noted, Unrecordable;
    if turn == t {
      NotedIsTwin(a.move(t));
      NotedIsRuledOn(game, state, a.move(t));
      UnrecordableVoids(game, engine, Noting(a, t), state, t, bound);
    } else {
      hide Asks, RuledOn, Checked, Noting;
      var next := NextPosition(game, engine, a, state, turn, bound).value;
      NoteVoidsPlay(game, engine, a, next, turn + 1, bound, t);
      NoteIsLater(game, engine, a, state, turn, bound, t);
      NextIsInTime(game, engine, a, state, turn, bound);
      GoesOn(game, engine, Noting(a, t), state, turn, bound);
    }
  }

  lemma NotedIsRuledOn(game: Game, state: Json, reply: Reply)
    requires RuledOn(game, state, reply)
    ensures RuledOn(game, state, Noted(reply))
  {
    assert Get(Noted(reply).value.fields, "move") == Get(reply.value.fields, "move");
  }

  lemma NextIsInTime(game: Game, engine: Engine, a: Entrants, state: Json, turn: nat, bound: int)
    requires NextPosition(game, engine, a, state, turn, bound).Some?
    ensures turn < bound
  {
    hide TakeTurn;
    AcceptedInTime(game, engine, a, state, turn, bound);
  }

  // -- a whole run ----------------------------------------------------------------------

  // Turn t of a run comes to a reply that the game rules on and that holds no float.
  predicate ComesToRuling(engine: Engine, m: Match, a: Entrants, t: nat) {
    var board := Prepared(engine, m);
    && board.Ok? && Started(engine, a)
    && var s := PositionAt(m.game, engine, a, board.value.state, 0, board.value.bound, t);
    && s.Some? && Asks(m.game, s.value, t, board.value.bound)
    && RuledOn(m.game, s.value, a.move(t)) && Checked(a.move(t).value)
  }

  lemma SameHellos(engine: Engine, a: Entrants, t: nat, i: nat)
    requires i <= 2
    ensures ShakeFrom(engine, a, i) == ShakeFrom(engine, Noting(a, t), i)
    decreases 2 - i
  {
    hide Greet, ReadyEntry, HandshakeForfeit;
    if i < 2 {
      SameHellos(engine, a, t, i + 1);
    }
  }

  // Where play is spoiled, so is the run.
  lemma SpoiledPlayVoids(engine: Engine, m: Match, a: Entrants)
    requires Prepared(engine, m).Ok? && Started(engine, a)
    requires var board := Prepared(engine, m).value;
      var p := PlayFrom(m.game, engine, a, board.state, 0, board.bound); Spoiled(p.live, p.ending)
    ensures RunOf(engine, m, a).Ok? && Voided(RunOf(engine, m, a).value)
  {
    hide Prepared, PlayFrom, ShakeFrom, ScoreOrVoid, ResultEntry, HeaderBody, Agrees, Scoring.Projected;
    var board := Prepared(engine, m).value;
    var opening := StateEntry(board.state, board.digest, 0);
    assert RunOf(engine, m, a).Ok?;
    RunProjects(engine, m, a);
    AgreesOnVoid(RunOf(engine, m, a).value);
  }

  lemma AgreesOnVoid(run: Run)
    requires Agrees(run.scored, run.live, run.ending) && Spoiled(run.live, run.ending)
    ensures Voided(run)
  {
  }

  /** Any seat can void any match: at every turn that comes to a ruling on a reply without
      floats, whatever the ruling and whoever stood to win, the same reply with one such note
      in it leaves a run without a winner; and for a game that keeps the contract that run
      passes replay. */
  lemma OneNoteVoids(engine: Engine, m: Match, a: Entrants, t: nat)
    requires ComesToRuling(engine, m, a, t)
    ensures Twins(a, Noting(a, t))
    ensures RunOf(engine, m, Noting(a, t)).Ok? && Voided(RunOf(engine, m, Noting(a, t)).value)
    ensures Honest(engine, m) && Contract(m.game, HeaderBody(engine, m)) ==>
      Examined(engine, RunOf(engine, m, Noting(a, t)).value.entries).pass
  {
    hide PlayFrom, ShakeFrom, Prepared, Twins, RunOf, Honest, Contract, HeaderBody, Examined, PositionAt, Asks,
         RuledOn, Checked;
    var board := Prepared(engine, m).value;
    NotingIsTwin(a, t);
    NoteVoidsPlay(m.game, engine, a, board.state, 0, board.bound, t);
    SameHellos(engine, a, t, 0);
    SpoiledPlayVoids(engine, m, Noting(a, t));
    if Honest(engine, m) && Contract(m.game, HeaderBody(engine, m)) {
      RulesDecidedRunsPass(engine, m, Noting(a, t));
      UnrecordedReplays(m.game);
    }
  }

  lemma UnrecordedReplays(game: Game)
    ensures Replayable(game, EngineFault(UNRECORDED, false))
  {
  }

  // -- an instance ------------------------------------------------------------------------

  lemma SmallRunComesToRuling(why: string)
    ensures var game := SmallGame(None, why, 1);
      ComesToRuling(SmallEngine(game), SmallMatch(game), Saying(READY), 0)
  {
    var game := SmallGame(None, why, 1);
    var engine, m, a := SmallEngine(game), SmallMatch(game), Saying(READY);
    assert a.move(0) == Message(Obj(map[])) && m.game == game;
    hide Prepared, Asks, RuledOn, SmallGame, SmallEngine, SmallMatch, Saying, Started, ComesToRuling, READY, OPENING,
         Checked;
    SmallIsPrepared(None, why, 1);
    SmallStarts(game);
    SmallAsks(why);
    OpeningRuling(engine, m, a, OPENING, 1);
  }

  lemma OpeningRuling(engine: Engine, m: Match, a: Entrants, state: Json, bound: int)
    requires var board := Prepared(engine, m); board.Ok? && board.value.state == state && board.value.bound == bound
    requires Started(engine, a) && Asks(m.game, state, 0, bound)
    requires RuledOn(m.game, state, a.move(0)) && Checked(a.move(0).value)
    ensures ComesToRuling(engine, m, a, 0)
  {
    hide Prepared, Asks, RuledOn, Started;
  }

  lemma SmallStarts(game: Game)
    ensures Started(SmallEngine(game), Saying(READY))
  {
    var engine, a := SmallEngine(game), Saying(READY);
    assert a.hello(0) == Message(READY) && a.hello(1) == Message(READY) && engine.repr(READY) == "";
    hide Greet, SmallEngine, Saying, Started, READY;
    HelloIsReady(engine, READY);
    BothReadyStarts(engine, a, READY, READY);
  }

  lemma SmallAsks(why: string)
    ensures var game := SmallGame(None, why, 1);
      Asks(game, OPENING, 0, 1) && RuledOn(game, OPENING, Message(Obj(map[]))) && Checked(Obj(map[]))
  {
  }

  lemma BothReadyStarts(engine: Engine, a: Entrants, first: Json, second: Json)
    requires Greet(engine, a.hello(0)) == Ready(first) && Greet(engine, a.hello(1)) == Ready(second)
    ensures Started(engine, a)
  {
    hide Greet, ReadyEntry;
    assert ShakeFrom(engine, a, 2) == Shake([], None, None);
    assert ShakeFrom(engine, a, 1).outcome.None? && ShakeFrom(engine, a, 1).fault.None?;
  }

  lemma NothingNoted(a: Entrants, t: nat)
    requires a.move(t) == Message(Obj(map[]))
    ensures Noting(a, t).move(t) == Message(Obj(map["note" := NOTE]))
  {
    var nothing: Body := map[];
    assert nothing["note" := NOTE] == map["note" := NOTE];
  }

  /** One seat loses by an illegal move. Had it sent the same move with such a note, nobody
      would have won, and the verifier of the same engine says PASS. */
  lemma LoserVoids()
    ensures var game := SmallGame(None, "over", 1);
      var engine, m, a, b := SmallEngine(game), SmallMatch(game), Saying(READY), Noting(Saying(READY), 0);
      && Twins(a, b) && b.move(0) == Message(Obj(map["note" := NOTE]))
      && RunOf(engine, m, a).Ok? && RunOf(engine, m, a).value.scored.winner == Some(1)
      && RunOf(engine, m, b).Ok? && RunOf(engine, m, b).value.scored.winner == None
      && Examined(engine, RunOf(engine, m, b).value.entries).pass
  {
    var game := SmallGame(None, "over", 1);
    var engine, m, a := SmallEngine(game), SmallMatch(game), Saying(READY);
    assert a.move(0) == Message(Obj(map[])) && m.game == game;
    NothingNoted(a, 0);
    SmallRun(None, "over", READY);
    SmallRunComesToRuling("over");
    SmallIsHonest(game);
    SmallKeepsContract(None, "over", 1, HeaderBody(engine, m));
    hide SmallEngine, SmallMatch, SmallGame, Saying, Noting, RunOf, Honest, Contract, HeaderBody, Examined,
         ComesToRuling, Twins, Scene, Scoring.Projected;
    RunProjects(engine, m, a);
    OneNoteVoids(engine, m, a, 0);
  }
}
