/**
 arena/match.py: what a run records, as a function of the game and of the replies
 the two entrants happen to give.
 */
module Referee {
  import opened Wrappers
  import opened JsonValues
  import opened Canonical
  import opened Games
  import opened Scoring

  // What asking an entrant comes to: a message, an EntrantFailure, or any other
  // exception.
  datatype Reply =
    | Message(value: Json)
    | Failure(reason: string, detail: Option<string>)
    | Raise(fault: Fault)

  // The replies of one run, by seat for the handshake and by turn for the moves.
  datatype Entrants = Entrants(hello: nat -> Reply, move: nat -> Reply)

  datatype Seat = Seat(
    name: string,
    manifestDigest: string,
    script: Json,
    declaredEnv: Json,
    claimedModel: Json,
    executionClaim: string,
    passport: Option<Json>)

  datatype Match = Match(
    id: string,
    game: Game,
    seed: int,
    seats: seq<Seat>,
    admission: Json,
    policy: Json,
    isolation: Json,
    engineFiles: Json,
    attestationReason: string,
    moveTimeoutMs: int)

  // The variable `outcome` of the run, decided while playing.
  datatype Live = Live(winner: Option<int>, reason: string)

  // Why the run stopped.
  datatype Ending =
    | Terminal(end: End)
    | IllegalMove(seat: Json, state: Json, recorded: Json, why: string)
    | RuntimeForfeit
    | MoveBound
    | EngineFault(fault: Fault, inApply: bool)

  // -- header -------------------------------------------------------------

  function SeatRow(index: int, s: Seat): Json {
    var row := map[
      "seat" := Int(index),
      "name" := Str(s.name),
      "manifest_digest" := Str(s.manifestDigest),
      "script" := s.script,
      "declared_env" := s.declaredEnv,
      "claimed_model" := s.claimedModel,
      "execution_claim" := Str(s.executionClaim)];
    Obj(if s.passport.Some? then row["agent_passport" := s.passport.value] else row)
  }

  function SeatRows(seats: seq<Seat>): seq<Json> {
    seq(|seats|, i requires 0 <= i < |seats| => SeatRow(i, seats[i]))
  }

  function GameBlock(game: Game): Json {
    Obj(map["name" := Str(game.name), "version" := Str(game.version), "summary" := Str(game.summary)])
  }

  function EngineBlock(engine: Engine, files: Json): Json {
    Obj(map["digest" := Str(engine.digest), "files" := files])
  }

  function AttestationBlock(reason: string): Json {
    Obj(map["model_attested" := Bool(false), "execution_claims_attested" := Bool(false), "reason" := Str(reason)])
  }

  function HeaderBody(engine: Engine, m: Match): Body {
    map[
      "protocol" := Str("arena/1"),
      "match_id" := Str(m.id),
      "game" := GameBlock(m.game),
      "seed" := Int(m.seed),
      "engine" := EngineBlock(engine, m.engineFiles),
      "entrants" := List(SeatRows(m.seats)),
      "entrant_admission" := m.admission,
      "sandbox_policy" := m.policy,
      "isolation" := m.isolation,
      "attestation" := AttestationBlock(m.attestationReason),
      "limits" := Obj(map["move_timeout_ms" := Int(m.moveTimeoutMs)])]
  }

  // -- recording what an entrant said -------------------------------------

  const SAFE_LIMIT := 4096

  function Limited(s: string): string {
    if |s| > SAFE_LIMIT then s[..SAFE_LIMIT] else s
  }

  // _encodable: only NonCanonical is caught; text without a UTF-8 form raises.
  function EncodableOrRaise(j: Json): Result<bool, Fault> {
    match CanonicalBytes(j)
    case Ok(_) => Ok(true)
    case Err(NonCanonical) => Ok(false)
    case Err(UnicodeEncode) => Err(ErrorName(UnicodeEncode))
  }

  // _safe
  function Safe(engine: Engine, value: Json): Result<Json, Fault> {
    var encodable :- EncodableOrRaise(value);
    if !encodable then
      Ok(Obj(map["unencodable" := Bool(true), "repr" := Str(Limited(engine.repr(value)))]))
    else if |engine.repr(value)| > SAFE_LIMIT then
      Ok(Obj(map["truncated" := Bool(true), "repr" := Str(Limited(engine.repr(value)))]))
    else
      Ok(value)
  }

  // -- entries ------------------------------------------------------------

  function ReadyEntry(player: nat, message: Json): Entry {
    Entry("ready", map["player" := Int(player), "entrant_message" := message])
  }

  function DetailJson(detail: Option<string>): Json {
    if detail.Some? then Str(detail.value) else Null
  }

  function HandshakeForfeit(player: nat, reason: string, detail: Option<string>): Entry {
    Entry("forfeit", map["player" := Int(player), "reason" := Str(reason),
                         "detail" := DetailJson(detail), "phase" := Str("handshake")])
  }

  function MoveForfeit(player: Json, reason: string, detail: Option<string>, turn: nat): Entry {
    Entry("forfeit", map["player" := player, "reason" := Str(reason), "detail" := DetailJson(detail),
                         "phase" := Str("move"), "turn" := Int(turn)])
  }

  function HandshakeError(fault: Fault, seat: nat): Entry {
    Entry("engine_error", map["detail" := Str(fault), "code" := Str("handshake_failed"),
                              "seat" := Int(seat), "phase" := Str("handshake")])
  }

  function RefereeError(fault: Fault, turn: nat): Entry {
    Entry("engine_error", map["detail" := Str(fault), "code" := Str("referee_fault"),
                              "phase" := Str("referee"), "turn" := Int(turn)])
  }

  function StateEntry(state: Json, digest: string, turn: nat): Entry {
    Entry("state", map["state" := state, "state_digest" := Str(digest), "turn" := Int(turn)])
  }

  function AcceptedEntry(player: Json, turn: nat, move: Json, message: Json): Entry {
    Entry("move", map["player" := player, "turn" := Int(turn), "move" := move, "legal" := Bool(true),
                      "entrant_message" := message])
  }

  function RejectedEntry(player: Json, turn: nat, recorded: Json, why: string, message: Json): Entry {
    Entry("move", map["player" := player, "turn" := Int(turn), "move" := recorded, "legal" := Bool(false),
                      "rejected_because" := Str(why), "entrant_message" := message])
  }

  function AbortEntry(bound: int): Entry {
    Entry("abort", map["reason" := Str("move_bound_exceeded"), "bound" := Int(bound)])
  }

  function ResultEntry(scored: Scored, m: Match): Entry {
    Entry("result", map[
      "winner" := WinnerJson(scored.winner),
      "reason" := Str(scored.reason),
      "moves" := Int(scored.moves),
      "points" := scored.points,
      "decisive" := Bool(scored.decisive),
      "seats" := Obj(map["0" := Str(if |m.seats| > 0 then m.seats[0].name else ""),
                         "1" := Str(if |m.seats| > 1 then m.seats[1].name else "")]),
      "scored_from" := Str("referee_state_only"),
      "self_report_excluded" := Bool(true)])
  }

  // -- handshake ----------------------------------------------------------

  datatype Hello =
    | Ready(message: Json)
    | Refused(reason: string, detail: Option<string>)
    | Broke(fault: Fault)

  const NOT_AN_OBJECT := "top-level value must be an object"

  function Greet(engine: Engine, reply: Reply): Hello {
    match reply
    case Failure(reason, detail) => Refused(reason, detail)
    case Raise(fault) => Broke(fault)
    case Message(value) =>
      if !value.Obj? then Refused("malformed_message", Some(NOT_AN_OBJECT))
      else
        var kind := Get(value.fields, "type");
        if kind != Str("ready") then
          Refused("not_ready", Some("expected type=ready, got " + engine.repr(kind)))
        else
          match Safe(engine, value)
          case Ok(message) => Ready(message)
          case Err(fault) => Broke(fault)
  }

  // The handshake from seat i on: what it records and, if it ends the match, how.
  datatype Shake = Shake(entries: seq<Entry>, outcome: Option<Live>, fault: Option<(nat, Fault)>)

  function ShakeFrom(engine: Engine, entrants: Entrants, i: nat): Shake
    requires i <= 2
    decreases 2 - i
  {
    if i == 2 then Shake([], None, None)
    else
      match Greet(engine, entrants.hello(i))
      case Refused(reason, detail) =>
        Shake([HandshakeForfeit(i, reason, detail)], Some(Live(Some(1 - i), "forfeit:" + reason)), None)
      case Broke(fault) => Shake([], None, Some((i, fault)))
      case Ready(message) =>
        var later := ShakeFrom(engine, entrants, i + 1);
        later.(entries := [ReadyEntry(i, message)] + later.entries)
  }

  // -- play ---------------------------------------------------------------

  // procs[seat] for a two-element list.
  function SeatIndex(seat: Json): Result<nat, Fault> {
    match seat
    case Int(n) => if 0 <= n < 2 then Ok(n) else if -2 <= n < 0 then Ok(n + 2) else Err("IndexError")
    case Bool(b) => Ok(if b then 1 else 0)
    case _ => Err("TypeError")
  }

  // state["to_move"]
  function ToMove(state: Json): Result<Json, Fault> {
    if !state.Obj? then Err("TypeError")
    else if "to_move" !in state.fields then Err("KeyError")
    else Ok(state.fields["to_move"])
  }

  // One pass of the play loop, up to the application of an accepted move.
  datatype Turn =
    | Over
    | OutOfMoves
    | NoReply(seat: Json, reason: string, detail: Option<string>)
    | Rejected(seat: Json, recorded: Json, why: string, message: Json)
    | Accepted(seat: Json, move: Json, message: Json)

  function TakeTurn(game: Game, engine: Engine, entrants: Entrants, state: Json, turn: nat, bound: int)
    : Result<Turn, Fault>
  {
    var end :- game.terminal(state);
    if end.Some? then Ok(Over)
    else if turn >= bound then Ok(OutOfMoves)
    else
      var seat :- ToMove(state);
      var _ :- SeatIndex(seat);
      var _ :- game.observation(state, seat);
      HearMove(game, engine, state, seat, entrants.move(turn))
  }

  function HearMove(game: Game, engine: Engine, state: Json, seat: Json, reply: Reply): Result<Turn, Fault> {
    match reply
    case Failure(reason, detail) => Ok(NoReply(seat, reason, detail))
    case Raise(fault) => Err(fault)
    case Message(value) =>
      if !value.Obj? then Ok(NoReply(seat, "malformed_message", Some(NOT_AN_OBJECT)))
      else RuleOn(game, engine, state, seat, value)
  }

  function RuleOn(game: Game, engine: Engine, state: Json, seat: Json, reply: Json): Result<Turn, Fault>
    requires reply.Obj?
  {
    var move := Get(reply.fields, "move");
    var (ok, why) :- game.legal(state, move);
    if !ok then
      var encodable :- EncodableOrRaise(move);
      var message :- Safe(engine, reply);
      Ok(Rejected(seat, if encodable then move else Null, why, message))
    else
      var message :- Safe(engine, reply);
      // appending a move without canonical bytes raises
      match CanonicalBytes(move)
      case Err(e) => Err(ErrorName(e))
      case Ok(_) => Ok(Accepted(seat, move, message))
  }

  function SeatWinner(seat: Json): Option<int> {
    match OneMinus(seat)
    case Ok(w) => Some(w)
    case Err(_) => None
  }

  // turn is the number of moves applied when play stopped.
  datatype Played = Played(entries: seq<Entry>, live: Live, ending: Ending, turn: nat)

  const VOIDED := Live(None, "engine_error")

  function Faulted(fault: Fault, turn: nat, inApply: bool): Played {
    Played([RefereeError(fault, turn)], VOIDED, EngineFault(fault, inApply), turn)
  }

  /** The play loop from a position on, with the fault boundary around it. */
  function PlayFrom(game: Game, engine: Engine, entrants: Entrants, state: Json, turn: nat, bound: int): Played
    decreases if turn < bound then bound - turn else 0
  {
    match TakeTurn(game, engine, entrants, state, turn, bound)
    case Err(fault) => Faulted(fault, turn, false)
    case Ok(Over) =>
      (match game.terminal(state)
       case Ok(Some(end)) => Played([], Live(end.winner, end.reason), Terminal(end), turn)
       case Ok(None) => Played([], Live(None, "unfinished"), MoveBound, turn)
       case Err(fault) => Faulted(fault, turn, false))
    case Ok(OutOfMoves) =>
      Played([AbortEntry(bound)], Live(None, "move_bound_exceeded"), MoveBound, turn)
    case Ok(NoReply(seat, reason, detail)) =>
      Played([MoveForfeit(seat, reason, detail, turn)],
             Live(SeatWinner(seat), "forfeit:" + reason), RuntimeForfeit, turn)
    case Ok(Rejected(seat, recorded, why, message)) =>
      Played([RejectedEntry(seat, turn, recorded, why, message), MoveForfeit(seat, "illegal_move", Some(why), turn)],
             Live(SeatWinner(seat), "forfeit:illegal_move"), IllegalMove(seat, state, recorded, why), turn)
    case Ok(Accepted(seat, move, message)) =>
      var accepted := AcceptedEntry(seat, turn, move, message);
      match game.apply(state, move)
      case Err(fault) => Follow([accepted], Faulted(fault, turn, true))
      case Ok(next) =>
        match Digest(engine.sha, next)
        case Err(e) => Follow([accepted], Faulted(ErrorName(e), turn + 1, false))
        case Ok(digest) =>
          Follow([accepted, StateEntry(next, digest, turn + 1)],
                 PlayFrom(game, engine, entrants, next, turn + 1, bound))
  }

  function Follow(entries: seq<Entry>, later: Played): Played {
    later.(entries := entries + later.entries)
  }

  // -- the whole run ------------------------------------------------------

  datatype Run = Run(entries: seq<Entry>, live: Live, ending: Ending, scored: Scored)

  // The score, or the void recorded when scoring itself faults.
  function ScoreOrVoid(engine: Engine, m: Match, entries: seq<Entry>, turn: nat): (seq<Entry>, Scored) {
    match ScoreOf(m.game, engine.str, entries)
    case Ok(scored) => (entries, scored)
    case Err(fault) =>
      var closed := if Bodies(entries, "engine_error") == [] then entries + [RefereeError(fault, turn)] else entries;
      (closed, Void(|Bodies(closed, "move")|))
  }

  datatype Board = Board(state: Json, digest: string, bound: int)

  // The opening position, once the header is committed. An error here is an exception
  // that leaves the run without a transcript.
  function Prepared(engine: Engine, m: Match): Result<Board, Fault> {
    match CanonicalBytes(Obj(HeaderBody(engine, m)))
    case Err(e) => Err(ErrorName(e))
    case Ok(_) =>
      var state :- m.game.setup(Int(m.seed));
      var bound :- m.game.moveBound(state);
      match Digest(engine.sha, state)
      case Err(e) => Err(ErrorName(e))
      case Ok(digest) => Ok(Board(state, digest, bound))
  }

  // Everything before scoring: header, handshake, opening position, play.
  function Scene(engine: Engine, m: Match, entrants: Entrants): Result<Played, Fault> {
    var board :- Prepared(engine, m);
    var opening := StateEntry(board.state, board.digest, 0);
    Ok(Follow([Entry("header", HeaderBody(engine, m))],
              Opened(engine, m, entrants, opening, board.state, board.bound)))
  }

  // From the handshake on, given the opening entry.
  function Opened(engine: Engine, m: Match, entrants: Entrants, opening: Entry, state: Json, bound: int): Played {
    var shake := ShakeFrom(engine, entrants, 0);
    match (shake.fault, shake.outcome)
    case (Some((seat, fault)), _) =>
      Played(shake.entries + [HandshakeError(fault, seat), opening], VOIDED, EngineFault(fault, false), 0)
    case (None, Some(live)) => Played(shake.entries + [opening], live, RuntimeForfeit, 0)
    case (None, None) =>
      Follow(shake.entries + [opening], PlayFrom(m.game, engine, entrants, state, 0, bound))
  }

  /** The entries of a whole run, the outcome it decided live, and the score it
      committed. */
  function RunOf(engine: Engine, m: Match, entrants: Entrants): Result<Run, Fault> {
    var played :- Scene(engine, m, entrants);
    var (entries, scored) := ScoreOrVoid(engine, m, played.entries, played.turn);
    Ok(Run(entries + [ResultEntry(scored, m)], played.live, played.ending, scored))
  }
}
