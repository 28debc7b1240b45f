/**
 arena/replay.py: the verdict on a transcript, re-derived from the records alone.
 Everything here reads hostile bodies; every function is total. Bodies come from a
 chain that verify_chain accepted, so they hold no float and no unpaired surrogate.
 */
module Replay {
  import opened Wrappers
  import opened JsonValues
  import opened Canonical
  import opened Games
  import opened Scoring

  // -- the replay loop ----------------------------------------------------

  datatype ReplayState = ReplayState(
    computed: Json,
    seenInitial: bool,
    expectedTurn: nat,
    stateExpected: bool,
    moveCount: nat,
    statesOk: bool,
    movesOk: bool,
    setupOk: bool,
    forfeits: seq<Body>,
    aborts: seq<Body>,
    engineErrors: seq<Body>)

  const START := ReplayState(Null, false, 0, true, 0, true, true, false, [], [], [])

  function DigestOrRaise(sha: Sha, j: Json): Result<string, Fault> {
    match Digest(sha, j)
    case Ok(d) => Ok(d)
    case Err(e) => Err(ErrorName(e))
  }

  // The recorded digest is that of the recorded state and of the computed one.
  function Bound(sha: Sha, body: Body, computed: Json): Result<bool, Fault> {
    var recorded := Get(body, "state_digest");
    if !Hex64Value(recorded) then Ok(false)
    else
      var theirs :- DigestOrRaise(sha, Get(body, "state"));
      if theirs != recorded.s then Ok(false)
      else
        var mine :- DigestOrRaise(sha, computed);
        Ok(mine == recorded.s)
  }

  predicate TurnIs(body: Body, turn: nat) {
    Get(body, "turn") == Int(turn)
  }

  function OpeningStep(engine: Engine, game: Game, header: Body, rs: ReplayState, body: Body)
    : Result<ReplayState, Fault>
  {
    if "seed" !in header then Err("KeyError")
    else
      var computed :- game.setup(header["seed"]);
      var bound :- Bound(engine.sha, body, computed);
      var setupOk := rs.stateExpected && TurnIs(body, rs.expectedTurn) && bound;
      Ok(rs.(computed := computed, seenInitial := true, setupOk := setupOk,
             statesOk := rs.statesOk && setupOk, stateExpected := false))
  }

  function StateStep(engine: Engine, rs: ReplayState, body: Body): Result<ReplayState, Fault> {
    if !rs.stateExpected || !TurnIs(body, rs.expectedTurn) then
      Ok(rs.(statesOk := false, stateExpected := false))
    else
      var bound :- Bound(engine.sha, body, rs.computed);
      Ok(rs.(statesOk := rs.statesOk && bound, stateExpected := false))
  }

  predicate IsSeat(j: Json) {
    j == Int(0) || j == Int(1)
  }

  // The part of move_shape_ok that asks the game nothing.
  predicate MoveShape(rs: ReplayState, body: Body) {
    && rs.computed.Obj? && !rs.stateExpected
    && IsSeat(Get(body, "player")) && TurnIs(body, rs.expectedTurn) && Get(body, "legal").Bool?
    && EqualsInt(Get(body, "player").n, Get(rs.computed.fields, "to_move"))
  }

  function MoveStep(game: Game, rs0: ReplayState, body: Body): Result<ReplayState, Fault> {
    var rs := rs0.(moveCount := rs0.moveCount + 1);
    if !MoveShape(rs, body) then Ok(rs.(movesOk := false))
    else
      var end :- game.terminal(rs.computed);
      if end.Some? then Ok(rs.(movesOk := false))
      else
        var (ok, _) :- game.legal(rs.computed, Get(body, "move"));
        var claimed := Get(body, "legal").b;
        if ok != claimed then Ok(rs.(movesOk := false))
        else if !claimed then Ok(rs)
        else if "move" !in body then Err("KeyError")
        else
          var next :- game.apply(rs.computed, body["move"]);
          Ok(rs.(computed := next, expectedTurn := rs.expectedTurn + 1, stateExpected := true))
  }

  function Step(engine: Engine, game: Game, header: Body, rs: ReplayState, e: Entry): Result<ReplayState, Fault> {
    match e.kind
    case "state" =>
      if rs.seenInitial then StateStep(engine, rs, e.body)
      else OpeningStep(engine, game, header, rs, e.body)
    case "move" => MoveStep(game, rs, e.body)
    case "forfeit" => Ok(rs.(forfeits := rs.forfeits + [e.body]))
    case "abort" => Ok(rs.(aborts := rs.aborts + [e.body]))
    case "engine_error" => Ok(rs.(engineErrors := rs.engineErrors + [e.body]))
    case _ => Ok(rs)
  }

  function Replayed(engine: Engine, game: Game, header: Body, entries: seq<Entry>): Result<ReplayState, Fault> {
    if entries == [] then Ok(START)
    else
      var rs :- Replayed(engine, game, header, entries[..|entries| - 1]);
      Step(engine, game, header, rs, entries[|entries| - 1])
  }

  // -- forfeits -----------------------------------------------------------

  datatype ForfeitClass = NoForfeit | Invalid | RuntimeObservation | DeterministicIllegalMove

  predicate ForfeitEvidenceOk(c: ForfeitClass) {
    c.NoForfeit? || c.DeterministicIllegalMove?
  }

  const FORFEIT_KEYS: set<string> := {"player", "reason", "detail", "phase", "turn"}

  predicate ForfeitShape(body: Body) {
    && body.Keys == FORFEIT_KEYS
    && body["phase"] == Str("move") && IsSeat(body["player"])
    && body["turn"].Int? && body["turn"].n >= 0
    && body["detail"].Str? && body["detail"].s != ""
  }

  // The rejected move that must stand right before the forfeit.
  predicate Corroborates(move: Entry, forfeit: Body)
    requires ForfeitShape(forfeit)
  {
    && move.kind == "move"
    && Get(move.body, "player") == forfeit["player"]
    && Get(move.body, "turn") == forfeit["turn"]
    && Get(move.body, "legal") == Bool(false)
    && Get(move.body, "rejected_because") == forfeit["detail"]
  }

  function ForfeitIndexes(entries: seq<Entry>): (r: seq<nat>)
    ensures forall k | 0 <= k < |r| :: r[k] < |entries|
  {
    if entries == [] then []
    else
      var n := |entries| - 1;
      ForfeitIndexes(entries[..n]) + (if entries[n].kind == "forfeit" then [n] else [])
  }

  function ForfeitEvidence(entries: seq<Entry>): ForfeitClass {
    var positions := ForfeitIndexes(entries);
    if positions == [] then NoForfeit
    else if |positions| != 1 then Invalid
    else
      var index, body := positions[0], entries[positions[0]].body;
      if Get(body, "reason") != Str("illegal_move") then RuntimeObservation
      else if !ForfeitShape(body) || index + 2 != |entries| || index == 0 then Invalid
      else if Corroborates(entries[index - 1], body) then DeterministicIllegalMove
      else Invalid
  }

  // -- engine errors ------------------------------------------------------

  predicate ErrorShape(body: Body) {
    var detail := Get(body, "detail");
    && detail.Str? && 0 < |detail.s| <= 160
    && Get(body, "code").Str? && Get(body, "phase").Str?
    && (|| (body.Keys == {"detail", "code", "phase", "seat"}
            && body["code"] == Str("handshake_failed") && body["phase"] == Str("handshake") && IsSeat(body["seat"]))
        || (body.Keys == {"detail", "code", "phase", "turn"}
            && body["code"] == Str("referee_fault") && body["phase"] == Str("referee")
            && body["turn"].Int? && body["turn"].n >= 0))
  }

  predicate ErrorsShape(errors: seq<Body>) {
    |errors| <= 1 && (errors != [] ==> ErrorShape(errors[0]))
  }

  // -- the header ---------------------------------------------------------

  const KNOWN_KINDS: set<string> :=
    {"header", "ready", "state", "move", "forfeit", "abort", "engine_error", "result"}

  predicate StructureOk(entries: seq<Entry>) {
    && entries != [] && entries[0].kind == "header" && entries[|entries| - 1].kind == "result"
    && (forall i | 0 <= i < |entries| :: entries[i].kind == "header" ==> i == 0)
    && (forall i | 0 <= i < |entries| :: entries[i].kind == "result" ==> i == |entries| - 1)
  }

  predicate KindsOk(entries: seq<Entry>) {
    forall e | e in entries :: e.kind in KNOWN_KINDS
  }

  // The first record of a kind.
  function FirstOf(entries: seq<Entry>, kind: string): Option<Body> {
    if entries == [] then None
    else if entries[0].kind == kind then Some(entries[0].body)
    else FirstOf(entries[1..], kind)
  }

  predicate IsolationOk(engine: Engine, header: Body) {
    Get(header, "isolation") == Null || engine.isolationValid(Get(header, "isolation"))
  }

  predicate AttestationOk(header: Body) {
    var a := Get(header, "attestation");
    a.Obj? && Get(a.fields, "model_attested") == Bool(false)
    && Get(a.fields, "execution_claims_attested") == Bool(false)
  }

  predicate DigestMatches(engine: Engine, header: Body) {
    var block := Get(header, "engine");
    Hex64(engine.digest) && block.Obj? && Get(block.fields, "digest") == Str(engine.digest)
  }

  // load_game and the version comparison.
  function GameOf(engine: Engine, header: Body): Option<Game> {
    var block := Get(header, "game");
    if !block.Obj? then None
    else
      var name := Get(block.fields, "name");
      if !name.Str? || name.s !in engine.games then None
      else
        var game := engine.games[name.s];
        if Get(block.fields, "version") == Str(game.version) then Some(game) else None
  }

  // -- identity -----------------------------------------------------------

  datatype IdentityStatus = SelfDeclaredLegacy | VerifiedSigned | Mixed | IdentityInvalid

  datatype SeatIdentity = LegacySeat | SignedSeat | InvalidSeat

  predicate RowsCanonical(rows: Json) {
    && rows.List? && |rows.items| == 2
    && (forall r | r in rows.items :: r.Obj?)
    && Get(rows.items[0].fields, "seat") == Int(0)
    && Get(rows.items[1].fields, "seat") == Int(1)
  }

  // The signed declaration agrees with what the header says of the seat.
  predicate DeclarationBound(row: Body, id: Identity) {
    var script := Get(row, "script");
    && script.Obj? && Get(script.fields, "sha256") == Str(id.harnessSha256)
    && Get(row, "name") == Str(id.displayName)
    && Get(row, "claimed_model") == id.claimedModel
  }

  function SeatIdentityOf(engine: Engine, row: Body, seen: set<string>): (SeatIdentity, set<string>) {
    if "agent_passport" !in row then (LegacySeat, seen)
    else if row["agent_passport"] == Null then (InvalidSeat, seen)
    else
      match engine.passport(row["agent_passport"])
      case None => (InvalidSeat, seen)
      case Some(id) =>
        (if DeclarationBound(row, id) && id.agentId !in seen then SignedSeat else InvalidSeat, seen + {id.agentId})
  }

  function SeatIdentities(engine: Engine, rows: seq<Json>, seen: set<string>): seq<SeatIdentity> {
    if rows == [] then []
    else
      var row := if rows[0].Obj? then rows[0].fields else map[];
      var (status, seen') := SeatIdentityOf(engine, row, seen);
      [status] + SeatIdentities(engine, rows[1..], seen')
  }

  function Summary(seats: seq<SeatIdentity>): IdentityStatus {
    if InvalidSeat in seats then IdentityInvalid
    else if SignedSeat !in seats then SelfDeclaredLegacy
    else if LegacySeat in seats then Mixed
    else VerifiedSigned
  }

  function IdentityOf(engine: Engine, header: Body): IdentityStatus {
    var rows := Get(header, "entrants");
    if !RowsCanonical(rows) then IdentityInvalid
    else Summary(SeatIdentities(engine, rows.items, {}))
  }

  // -- the verdict --------------------------------------------------------

  datatype Report = Report(
    chainOk: bool,
    structureOk: bool,
    kindsOk: bool,
    isolationOk: bool,
    attestationOk: bool,
    digestMatch: bool,
    setupOk: bool,
    statesOk: bool,
    movesOk: bool,
    forfeitClass: ForfeitClass,
    adjudicationOk: bool,
    abortFree: bool,
    engineErrorIntegrity: bool,
    resultMatches: bool,
    identity: IdentityStatus,
    pass: bool)

  const FAILED := Report(false, false, false, false, false, false, false, false, false,
                         Invalid, false, false, false, false, IdentityInvalid, false)

  predicate ClosedByVoid(rs: ReplayState, entries: seq<Entry>) {
    rs.stateExpected && rs.engineErrors != [] && |entries| >= 2 && entries[|entries| - 2].kind == "engine_error"
  }

  // states_ok after the check for an accepted move with no successor.
  predicate StatesHold(rs: ReplayState, entries: seq<Entry>) {
    rs.statesOk && !(rs.stateExpected && rs.seenInitial && !ClosedByVoid(rs, entries))
  }

  predicate AdjudicationOk(rs: ReplayState, forfeitOk: bool, result: Body) {
    if rs.forfeits == [] then true
    else
      forfeitOk && "player" in rs.forfeits[0]
      && OneMinus(rs.forfeits[0]["player"]).Ok?
      && ExactEqual(Get(result, "winner"), Int(OneMinus(rs.forfeits[0]["player"]).value))
  }

  predicate ResultMatches(scored: Scored, result: Body) {
    && ExactEqual(WinnerJson(scored.winner), Get(result, "winner"))
    && ExactEqual(Str(scored.reason), Get(result, "reason"))
    && ExactEqual(Int(scored.moves), Get(result, "moves"))
    && ExactEqual(scored.points, Get(result, "points"))
    && ExactEqual(Bool(scored.decisive), Get(result, "decisive"))
  }

  predicate VoidOutcome(scored: Scored, result: Body) {
    && scored.winner.None? && scored.reason == "engine_error" && !scored.decisive
    && ExactEqual(scored.points, Points(0, 0))
    && Get(result, "winner") == Null && Get(result, "reason") == Str("engine_error")
    && Get(result, "decisive") == Bool(false) && ExactEqual(Get(result, "points"), Points(0, 0))
  }

  predicate Passes(r: Report) {
    && r.chainOk && r.structureOk && r.kindsOk && r.isolationOk && r.attestationOk && r.digestMatch
    && r.setupOk && r.statesOk && r.movesOk
    && ForfeitEvidenceOk(r.forfeitClass) && r.adjudicationOk && r.abortFree
    && r.engineErrorIntegrity && r.resultMatches && r.identity != IdentityInvalid
  }

  // The report once the replay loop has run to the end.
  function Judged(engine: Engine, game: Game, header: Body, base: Report, rs: ReplayState,
                  entries: seq<Entry>): Report {
    var evidence := ForfeitEvidence(entries);
    var replayed := base.(setupOk := rs.setupOk, statesOk := StatesHold(rs, entries), movesOk := rs.movesOk,
                          forfeitClass := evidence, abortFree := rs.aborts == []);
    match (FirstOf(entries, "result"), ScoreOf(game, engine.str, entries))
    case (_, Err(_)) => replayed
    case (None, _) => replayed
    case (Some(result), Ok(scored)) =>
      var report := replayed.(
        adjudicationOk := AdjudicationOk(rs, ForfeitEvidenceOk(evidence), result),
        engineErrorIntegrity :=
          ErrorsShape(rs.engineErrors) && (rs.engineErrors != [] ==> VoidOutcome(scored, result)),
        resultMatches := ResultMatches(scored, result),
        identity := IdentityOf(engine, header));
      report.(pass := Passes(report))
  }

  // The report on a chain that verify_chain has accepted.
  function Examined(engine: Engine, entries: seq<Entry>): Report {
    var chained := FAILED.(chainOk := true);
    match FirstOf(entries, "header")
    case None => chained
    case Some(header) =>
      var base := chained.(
        structureOk := StructureOk(entries), kindsOk := KindsOk(entries),
        isolationOk := IsolationOk(engine, header), attestationOk := AttestationOk(header),
        digestMatch := DigestMatches(engine, header));
      match GameOf(engine, header)
      case None => base
      case Some(game) =>
        match Replayed(engine, game, header, entries)
        case Err(_) => base
        case Ok(rs) => Judged(engine, game, header, base, rs, entries)
  }
}
