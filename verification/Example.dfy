/**
 The theorems speak of something: an engine, matches and entrants that meet every
 hypothesis, one whose run passes, and two that show where passing stops.
 */
module Example {
  import opened Wrappers
  import opened JsonValues
  import opened Canonical
  import opened Transcript
  import opened Games
  import opened Scoring
  import opened Referee
  import opened Replay
  import opened HeaderSeats
  import opened Lawful
  import opened LiveScore
  import opened Completeness
  import opened RunLawful
  import opened RunVerdict
  import opened GameContract
  import opened IdentityBinding
  import opened MatchRunner
  import opened Reproduction
  import opened Verifier
  import opened Preflight
  import opened WrapperRuns

  const OPENING: Json := Obj(map["to_move" := Int(0)])
  const WON := End(Some(0), "won")

  // A game of one position, which is over or not, and where every move is rejected.
  function SmallGame(over: Option<End>, why: string, bound: int): Game {
    Game("small", "1", "", (seed: Json) => Ok(OPENING), (state: Json, seat: Json) => Ok(state),
         (state: Json, move: Json) => Ok((false, why)), (state: Json, move: Json) => Err("ValueError"),
         (state: Json) => Ok(over), (state: Json) => Ok(bound))
  }

  function SmallEngine(game: Game): Engine {
    Engine((bytes: seq<Utf8.Byte>) => GENESIS, map[game.name := game], GENESIS,
           (profile: Json) => true, (passport: Json) => None, (value: Json) => "", (value: Json) => "")
  }

  function Player(name: string): Seat {
    Seat(name, GENESIS, Null, List([]), Null, "scripted", None)
  }

  function SmallMatch(game: Game): Match {
    Match("m", game, 1, [Player("a"), Player("b")], Null, Null, Null, Null, "", 1000)
  }

  const READY: Json := Obj(map["type" := Str("ready")])
  const BOASTING: Json := Obj(map["type" := Str("ready"), "agent_passport" := Null])

  // Entrants that both say hello like this, and then move.
  function Saying(hello: Json): Entrants {
    Entrants((seat: nat) => Message(hello), (turn: nat) => Message(Obj(map[])))
  }

  // -- such runs exist ---------------------------------------------------------------

  lemma SeatsEncodable(s: Seat, index: int)
    requires s == Player(s.name)
    ensures Encodable(SeatRow(index, s))
  {
    FieldsEncodable(SeatRow(index, s).fields);
  }

  lemma RowsEncodable(a: Seat, b: Seat)
    requires a == Player(a.name) && b == Player(b.name)
    ensures Encodable(List(SeatRows([a, b])))
  {
    SeatsEncodable(a, 0);
    SeatsEncodable(b, 1);
    TwoRows([a, b]);
    hide SeatRow, Player, SeatRows;
  }

  // A header whose parts have canonical bytes.
  lemma HeaderOfParts(engine: Engine, m: Match)
    requires Encodable(GameBlock(m.game)) && Encodable(EngineBlock(engine, m.engineFiles))
    requires Encodable(List(SeatRows(m.seats))) && Encodable(AttestationBlock(m.attestationReason))
    requires m.admission == m.policy == m.isolation == Null
    ensures Encodable(Obj(HeaderBody(engine, m)))
  {
    hide GameBlock, EngineBlock, AttestationBlock, SeatRows;
    FieldsEncodable(map["move_timeout_ms" := Int(m.moveTimeoutMs)]);
    FieldsEncodable(HeaderBody(engine, m));
  }

  lemma BlocksEncodable(engine: Engine, game: Game, reason: string)
    ensures Encodable(GameBlock(game)) && Encodable(EngineBlock(engine, Null)) && Encodable(AttestationBlock(reason))
  {
    FieldsEncodable(GameBlock(game).fields);
    FieldsEncodable(EngineBlock(engine, Null).fields);
    FieldsEncodable(AttestationBlock(reason).fields);
  }

  lemma HeaderEncodable(game: Game)
    ensures Encodable(Obj(HeaderBody(SmallEngine(game), SmallMatch(game))))
  {
    var engine, m := SmallEngine(game), SmallMatch(game);
    assert m.engineFiles == Null && m.admission == m.policy == m.isolation == Null;
    assert m.seats == [Player("a"), Player("b")] && Player("a").name == "a" && Player("b").name == "b";
    hide SeatRows, SmallEngine, SmallMatch, Player, GameBlock, EngineBlock, AttestationBlock, HeaderBody, Encodable;
    RowsEncodable(Player("a"), Player("b"));
    BlocksEncodable(engine, m.game, m.attestationReason);
    HeaderOfParts(engine, m);
  }

  lemma SmallIsPrepared(over: Option<End>, why: string, bound: int)
    ensures var game := SmallGame(over, why, bound);
      var prepared := Prepared(SmallEngine(game), SmallMatch(game));
      prepared.Ok? && prepared.value.state == OPENING && prepared.value.bound == bound
  {
    HeaderEncodable(SmallGame(over, why, bound));
    FieldsEncodable(OPENING.fields);
    hide HeaderBody, Text;
  }

  lemma HelloEncodable(hello: Json)
    requires hello == READY || hello == BOASTING
    ensures Encodable(hello) && hello.Obj? && Get(hello.fields, "type") == Str("ready")
  {
    if hello == READY {
      FieldsEncodable(READY.fields);
    } else {
      FieldsEncodable(BOASTING.fields);
    }
  }

  lemma HelloIsReady(engine: Engine, hello: Json)
    requires hello == READY || hello == BOASTING
    requires engine.repr(hello) == ""
    ensures Greet(engine, Message(hello)) == Ready(hello)
  {
    HelloEncodable(hello);
    hide Text, Encodable, READY, BOASTING;
    EncodableHasBytes(hello);
    hide CanonicalBytes;
  }

  lemma UnsignedRow(engine: Engine, index: int, s: Seat)
    requires s.passport.None?
    ensures SeatRow(index, s).Obj? && SeatIdentityOf(engine, SeatRow(index, s).fields, {}) == (LegacySeat, {})
  {
    SeatRowFields(index, s);
    hide SeatRow;
  }

  lemma SmallIsHonest(game: Game)
    ensures Honest(SmallEngine(game), SmallMatch(game))
  {
    var engine, m := SmallEngine(game), SmallMatch(game);
    var a, b := m.seats[0], m.seats[1];
    assert a.passport.None? && b.passport.None? && |m.seats| == 2 && m.isolation == Null;
    assert Hex64(engine.digest) && m.game.name in engine.games && engine.games[m.game.name] == m.game;
    hide SmallEngine, SmallMatch, Player, HeaderBody, SeatRow, SeatIdentityOf, SeatIdentities, IdentityOf, Summary,
         Hex64;
    HeaderIdentity(engine, m);
    UnsignedRow(engine, 0, a);
    UnsignedRow(engine, 1, b);
    SeatPairIdentities(engine, SeatRow(0, a), SeatRow(1, b));
    SummaryOfTwo(LegacySeat, LegacySeat);
  }

  lemma SmallKeepsContract(over: Option<End>, why: string, bound: int, header: Body)
    requires why != ""
    ensures Contract(SmallGame(over, why, bound), header)
  {
    forall state | Reachable(SmallGame(over, why, bound), header, state)
      ensures NamesSeat(SmallGame(over, why, bound), state) && RejectsWithReason(SmallGame(over, why, bound), state)
    {
      OnePosition(over, why, bound, header, state);
    }
  }

  lemma OnePosition(over: Option<End>, why: string, bound: int, header: Body, state: Json)
    requires Reachable(SmallGame(over, why, bound), header, state)
    ensures state == OPENING
  {
    var moves :| PlaysOn(SmallGame(over, why, bound), header, moves)
                 && PositionAfter(SmallGame(over, why, bound), header, moves) == Some(state);
  }

  // Two entrants that get ready, and what play then comes to.
  lemma ReadyRunPlays(engine: Engine, m: Match, entrants: Entrants, first: Json, second: Json)
    requires Prepared(engine, m).Ok?
    requires Greet(engine, entrants.hello(0)) == Ready(first) && Greet(engine, entrants.hello(1)) == Ready(second)
    ensures RunOf(engine, m, entrants).Ok?
    ensures var board := Prepared(engine, m).value;
      var run, play := RunOf(engine, m, entrants).value,
        PlayFrom(m.game, engine, entrants, board.state, 0, board.bound);
      run.ending == play.ending && run.live == play.live
  {
    hide Prepared, Greet, HeaderBody, ScoreOrVoid, ResultEntry, PlayFrom;
    assert ShakeFrom(engine, entrants, 2) == Shake([], None, None);
    assert ShakeFrom(engine, entrants, 1).outcome.None? && ShakeFrom(engine, entrants, 1).fault.None?;
    assert ShakeFrom(engine, entrants, 0).outcome.None? && ShakeFrom(engine, entrants, 0).fault.None?;
  }

  lemma PlayIsOver(why: string, engine: Engine, entrants: Entrants)
    ensures PlayFrom(SmallGame(Some(WON), why, 1), engine, entrants, OPENING, 0, 1).ending == Terminal(WON)
  {
    assert TakeTurn(SmallGame(Some(WON), why, 1), engine, entrants, OPENING, 0, 1) == Ok(Over);
  }

  lemma PlayIsRejected(why: string, engine: Engine, hello: Json)
    requires engine.repr(Obj(map[])) == ""
    ensures var p := PlayFrom(SmallGame(None, why, 1), engine, Saying(hello), OPENING, 0, 1);
      p.ending == IllegalMove(Int(0), OPENING, Null, why) && p.live.winner == Some(1)
  {
    var game, reply := SmallGame(None, why, 1), Obj(map[]);
    FieldsEncodable(map[]);
    hide Text, PlayFrom;
    assert RuleOn(game, engine, OPENING, Int(0), reply) == Ok(Rejected(Int(0), Null, why, reply));
    assert HearMove(game, engine, OPENING, Int(0), Message(reply)) == Ok(Rejected(Int(0), Null, why, reply));
    hide HearMove;
    assert TakeTurn(game, engine, Saying(hello), OPENING, 0, 1) == Ok(Rejected(Int(0), Null, why, reply));
    RejectionEnds(game, engine, Saying(hello), why, reply);
  }

  lemma RejectionEnds(game: Game, engine: Engine, entrants: Entrants, why: string, message: Json)
    requires TakeTurn(game, engine, entrants, OPENING, 0, 1) == Ok(Rejected(Int(0), Null, why, message))
    ensures var p := PlayFrom(game, engine, entrants, OPENING, 0, 1);
      p.ending == IllegalMove(Int(0), OPENING, Null, why) && p.live.winner == Some(1)
  {
    hide TakeTurn;
  }

  lemma SmallRun(over: Option<End>, why: string, hello: Json)
    requires hello == READY || hello == BOASTING
    requires over == Some(WON) || over == None
    ensures var game := SmallGame(over, why, 1);
      var run := RunOf(SmallEngine(game), SmallMatch(game), Saying(hello));
      && run.Ok? && run.value.ending == (if over.Some? then Terminal(WON) else IllegalMove(Int(0), OPENING, Null, why))
      && (over.None? ==> run.value.live.winner == Some(1))
  {
    var game := SmallGame(over, why, 1);
    var engine, m, entrants := SmallEngine(game), SmallMatch(game), Saying(hello);
    SmallIsPrepared(over, why, 1);
    HelloIsReady(engine, hello);
    assert m.game == game && entrants.hello(0) == Message(hello) && entrants.hello(1) == Message(hello);
    if over.Some? {
      PlayIsOver(why, engine, entrants);
    } else {
      PlayIsRejected(why, engine, hello);
    }
    hide SmallEngine, SmallMatch, SmallGame, Saying, Prepared, Greet, RunOf, PlayFrom;
    ReadyRunPlays(engine, m, entrants, hello, hello);
  }

  lemma PlayRunsOut(why: string, engine: Engine, entrants: Entrants)
    ensures PlayFrom(SmallGame(None, why, 0), engine, entrants, OPENING, 0, 0).ending == MoveBound
  {
    assert TakeTurn(SmallGame(None, why, 0), engine, entrants, OPENING, 0, 0) == Ok(OutOfMoves);
  }

  // -- what they show ------------------------------------------------------------------

  /** The hypotheses of the classification can all be met, and a PASS exists. */
  lemma SomeRunPasses()
    ensures var game := SmallGame(Some(WON), "over", 1);
      var engine, m, entrants := SmallEngine(game), SmallMatch(game), Saying(READY);
      && RunOf(engine, m, entrants).Ok? && Honest(engine, m) && Contract(game, HeaderBody(engine, m))
      && Examined(engine, RunOf(engine, m, entrants).value.entries).pass
  {
    var game := SmallGame(Some(WON), "over", 1);
    var engine, m, entrants := SmallEngine(game), SmallMatch(game), Saying(READY);
    SmallRun(Some(WON), "over", READY);
    SmallIsHonest(game);
    SmallKeepsContract(Some(WON), "over", 1, HeaderBody(engine, m));
    assert m.game == game;
    hide SmallEngine, SmallMatch, SmallGame, Saying, RunOf, Honest, Contract, HeaderBody, Examined;
    RulesDecidedRunsPass(engine, m, entrants);
  }

  /** An illegal move does not always replay: a game that rejects it without a reason leaves
      a run that the verifier of the same engine fails. */
  lemma UnexplainedRejectionFails()
    ensures var game := SmallGame(None, "", 1);
      var engine, m, entrants := SmallEngine(game), SmallMatch(game), Saying(READY);
      && RunOf(engine, m, entrants).Ok? && Honest(engine, m)
      && RunOf(engine, m, entrants).value.ending.IllegalMove?
      && !Examined(engine, RunOf(engine, m, entrants).value.entries).pass
  {
    var game := SmallGame(None, "", 1);
    var engine, m, entrants := SmallEngine(game), SmallMatch(game), Saying(READY);
    SmallRun(None, "", READY);
    SmallIsHonest(game);
    hide SmallEngine, SmallMatch, SmallGame, Saying, RunOf, Honest, Examined;
    PassIffReplayable(engine, m, entrants);
  }

  lemma OpenedStarts(engine: Engine, m: Match, entrants: Entrants, first: Json, opening: Entry, state: Json, bound: int)
    requires Greet(engine, entrants.hello(0)) == Ready(first)
    ensures var es := Opened(engine, m, entrants, opening, state, bound).entries;
      es != [] && es[0] == ReadyEntry(0, first)
  {
    hide Greet, PlayFrom, ReadyEntry;
    assert ShakeFrom(engine, entrants, 0).entries[0] == ReadyEntry(0, first);
  }

  // The second record of a run whose first entrant got ready.
  lemma HelloIsRecorded(engine: Engine, m: Match, entrants: Entrants, first: Json)
    requires RunOf(engine, m, entrants).Ok? && Greet(engine, entrants.hello(0)) == Ready(first)
    ensures var es := RunOf(engine, m, entrants).value.entries; |es| > 1 && es[1] == ReadyEntry(0, first)
  {
    hide Prepared, Greet, HeaderBody, ScoreOf, Agrees, ResultEntry, RunOf, Bodies, ReadyEntry, Opened;
    LiveIsRecomputed(engine, m, entrants);
    var board := Prepared(engine, m).value;
    OpenedStarts(engine, m, entrants, first, StateEntry(board.state, board.digest, 0), board.state, board.bound);
  }

  lemma BoastIsMentioned(rs: seq<Record>)
    requires |rs| > 1 && rs[1].body == ReadyEntry(0, BOASTING).body
    ensures AnyMentions(RecordsJson(rs), KEY)
  {
    assert Mentions(BOASTING, KEY);
    var body := ReadyEntry(0, BOASTING).body;
    assert body["entrant_message"] == BOASTING;
    assert Mentions(Obj(body), KEY);
    var row := RecordJson(rs[1]);
    assert row.fields["body"] == Obj(body);
    assert Mentions(row, KEY);
    assert RecordsJson(rs)[1] == row;
    assert row in RecordsJson(rs);
  }

  function SmallBundle(game: Game): Bundle {
    Bundle(map[GENESIS := SmallEngine(game)], map[GENESIS := {"replay.py", "passport.py"}], GENESIS)
  }

  /** What an entrant says can cost a match its effective verdict: the one file of this run
      passes replay, and the wrapper does not trust it, for one key in a message that no rule
      reads, though the bundle holds the very engine and that engine checks passports. */
  lemma BoastingLosesTrust()
    ensures var game := SmallGame(Some(WON), "over", 1);
      var engine, m, entrants, b := SmallEngine(game), SmallMatch(game), Saying(BOASTING), SmallBundle(game);
      && b.Packed() && Capable(b.sources[GENESIS]) && RunOf(engine, m, entrants).Ok?
      && var file := FileText(TranscriptOf(engine, m, entrants));
      Verified(engine, file).pass && !Trusted(b, file)
  {
    hide SmallEngine, SmallMatch, SmallGame, Saying, RunOf, Honest, Contract, HeaderBody, Verified, Trusted,
         FileText, Chained, Greet, AnyPassport, BOASTING, TranscriptOf, EntriesOf;
    var game := SmallGame(Some(WON), "over", 1);
    var engine, m, entrants := SmallEngine(game), SmallMatch(game), Saying(BOASTING);
    BoastingRun(game);
    RerunReproducesHead(engine, m, entrants, []);
    BoastCosts(SmallBundle(game), engine, m, entrants, TranscriptOf(engine, m, entrants));
  }

  lemma BoastingRun(game: Game)
    requires game == SmallGame(Some(WON), "over", 1)
    ensures var engine, m, entrants := SmallEngine(game), SmallMatch(game), Saying(BOASTING);
      && engine.digest == GENESIS && m.game == game && |m.seats| == 2 && !AnyPassport(m.seats)
      && RunOf(engine, m, entrants).Ok? && RunOf(engine, m, entrants).value.ending.Terminal?
      && Honest(engine, m) && Contract(game, HeaderBody(engine, m))
      && Greet(engine, entrants.hello(0)) == Ready(BOASTING)
  {
    var engine, m, entrants := SmallEngine(game), SmallMatch(game), Saying(BOASTING);
    assert entrants.hello(0) == Message(BOASTING) && engine.repr(BOASTING) == "";
    assert !AnyPassport(m.seats);
    hide RunOf, Honest, Contract, HeaderBody, Greet, BOASTING, SmallGame;
    SmallRun(Some(WON), "over", BOASTING);
    SmallIsHonest(game);
    SmallKeepsContract(Some(WON), "over", 1, HeaderBody(engine, m));
    HelloIsReady(engine, BOASTING);
  }

  lemma BoastCosts(b: Bundle, engine: Engine, m: Match, entrants: Entrants, rs: seq<Record>)
    requires b.Packed() && engine.digest in b.engines && b.engines[engine.digest] == engine
    requires RunOf(engine, m, entrants).Ok? && Honest(engine, m) && Contract(m.game, HeaderBody(engine, m))
    requires RunOf(engine, m, entrants).value.ending.Terminal?
    requires |m.seats| == 2 && !AnyPassport(m.seats)
    requires Greet(engine, entrants.hello(0)) == Ready(BOASTING)
    requires Chained(engine.sha, rs) && EntriesOf(rs) == RunOf(engine, m, entrants).value.entries
    ensures Verified(engine, FileText(rs)).pass && !Trusted(b, FileText(rs))
  {
    hide RunOf, Honest, Contract, HeaderBody, Examined, Verified, Trusted, SeatsTyped, Replayable, Capable;
    hide FileText, Chained, Greet, AnyMentions, AnyPassport, BOASTING, ReadyEntry, RecordsJson;
    HelloIsRecorded(engine, m, entrants, BOASTING);
    assert EntriesOf(rs)[1].body == rs[1].body;
    BoastIsMentioned(rs);
    RulesDecidedRunsPass(engine, m, entrants);
    PassIffReplayable(engine, m, entrants);
    FilePassesIffReplayable(engine, m, entrants, rs);
    RunIsTrustedIff(b, engine, m, entrants, rs);
  }

  /** A run at the move bound: the loop says "move_bound_exceeded", the result says
      "unfinished", and replay fails it. */
  lemma BoundRunIsUnfinished()
    ensures var game := SmallGame(None, "over", 0);
      var engine, m, entrants := SmallEngine(game), SmallMatch(game), Saying(READY);
      && RunOf(engine, m, entrants).Ok? && Honest(engine, m)
      && var run := RunOf(engine, m, entrants).value;
      && run.ending == MoveBound && run.live.reason == "move_bound_exceeded" && run.scored.reason == "unfinished"
      && !Examined(engine, run.entries).pass
  {
    var game := SmallGame(None, "over", 0);
    var engine, m, entrants := SmallEngine(game), SmallMatch(game), Saying(READY);
    BoundedRun(game);
    SmallIsHonest(game);
    BoundFails(engine, m, entrants);
    BoundOutcome(engine, m, entrants);
    hide SmallEngine, SmallMatch, SmallGame, Saying, RunOf, Honest, Examined;
  }

  lemma BoundFails(engine: Engine, m: Match, entrants: Entrants)
    requires RunOf(engine, m, entrants).Ok? && RunOf(engine, m, entrants).value.ending == MoveBound && Honest(engine, m)
    ensures !Examined(engine, RunOf(engine, m, entrants).value.entries).pass
  {
    hide RunOf, Honest, Examined, SeatsTyped;
    PassIffReplayable(engine, m, entrants);
  }

  lemma BoundedRun(game: Game)
    requires game == SmallGame(None, "over", 0)
    ensures var run := RunOf(SmallEngine(game), SmallMatch(game), Saying(READY));
      run.Ok? && run.value.ending == MoveBound
  {
    var engine, m, entrants := SmallEngine(game), SmallMatch(game), Saying(READY);
    SmallIsPrepared(None, "over", 0);
    HelloIsReady(engine, READY);
    assert m.game == game && entrants.hello(0) == Message(READY) && entrants.hello(1) == Message(READY);
    PlayRunsOut("over", engine, entrants);
    hide SmallEngine, SmallMatch, SmallGame, Saying, Prepared, Greet, RunOf, PlayFrom;
    ReadyRunPlays(engine, m, entrants, READY, READY);
  }

  // What a run at the bound decides live, and what it commits.
  lemma BoundOutcome(engine: Engine, m: Match, entrants: Entrants)
    requires RunOf(engine, m, entrants).Ok? && RunOf(engine, m, entrants).value.ending == MoveBound
    ensures var run := RunOf(engine, m, entrants).value;
      run.live.reason == "move_bound_exceeded" && run.scored.reason == "unfinished"
  {
    hide Scene, ScoreOf, Bodies, ResultEntry, HeaderBody, InnerKinds;
    LiveIsRecomputed(engine, m, entrants);
  }
}
