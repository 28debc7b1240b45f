/**
 Self-reports and the score: what two runs have in common whose entrants agree on
 readiness and moves and differ in anything else they say, and exactly when.
 */
module Noninterference {
  import opened Wrappers
  import opened JsonValues
  import opened Canonical
  import opened Games
  import opened Scoring
  import opened Referee
  import opened LiveScore

  // A message that cannot be recorded: it holds no float, and some text in it has no
  // UTF-8 form.
  predicate Unrecordable(value: Json) {
    Checked(value) && !Textual(value)
  }

  // The exception of recording one.
  const UNRECORDED: Fault := "UnicodeEncodeError"

  lemma SafeRaises(engine: Engine, value: Json)
    ensures Safe(engine, value) == Err(UNRECORDED) <==> Unrecordable(value)
    ensures Safe(engine, value).Err? <==> Unrecordable(value)
  {
    hide Text;
  }

  // Messages that read alike to the referee when it looks at one key.
  predicate SameUnder(key: string, a: Json, b: Json) {
    a.Obj? == b.Obj? && (a.Obj? ==> Get(a.fields, key) == Get(b.fields, key))
  }

  predicate SameReply(key: string, a: Reply, b: Reply) {
    a == b || (a.Message? && b.Message? && SameUnder(key, a.value, b.value))
  }

  // Two sets of entrants that get ready alike and move alike.
  ghost predicate Twins(a: Entrants, b: Entrants) {
    && (forall i: nat :: SameReply("type", a.hello(i), b.hello(i)))
    && (forall t: nat :: SameReply("move", a.move(t), b.move(t)))
  }

  // Entries that project alike.
  predicate TwinEntry(a: Entry, b: Entry) {
    a.kind == b.kind && (a == b || (a.kind != "header" && Stripped(a.body) == Stripped(b.body)))
  }

  predicate TwinEntries(a: seq<Entry>, b: seq<Entry>) {
    |a| == |b| && forall i | 0 <= i < |a| :: TwinEntry(a[i], b[i])
  }

  // -- one reply ----------------------------------------------------------

  predicate TwinHello(a: Hello, b: Hello) {
    a == b || (a.Ready? && b.Ready?)
  }

  // A hello that is recorded if it can be.
  predicate SaysReady(reply: Reply) {
    reply.Message? && reply.value.Obj? && Get(reply.value.fields, "type") == Str("ready")
  }

  // Where hellos are recorded, both are or neither is.
  predicate KeepsHello(a: Reply, b: Reply) {
    SaysReady(a) && SaysReady(b) ==> Unrecordable(a.value) == Unrecordable(b.value)
  }

  lemma GreetedAlike(engine: Engine, a: Reply, b: Reply)
    requires SameReply("type", a, b) && KeepsHello(a, b)
    ensures TwinHello(Greet(engine, a), Greet(engine, b))
  {
    hide Safe, Unrecordable;
    if SaysReady(a) && SaysReady(b) {
      SafeRaises(engine, a.value);
      SafeRaises(engine, b.value);
    }
  }

  lemma GreetedApart(engine: Engine, a: Reply, b: Reply)
    requires SaysReady(a) && SaysReady(b) && Unrecordable(a.value) && !Unrecordable(b.value)
    ensures Greet(engine, a) == Broke(UNRECORDED) && Greet(engine, b).Ready?
  {
    hide Safe, Unrecordable;
    SafeRaises(engine, a.value);
    SafeRaises(engine, b.value);
  }

  // Turns that differ in the recorded message only.
  predicate TwinTurn(a: Turn, b: Turn) {
    match (a, b)
    case (Rejected(s, r, w, _), Rejected(s', r', w', _)) => s == s' && r == r' && w == w'
    case (Accepted(s, m, _), Accepted(s', m', _)) => s == s' && m == m'
    case _ => a == b
  }

  predicate TwinRuling(a: Result<Turn, Fault>, b: Result<Turn, Fault>) {
    a == b || (a.Ok? && b.Ok? && TwinTurn(a.value, b.value))
  }

  // A reply the game rules on, with a move that can be recorded.
  predicate Ruled(game: Game, state: Json, reply: Reply) {
    && reply.Message? && reply.value.Obj?
    && var move := Get(reply.value.fields, "move");
    game.legal(state, move).Ok? && Encodable(move)
  }

  // Where replies are ruled on, both can be recorded or neither can.
  predicate KeepsReply(game: Game, state: Json, a: Reply, b: Reply) {
    Ruled(game, state, a) && Ruled(game, state, b) ==> Unrecordable(a.value) == Unrecordable(b.value)
  }

  // What ruling on a reply comes to, by its move and by whether it can be recorded.
  lemma RulingReads(game: Game, engine: Engine, state: Json, seat: Json, reply: Json)
    requires reply.Obj?
    ensures var move := Get(reply.fields, "move");
      var r, ruling := RuleOn(game, engine, state, seat, reply), game.legal(state, move);
      && (ruling.Err? ==> r == Err(ruling.error))
      && (ruling.Ok? && Unrecordable(move) ==> r == Err(UNRECORDED))
      && (ruling.Ok? && Unrecordable(reply) ==> r == Err(UNRECORDED))
      && (ruling.Ok? && !Unrecordable(move) && !Unrecordable(reply) ==>
            if ruling.value.0 then
              (if Encodable(move) then r.Ok? && r.value.Accepted? && r.value.seat == seat && r.value.move == move
               else r == Err("NonCanonical"))
            else
              && r.Ok? && r.value.Rejected? && r.value.seat == seat && r.value.why == ruling.value.1
              && r.value.recorded == if Encodable(move) then move else Null)
      && (!Checked(move) ==> !Unrecordable(reply))
  {
    hide Safe, CanonicalBytes, EncodableOrRaise, Checked, Textual;
    FieldChecked(reply, "move");
    SafeRaises(engine, reply);
    BytesRead(Get(reply.fields, "move"));
  }

  lemma FieldChecked(j: Json, key: string)
    requires j.Obj?
    ensures Checked(j) ==> Checked(Get(j.fields, key))
  {
  }

  lemma BytesRead(j: Json)
    ensures EncodableOrRaise(j) == if Unrecordable(j) then Err(UNRECORDED) else Ok(Encodable(j))
    ensures CanonicalBytes(j).Ok? <==> Encodable(j)
    ensures CanonicalBytes(j).Err? ==>
      ErrorName(CanonicalBytes(j).error) == if Unrecordable(j) then UNRECORDED else "NonCanonical"
  {
    hide Text;
  }

  lemma RuledAlike(game: Game, engine: Engine, state: Json, seat: Json, a: Json, b: Json)
    requires a.Obj? && b.Obj? && SameUnder("move", a, b) && KeepsReply(game, state, Message(a), Message(b))
    ensures TwinRuling(RuleOn(game, engine, state, seat, a), RuleOn(game, engine, state, seat, b))
  {
    hide RuleOn, Checked, Textual;
    RulingReads(game, engine, state, seat, a);
    RulingReads(game, engine, state, seat, b);
  }

  lemma HeardAlike(game: Game, engine: Engine, state: Json, seat: Json, a: Reply, b: Reply)
    requires SameReply("move", a, b) && KeepsReply(game, state, a, b)
    ensures TwinRuling(HearMove(game, engine, state, seat, a), HearMove(game, engine, state, seat, b))
  {
    hide RuleOn, KeepsReply, TwinTurn;
    if a != b && a.value.Obj? && b.value.Obj? {
      RuledAlike(game, engine, state, seat, a.value, b.value);
    }
  }

  // An entrant is asked to move: the game goes on, and names a seat to ask.
  predicate Asks(game: Game, state: Json, turn: nat, bound: int) {
    && game.terminal(state) == Ok(None) && turn < bound
    && ToMove(state).Ok? && SeatIndex(ToMove(state).value).Ok?
    && game.observation(state, ToMove(state).value).Ok?
  }

  predicate KeepsTurn(game: Game, a: Entrants, b: Entrants, state: Json, turn: nat, bound: int) {
    Asks(game, state, turn, bound) ==> KeepsReply(game, state, a.move(turn), b.move(turn))
  }

  lemma AskedIsHeard(game: Game, engine: Engine, a: Entrants, state: Json, turn: nat, bound: int)
    requires Asks(game, state, turn, bound)
    ensures ToMove(state).Ok?
    ensures TakeTurn(game, engine, a, state, turn, bound) ==
      HearMove(game, engine, state, ToMove(state).value, a.move(turn))
  {
    hide HearMove, ToMove, SeatIndex;
  }

  lemma UnaskedIsAlike(game: Game, engine: Engine, a: Entrants, b: Entrants, state: Json, turn: nat, bound: int)
    requires !Asks(game, state, turn, bound)
    ensures var r := TakeTurn(game, engine, a, state, turn, bound);
      r == TakeTurn(game, engine, b, state, turn, bound) && !(r.Ok? && r.value.Accepted?)
  {
    hide HearMove, ToMove, SeatIndex;
  }

  lemma TurnsAlike(game: Game, engine: Engine, a: Entrants, b: Entrants, state: Json, turn: nat, bound: int)
    requires Twins(a, b) && KeepsTurn(game, a, b, state, turn, bound)
    ensures TwinRuling(TakeTurn(game, engine, a, state, turn, bound), TakeTurn(game, engine, b, state, turn, bound))
  {
    hide HearMove, SameReply, KeepsReply, TwinTurn, TakeTurn, Asks;
    if Asks(game, state, turn, bound) {
      AskedIsHeard(game, engine, a, state, turn, bound);
      AskedIsHeard(game, engine, b, state, turn, bound);
      HeardAlike(game, engine, state, ToMove(state).value, a.move(turn), b.move(turn));
    } else {
      UnaskedIsAlike(game, engine, a, b, state, turn, bound);
    }
  }

  // One reply raises where its twin is ruled on.
  predicate RaisesBeside(a: Result<Turn, Fault>, b: Result<Turn, Fault>) {
    a == Err(UNRECORDED) && b.Ok? && (b.value.Accepted? || b.value.Rejected?)
  }

  lemma TurnsApart(game: Game, engine: Engine, a: Entrants, b: Entrants, state: Json, turn: nat, bound: int)
    requires Twins(a, b) && !KeepsTurn(game, a, b, state, turn, bound)
    ensures var r, r' := TakeTurn(game, engine, a, state, turn, bound), TakeTurn(game, engine, b, state, turn, bound);
      RaisesBeside(r, r') || RaisesBeside(r', r)
  {
    var seat, x, y := ToMove(state).value, a.move(turn), b.move(turn);
    AskedIsHeard(game, engine, a, state, turn, bound);
    AskedIsHeard(game, engine, b, state, turn, bound);
    assert SameReply("move", x, y);
    hide TakeTurn, RuleOn, Checked, Textual, Twins;
    RulingReads(game, engine, state, seat, x.value);
    RulingReads(game, engine, state, seat, y.value);
  }

  // -- entries ------------------------------------------------------------

  lemma MessagesStrip(body: Body, message: Json, message': Json)
    ensures Stripped(body["entrant_message" := message]) == Stripped(body["entrant_message" := message'])
  {
  }

  lemma MoveEntriesAlike(seat: Json, turn: nat, move: Json, why: string, message: Json, message': Json)
    ensures TwinEntry(AcceptedEntry(seat, turn, move, message), AcceptedEntry(seat, turn, move, message'))
    ensures TwinEntry(RejectedEntry(seat, turn, move, why, message), RejectedEntry(seat, turn, move, why, message'))
  {
    var accepted := map["player" := seat, "turn" := Int(turn), "move" := move, "legal" := Bool(true)];
    MessagesStrip(accepted, message, message');
    assert AcceptedEntry(seat, turn, move, message).body == accepted["entrant_message" := message];
    assert AcceptedEntry(seat, turn, move, message').body == accepted["entrant_message" := message'];
    var rejected := map["player" := seat, "turn" := Int(turn), "move" := move, "legal" := Bool(false),
                        "rejected_because" := Str(why)];
    MessagesStrip(rejected, message, message');
    assert RejectedEntry(seat, turn, move, why, message).body == rejected["entrant_message" := message];
    assert RejectedEntry(seat, turn, move, why, message').body == rejected["entrant_message" := message'];
  }

  lemma ReadyEntriesAlike(player: nat, message: Json, message': Json)
    ensures TwinEntry(ReadyEntry(player, message), ReadyEntry(player, message'))
  {
    MessagesStrip(map["player" := Int(player)], message, message');
  }

  lemma TwinsAppend(a: seq<Entry>, b: seq<Entry>, a': seq<Entry>, b': seq<Entry>)
    requires TwinEntries(a, a') && TwinEntries(b, b')
    ensures TwinEntries(a + b, a' + b')
  {
  }

  lemma TwinsReflexive(a: seq<Entry>)
    ensures TwinEntries(a, a)
  {
  }

  lemma TwinPair(a: Entry, a': Entry, s: Entry)
    requires TwinEntry(a, a')
    ensures TwinEntries([a, s], [a', s]) && TwinEntries([a], [a'])
  {
  }

  lemma {:induction false} ProjectedAlike(a: seq<Entry>, b: seq<Entry>)
    requires TwinEntries(a, b)
    ensures Projected(a) == Projected(b)
  {
    if a != [] {
      var n := |a| - 1;
      ProjectedAlike(a[..n], b[..n]);
      assert TwinEntry(a[n], b[n]);
      assert ProjectedEntry(a[n]) == ProjectedEntry(b[n]);
    }
  }

  // -- play ---------------------------------------------------------------

  predicate TwinPlays(a: Played, b: Played) {
    TwinEntries(a.entries, b.entries) && a.live == b.live && a.ending == b.ending && a.turn == b.turn
  }

  lemma TwinFollow(x: seq<Entry>, y: seq<Entry>, a: Played, b: Played)
    requires TwinEntries(x, y) && TwinPlays(a, b)
    ensures TwinPlays(Follow(x, a), Follow(y, b))
  {
    hide TwinEntries;
    TwinsAppend(x, a.entries, y, b.entries);
  }

  lemma SamePlay(p: Played)
    ensures TwinPlays(p, p)
  {
  }

  // The position after a turn, if the match goes on from it.
  function NextPosition(game: Game, engine: Engine, a: Entrants, state: Json, turn: nat, bound: int): Option<Json> {
    match TakeTurn(game, engine, a, state, turn, bound)
    case Ok(Accepted(_, move, _)) =>
      (match game.apply(state, move)
       case Ok(next) => if Digest(engine.sha, next).Ok? then Some(next) else None
       case Err(_) => None)
    case _ => None
  }

  // From a position on, at every turn the run of a comes to: both replies can be recorded
  // or neither can.
  predicate KeepsPlay(game: Game, engine: Engine, a: Entrants, b: Entrants, state: Json, turn: nat, bound: int)
    decreases if turn < bound then bound - turn else 0
  {
    && KeepsTurn(game, a, b, state, turn, bound)
    && var next := NextPosition(game, engine, a, state, turn, bound);
    (turn < bound && next.Some? ==> KeepsPlay(game, engine, a, b, next.value, turn + 1, bound))
  }

  /** Twins play alike: the same states, the same rulings, the same ending. */
  lemma {:induction false} PlaysAlike(game: Game, engine: Engine, a: Entrants, b: Entrants, state: Json, turn: nat,
                                      bound: int)
    requires Twins(a, b) && KeepsPlay(game, engine, a, b, state, turn, bound)
    ensures TwinPlays(PlayFrom(game, engine, a, state, turn, bound), PlayFrom(game, engine, b, state, turn, bound))
    decreases if turn < bound then bound - turn else 0
  {
    hide TwinPlays, Twins, KeepsTurn, NextPosition;
    TurnsAlike(game, engine, a, b, state, turn, bound);
    var r, r' := TakeTurn(game, engine, a, state, turn, bound), TakeTurn(game, engine, b, state, turn, bound);
    if r.Ok? && r.value.Accepted? {
      AcceptedAlike(game, engine, a, b, state, turn, bound);
    } else if r.Ok? && r.value.Rejected? {
      RejectedAlike(game, engine, a, b, state, turn, bound);
    } else {
      StopsAlike(game, engine, a, b, state, turn, bound);
    }
  }

  lemma StopsAlike(game: Game, engine: Engine, a: Entrants, b: Entrants, state: Json, turn: nat, bound: int)
    requires var r := TakeTurn(game, engine, a, state, turn, bound);
      r == TakeTurn(game, engine, b, state, turn, bound) && !(r.Ok? && r.value.Accepted?)
    ensures TwinPlays(PlayFrom(game, engine, a, state, turn, bound), PlayFrom(game, engine, b, state, turn, bound))
  {
    hide TakeTurn;
    SamePlay(PlayFrom(game, engine, a, state, turn, bound));
    hide TwinPlays;
  }

  lemma RejectedAlike(game: Game, engine: Engine, a: Entrants, b: Entrants, state: Json, turn: nat, bound: int)
    requires var r, r' := TakeTurn(game, engine, a, state, turn, bound), TakeTurn(game, engine, b, state, turn, bound);
      r.Ok? && r.value.Rejected? && TwinRuling(r, r')
    ensures TwinPlays(PlayFrom(game, engine, a, state, turn, bound), PlayFrom(game, engine, b, state, turn, bound))
  {
    hide TakeTurn, TwinEntry;
    var t, t' := TakeTurn(game, engine, a, state, turn, bound).value,
      TakeTurn(game, engine, b, state, turn, bound).value;
    MoveEntriesAlike(t.seat, turn, t.recorded, t.why, t.message, t'.message);
    TwinPair(RejectedEntry(t.seat, turn, t.recorded, t.why, t.message),
             RejectedEntry(t.seat, turn, t.recorded, t.why, t'.message),
             MoveForfeit(t.seat, "illegal_move", Some(t.why), turn));
    hide TwinEntries;
  }

  lemma {:induction false} AcceptedAlike(game: Game, engine: Engine, a: Entrants, b: Entrants, state: Json,
                                         turn: nat, bound: int)
    requires Twins(a, b) && KeepsPlay(game, engine, a, b, state, turn, bound)
    requires var r, r' := TakeTurn(game, engine, a, state, turn, bound), TakeTurn(game, engine, b, state, turn, bound);
      r.Ok? && r.value.Accepted? && TwinRuling(r, r')
    ensures TwinPlays(PlayFrom(game, engine, a, state, turn, bound), PlayFrom(game, engine, b, state, turn, bound))
    decreases if turn < bound then bound - turn else 0, 0
  {
    AcceptedInTime(game, engine, a, state, turn, bound);
    hide TakeTurn, KeepsTurn, TwinEntry, TwinPlays, TwinEntries, Digest, Twins;
    var t, t' := TakeTurn(game, engine, a, state, turn, bound).value,
      TakeTurn(game, engine, b, state, turn, bound).value;
    var x, y := AcceptedEntry(t.seat, turn, t.move, t.message), AcceptedEntry(t.seat, turn, t.move, t'.message);
    MoveEntriesAlike(t.seat, turn, t.move, "", t.message, t'.message);
    var next := game.apply(state, t.move);
    if next.Err? {
      var later := Faulted(next.error, turn, true);
      TwinPair(x, y, x);
      SamePlay(later);
      TwinFollow([x], [y], later, later);
    } else if Digest(engine.sha, next.value).Err? {
      var later := Faulted(ErrorName(Digest(engine.sha, next.value).error), turn + 1, false);
      TwinPair(x, y, x);
      SamePlay(later);
      TwinFollow([x], [y], later, later);
    } else {
      var s := StateEntry(next.value, Digest(engine.sha, next.value).value, turn + 1);
      TwinPair(x, y, s);
      PlaysAlike(game, engine, a, b, next.value, turn + 1, bound);
      TwinFollow([x, s], [y, s], PlayFrom(game, engine, a, next.value, turn + 1, bound),
                 PlayFrom(game, engine, b, next.value, turn + 1, bound));
    }
  }

  lemma AcceptedInTime(game: Game, engine: Engine, a: Entrants, state: Json, turn: nat, bound: int)
    requires var r := TakeTurn(game, engine, a, state, turn, bound); r.Ok? && r.value.Accepted?
    ensures turn < bound
  {
    hide HearMove, ToMove, SeatIndex;
  }

  // -- where play comes apart -----------------------------------------------

  predicate KindsDifferAt(a: seq<Entry>, b: seq<Entry>, i: nat) {
    i < |a| && i < |b| && a[i].kind != b[i].kind
  }

  // Entries of different kinds at one place, which no projection can make alike.
  ghost predicate Apart(a: seq<Entry>, b: seq<Entry>) {
    exists i: nat :: KindsDifferAt(a, b, i)
  }

  lemma ApartAfter(x: seq<Entry>, y: seq<Entry>, a: seq<Entry>, b: seq<Entry>)
    requires |x| == |y| && Apart(a, b)
    ensures Apart(x + a, y + b)
  {
    var i: nat :| KindsDifferAt(a, b, i);
    assert KindsDifferAt(x + a, y + b, |x| + i);
  }

  lemma ApartBefore(a: seq<Entry>, b: seq<Entry>, x: seq<Entry>, y: seq<Entry>)
    requires Apart(a, b)
    ensures Apart(a + x, b + y)
  {
    var i: nat :| KindsDifferAt(a, b, i);
    assert KindsDifferAt(a + x, b + y, i);
  }

  // Void because a message could not be recorded.
  predicate Spoiled(live: Live, ending: Ending) {
    live == VOIDED && ending == EngineFault(UNRECORDED, false)
  }

  ghost predicate PlaysPart(a: Played, b: Played) {
    Apart(a.entries, b.entries) && (Spoiled(a.live, a.ending) || Spoiled(b.live, b.ending))
  }

  lemma FollowParts(x: seq<Entry>, y: seq<Entry>, a: Played, b: Played)
    requires |x| == |y| && PlaysPart(a, b)
    ensures PlaysPart(Follow(x, a), Follow(y, b))
  {
    ApartAfter(x, y, a.entries, b.entries);
  }

  lemma TurnStarts(game: Game, engine: Engine, a: Entrants, state: Json, turn: nat, bound: int)
    ensures var r, p := TakeTurn(game, engine, a, state, turn, bound), PlayFrom(game, engine, a, state, turn, bound);
      && (r == Err(UNRECORDED) ==> p == Faulted(UNRECORDED, turn, false))
      && (r.Ok? && (r.value.Accepted? || r.value.Rejected?) ==> p.entries != [] && p.entries[0].kind == "move")
  {
    hide TakeTurn;
    var r := TakeTurn(game, engine, a, state, turn, bound);
    if r.Ok? && r.value.Accepted? {
      AcceptedInTime(game, engine, a, state, turn, bound);
    }
  }

  lemma RaisedPlayParts(game: Game, engine: Engine, a: Entrants, b: Entrants, state: Json, turn: nat, bound: int)
    requires RaisesBeside(TakeTurn(game, engine, a, state, turn, bound), TakeTurn(game, engine, b, state, turn, bound))
    ensures var p, q := PlayFrom(game, engine, a, state, turn, bound), PlayFrom(game, engine, b, state, turn, bound);
      KindsDifferAt(p.entries, q.entries, 0) && KindsDifferAt(q.entries, p.entries, 0) && Spoiled(p.live, p.ending)
  {
    TurnStarts(game, engine, a, state, turn, bound);
    TurnStarts(game, engine, b, state, turn, bound);
    hide TakeTurn, PlayFrom;
  }

  lemma GoesOn(game: Game, engine: Engine, a: Entrants, state: Json, turn: nat, bound: int)
    requires turn < bound && NextPosition(game, engine, a, state, turn, bound).Some?
    ensures TakeTurn(game, engine, a, state, turn, bound).Ok?
    ensures var t := TakeTurn(game, engine, a, state, turn, bound).value;
      var next := NextPosition(game, engine, a, state, turn, bound).value;
      var digest := Digest(engine.sha, next);
      && digest.Ok? && t.Accepted?
      && PlayFrom(game, engine, a, state, turn, bound) ==
           Follow([AcceptedEntry(t.seat, turn, t.move, t.message), StateEntry(next, digest.value, turn + 1)],
                  PlayFrom(game, engine, a, next, turn + 1, bound))
  {
    hide TakeTurn, Digest, AcceptedEntry, StateEntry;
  }

  /** Twins part where one of two replies can be recorded and the other cannot: the play
      of one is void on the spot, and the records differ in kind there. */
  lemma {:induction false} PlaysApart(game: Game, engine: Engine, a: Entrants, b: Entrants, state: Json, turn: nat,
                                      bound: int)
    requires Twins(a, b) && !KeepsPlay(game, engine, a, b, state, turn, bound)
    ensures PlaysPart(PlayFrom(game, engine, a, state, turn, bound), PlayFrom(game, engine, b, state, turn, bound))
    decreases if turn < bound then bound - turn else 0
  {
    hide Twins, KeepsTurn, TakeTurn, PlayFrom, NextPosition, TwinTurn, Spoiled;
    if !KeepsTurn(game, a, b, state, turn, bound) {
      TurnsApart(game, engine, a, b, state, turn, bound);
      if RaisesBeside(TakeTurn(game, engine, a, state, turn, bound), TakeTurn(game, engine, b, state, turn, bound)) {
        RaisedPlayParts(game, engine, a, b, state, turn, bound);
      } else {
        RaisedPlayParts(game, engine, b, a, state, turn, bound);
      }
    } else {
      var next := NextPosition(game, engine, a, state, turn, bound).value;
      PlaysApart(game, engine, a, b, next, turn + 1, bound);
      NextAlike(game, engine, a, b, state, turn, bound);
      GoesOnApart(game, engine, a, b, state, turn, bound);
    }
  }

  lemma NextAlike(game: Game, engine: Engine, a: Entrants, b: Entrants, state: Json, turn: nat, bound: int)
    requires Twins(a, b) && KeepsTurn(game, a, b, state, turn, bound)
    ensures NextPosition(game, engine, a, state, turn, bound) == NextPosition(game, engine, b, state, turn, bound)
  {
    TurnsAlike(game, engine, a, b, state, turn, bound);
    hide TakeTurn, Digest, Twins, KeepsTurn;
  }

  lemma GoesOnApart(game: Game, engine: Engine, a: Entrants, b: Entrants, state: Json, turn: nat, bound: int)
    requires turn < bound && NextPosition(game, engine, a, state, turn, bound).Some?
    requires NextPosition(game, engine, a, state, turn, bound) == NextPosition(game, engine, b, state, turn, bound)
    requires var next := NextPosition(game, engine, a, state, turn, bound).value;
      PlaysPart(PlayFrom(game, engine, a, next, turn + 1, bound), PlayFrom(game, engine, b, next, turn + 1, bound))
    ensures PlaysPart(PlayFrom(game, engine, a, state, turn, bound), PlayFrom(game, engine, b, state, turn, bound))
  {
    hide TakeTurn, PlayFrom, NextPosition, Digest, PlaysPart, AcceptedEntry, StateEntry;
    GoesOn(game, engine, a, state, turn, bound);
    GoesOn(game, engine, b, state, turn, bound);
    var t, t' := TakeTurn(game, engine, a, state, turn, bound).value,
      TakeTurn(game, engine, b, state, turn, bound).value;
    var next := NextPosition(game, engine, a, state, turn, bound).value;
    var s := StateEntry(next, Digest(engine.sha, next).value, turn + 1);
    FollowParts([AcceptedEntry(t.seat, turn, t.move, t.message), s],
      [AcceptedEntry(t'.seat, turn, t'.move, t'.message), s],
                PlayFrom(game, engine, a, next, turn + 1, bound), PlayFrom(game, engine, b, next, turn + 1, bound));
  }

  // -- handshake and run --------------------------------------------------

  predicate TwinShakes(a: Shake, b: Shake) {
    TwinEntries(a.entries, b.entries) && a.outcome == b.outcome && a.fault == b.fault
  }

  // From seat i on, at every hello the handshake comes to: both can be recorded or neither
  // can.
  predicate KeepsShake(a: Entrants, b: Entrants, i: nat)
    requires i <= 2
    decreases 2 - i
  {
    i == 2 ||
    (&& KeepsHello(a.hello(i), b.hello(i))
     && (SaysReady(a.hello(i)) && !Unrecordable(a.hello(i).value) ==> KeepsShake(a, b, i + 1)))
  }

  lemma ReadyIffSaid(engine: Engine, reply: Reply)
    ensures Greet(engine, reply).Ready? <==> SaysReady(reply) && !Unrecordable(reply.value)
  {
    hide Safe, Unrecordable;
    if SaysReady(reply) {
      SafeRaises(engine, reply.value);
    }
  }

  lemma {:induction false} ShakesAlike(engine: Engine, a: Entrants, b: Entrants, i: nat)
    requires Twins(a, b) && i <= 2 && KeepsShake(a, b, i)
    ensures TwinShakes(ShakeFrom(engine, a, i), ShakeFrom(engine, b, i))
    decreases 2 - i
  {
    if i < 2 {
      hide ShakeFrom, Greet, TwinShakes, TwinHello, KeepsHello, SaysReady, Unrecordable;
      GreetedAlike(engine, a.hello(i), b.hello(i));
      ReadyIffSaid(engine, a.hello(i));
      if Greet(engine, a.hello(i)).Ready? {
        ShakesAlike(engine, a, b, i + 1);
      }
      ShakeAlike(engine, a, b, i);
    }
  }

  // The handshake of one raised at a hello whose twin was recorded.
  predicate BrokeBeside(a: Shake, b: Shake) {
    && a.fault.Some? && a.fault.value.1 == UNRECORDED && a.outcome.None?
    && |a.entries| < |b.entries| && b.entries[|a.entries|].kind == "ready"
  }

  lemma {:induction false} ShakesApart(engine: Engine, a: Entrants, b: Entrants, i: nat)
    requires Twins(a, b) && i <= 2 && !KeepsShake(a, b, i)
    ensures var x, y := ShakeFrom(engine, a, i), ShakeFrom(engine, b, i); BrokeBeside(x, y) || BrokeBeside(y, x)
    decreases 2 - i
  {
    hide Greet, Twins, Unrecordable, SaysReady, HandshakeForfeit;
    if !KeepsHello(a.hello(i), b.hello(i)) {
      assert a.hello(i).Message? && b.hello(i).Message? by {
        HelloMessages(a.hello(i), b.hello(i));
      }
      if Unrecordable(a.hello(i).value) {
        GreetedApart(engine, a.hello(i), b.hello(i));
      } else {
        GreetedApart(engine, b.hello(i), a.hello(i));
      }
    } else {
      ShakesApart(engine, a, b, i + 1);
      assert SameReply("type", a.hello(i), b.hello(i)) by {
        TwinHellos(a, b, i);
      }
      GreetedAlike(engine, a.hello(i), b.hello(i));
      ReadyIffSaid(engine, a.hello(i));
      OneMoreReady(engine, a, b, i);
    }
  }

  lemma HelloMessages(a: Reply, b: Reply)
    requires !KeepsHello(a, b)
    ensures a.Message? && b.Message?
  {
  }

  lemma TwinHellos(a: Entrants, b: Entrants, i: nat)
    requires Twins(a, b)
    ensures SameReply("type", a.hello(i), b.hello(i))
  {
  }

  lemma OneMoreReady(engine: Engine, a: Entrants, b: Entrants, i: nat)
    requires i < 2 && Greet(engine, a.hello(i)).Ready? && Greet(engine, b.hello(i)).Ready?
    requires var x, y := ShakeFrom(engine, a, i + 1), ShakeFrom(engine, b, i + 1);
      BrokeBeside(x, y) || BrokeBeside(y, x)
    ensures var x, y := ShakeFrom(engine, a, i), ShakeFrom(engine, b, i); BrokeBeside(x, y) || BrokeBeside(y, x)
  {
    hide Greet, ReadyEntry, HandshakeForfeit;
  }

  lemma ShakeAlike(engine: Engine, a: Entrants, b: Entrants, i: nat)
    requires i < 2 && TwinHello(Greet(engine, a.hello(i)), Greet(engine, b.hello(i)))
    requires Greet(engine, a.hello(i)).Ready? ==> TwinShakes(ShakeFrom(engine, a, i + 1), ShakeFrom(engine, b, i + 1))
    ensures TwinShakes(ShakeFrom(engine, a, i), ShakeFrom(engine, b, i))
  {
    hide Greet, TwinEntry, TwinEntries, ReadyEntry, HandshakeForfeit;
    TwinsReflexive(ShakeFrom(engine, a, i).entries);
    if Greet(engine, a.hello(i)).Ready? {
      ReadyAhead(i, Greet(engine, a.hello(i)).message, Greet(engine, b.hello(i)).message,
                 ShakeFrom(engine, a, i + 1), ShakeFrom(engine, b, i + 1));
    }
  }

  lemma ReadyAhead(i: nat, message: Json, message': Json, a: Shake, b: Shake)
    requires TwinShakes(a, b)
    ensures TwinShakes(a.(entries := [ReadyEntry(i, message)] + a.entries),
      b.(entries := [ReadyEntry(i, message')] + b.entries))
  {
    hide TwinEntry, TwinEntries, ReadyEntry;
    ReadyEntriesAlike(i, message, message');
    TwinPair(ReadyEntry(i, message), ReadyEntry(i, message'), ReadyEntry(i, message));
    TwinsAppend([ReadyEntry(i, message)], a.entries, [ReadyEntry(i, message')], b.entries);
  }

  // Both seats got ready, so that there is play.
  predicate Started(engine: Engine, a: Entrants) {
    var shake := ShakeFrom(engine, a, 0);
    shake.fault.None? && shake.outcome.None?
  }

  // At every hello and every turn that is come to, both messages can be recorded or neither
  // can.
  predicate KeepsAll(engine: Engine, game: Game, a: Entrants, b: Entrants, state: Json, bound: int) {
    KeepsShake(a, b, 0) && (Started(engine, a) ==> KeepsPlay(game, engine, a, b, state, 0, bound))
  }

  lemma OpenedAlike(engine: Engine, m: Match, a: Entrants, b: Entrants, opening: Entry, state: Json, bound: int)
    requires Twins(a, b) && KeepsAll(engine, m.game, a, b, state, bound)
    ensures TwinPlays(Opened(engine, m, a, opening, state, bound), Opened(engine, m, b, opening, state, bound))
  {
    hide ShakeFrom, PlayFrom, TwinEntries, Twins, KeepsShake, KeepsPlay;
    ShakesAlike(engine, a, b, 0);
    var x, y := ShakeFrom(engine, a, 0), ShakeFrom(engine, b, 0);
    TwinsReflexive([opening]);
    TwinsAppend(x.entries, [opening], y.entries, [opening]);
    match (x.fault, x.outcome)
    case (Some((seat, fault)), _) =>
      TwinsReflexive([HandshakeError(fault, seat), opening]);
      TwinsAppend(x.entries, [HandshakeError(fault, seat), opening], y.entries, [HandshakeError(fault, seat), opening]);
    case (None, Some(_)) =>
    case (None, None) =>
      PlaysAlike(m.game, engine, a, b, state, 0, bound);
      TwinFollow(x.entries + [opening], y.entries + [opening],
                 PlayFrom(m.game, engine, a, state, 0, bound), PlayFrom(m.game, engine, b, state, 0, bound));
  }

  lemma BrokenOpens(engine: Engine, m: Match, a: Entrants, b: Entrants, opening: Entry, state: Json, bound: int)
    requires BrokeBeside(ShakeFrom(engine, a, 0), ShakeFrom(engine, b, 0))
    ensures var p, q := Opened(engine, m, a, opening, state, bound), Opened(engine, m, b, opening, state, bound);
      var n := |ShakeFrom(engine, a, 0).entries|;
      KindsDifferAt(p.entries, q.entries, n) && KindsDifferAt(q.entries, p.entries, n) && Spoiled(p.live, p.ending)
  {
    hide ShakeFrom, PlayFrom;
    var n := |ShakeFrom(engine, a, 0).entries|;
    var q := Opened(engine, m, b, opening, state, bound);
    assert ShakeFrom(engine, b, 0).entries <= q.entries;
    assert q.entries[n] == ShakeFrom(engine, b, 0).entries[n];
    var x := ShakeFrom(engine, a, 0);
    assert Opened(engine, m, a, opening, state, bound).entries[n] == HandshakeError(x.fault.value.1, x.fault.value.0);
  }

  lemma OpenedApart(engine: Engine, m: Match, a: Entrants, b: Entrants, opening: Entry, state: Json, bound: int)
    requires Twins(a, b) && !KeepsAll(engine, m.game, a, b, state, bound)
    ensures PlaysPart(Opened(engine, m, a, opening, state, bound), Opened(engine, m, b, opening, state, bound))
  {
    hide ShakeFrom, PlayFrom, TwinEntries, Twins, KeepsShake, KeepsPlay, Spoiled;
    var x, y := ShakeFrom(engine, a, 0), ShakeFrom(engine, b, 0);
    if !KeepsShake(a, b, 0) {
      ShakesApart(engine, a, b, 0);
      if BrokeBeside(x, y) {
        BrokenOpens(engine, m, a, b, opening, state, bound);
      } else {
        BrokenOpens(engine, m, b, a, opening, state, bound);
      }
    } else {
      ShakesAlike(engine, a, b, 0);
      PlaysApart(m.game, engine, a, b, state, 0, bound);
      TwinLengths(x, y);
      FollowParts(x.entries + [opening], y.entries + [opening],
                  PlayFrom(m.game, engine, a, state, 0, bound), PlayFrom(m.game, engine, b, state, 0, bound));
    }
  }

  lemma TwinLengths(a: Shake, b: Shake)
    requires TwinShakes(a, b)
    ensures |a.entries| == |b.entries|
  {
  }

  // The condition on a whole run, from the opening position and its move bound.
  predicate KeepsRun(engine: Engine, m: Match, a: Entrants, b: Entrants) {
    var board := Prepared(engine, m);
    board.Ok? ==> KeepsAll(engine, m.game, a, b, board.value.state, board.value.bound)
  }

  lemma ScenesRelate(engine: Engine, m: Match, a: Entrants, b: Entrants)
    requires Twins(a, b)
    ensures Scene(engine, m, a).Ok? <==> Scene(engine, m, b).Ok?
    ensures Scene(engine, m, a).Ok? ==>
      var p, q := Scene(engine, m, a).value, Scene(engine, m, b).value;
      if KeepsRun(engine, m, a, b) then TwinPlays(p, q) else PlaysPart(p, q)
  {
    hide HeaderBody, Opened, Prepared, TwinPlays, PlaysPart, Twins, KeepsAll;
    if Prepared(engine, m).Ok? {
      var board := Prepared(engine, m).value;
      var opening := StateEntry(board.state, board.digest, 0);
      var header := Entry("header", HeaderBody(engine, m));
      var p := Opened(engine, m, a, opening, board.state, board.bound);
      var q := Opened(engine, m, b, opening, board.state, board.bound);
      if KeepsRun(engine, m, a, b) {
        OpenedAlike(engine, m, a, b, opening, board.state, board.bound);
        TwinsReflexive([header]);
        TwinFollow([header], [header], p, q);
      } else {
        OpenedApart(engine, m, a, b, opening, board.state, board.bound);
        FollowParts([header], [header], p, q);
      }
    }
  }

  lemma {:induction false} BodiesCountAlike(a: seq<Entry>, b: seq<Entry>, kind: string)
    requires TwinEntries(a, b)
    ensures |Bodies(a, kind)| == |Bodies(b, kind)|
  {
    if a != [] {
      var n := |a| - 1;
      assert TwinEntry(a[n], b[n]);
      BodiesCountAlike(a[..n], b[..n], kind);
    }
  }

  lemma ScoredAlike(engine: Engine, m: Match, a: seq<Entry>, b: seq<Entry>, turn: nat)
    requires TwinEntries(a, b)
    ensures var x, y := ScoreOrVoid(engine, m, a, turn), ScoreOrVoid(engine, m, b, turn);
      TwinEntries(x.0, y.0) && x.1 == y.1
  {
    ProjectedAlike(a, b);
    BodiesCountAlike(a, b, "engine_error");
    var fault := ScoreOf(m.game, engine.str, a);
    if fault.Err? {
      var e := RefereeError(fault.error, turn);
      TwinsReflexive([e]);
      TwinsAppend(a, [e], b, [e]);
      BodiesCountAlike(a + [e], b + [e], "move");
      BodiesCountAlike(a, b, "move");
    }
    hide Projected, Bodies, TwinEntries, Score;
  }

  lemma {:induction false} ProjectedKinds(es: seq<Entry>)
    requires Projected(es).Ok?
    ensures |Projected(es).value| == |es|
    ensures forall i | 0 <= i < |es| :: Projected(es).value[i].kind == es[i].kind
  {
    if es != [] {
      ProjectedKinds(es[..|es| - 1]);
    }
  }

  lemma ApartProjections(a: seq<Entry>, b: seq<Entry>)
    requires Apart(a, b) && Projected(a).Ok? && Projected(b).Ok?
    ensures Projected(a) != Projected(b)
  {
    var i: nat :| KindsDifferAt(a, b, i);
    ProjectedKinds(a);
    ProjectedKinds(b);
    hide Projected;
    assert Projected(a).value[i].kind != Projected(b).value[i].kind;
  }

  // What a whole run shows of the projection it was scored from.
  lemma RunProjects(engine: Engine, m: Match, a: Entrants)
    requires RunOf(engine, m, a).Ok?
    ensures Scene(engine, m, a).Ok?
    ensures var run, p := RunOf(engine, m, a).value, Scene(engine, m, a).value;
      && run.entries == p.entries + [ResultEntry(run.scored, m)] && run.live == p.live && run.ending == p.ending
      && Projected(run.entries).Ok? && Agrees(run.scored, run.live, run.ending)
  {
    hide Scene, Projected, Score, Bodies, ResultEntry, Agrees;
    LiveIsRecomputed(engine, m, a);
  }

  lemma RunsAlike(engine: Engine, m: Match, a: Entrants, b: Entrants)
    requires RunOf(engine, m, a).Ok? && RunOf(engine, m, b).Ok?
    requires Scene(engine, m, a).Ok? && Scene(engine, m, b).Ok?
    requires TwinPlays(Scene(engine, m, a).value, Scene(engine, m, b).value)
    ensures var x, y := RunOf(engine, m, a).value, RunOf(engine, m, b).value;
      && Projected(x.entries) == Projected(y.entries)
      && x.live == y.live && x.ending == y.ending && x.scored == y.scored
  {
    hide Scene, ScoreOrVoid, TwinEntries, Projected, ResultEntry;
    var p, q := Scene(engine, m, a).value, Scene(engine, m, b).value;
    ScoredAlike(engine, m, p.entries, q.entries, p.turn);
    var (es, scored) := ScoreOrVoid(engine, m, p.entries, p.turn);
    var (fs, _) := ScoreOrVoid(engine, m, q.entries, q.turn);
    TwinsReflexive([ResultEntry(scored, m)]);
    TwinsAppend(es, [ResultEntry(scored, m)], fs, [ResultEntry(scored, m)]);
    ProjectedAlike(es + [ResultEntry(scored, m)], fs + [ResultEntry(scored, m)]);
  }

  lemma RunsApart(engine: Engine, m: Match, a: Entrants, b: Entrants)
    requires RunOf(engine, m, a).Ok? && RunOf(engine, m, b).Ok?
    requires Scene(engine, m, a).Ok? && Scene(engine, m, b).Ok?
    requires PlaysPart(Scene(engine, m, a).value, Scene(engine, m, b).value)
    ensures var x, y := RunOf(engine, m, a).value, RunOf(engine, m, b).value;
      && Projected(x.entries) != Projected(y.entries)
      && (Voided(x) || Voided(y))
  {
    RunProjects(engine, m, a);
    RunProjects(engine, m, b);
    hide RunOf, Scene, Projected, ResultEntry, Apart;
    var x, y := RunOf(engine, m, a).value, RunOf(engine, m, b).value;
    ApartBefore(Scene(engine, m, a).value.entries, Scene(engine, m, b).value.entries,
                [ResultEntry(x.scored, m)], [ResultEntry(y.scored, m)]);
    ApartProjections(x.entries, y.entries);
  }

  // A run that nobody won because a message could not be recorded.
  predicate Voided(run: Run) {
    Spoiled(run.live, run.ending) && run.scored.winner == None && run.scored.reason == "engine_error"
  }

  /** What a self-report can do to a result, exactly. Two pairs of entrants get ready alike
      and move alike. If at every hello and turn that is come to both messages can be
      recorded or neither can, the projection, the ending, the outcome and the score are the
      same, whatever else they say. Otherwise the projections differ, and one of the two runs
      is void because a message could not be recorded. */
  lemma SelfReportsMatterIff(engine: Engine, m: Match, a: Entrants, b: Entrants)
    requires Twins(a, b)
    ensures RunOf(engine, m, a).Ok? <==> RunOf(engine, m, b).Ok?
    ensures RunOf(engine, m, a).Ok? ==>
      var x, y := RunOf(engine, m, a).value, RunOf(engine, m, b).value;
      && (Projected(x.entries) == Projected(y.entries) <==> KeepsRun(engine, m, a, b))
      && (KeepsRun(engine, m, a, b) ==> x.live == y.live && x.ending == y.ending && x.scored == y.scored)
      && (!KeepsRun(engine, m, a, b) ==> Voided(x) || Voided(y))
  {
    ScenesRelate(engine, m, a, b);
    RunNeedsScene(engine, m, a);
    RunNeedsScene(engine, m, b);
    hide RunOf, Scene, Twins, KeepsRun, TwinPlays, PlaysPart, Voided, Projected;
    if RunOf(engine, m, a).Ok? {
      if KeepsRun(engine, m, a, b) {
        RunsAlike(engine, m, a, b);
      } else {
        RunsApart(engine, m, a, b);
      }
    }
  }

  lemma RunNeedsScene(engine: Engine, m: Match, a: Entrants)
    ensures RunOf(engine, m, a).Ok? <==> Scene(engine, m, a).Ok?
  {
    hide Scene, ScoreOrVoid, ResultEntry;
  }

  // Nothing these entrants send is beyond recording.
  ghost predicate AllRecordable(a: Entrants) {
    && (forall i: nat :: a.hello(i).Message? ==> !Unrecordable(a.hello(i).value))
    && (forall t: nat :: a.move(t).Message? ==> !Unrecordable(a.move(t).value))
  }

  lemma {:induction false} RecordableKeepsPlay(game: Game, engine: Engine, a: Entrants, b: Entrants, state: Json,
                                               turn: nat, bound: int)
    requires AllRecordable(a) && AllRecordable(b)
    ensures KeepsPlay(game, engine, a, b, state, turn, bound)
    decreases if turn < bound then bound - turn else 0
  {
    hide Unrecordable, NextPosition, Asks, Encodable;
    var next := NextPosition(game, engine, a, state, turn, bound);
    if turn < bound && next.Some? {
      RecordableKeepsPlay(game, engine, a, b, next.value, turn + 1, bound);
    }
  }

  lemma {:induction false} RecordableKeepsShake(a: Entrants, b: Entrants, i: nat)
    requires AllRecordable(a) && AllRecordable(b) && i <= 2
    ensures KeepsShake(a, b, i)
    decreases 2 - i
  {
    hide Unrecordable;
    if i < 2 {
      RecordableKeepsShake(a, b, i + 1);
    }
  }

  /** The promise of the projection, kept: among messages that can be recorded, nothing but
      readiness and moves reaches the score. */
  lemma SelfReportsDoNotMatter(engine: Engine, m: Match, a: Entrants, b: Entrants)
    requires Twins(a, b) && AllRecordable(a) && AllRecordable(b)
    ensures RunOf(engine, m, a).Ok? <==> RunOf(engine, m, b).Ok?
    ensures RunOf(engine, m, a).Ok? ==>
      var x, y := RunOf(engine, m, a).value, RunOf(engine, m, b).value;
      Projected(x.entries) == Projected(y.entries) && x.live == y.live && x.ending == y.ending && x.scored == y.scored
  {
    hide RunOf, Twins, AllRecordable, KeepsPlay, KeepsShake, Projected, Prepared;
    SelfReportsMatterIff(engine, m, a, b);
    RecordableKeepsShake(a, b, 0);
    if Prepared(engine, m).Ok? {
      var board := Prepared(engine, m).value;
      RecordableKeepsPlay(m.game, engine, a, b, board.state, 0, board.bound);
    }
  }
}
