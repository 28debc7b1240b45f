/**
 arena/match.py, run_match: the referee at work, appending to the transcript as it
 goes. Its methods are proved against the functions of Referee.
 */
module MatchRunner {
  import opened Wrappers
  import opened JsonValues
  import opened Canonical
  import opened Transcript
  import opened Games
  import opened Scoring
  import opened Referee
  import opened Adjudication

  function EntryOf(r: Record): Entry {
    Entry(r.kind, r.body)
  }

  function EntriesOf(rs: seq<Record>): seq<Entry> {
    seq(|rs|, i requires 0 <= i < |rs| => EntryOf(rs[i]))
  }

  lemma EntriesPush(rs: seq<Record>, r: Record)
    ensures EntriesOf(rs + [r]) == EntriesOf(rs) + [EntryOf(r)]
  {
  }

  // -- what the referee writes always has canonical bytes ------------------

  lemma FieldsEncodable(m: Body)
    requires forall k | k in m :: Encodable(m[k])
    ensures Encodable(Obj(m))
  {
  }

  lemma SafeIsEncodable(engine: Engine, value: Json)
    requires Safe(engine, value).Ok?
    ensures Encodable(Safe(engine, value).value)
  {
    PassesOnEncodable(value);
    hide Encodable, EncodableOrRaise;
    ReprEncodable("unencodable", Limited(engine.repr(value)));
    ReprEncodable("truncated", Limited(engine.repr(value)));
  }

  lemma PassesOnEncodable(value: Json)
    ensures EncodableOrRaise(value) == Ok(true) ==> Encodable(value)
  {
  }

  lemma ReprEncodable(why: string, text: string)
    ensures Encodable(Obj(map[why := Bool(true), "repr" := Str(text)]))
  {
    FieldsEncodable(map[why := Bool(true), "repr" := Str(text)]);
  }

  lemma SeatEncodable(seat: Json)
    requires SeatIndex(seat).Ok?
    ensures Encodable(seat)
  {
  }

  lemma ReadyEncodable(player: nat, message: Json)
    requires Encodable(message)
    ensures Encodable(Obj(ReadyEntry(player, message).body))
  {
    FieldsEncodable(ReadyEntry(player, message).body);
  }

  lemma ForfeitEncodable(player: nat, seat: Json, reason: string, detail: Option<string>, turn: nat)
    requires Encodable(seat)
    ensures Encodable(Obj(HandshakeForfeit(player, reason, detail).body))
    ensures Encodable(Obj(MoveForfeit(seat, reason, detail, turn).body))
  {
    FieldsEncodable(HandshakeForfeit(player, reason, detail).body);
    FieldsEncodable(MoveForfeit(seat, reason, detail, turn).body);
  }

  lemma ErrorEncodable(fault: Fault, seat: nat, turn: nat, bound: int)
    ensures Encodable(Obj(HandshakeError(fault, seat).body)) && Encodable(Obj(RefereeError(fault, turn).body))
    ensures Encodable(Obj(AbortEntry(bound).body))
  {
    FieldsEncodable(HandshakeError(fault, seat).body);
    FieldsEncodable(RefereeError(fault, turn).body);
    FieldsEncodable(AbortEntry(bound).body);
  }

  lemma StateEncodable(sha: Sha, state: Json, digest: string, turn: nat)
    requires Digest(sha, state) == Ok(digest)
    ensures Encodable(Obj(StateEntry(state, digest, turn).body))
  {
    FieldsEncodable(StateEntry(state, digest, turn).body);
  }

  lemma MoveEncodable(seat: Json, turn: nat, move: Json, why: string, message: Json)
    requires Encodable(seat) && Encodable(message)
    ensures Encodable(Obj(AcceptedEntry(seat, turn, move, message).body)) <==> Encodable(move)
    ensures !Encodable(move) ==>
      CanonicalBytes(Obj(AcceptedEntry(seat, turn, move, message).body)) == CanonicalBytes(move)
    ensures Encodable(move) ==> Encodable(Obj(RejectedEntry(seat, turn, move, why, message).body))
  {
    var m := AcceptedEntry(seat, turn, move, message).body;
    assert "move" in m && m["move"] == move;
    assert forall k | k in m && k != "move" :: Encodable(m[k]);
    if Encodable(move) {
      FieldsEncodable(m);
      FieldsEncodable(RejectedEntry(seat, turn, move, why, message).body);
    } else {
      UnencodableField(m, "move");
    }
  }

  lemma UnencodableField(m: Body, key: string)
    requires key in m && !Encodable(m[key]) && forall k | k in m && k != key :: Encodable(m[k])
    ensures CanonicalBytes(Obj(m)) == CanonicalBytes(m[key])
  {
    assert Checked(Obj(m)) <==> Checked(m[key]);
  }

  lemma ResultEncodable(scored: Scored, m: Match)
    requires Encodable(scored.points)
    ensures Encodable(Obj(ResultEntry(scored, m).body))
  {
    var body := ResultEntry(scored, m).body;
    FieldsEncodable(body["seats"].fields);
    FieldsEncodable(body);
  }

  // -- the handshake ------------------------------------------------------

  lemma GreetedMessageEncodable(engine: Engine, reply: Reply)
    requires Greet(engine, reply).Ready?
    ensures Encodable(Greet(engine, reply).message)
  {
    SafeIsEncodable(engine, reply.value);
  }

  // Appends an entry known to have canonical bytes.
  method Commit(tw: TranscriptWriter, e: Entry)
    requires tw.Valid() && Encodable(Obj(e.body))
    modifies tw
    ensures tw.Valid() && EntriesOf(tw.records) == EntriesOf(old(tw.records)) + [e]
  {
    ghost var before := tw.records;
    var r := tw.Append(e.kind, e.body);
    EntriesPush(before, r.value);
  }

  // With these entries written, the rest of the handshake completes the whole of it.
  ghost predicate ShakeRemains(now: seq<Entry>, rest: Shake, start: seq<Entry>, whole: Shake) {
    && now + rest.entries == start + whole.entries
    && rest.outcome == whole.outcome && rest.fault == whole.fault
  }

  lemma ShakeAdvances(engine: Engine, entrants: Entrants, i: nat, now: seq<Entry>, start: seq<Entry>, whole: Shake)
    requires i < 2 && ShakeRemains(now, ShakeFrom(engine, entrants, i), start, whole)
    ensures match Greet(engine, entrants.hello(i))
      case Refused(reason, detail) =>
        ShakeRemains(now + [HandshakeForfeit(i, reason, detail)],
                     Shake([], Some(Live(Some(1 - i), "forfeit:" + reason)), None), start, whole)
      case Broke(exception) => ShakeRemains(now, Shake([], None, Some((i, exception))), start, whole)
      case Ready(message) =>
        ShakeRemains(now + [ReadyEntry(i, message)], ShakeFrom(engine, entrants, i + 1), start, whole)
  {
    hide Greet;
    match Greet(engine, entrants.hello(i))
    case Refused(reason, detail) =>
      assert now + [HandshakeForfeit(i, reason, detail)] + [] == now + [HandshakeForfeit(i, reason, detail)];
    case Broke(_) =>
    case Ready(message) =>
      var later := ShakeFrom(engine, entrants, i + 1).entries;
      assert now + ([ReadyEntry(i, message)] + later) == now + [ReadyEntry(i, message)] + later;
  }

  /** Greets both seats in turn, until one refuses or something breaks. */
  method Handshake(engine: Engine, entrants: Entrants, tw: TranscriptWriter)
    returns (outcome: Option<Live>, fault: Option<(nat, Fault)>)
    requires tw.Valid()
    modifies tw
    ensures tw.Valid()
    ensures var shake := ShakeFrom(engine, entrants, 0);
      && EntriesOf(tw.records) == EntriesOf(old(tw.records)) + shake.entries
      && outcome == shake.outcome && fault == shake.fault
  {
    hide Greet, ShakeFrom, ShakeRemains, WriterState, EntriesOf, Encodable, HandshakeForfeit, ReadyEntry;
    outcome, fault := None, None;
    ghost var start, whole := EntriesOf(tw.records), ShakeFrom(engine, entrants, 0);
    ShakeBegins(start, whole);
    var i := 0;
    while i < 2 && outcome.None? && fault.None?
      invariant 0 <= i <= 2 && tw.Valid()
      invariant ShakeRemains(EntriesOf(tw.records),
                             if outcome.Some? || fault.Some? then Shake([], outcome, fault)
                             else ShakeFrom(engine, entrants, i), start, whole)
      decreases 2 - i, outcome.None?, fault.None?
    {
      ShakeAdvances(engine, entrants, i, EntriesOf(tw.records), start, whole);
      var hello := Greet(engine, entrants.hello(i));
      match hello {
        case Refused(reason, detail) =>
          ForfeitEncodable(i, Null, reason, detail, 0);
          Commit(tw, HandshakeForfeit(i, reason, detail));
          outcome := Some(Live(Some(1 - i), "forfeit:" + reason));
        case Broke(exception) =>
          fault := Some((i, exception));
        case Ready(message) =>
          GreetedMessageEncodable(engine, entrants.hello(i));
          ReadyEncodable(i, message);
          Commit(tw, ReadyEntry(i, message));
          i := i + 1;
      }
    }
    ShakeEnds(engine, entrants, EntriesOf(tw.records), outcome, fault, i, start, whole);
  }

  lemma ShakeBegins(start: seq<Entry>, whole: Shake)
    ensures ShakeRemains(start, whole, start, whole)
  {
  }

  lemma ShakeEnds(engine: Engine, entrants: Entrants, now: seq<Entry>, outcome: Option<Live>,
                  fault: Option<(nat, Fault)>, i: nat, start: seq<Entry>, whole: Shake)
    requires i <= 2 && (i == 2 || outcome.Some? || fault.Some?)
    requires ShakeRemains(now, if outcome.Some? || fault.Some? then Shake([], outcome, fault)
                               else ShakeFrom(engine, entrants, i), start, whole)
    ensures now == start + whole.entries && outcome == whole.outcome && fault == whole.fault
  {
    assert now + [] == now;
  }

  // -- the play loop ------------------------------------------------------

  // With these entries written, the rest of the play completes the whole of it.
  ghost predicate PlayRemains(now: seq<Entry>, rest: Played, start: seq<Entry>, whole: Played) {
    && now + rest.entries == start + whole.entries
    && rest.live == whole.live && rest.ending == whole.ending && rest.turn == whole.turn
  }

  lemma PlayFollows(now: seq<Entry>, es: seq<Entry>, rest: Played, start: seq<Entry>, whole: Played)
    requires PlayRemains(now, Follow(es, rest), start, whole)
    ensures PlayRemains(now + es, rest, start, whole)
  {
    assert now + (es + rest.entries) == now + es + rest.entries;
  }

  lemma PlayBegins(start: seq<Entry>, whole: Played)
    ensures PlayRemains(start, whole, start, whole)
  {
  }

  lemma PlayEnds(now: seq<Entry>, rest: Played, start: seq<Entry>, whole: Played)
    requires PlayRemains(now, rest, start, whole)
    ensures now + rest.entries == start + whole.entries && rest.live == whole.live && rest.turn == whole.turn
    ensures rest.entries == [] ==> now == start + whole.entries
  {
    assert now + [] == now;
  }

  // What is left to play: a fault to record, nothing, or the game from here on.
  ghost function Rest(game: Game, engine: Engine, entrants: Entrants, state: Json, turn: nat, bound: int,
                      fault: Option<Fault>, inApply: bool, outcome: Option<Live>, ending: Ending): Played
  {
    if fault.Some? then Faulted(fault.value, turn, inApply)
    else if outcome.Some? then Played([], outcome.value, ending, turn)
    else PlayFrom(game, engine, entrants, state, turn, bound)
  }

  lemma TurnEncodable(game: Game, engine: Engine, entrants: Entrants, state: Json, turn: nat, bound: int)
    ensures var r := TakeTurn(game, engine, entrants, state, turn, bound);
      && (r.Ok? && r.value.NoReply? ==>
        Encodable(Obj(MoveForfeit(r.value.seat, r.value.reason, r.value.detail, turn).body)))
      && (r.Ok? && r.value.Rejected? ==>
            Encodable(Obj(RejectedEntry(r.value.seat, turn, r.value.recorded, r.value.why, r.value.message).body))
            && Encodable(Obj(MoveForfeit(r.value.seat, "illegal_move", Some(r.value.why), turn).body)))
      && (r.Ok? && r.value.Accepted? ==>
            Encodable(Obj(AcceptedEntry(r.value.seat, turn, r.value.move, r.value.message).body)))
  {
    TurnFacts(game, engine, entrants, state, turn, bound);
    TurnMessageEncodable(game, engine, entrants, state, turn, bound);
    hide TakeTurn, SeatIndex, ToMove, Encodable, MoveForfeit, RejectedEntry, AcceptedEntry;
    var r := TakeTurn(game, engine, entrants, state, turn, bound);
    if r.Ok? && !r.value.Over? && !r.value.OutOfMoves? {
      SeatEncodable(r.value.seat);
      if r.value.NoReply? {
        ForfeitEncodable(0, r.value.seat, r.value.reason, r.value.detail, turn);
      } else if r.value.Rejected? {
        MoveEncodable(r.value.seat, turn, r.value.recorded, r.value.why, r.value.message);
        ForfeitEncodable(0, r.value.seat, "illegal_move", Some(r.value.why), turn);
      } else {
        MoveEncodable(r.value.seat, turn, r.value.move, "", r.value.message);
      }
    }
  }

  // The move and message of a turn have canonical bytes.
  predicate Recordable(r: Result<Turn, Fault>) {
    && (r.Ok? && r.value.Rejected? ==> Encodable(r.value.recorded) && Encodable(r.value.message))
    && (r.Ok? && r.value.Accepted? ==> Encodable(r.value.move) && Encodable(r.value.message))
  }

  lemma RuledEncodable(game: Game, engine: Engine, state: Json, seat: Json, value: Json)
    requires value.Obj?
    ensures Recordable(RuleOn(game, engine, state, seat, value))
  {
    hide Safe;
    if Safe(engine, value).Ok? {
      SafeIsEncodable(engine, value);
    }
  }

  lemma HeardEncodable(game: Game, engine: Engine, state: Json, seat: Json, reply: Reply)
    ensures Recordable(HearMove(game, engine, state, seat, reply))
  {
    hide RuleOn;
    if reply.Message? && reply.value.Obj? {
      RuledEncodable(game, engine, state, seat, reply.value);
    }
  }

  lemma TurnMessageEncodable(game: Game, engine: Engine, entrants: Entrants, state: Json, turn: nat, bound: int)
    ensures Recordable(TakeTurn(game, engine, entrants, state, turn, bound))
  {
    hide HearMove, SeatIndex;
    var seat := ToMove(state);
    if seat.Ok? {
      HeardEncodable(game, engine, state, seat.value, entrants.move(turn));
    }
  }

  // What a turn that is not accepted leaves: its entries, and the outcome.
  lemma StopLeaves(game: Game, engine: Engine, entrants: Entrants, state: Json, turn: nat, bound: int)
    ensures var p := PlayFrom(game, engine, entrants, state, turn, bound);
      var r := TakeTurn(game, engine, entrants, state, turn, bound);
      && (r.Err? ==> p == Faulted(r.error, turn, false))
      && (r == Ok(Over) ==>
            var end := game.terminal(state);
            end.Ok? && end.value.Some?
            && p == Played([], Live(end.value.value.winner, end.value.value.reason), Terminal(end.value.value), turn))
      && (r == Ok(OutOfMoves) ==>
            p == Follow([AbortEntry(bound)], Played([], Live(None, "move_bound_exceeded"), MoveBound, turn)))
      && (r.Ok? && r.value.NoReply? ==>
            p == Follow([MoveForfeit(r.value.seat, r.value.reason, r.value.detail, turn)],
                        Played([], Live(SeatWinner(r.value.seat), "forfeit:" + r.value.reason), RuntimeForfeit, turn)))
  {
    TurnFacts(game, engine, entrants, state, turn, bound);
    hide TakeTurn, SeatIndex, ToMove, SeatWinner, Digest, MoveForfeit, AbortEntry, RefereeError;
  }

  lemma RejectionLeaves(game: Game, engine: Engine, entrants: Entrants, state: Json, turn: nat, bound: int)
    requires var r := TakeTurn(game, engine, entrants, state, turn, bound); r.Ok? && r.value.Rejected?
    ensures var t := TakeTurn(game, engine, entrants, state, turn, bound).value;
      PlayFrom(game, engine, entrants, state, turn, bound) ==
      Follow([RejectedEntry(t.seat, turn, t.recorded, t.why, t.message)],
             Follow([MoveForfeit(t.seat, "illegal_move", Some(t.why), turn)],
                    Played([], Live(SeatWinner(t.seat), "forfeit:illegal_move"),
                           IllegalMove(t.seat, state, t.recorded, t.why), turn)))
  {
    hide TakeTurn, SeatWinner, Digest, MoveForfeit, RejectedEntry;
  }

  lemma AcceptanceLeaves(game: Game, engine: Engine, entrants: Entrants, state: Json, turn: nat, bound: int)
    requires var r := TakeTurn(game, engine, entrants, state, turn, bound); r.Ok? && r.value.Accepted?
    ensures turn < bound
    ensures var t := TakeTurn(game, engine, entrants, state, turn, bound).value;
      PlayFrom(game, engine, entrants, state, turn, bound) ==
      Follow([AcceptedEntry(t.seat, turn, t.move, t.message)],
        AfterMove(game, engine, entrants, state, t.move, turn, bound))
  {
    TurnFacts(game, engine, entrants, state, turn, bound);
    hide TakeTurn, Digest, AcceptedEntry, StateEntry, RefereeError;
    var t := TakeTurn(game, engine, entrants, state, turn, bound).value;
    var next := game.apply(state, t.move);
    if next.Ok? && Digest(engine.sha, next.value).Ok? {
      var a := AcceptedEntry(t.seat, turn, t.move, t.message);
      var s := StateEntry(next.value, Digest(engine.sha, next.value).value, turn + 1);
      var later := PlayFrom(game, engine, entrants, next.value, turn + 1, bound).entries;
      assert [a, s] + later == [a] + ([s] + later);
    }
  }

  // Once a move is recorded: apply it, and go on or fault.
  ghost function AfterMove(game: Game, engine: Engine, entrants: Entrants, state: Json, move: Json, turn: nat,
                           bound: int)
    : Played
  {
    match game.apply(state, move)
    case Err(fault) => Faulted(fault, turn, true)
    case Ok(next) =>
      match Digest(engine.sha, next)
      case Err(e) => Faulted(ErrorName(e), turn + 1, false)
      case Ok(digest) =>
        Follow([StateEntry(next, digest, turn + 1)], PlayFrom(game, engine, entrants, next, turn + 1, bound))
  }

  // Records one entry of the play.
  method Write(tw: TranscriptWriter, e: Entry, ghost rest: Played, ghost start: seq<Entry>, ghost whole: Played)
    requires tw.Valid() && Encodable(Obj(e.body))
    requires PlayRemains(EntriesOf(tw.records), Follow([e], rest), start, whole)
    modifies tw
    ensures tw.Valid() && PlayRemains(EntriesOf(tw.records), rest, start, whole)
  {
    hide PlayRemains;
    PlayFollows(EntriesOf(tw.records), [e], rest, start, whole);
    Commit(tw, e);
  }

  // Records an accepted move, applies it and records the position it leads to.
  method Advance(game: Game, engine: Engine, entrants: Entrants, tw: TranscriptWriter, state: Json, turn: nat,
                 bound: int, accepted: Entry, move: Json, ghost start: seq<Entry>, ghost whole: Played)
    returns (next: Json, turn': nat, fault: Option<Fault>, ghost inApply: bool)
    requires tw.Valid() && Encodable(Obj(accepted.body)) && turn < bound
    requires PlayRemains(EntriesOf(tw.records),
                         Follow([accepted], AfterMove(game, engine, entrants, state, move, turn, bound)), start, whole)
    modifies tw
    ensures tw.Valid()
    ensures turn <= turn' <= turn + 1 && (fault.None? ==> turn' == turn + 1)
    ensures PlayRemains(EntriesOf(tw.records),
                        if fault.Some? then Faulted(fault.value, turn', inApply)
                        else PlayFrom(game, engine, entrants, next, turn', bound), start, whole)
  {
    hide PlayRemains, PlayFrom, Digest, EntriesOf, StateEntry, RefereeError, Encodable;
    next, turn', fault, inApply := state, turn, None, false;
    Write(tw, accepted, AfterMove(game, engine, entrants, state, move, turn, bound), start, whole);
    var applied := game.apply(state, move);
    if applied.Err? {
      return state, turn, Some(applied.error), true;
    }
    next, turn' := applied.value, turn + 1;
    var digest := Digest(engine.sha, next);
    if digest.Err? {
      return next, turn', Some(ErrorName(digest.error)), false;
    }
    StateEncodable(engine.sha, next, digest.value, turn');
    Write(tw, StateEntry(next, digest.value, turn'), PlayFrom(game, engine, entrants, next, turn', bound), start,
      whole);
  }

  // Records how play ends on a turn that brings no accepted move.
  method Conclude(game: Game, engine: Engine, entrants: Entrants, tw: TranscriptWriter, state: Json, turn: nat,
                  bound: int, t: Turn, ghost start: seq<Entry>, ghost whole: Played)
    returns (live: Live, ghost ending: Ending)
    requires tw.Valid() && TakeTurn(game, engine, entrants, state, turn, bound) == Ok(t) && !t.Accepted?
    requires PlayRemains(EntriesOf(tw.records), PlayFrom(game, engine, entrants, state, turn, bound), start, whole)
    modifies tw
    ensures tw.Valid() && PlayRemains(EntriesOf(tw.records), Played([], live, ending, turn), start, whole)
  {
    hide TakeTurn, PlayFrom, PlayRemains, SeatWinner, EntriesOf, Encodable;
    hide RejectedEntry, MoveForfeit, AbortEntry;
    StopLeaves(game, engine, entrants, state, turn, bound);
    TurnEncodable(game, engine, entrants, state, turn, bound);
    if t.Over? {
      var end := game.terminal(state).value.value;
      live, ending := Live(end.winner, end.reason), Terminal(end);
    } else if t.OutOfMoves? {
      ErrorEncodable("", 0, turn, bound);
      live, ending := Live(None, "move_bound_exceeded"), MoveBound;
      Write(tw, AbortEntry(bound), Played([], live, ending, turn), start, whole);
    } else if t.NoReply? {
      live, ending := Live(SeatWinner(t.seat), "forfeit:" + t.reason), RuntimeForfeit;
      Write(tw, MoveForfeit(t.seat, t.reason, t.detail, turn), Played([], live, ending, turn), start, whole);
    } else {
      RejectionLeaves(game, engine, entrants, state, turn, bound);
      live, ending := Live(SeatWinner(t.seat), "forfeit:illegal_move"), IllegalMove(t.seat, state, t.recorded, t.why);
      var forfeit := MoveForfeit(t.seat, "illegal_move", Some(t.why), turn);
      Write(tw, RejectedEntry(t.seat, turn, t.recorded, t.why, t.message),
            Follow([forfeit], Played([], live, ending, turn)), start, whole);
      Write(tw, forfeit, Played([], live, ending, turn), start, whole);
    }
  }

  /** The play loop with its fault boundary. */
  method Play(game: Game, engine: Engine, entrants: Entrants, tw: TranscriptWriter, opening: Json, bound: int)
    returns (outcome: Live, turn: nat)
    requires tw.Valid()
    modifies tw
    ensures tw.Valid()
    ensures var p := PlayFrom(game, engine, entrants, opening, 0, bound);
      EntriesOf(tw.records) == EntriesOf(old(tw.records)) + p.entries && outcome == p.live && turn == p.turn
  {
    hide TakeTurn, PlayFrom, PlayRemains, EntriesOf, Encodable, AfterMove, AcceptedEntry, RefereeError, WriterState;
    var state := opening;
    turn := 0;
    var live: Option<Live> := None;
    var fault: Option<Fault> := None;
    ghost var inApply, ending := false, MoveBound;
    ghost var start, whole := EntriesOf(tw.records), PlayFrom(game, engine, entrants, opening, 0, bound);
    PlayBegins(start, whole);
    while live.None? && fault.None?
      invariant tw.Valid()
      invariant PlayRemains(EntriesOf(tw.records),
                            Rest(game, engine, entrants, state, turn, bound, fault, inApply, live, ending),
                            start, whole)
      decreases (if turn < bound then bound - turn else 0), live.None?, fault.None?
    {
      var r := TakeTurn(game, engine, entrants, state, turn, bound);
      if r.Err? {
        StopLeaves(game, engine, entrants, state, turn, bound);
        fault, inApply := Some(r.error), false;
      } else if r.value.Accepted? {
        TurnEncodable(game, engine, entrants, state, turn, bound);
        AcceptanceLeaves(game, engine, entrants, state, turn, bound);
        state, turn, fault, inApply := Advance(game, engine, entrants, tw, state, turn, bound,
          AcceptedEntry(r.value.seat, turn, r.value.move, r.value.message), r.value.move, start, whole);
      } else {
        var ended;
        ended, ending := Conclude(game, engine, entrants, tw, state, turn, bound, r.value, start, whole);
        live := Some(ended);
      }
    }
    PlayEnds(EntriesOf(tw.records), Rest(game, engine, entrants, state, turn, bound, fault, inApply, live, ending),
      start, whole);
    if fault.Some? {
      ErrorEncodable(fault.value, 0, turn, 0);
      Commit(tw, RefereeError(fault.value, turn));
      outcome := VOIDED;
    } else {
      outcome := live.value;
    }
  }

  // -- the whole match ----------------------------------------------------

  // What a finished match leaves behind: its records, its file, its two outcomes.
  datatype Committed = Committed(records: seq<Record>, file: string, live: Live, scored: Scored)

  // From the header on: the handshake, the opening position, and the play if there is
  // any to be had.
  method PlayOut(engine: Engine, m: Match, entrants: Entrants, tw: TranscriptWriter, state: Json, digest: string,
                 bound: int)
    returns (outcome: Live, turn: nat)
    requires tw.Valid() && Digest(engine.sha, state) == Ok(digest)
    modifies tw
    ensures tw.Valid()
    ensures var p := Opened(engine, m, entrants, StateEntry(state, digest, 0), state, bound);
      EntriesOf(tw.records) == EntriesOf(old(tw.records)) + p.entries && outcome == p.live && turn == p.turn
  {
    hide ShakeFrom, PlayFrom, EntriesOf, WriterState, Digest, StateEntry, HandshakeError, Encodable;
    ghost var start := EntriesOf(tw.records);
    var live, fault := Handshake(engine, entrants, tw);
    ghost var shake := ShakeFrom(engine, entrants, 0);
    if fault.Some? {
      ErrorEncodable(fault.value.1, fault.value.0, 0, 0);
      Commit(tw, HandshakeError(fault.value.1, fault.value.0));
    }
    StateEncodable(engine.sha, state, digest, 0);
    Commit(tw, StateEntry(state, digest, 0));
    if fault.Some? {
      FaultRegroups(start, shake.entries, HandshakeError(fault.value.1, fault.value.0), StateEntry(state, digest, 0));
      outcome, turn := VOIDED, 0;
    } else if live.Some? {
      FaultRegroups(start, shake.entries, StateEntry(state, digest, 0), StateEntry(state, digest, 0));
      outcome, turn := live.value, 0;
    } else {
      outcome, turn := Play(m.game, engine, entrants, tw, state, bound);
      PlayRegroups(start, shake.entries, StateEntry(state, digest, 0),
                   PlayFrom(m.game, engine, entrants, state, 0, bound).entries);
    }
  }

  lemma FaultRegroups(start: seq<Entry>, shake: seq<Entry>, error: Entry, opening: Entry)
    ensures start + shake + [error] + [opening] == start + (shake + [error, opening])
    ensures start + shake + [opening] == start + (shake + [opening])
  {
  }

  lemma PlayRegroups(start: seq<Entry>, shake: seq<Entry>, opening: Entry, play: seq<Entry>)
    ensures start + shake + [opening] + play == start + (shake + [opening] + play)
  {
  }

  /** Scores what is recorded; a fault in scoring voids the match instead. */
  method ScoreRecords(engine: Engine, m: Match, tw: TranscriptWriter, turn: nat) returns (scored: Scored)
    requires tw.Valid()
    modifies tw
    ensures tw.Valid()
    ensures (EntriesOf(tw.records), scored) == ScoreOrVoid(engine, m, EntriesOf(old(tw.records)), turn)
    ensures Encodable(scored.points)
  {
    hide EntriesOf, Projected, Score, Encodable, RefereeError, Points;
    PointsAreEncodable(0, 0);
    ghost var before := EntriesOf(tw.records);
    var projection := RefereeProjection(EntriesOf(tw.records));
    var result := if projection.Ok? then Score(m.game, engine.str, projection.value) else Err(projection.error);
    if result.Ok? {
      ScoreIsEncodable(m.game, engine.str, projection.value);
      return result.value;
    }
    if Bodies(EntriesOf(tw.records), "engine_error") == [] {
      ErrorEncodable(result.error, 0, turn, 0);
      Commit(tw, RefereeError(result.error, turn));
    }
    return Void(|Bodies(EntriesOf(tw.records), "move")|);
  }

  lemma ScoreIsEncodable(game: Game, str: Json -> string, projection: seq<Entry>)
    requires Score(game, str, projection).Ok?
    ensures Encodable(Score(game, str, projection).value.points)
  {
    hide Points, Encodable, Bodies;
    PointsAreEncodable(0, 0);
    PointsAreEncodable(1, 0);
    PointsAreEncodable(0, 1);
    FieldsEncodable(map[]);
  }

  lemma PointsAreEncodable(zero: int, one: int)
    ensures Encodable(Points(zero, one))
  {
    FieldsEncodable(Points(zero, one).fields);
  }

  lemma EncodableHasBytes(j: Json)
    ensures CanonicalBytes(j).Ok? <==> Encodable(j)
  {
  }

  // Commits the header and sets up the board.
  method Prepare(engine: Engine, m: Match, tw: TranscriptWriter) returns (r: Result<Board, Fault>)
    requires tw.Valid()
    modifies tw
    ensures tw.Valid() && r == Prepared(engine, m)
    ensures r.Ok? ==> EntriesOf(tw.records) == EntriesOf(old(tw.records)) + [Entry("header", HeaderBody(engine, m))]
  {
    hide HeaderBody, Digest, CanonicalBytes, EntriesOf, Encodable;
    ghost var before := tw.records;
    EncodableHasBytes(Obj(HeaderBody(engine, m)));
    var header := tw.Append("header", HeaderBody(engine, m));
    if header.Err? {
      return Err(ErrorName(header.error));
    }
    EntriesPush(before, header.value);
    var state := m.game.setup(Int(m.seed));
    if state.Err? {
      return Err(state.error);
    }
    var bound := m.game.moveBound(state.value);
    if bound.Err? {
      return Err(bound.error);
    }
    var digest := Digest(engine.sha, state.value);
    if digest.Err? {
      return Err(ErrorName(digest.error));
    }
    return Ok(Board(state.value, digest.value, bound.value));
  }

  lemma PreparedDigest(engine: Engine, m: Match)
    requires Prepared(engine, m).Ok?
    ensures Digest(engine.sha, Prepared(engine, m).value.state) == Ok(Prepared(engine, m).value.digest)
  {
    hide HeaderBody, CanonicalBytes, Digest;
  }

  lemma UnpreparedRaises(engine: Engine, m: Match, entrants: Entrants)
    ensures Prepared(engine, m).Err? ==> RunOf(engine, m, entrants) == Err(Prepared(engine, m).error)
  {
    hide HeaderBody, Opened, Digest, Prepared, ScoreOrVoid, ResultEntry;
  }

  // The run, once its play and its score are known.
  lemma RunEnds(engine: Engine, m: Match, entrants: Entrants, board: Board, played: seq<Entry>, closed: seq<Entry>,
                scored: Scored)
    requires Prepared(engine, m) == Ok(board)
    requires var p := Opened(engine, m, entrants, StateEntry(board.state, board.digest, 0), board.state, board.bound);
      && played == [Entry("header", HeaderBody(engine, m))] + p.entries
      && (closed, scored) == ScoreOrVoid(engine, m, played, p.turn)
    ensures var p := Opened(engine, m, entrants, StateEntry(board.state, board.digest, 0), board.state, board.bound);
      RunOf(engine, m, entrants) == Ok(Run(closed + [ResultEntry(scored, m)], p.live, p.ending, scored))
  {
    hide HeaderBody, Opened, Digest, Prepared, ScoreOrVoid, ResultEntry, StateEntry;
  }

  /** Runs one match. It raises exactly when the referee's own setup does; otherwise it
      leaves a valid chain whose entries are those of the run, written line by line. */
  method RunMatch(engine: Engine, m: Match, entrants: Entrants) returns (r: Result<Committed, Fault>)
    ensures r.Ok? <==> RunOf(engine, m, entrants).Ok?
    ensures r.Err? ==> RunOf(engine, m, entrants) == Err(r.error)
    ensures r.Ok? ==>
      var run := RunOf(engine, m, entrants).value;
      && Chained(engine.sha, r.value.records) && EntriesOf(r.value.records) == run.entries
      && r.value.file == FileText(r.value.records)
      && r.value.live == run.live && r.value.scored == run.scored
  {
    hide HeaderBody, Opened, Digest, Prepared, ScoreOrVoid, EntriesOf, FileText, ResultEntry, Encodable, Chained;
    hide RunOf, StateEntry;
    var tw := new TranscriptWriter(engine.sha);
    EmptyEntries(Entry("header", HeaderBody(engine, m)));
    UnpreparedRaises(engine, m, entrants);
    var board := Prepare(engine, m, tw);
    if board.Err? {
      return Err(board.error);
    }
    PreparedDigest(engine, m);
    var live, turn := PlayOut(engine, m, entrants, tw, board.value.state, board.value.digest, board.value.bound);
    ghost var played := EntriesOf(tw.records);
    var scored := ScoreRecords(engine, m, tw, turn);
    RunEnds(engine, m, entrants, board.value, played, EntriesOf(tw.records), scored);
    ResultEncodable(scored, m);
    Commit(tw, ResultEntry(scored, m));
    return Ok(Committed(tw.records, tw.file, live, scored));
  }

  lemma EmptyEntries(e: Entry)
    ensures EntriesOf([]) + [e] == [e]
  {
  }
}
