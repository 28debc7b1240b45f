/**
 A re-run of one match on the same replies reproduces its transcript, to the chain head
 and the bytes of the file (arena/match.py, arena/transcript.py).
 */
module Reproduction {
  import opened Wrappers
  import opened JsonValues
  import opened Canonical
  import opened Transcript
  import opened ChainCheck
  import opened Games
  import opened Scoring
  import opened Referee
  import opened LiveScore
  import opened MatchRunner

  // -- one chain for one list of entries -----------------------------------------

  /** The records of a chain are determined by what they record. */
  lemma {:induction false} EntriesDetermineChain(sha: Sha, a: seq<Record>, b: seq<Record>)
    requires Chained(sha, a) && Chained(sha, b) && EntriesOf(a) == EntriesOf(b)
    ensures a == b
  {
    hide Canonical.Chain;
    assert |EntriesOf(a)| == |a| && |EntriesOf(b)| == |b|;
    if a != [] {
      var n := |a| - 1;
      ChainedPrefix(sha, a, n);
      ChainedPrefix(sha, b, n);
      assert EntriesOf(a[..n]) == EntriesOf(a)[..n] && EntriesOf(b[..n]) == EntriesOf(b)[..n];
      EntriesDetermineChain(sha, a[..n], b[..n]);
      assert EntriesOf(a)[n] == EntriesOf(b)[n];
      assert LinkedAt(sha, a, n) && LinkedAt(sha, b, n);
      assert a == a[..n] + [a[n]] && b == b[..n] + [b[n]];
    }
  }

  predicate AllEncodable(es: seq<Entry>) {
    forall e | e in es :: Encodable(Obj(e.body))
  }

  // The records that committing these entries one by one makes.
  function ChainUp(sha: Sha, es: seq<Entry>): seq<Record> {
    if es == [] then []
    else
      var front, last := ChainUp(sha, es[..|es| - 1]), es[|es| - 1];
      match NextRecord(sha, HeadOf(front), |front|, last.kind, last.body)
      case Ok(record) => front + [record]
      case Err(_) => front
  }

  /** Entries that have canonical bytes make a chain that records just them. */
  lemma {:induction false} ChainUpHolds(sha: Sha, es: seq<Entry>)
    requires AllEncodable(es)
    ensures Chained(sha, ChainUp(sha, es)) && EntriesOf(ChainUp(sha, es)) == es
  {
    hide Encodable, Chained, NextRecord, EntriesOf, HeadOf;
    if es == [] {
      NothingChained(sha);
    } else {
      var n := |es| - 1;
      assert AllEncodable(es[..n]) && es[n] in es;
      ChainUpHolds(sha, es[..n]);
      NextLink(sha, ChainUp(sha, es[..n]), es[n]);
      assert es == es[..n] + [es[n]];
    }
  }

  lemma NothingChained(sha: Sha)
    ensures Chained(sha, []) && EntriesOf([]) == []
  {
  }

  // Committing one more entry.
  lemma NextLink(sha: Sha, front: seq<Record>, e: Entry)
    requires Chained(sha, front) && Encodable(Obj(e.body))
    ensures var next := NextRecord(sha, HeadOf(front), |front|, e.kind, e.body);
      && next.Ok? && Chained(sha, front + [next.value]) && EntriesOf(front + [next.value]) == EntriesOf(front) + [e]
  {
    hide Encodable, Chained, EntriesOf, Chain;
    NextRecordExists(sha, HeadOf(front), |front|, e.kind, e.body);
    var record := NextRecord(sha, HeadOf(front), |front|, e.kind, e.body).value;
    NextRecordChains(sha, front, record);
    EntriesPush(front, record);
  }

  // -- every entry of a run can be committed ----------------------------------------

  lemma EncodableAppend(a: seq<Entry>, b: seq<Entry>)
    ensures AllEncodable(a + b) <==> AllEncodable(a) && AllEncodable(b)
  {
    hide Encodable;
    assert forall e :: e in a + b <==> e in a || e in b;
  }

  lemma EncodableOne(e: Entry)
    ensures AllEncodable([e]) <==> Encodable(Obj(e.body))
  {
    hide Encodable;
  }

  lemma {:induction false} PlayIsEncodable(game: Game, engine: Engine, entrants: Entrants, state: Json, turn: nat,
                                           bound: int)
    ensures AllEncodable(PlayFrom(game, engine, entrants, state, turn, bound).entries)
    decreases if turn < bound then bound - turn else 0
  {
    TurnEncodable(game, engine, entrants, state, turn, bound);
    StopLeaves(game, engine, entrants, state, turn, bound);
    hide TakeTurn, PlayFrom, Encodable, AllEncodable, MoveForfeit, RejectedEntry, AcceptedEntry, AbortEntry,
         RefereeError, SeatWinner;
    NothingIsEncodable();
    var r := TakeTurn(game, engine, entrants, state, turn, bound);
    match r
    case Err(fault) => FaultIsEncodable(fault, turn, false);
    case Ok(t) =>
      if t.OutOfMoves? {
        ErrorEncodable("", 0, turn, bound);
        FollowIsEncodable(AbortEntry(bound), Played([], Live(None, "move_bound_exceeded"), MoveBound, turn));
      } else if t.NoReply? {
        FollowIsEncodable(MoveForfeit(t.seat, t.reason, t.detail, turn),
                          Played([], Live(SeatWinner(t.seat), "forfeit:" + t.reason), RuntimeForfeit, turn));
      } else if t.Rejected? {
        RejectionLeaves(game, engine, entrants, state, turn, bound);
        var stop := Played([], Live(SeatWinner(t.seat), "forfeit:illegal_move"),
          IllegalMove(t.seat, state, t.recorded, t.why), turn);
        FollowIsEncodable(MoveForfeit(t.seat, "illegal_move", Some(t.why), turn), stop);
        FollowIsEncodable(RejectedEntry(t.seat, turn, t.recorded, t.why, t.message),
                          Follow([MoveForfeit(t.seat, "illegal_move", Some(t.why), turn)], stop));
      } else if t.Accepted? {
        AcceptanceLeaves(game, engine, entrants, state, turn, bound);
        AfterMoveIsEncodable(game, engine, entrants, state, t.move, turn, bound);
        FollowIsEncodable(AcceptedEntry(t.seat, turn, t.move, t.message),
                          AfterMove(game, engine, entrants, state, t.move, turn, bound));
      }
  }

  lemma {:induction false} AfterMoveIsEncodable(game: Game, engine: Engine, entrants: Entrants, state: Json, move: Json,
                                                turn: nat, bound: int)
    requires turn < bound
    ensures AllEncodable(AfterMove(game, engine, entrants, state, move, turn, bound).entries)
    decreases bound - turn, 0
  {
    hide PlayFrom, Encodable, AllEncodable, StateEntry, RefereeError, Digest;
    var next := game.apply(state, move);
    if next.Err? {
      FaultIsEncodable(next.error, turn, true);
    } else {
      var digest := Digest(engine.sha, next.value);
      if digest.Err? {
        FaultIsEncodable(ErrorName(digest.error), turn + 1, false);
      } else {
        PlayIsEncodable(game, engine, entrants, next.value, turn + 1, bound);
        StateEncodable(engine.sha, next.value, digest.value, turn + 1);
        FollowIsEncodable(StateEntry(next.value, digest.value, turn + 1),
                          PlayFrom(game, engine, entrants, next.value, turn + 1, bound));
      }
    }
  }

  lemma NothingIsEncodable()
    ensures AllEncodable([])
  {
  }

  lemma FaultIsEncodable(fault: Fault, turn: nat, inApply: bool)
    ensures AllEncodable(Faulted(fault, turn, inApply).entries)
  {
    hide Encodable, RefereeError;
    ErrorEncodable(fault, 0, turn, 0);
  }

  lemma FollowIsEncodable(e: Entry, later: Played)
    requires Encodable(Obj(e.body)) && AllEncodable(later.entries)
    ensures AllEncodable(Follow([e], later).entries)
  {
    hide Encodable;
    EncodableOne(e);
    EncodableAppend([e], later.entries);
  }

  lemma {:induction false} ShakeIsEncodable(engine: Engine, entrants: Entrants, i: nat)
    requires i <= 2
    ensures AllEncodable(ShakeFrom(engine, entrants, i).entries)
    decreases 2 - i
  {
    hide Greet, Encodable, AllEncodable, ReadyEntry, HandshakeForfeit;
    NothingIsEncodable();
    if i < 2 {
      var g := Greet(engine, entrants.hello(i));
      if g.Ready? {
        GreetedMessageEncodable(engine, entrants.hello(i));
        ReadyEncodable(i, g.message);
        ShakeIsEncodable(engine, entrants, i + 1);
        EncodableOne(ReadyEntry(i, g.message));
        EncodableAppend([ReadyEntry(i, g.message)], ShakeFrom(engine, entrants, i + 1).entries);
      } else if g.Refused? {
        NullIsEncodable();
        ForfeitEncodable(i, Null, g.reason, g.detail, 0);
        EncodableOne(HandshakeForfeit(i, g.reason, g.detail));
      }
    }
  }

  lemma NullIsEncodable()
    ensures Encodable(Null)
  {
  }

  lemma OpenedIsEncodable(engine: Engine, m: Match, entrants: Entrants, opening: Entry, state: Json, bound: int)
    requires Encodable(Obj(opening.body))
    ensures AllEncodable(Opened(engine, m, entrants, opening, state, bound).entries)
  {
    hide Encodable, AllEncodable, ShakeFrom, PlayFrom, HandshakeError;
    ShakeIsEncodable(engine, entrants, 0);
    var shake := ShakeFrom(engine, entrants, 0);
    EncodableOne(opening);
    EncodableAppend(shake.entries, [opening]);
    if shake.fault.Some? {
      var error := HandshakeError(shake.fault.value.1, shake.fault.value.0);
      ErrorEncodable(shake.fault.value.1, shake.fault.value.0, 0, 0);
      EncodableOne(error);
      EncodableAppend([error], [opening]);
      assert [error] + [opening] == [error, opening];
      EncodableAppend(shake.entries, [error, opening]);
    } else if shake.outcome.None? {
      PlayIsEncodable(m.game, engine, entrants, state, 0, bound);
      EncodableAppend(shake.entries + [opening], PlayFrom(m.game, engine, entrants, state, 0, bound).entries);
    }
  }

  lemma SceneIsEncodable(engine: Engine, m: Match, entrants: Entrants)
    requires Scene(engine, m, entrants).Ok?
    ensures AllEncodable(Scene(engine, m, entrants).value.entries)
  {
    PreparedDigest(engine, m);
    HeaderHasBytes(engine, m);
    hide Prepared, Encodable, AllEncodable, Opened, HeaderBody, StateEntry, Digest;
    var board := Prepared(engine, m).value;
    var opening := StateEntry(board.state, board.digest, 0);
    StateEncodable(engine.sha, board.state, board.digest, 0);
    OpenedIsEncodable(engine, m, entrants, opening, board.state, board.bound);
    EncodableOne(Entry("header", HeaderBody(engine, m)));
    EncodableAppend([Entry("header", HeaderBody(engine, m))],
                    Opened(engine, m, entrants, opening, board.state, board.bound).entries);
  }

  lemma HeaderHasBytes(engine: Engine, m: Match)
    requires Prepared(engine, m).Ok?
    ensures Encodable(Obj(HeaderBody(engine, m)))
  {
    hide HeaderBody, Encodable, Digest;
    EncodableHasBytes(Obj(HeaderBody(engine, m)));
    hide CanonicalBytes;
  }

  lemma ScoredIsEncodable(engine: Engine, game: Game, entries: seq<Entry>)
    requires ScoreOf(game, engine.str, entries).Ok?
    ensures Encodable(ScoreOf(game, engine.str, entries).value.points)
  {
    hide Projected, Score, Encodable;
    ScoreIsEncodable(game, engine.str, Projected(entries).value);
  }

  /** Everything a run records can be committed. */
  lemma RunIsEncodable(engine: Engine, m: Match, entrants: Entrants)
    requires RunOf(engine, m, entrants).Ok?
    ensures AllEncodable(RunOf(engine, m, entrants).value.entries)
  {
    hide Scene, Encodable, AllEncodable, RunOf, ScoreOf, Agrees, ResultEntry, Bodies;
    LiveIsRecomputed(engine, m, entrants);
    SceneIsEncodable(engine, m, entrants);
    var run := RunOf(engine, m, entrants).value;
    ScoredIsEncodable(engine, m.game, run.entries);
    ResultEncodable(run.scored, m);
    EncodableOne(ResultEntry(run.scored, m));
    EncodableAppend(Scene(engine, m, entrants).value.entries, [ResultEntry(run.scored, m)]);
  }

  // The one transcript of a run.
  function TranscriptOf(engine: Engine, m: Match, entrants: Entrants): seq<Record>
    requires RunOf(engine, m, entrants).Ok?
  {
    ChainUp(engine.sha, RunOf(engine, m, entrants).value.entries)
  }

  /** One set of replies gives one transcript: it exists, and any chain that records the
      run is that one, with its head and its file. */
  lemma RerunReproducesHead(engine: Engine, m: Match, entrants: Entrants, rs: seq<Record>)
    requires RunOf(engine, m, entrants).Ok?
    ensures var one := TranscriptOf(engine, m, entrants);
      && Chained(engine.sha, one) && EntriesOf(one) == RunOf(engine, m, entrants).value.entries
      && (Chained(engine.sha, rs) && EntriesOf(rs) == EntriesOf(one) ==>
            rs == one && HeadOf(rs) == HeadOf(one) && FileText(rs) == FileText(one))
  {
    hide RunOf, ChainUp, Chained, EntriesOf, AllEncodable;
    RunIsEncodable(engine, m, entrants);
    ChainUpHolds(engine.sha, RunOf(engine, m, entrants).value.entries);
    var one := TranscriptOf(engine, m, entrants);
    if Chained(engine.sha, rs) && EntriesOf(rs) == EntriesOf(one) {
      EntriesDetermineChain(engine.sha, rs, one);
    }
  }
}
