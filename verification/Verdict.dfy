/**
 What a PASS proves: the records are a play of the game, a winner is the game's own
 ruling, and a fault, an abort and a forfeit exclude one another.
 */
module Verdict {
  import opened Wrappers
  import opened JsonValues
  import opened Utf8
  import opened Canonical
  import opened CanonicalInverse
  import opened Games
  import opened Scoring
  import opened Replay
  import opened Lawful

  // -- the projection keeps referee content -------------------------------

  function StrippedAll(bodies: seq<Body>): seq<Body> {
    seq(|bodies|, i requires 0 <= i < |bodies| => Stripped(bodies[i]))
  }

  lemma {:induction false} ProjectedBodies(entries: seq<Entry>, kind: string)
    requires Projected(entries).Ok? && kind != "header"
    ensures Bodies(Projected(entries).value, kind) == StrippedAll(Bodies(entries, kind))
    ensures |Projected(entries).value| == |entries|
  {
    if entries != [] {
      var front, last := entries[..|entries| - 1], entries[|entries| - 1];
      ProjectedBodies(front, kind);
      var p, q := Projected(front).value, ProjectedEntry(last).value;
      assert Projected(entries).value == p + [q];
      BodiesPush(p, q, kind);
      assert q.kind == last.kind && (kind == last.kind ==> q.body == Stripped(last.body));
      assert StrippedAll(Bodies(entries, kind)) ==
             StrippedAll(Bodies(front, kind)) + (if last.kind == kind then [Stripped(last.body)] else []);
    }
  }

  lemma StrippedKeeps(b: Body, key: string)
    requires key !in ENTRANT_AUTHORED
    ensures key in Stripped(b) <==> key in b
    ensures key in b ==> Stripped(b)[key] == b[key]
  {
  }

  // -- taking a PASS apart ------------------------------------------------

  // The parts a passing report was computed from.
  ghost predicate PassedWith(engine: Engine, entries: seq<Entry>, header: Body, game: Game,
                             rs: ReplayState, result: Body, scored: Scored) {
    && FirstOf(entries, "header") == Some(header)
    && GameOf(engine, header) == Some(game)
    && Replayed(engine, game, header, entries) == Ok(rs)
    && FirstOf(entries, "result") == Some(result)
    && ScoreOf(game, engine.str, entries) == Ok(scored)
    && StructureOk(entries) && KindsOk(entries)
    && IsolationOk(engine, header) && AttestationOk(header) && DigestMatches(engine, header)
    && rs.setupOk && StatesHold(rs, entries) && rs.movesOk
    && ForfeitEvidenceOk(ForfeitEvidence(entries))
    && AdjudicationOk(rs, true, result)
    && rs.aborts == []
    && ErrorsShape(rs.engineErrors) && (rs.engineErrors != [] ==> VoidOutcome(scored, result))
    && ResultMatches(scored, result)
    && IdentityOf(engine, header) != IdentityInvalid
  }

  /** A verdict is PASS exactly when every part of the examination succeeds. */
  lemma PassIsEveryCheck(engine: Engine, entries: seq<Entry>)
    ensures Examined(engine, entries).pass <==>
            exists header, game, rs, result, scored ::
              PassedWith(engine, entries, header, game, rs, result, scored)
  {
    hide Replayed, ScoreOf, IdentityOf, ForfeitEvidence, GameOf, StructureOk, KindsOk, StatesHold, AdjudicationOk;
    hide VoidOutcome, ResultMatches, ErrorsShape, AttestationOk, DigestMatches, IsolationOk;
    if Examined(engine, entries).pass {
      var header := FirstOf(entries, "header").value;
      var game := GameOf(engine, header).value;
      var rs := Replayed(engine, game, header, entries).value;
      assert PassedWith(engine, entries, header, game, rs, FirstOf(entries, "result").value,
                        ScoreOf(game, engine.str, entries).value);
    }
  }

  // -- soundness ----------------------------------------------------------

  // Move i of a play: legal at its position, by the seat to move, not after the end.
  ghost predicate PlayedAt(game: Game, header: Body, moves: seq<Body>, i: nat)
    requires i < |moves|
  {
    var before, after := PositionAfter(game, header, moves[..i]), PositionAfter(game, header, moves[..i + 1]);
    && before.Some? && LawfulMove(game, before.value, i, moves[i])
    && Get(moves[i], "legal") == Bool(true)
    && after.Some? && game.apply(before.value, moves[i]["move"]) == Ok(after.value)
  }

  // Recorded state i is bound by digest to position i of the play.
  ghost predicate PositionedAt(sha: Sha, game: Game, header: Body, moves: seq<Body>, states: seq<Body>, i: nat)
    requires i < |states| && i <= |moves|
  {
    var position := PositionAfter(game, header, moves[..i]);
    position.Some? && LawfulState(sha, position.value, i, states[i])
  }

  ghost predicate IsPlay(sha: Sha, game: Game, header: Body, moves: seq<Body>, states: seq<Body>) {
    && |moves| <= |states| <= |moves| + 1
    && (forall i | 0 <= i < |moves| :: PlayedAt(game, header, moves, i))
    && (forall i | 0 <= i < |states| && i <= |moves| :: PositionedAt(sha, game, header, moves, states, i))
  }

  lemma PlayExtendsByMove(sha: Sha, game: Game, header: Body, moves: seq<Body>, states: seq<Body>, m: Body)
    requires IsPlay(sha, game, header, moves, states) && |states| == |moves| + 1
    requires var p := PositionAfter(game, header, moves);
      p.Some? && LawfulMove(game, p.value, |moves|, m) && Get(m, "legal") == Bool(true)
    ensures IsPlay(sha, game, header, moves + [m], states)
  {
    hide LawfulMove, LawfulState;
    var ms := moves + [m];
    assert ms[..|moves|] == moves && ms[..|moves| + 1] == ms;
    forall i | 0 <= i < |ms| ensures PlayedAt(game, header, ms, i) {
      assert i < |moves| ==> ms[..i] == moves[..i] && ms[..i + 1] == moves[..i + 1];
      assert i < |moves| ==> PlayedAt(game, header, moves, i);
      if i == |moves| {
        LawfulMoveApplies(game, PositionAfter(game, header, moves).value, i, m);
      }
    }
    forall i | 0 <= i < |states| && i <= |ms| ensures PositionedAt(sha, game, header, ms, states, i) {
      assert ms[..i] == moves[..i];
      assert PositionedAt(sha, game, header, moves, states, i);
    }
  }

  lemma LawfulMoveApplies(game: Game, state: Json, n: nat, m: Body)
    requires LawfulMove(game, state, n, m) && Get(m, "legal") == Bool(true)
    ensures "move" in m && game.apply(state, m["move"]).Ok?
  {
  }

  lemma PlayExtendsByState(sha: Sha, game: Game, header: Body, moves: seq<Body>, states: seq<Body>, s: Body)
    requires IsPlay(sha, game, header, moves, states) && |states| == |moves|
    requires var p := PositionAfter(game, header, moves);
      p.Some? && LawfulState(sha, p.value, |moves|, s)
    ensures IsPlay(sha, game, header, moves, states + [s])
  {
    hide LawfulMove, LawfulState;
    var ss := states + [s];
    assert moves[..|moves|] == moves;
    forall i | 0 <= i < |ss| && i <= |moves| ensures PositionedAt(sha, game, header, moves, ss, i) {
      assert i < |states| ==> PositionedAt(sha, game, header, moves, states, i);
    }
  }

  /** A lawful transcript is a play: its accepted moves, taken in order, run from the
      seed's opening position, and its recorded states are the positions passed. */
  lemma {:induction false} LawfulIsPlay(engine: Engine, game: Game, header: Body, entries: seq<Entry>)
    requires IsLawful(engine, game, header, entries)
    ensures IsPlay(engine.sha, game, header, AcceptedMoves(entries), Bodies(entries, "state"))
  {
    hide LawfulMove, LawfulState, IsPlay;
    if entries == [] {
      EmptyPlay(engine.sha, game, header);
    } else {
      var front, e := entries[..|entries| - 1], entries[|entries| - 1];
      assert entries == front + [e];
      LawfulPush(engine, game, header, front, e);
      LawfulIsPlay(engine, game, header, front);
      var moves, states := AcceptedMoves(front), Bodies(front, "state");
      assert moves + [] == moves && states + [] == states;
      if e.kind == "state" {
        PlayExtendsByState(engine.sha, game, header, moves, states, e.body);
      } else if IsAcceptedMove(e) {
        PlayExtendsByMove(engine.sha, game, header, moves, states, e.body);
      }
    }
  }

  lemma EmptyPlay(sha: Sha, game: Game, header: Body)
    ensures IsPlay(sha, game, header, [], [])
  {
  }

  /** A digest binding is an equality, or names two inputs that collide. */
  lemma BoundIsEqual(sha: Sha, body: Body, computed: Json)
    requires Bound(sha, body, computed) == Ok(true)
    ensures Encodable(Get(body, "state")) && Encodable(computed)
    ensures Get(body, "state") == computed
         || Collision(sha, Encode(Text(Get(body, "state"))), Encode(Text(computed)))
  {
    EqualDigestsMeanEqualValues(sha, Get(body, "state"), computed);
  }

  /** PASS means a real play: every ruling reproduces, the accepted moves run from
      setup(seed), each legal for the seat to move and none after a terminal state,
      and the recorded states are the positions of that play. Only an engine fault
      recorded just before the result may stand in for the last position. */
  lemma PassIsPlay(engine: Engine, entries: seq<Entry>)
    requires Examined(engine, entries).pass
    ensures FirstOf(entries, "header").Some? && GameOf(engine, FirstOf(entries, "header").value).Some?
    ensures
      var header := FirstOf(entries, "header").value;
      var game := GameOf(engine, header).value;
      var moves, states := AcceptedMoves(entries), Bodies(entries, "state");
      && IsLawful(engine, game, header, entries)
      && IsPlay(engine.sha, game, header, moves, states)
      && |states| >= 1
      && (|states| == |moves| + 1 || (|entries| >= 2 && entries[|entries| - 2].kind == "engine_error"))
  {
    PassIsEveryCheck(engine, entries);
    var header, game, rs, result, scored :| PassedWith(engine, entries, header, game, rs, result, scored);
    hide LawfulMove, LawfulState, IsPlay, IsLawful;
    CleanIffLawful(engine, game, header, entries);
    LawfulIsPlay(engine, game, header, entries);
  }
}
