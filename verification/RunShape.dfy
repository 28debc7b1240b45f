/** The shape of every transcript a run can leave, whatever the entrants do. */
module RunShape {
  import opened Wrappers
  import opened JsonValues
  import opened Canonical
  import opened Games
  import opened Scoring
  import opened Referee
  import opened Adjudication
  import opened LiveScore

  function Kinds(es: seq<Entry>): (r: seq<string>)
    ensures |r| == |es| && forall i | 0 <= i < |es| :: r[i] == es[i].kind
  {
    seq(|es|, i requires 0 <= i < |es| => es[i].kind)
  }

  // The records of the handshake: seats in order, until one fails to get ready.
  predicate ShakeKinds(kinds: seq<string>) {
    || kinds == ["ready", "ready"]
    || kinds == ["forfeit"] || kinds == ["ready", "forfeit"]
    || kinds == ["engine_error"] || kinds == ["ready", "engine_error"]
  }

  lemma ReadyThen(e: Entry, es: seq<Entry>)
    requires e.kind == "ready"
    ensures Kinds([e] + es) == ["ready"] + Kinds(es)
  {
  }

  lemma ShakeTail(engine: Engine, entrants: Entrants)
    ensures var s := ShakeFrom(engine, entrants, 1);
      || (Kinds(s.entries) == ["ready"] && s.outcome.None? && s.fault.None?)
      || (Kinds(s.entries) == ["forfeit"] && s.outcome.Some? && s.fault.None?)
      || (s.entries == [] && s.fault.Some?)
  {
    hide Greet;
    assert ShakeFrom(engine, entrants, 2) == Shake([], None, None);
    var g := Greet(engine, entrants.hello(1));
    if g.Ready? {
      ReadyThen(ReadyEntry(1, g.message), []);
    }
  }

  lemma ShakeWhole(engine: Engine, entrants: Entrants)
    ensures var s := ShakeFrom(engine, entrants, 0);
      || (Kinds(s.entries) == ["ready", "ready"] && s.outcome.None? && s.fault.None?)
      || ((Kinds(s.entries) == ["forfeit"] || Kinds(s.entries) == ["ready", "forfeit"])
          && s.outcome.Some? && s.fault.None?)
      || ((s.entries == [] || Kinds(s.entries) == ["ready"]) && s.fault.Some?)
  {
    ShakeTail(engine, entrants);
    hide Greet;
    var g := Greet(engine, entrants.hello(0));
    if g.Ready? {
      ReadyThen(ReadyEntry(0, g.message), ShakeFrom(engine, entrants, 1).entries);
    }
  }

  lemma BrokenShake(es: seq<Entry>, error: Entry)
    requires (es == [] || Kinds(es) == ["ready"]) && error.kind == "engine_error"
    ensures ShakeKinds(Kinds(es + [error]))
  {
    assert Kinds(es + [error]) == Kinds(es) + ["engine_error"];
  }

  // No more move records than the bound.
  predicate AtMost(play: seq<Entry>, bound: int) {
    |Bodies(play, "move")| <= if 0 < bound then bound else 0
  }

  // The handshake and play of a run, with its opening state between them.
  lemma OpenedSplits(engine: Engine, m: Match, entrants: Entrants, opening: Entry, state: Json, bound: int)
    returns (shake: seq<Entry>, play: seq<Entry>)
    ensures Opened(engine, m, entrants, opening, state, bound).entries == shake + [opening] + play
    ensures ShakeKinds(Kinds(shake)) && PlayShape(play) && AtMost(play, bound)
    ensures play != [] ==> Kinds(shake) == ["ready", "ready"]
  {
    ShakeWhole(engine, entrants);
    PlayHasShape(m.game, engine, entrants, state, 0, bound);
    hide ShakeFrom, PlayFrom, PlayShape, Kinds;
    var s := ShakeFrom(engine, entrants, 0);
    if s.fault.Some? {
      var error := HandshakeError(s.fault.value.1, s.fault.value.0);
      shake, play := s.entries + [error], [];
      EmptyPlay();
      BrokenShake(s.entries, error);
      assert s.entries + [error, opening] == shake + [opening] + play;
    } else if s.outcome.Some? {
      shake, play := s.entries, [];
      EmptyPlay();
    } else {
      shake, play := s.entries, PlayFrom(m.game, engine, entrants, state, 0, bound).entries;
    }
  }

  lemma EmptyPlay()
    ensures PlayShape([]) && forall bound :: AtMost([], bound)
  {
  }

  lemma PreparedBound(engine: Engine, m: Match, entrants: Entrants)
    requires RunOf(engine, m, entrants).Ok?
    ensures Prepared(engine, m).Ok? && m.game.setup(Int(m.seed)).Ok?
    ensures m.game.moveBound(m.game.setup(Int(m.seed)).value) == Ok(Prepared(engine, m).value.bound)
  {
    hide HeaderBody, Opened, ScoreOrVoid, CanonicalBytes, Digest;
  }

  lemma SceneSplits(engine: Engine, m: Match, entrants: Entrants)
    returns (shake: seq<Entry>, opening: Entry, play: seq<Entry>)
    requires Scene(engine, m, entrants).Ok?
    ensures Scene(engine, m, entrants).value.entries ==
      [Entry("header", HeaderBody(engine, m))] + (shake + [opening] + play)
    ensures ShakeKinds(Kinds(shake)) && opening.kind == "state" && PlayShape(play)
    ensures AtMost(play, Prepared(engine, m).value.bound)
    ensures play != [] ==> Kinds(shake) == ["ready", "ready"]
  {
    hide HeaderBody, Opened, PlayShape, ShakeKinds, Kinds, Prepared;
    var board := Prepared(engine, m).value;
    opening := StateEntry(board.state, board.digest, 0);
    shake, play := OpenedSplits(engine, m, entrants, opening, board.state, board.bound);
  }

  lemma Regroup(a: seq<Entry>, b: seq<Entry>, c: seq<Entry>, d: seq<Entry>, e: seq<Entry>)
    ensures a + (b + c + d) + e == a + b + c + d + e
  {
  }

  /** Every run stops, and its transcript is: the header; the handshake, seat by seat,
      until one is not ready; the opening state; accepted moves each followed by its state,
      at most as many as the bound, then at most one ending; one result. Nothing is played
      after a handshake that failed. */
  lemma RunHasShape(engine: Engine, m: Match, entrants: Entrants)
    returns (shake: seq<Entry>, opening: Entry, play: seq<Entry>)
    requires RunOf(engine, m, entrants).Ok?
    ensures var run := RunOf(engine, m, entrants).value;
      run.entries == [Entry("header", HeaderBody(engine, m))] + shake + [opening] + play + [ResultEntry(run.scored, m)]
    ensures ShakeKinds(Kinds(shake)) && opening.kind == "state" && PlayShape(play)
    ensures m.game.setup(Int(m.seed)).Ok? && m.game.moveBound(m.game.setup(Int(m.seed)).value).Ok?
    ensures AtMost(play, m.game.moveBound(m.game.setup(Int(m.seed)).value).value)
    ensures play != [] ==> Kinds(shake) == ["ready", "ready"]
  {
    PreparedBound(engine, m, entrants);
    hide Prepared, AtMost;
    hide HeaderBody, PlayShape, ScoreOf, Agrees, ResultEntry, Bodies, RunOf, Scene, Kinds, ShakeKinds;
    LiveIsRecomputed(engine, m, entrants);
    shake, opening, play := SceneSplits(engine, m, entrants);
    Regroup([Entry("header", HeaderBody(engine, m))], shake, [opening], play,
            [ResultEntry(RunOf(engine, m, entrants).value.scored, m)]);
  }
}
