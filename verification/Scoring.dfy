/** arena/scoring.py: the referee's projection of a transcript, and the score. */
module Scoring {
  import opened Wrappers
  import opened JsonValues
  import opened Games

  const ENTRANT_AUTHORED: set<string> :=
    {"entrant_message", "entrant_note", "claimed_model", "execution_claim"}

  function Stripped(b: Body): Body {
    b - ENTRANT_AUTHORED
  }

  function StrippedRows(rows: seq<Json>): Result<seq<Json>, Fault> {
    if rows == [] then Ok([])
    else if !rows[0].Obj? then Err("AttributeError")
    else
      var others :- StrippedRows(rows[1..]);
      Ok([Obj(Stripped(rows[0].fields))] + others)
  }

  // The comprehension over body.get("entrants", []): an empty object or string also
  // iterates as nothing.
  function StrippedEntrants(b: Body): Result<seq<Json>, Fault> {
    if "entrants" !in b then Ok([])
    else
      match b["entrants"]
      case List(rows) => StrippedRows(rows)
      case Obj(m) => if m == map[] then Ok([]) else Err("AttributeError")
      case Str(s) => if s == "" then Ok([]) else Err("AttributeError")
      case Broken(_) => Err("AttributeError")
      case _ => Err("TypeError")
  }

  function ProjectedEntry(e: Entry): Result<Entry, Fault> {
    var body := Stripped(e.body);
    if e.kind == "header" then
      var rows :- StrippedEntrants(body);
      Ok(Entry(e.kind, body["entrants" := List(rows)]))
    else
      Ok(Entry(e.kind, body))
  }

  // Entry by entry; the sequence numbers are carried along unread.
  function Projected(entries: seq<Entry>): Result<seq<Entry>, Fault> {
    if entries == [] then Ok([])
    else
      var front :- Projected(entries[..|entries| - 1]);
      var last :- ProjectedEntry(entries[|entries| - 1]);
      Ok(front + [last])
  }

  method RefereeProjection(entries: seq<Entry>) returns (r: Result<seq<Entry>, Fault>)
    ensures r == Projected(entries)
  {
    var out: seq<Entry> := [];
    for i := 0 to |entries|
      invariant Projected(entries[..i]) == Ok(out)
    {
      assert entries[..i + 1][..i] == entries[..i];
      var e := ProjectedEntry(entries[i]);
      if e.Err? {
        ProjectionStops(entries, i, e.error);
        return Err(e.error);
      }
      out := out + [e.value];
    }
    assert entries[..|entries|] == entries;
    return Ok(out);
  }

  // An entry that cannot be projected decides the whole projection.
  lemma {:induction false} ProjectionStops(entries: seq<Entry>, i: nat, fault: Fault)
    requires i < |entries| && Projected(entries[..i]).Ok? && ProjectedEntry(entries[i]) == Err(fault)
    ensures Projected(entries) == Err(fault)
  {
    if i + 1 == |entries| {
    } else {
      var front := entries[..|entries| - 1];
      assert front[..i] == entries[..i];
      ProjectionStops(front, i, fault);
    }
  }

  datatype Scored = Scored(winner: Option<int>, reason: string, moves: nat, points: Json, decisive: bool)

  function WinnerJson(winner: Option<int>): Json {
    if winner.Some? then Int(winner.value) else Null
  }

  function Points(zero: int, one: int): Json {
    Obj(map["0" := Int(zero), "1" := Int(one)])
  }

  // The points a winner earns.
  function Award(winner: Option<int>): Json {
    Points(if winner == Some(0) then 1 else 0, if winner == Some(1) then 1 else 0)
  }

  function Void(moves: nat): Scored {
    Scored(None, "engine_error", moves, Points(0, 0), false)
  }

  function ReasonText(str: Json -> string, reason: Json): string {
    if reason.Str? then reason.s else str(reason)
  }

  function ForfeitScore(str: Json -> string, forfeit: Body, moves: nat): Result<Scored, Fault> {
    if "player" !in forfeit then Err("KeyError")
    else
      var winner :- OneMinus(forfeit["player"]);
      if "reason" !in forfeit then Err("KeyError")
      else Ok(Scored(Some(winner), "forfeit:" + ReasonText(str, forfeit["reason"]), moves, Award(Some(winner)), true))
  }

  function TerminalScore(game: Game, state: Json, moves: nat): Result<Scored, Fault> {
    var end :- game.terminal(state);
    match end
    case None => Ok(Scored(None, "unfinished", moves, Points(0, 0), false))
    case Some(e) => Ok(Scored(e.winner, e.reason, moves, Award(e.winner), e.winner.Some?))
  }

  // score, given the parts of the projection it reads.
  function ScoreParts(game: Game, str: Json -> string, states: seq<Body>, forfeits: seq<Body>,
                      faulted: bool, moves: nat): Result<Scored, Fault>
  {
    if exists b | b in states :: "state" !in b then Err("KeyError")
    else if faulted then Ok(Void(moves))
    else if states == [] then Ok(Scored(None, "no_state_recorded", 0, Obj(map[]), false))
    else if forfeits != [] then ForfeitScore(str, forfeits[0], moves)
    else TerminalScore(game, states[|states| - 1]["state"], moves)
  }

  /** The outcome, from referee-authored entries alone: a fault voids the match, a
      forfeit decides it, and otherwise the game does, on the last recorded state. */
  function Score(game: Game, str: Json -> string, projection: seq<Entry>): Result<Scored, Fault> {
    ScoreParts(game, str, Bodies(projection, "state"), Bodies(projection, "forfeit"),
               Bodies(projection, "engine_error") != [], |Bodies(projection, "move")|)
  }

  function ScoreOf(game: Game, str: Json -> string, entries: seq<Entry>): Result<Scored, Fault> {
    var projection :- Projected(entries);
    Score(game, str, projection)
  }
}
