/**
 arena/replay.py, _verify_header_identity: what the status of a header says of its rows.
 */
module HeaderSeats {
  import opened Wrappers
  import opened JsonValues
  import opened Games
  import opened Replay

  lemma SeatPairIdentities(engine: Engine, a: Json, b: Json)
    requires a.Obj? && b.Obj?
    ensures var (first, seen) := SeatIdentityOf(engine, a.fields, {});
      SeatIdentities(engine, [a, b], {}) == [first, SeatIdentityOf(engine, b.fields, seen).0]
  {
    hide SeatIdentityOf;
    var (first, seen) := SeatIdentityOf(engine, a.fields, {});
    var (second, seen') := SeatIdentityOf(engine, b.fields, seen);
    assert [a, b][1..] == [b] && [b][1..] == [];
    assert SeatIdentities(engine, [], seen') == [];
    assert SeatIdentities(engine, [b], seen) == [second];
  }

  lemma RowsIdentity(engine: Engine, header: Body, a: Json, b: Json)
    requires Get(header, "entrants") == List([a, b]) && a.Obj? && b.Obj?
    requires Get(a.fields, "seat") == Int(0) && Get(b.fields, "seat") == Int(1)
    ensures IdentityOf(engine, header) == Summary(SeatIdentities(engine, [a, b], {}))
  {
    hide Summary, SeatIdentities;
  }

  lemma SummaryOfTwo(a: SeatIdentity, b: SeatIdentity)
    ensures Summary([a, b]) ==
      if a == InvalidSeat || b == InvalidSeat then IdentityInvalid
      else if a == b == SignedSeat then VerifiedSigned
      else if a == b == LegacySeat then SelfDeclaredLegacy
      else Mixed
  {
    assert [a, b][0] in [a, b] && [a, b][1] in [a, b];
  }

  // A row that carries a passport carries a valid one, bound to the row.
  predicate RowHolds(engine: Engine, row: Body) {
    "agent_passport" in row ==>
      && row["agent_passport"] != Null && engine.passport(row["agent_passport"]).Some?
      && DeclarationBound(row, engine.passport(row["agent_passport"]).value)
  }

  function AgentIn(engine: Engine, row: Body): Option<string> {
    if "agent_passport" in row && row["agent_passport"] != Null && engine.passport(row["agent_passport"]).Some? then
      Some(engine.passport(row["agent_passport"]).value.agentId)
    else None
  }

  /** Two canonical seats whose passports are valid and bound, by different agents. */
  predicate IdentityHolds(engine: Engine, header: Body) {
    var rows := Get(header, "entrants");
    && RowsCanonical(rows)
    && RowHolds(engine, rows.items[0].fields) && RowHolds(engine, rows.items[1].fields)
    && !(AgentIn(engine, rows.items[0].fields).Some?
         && AgentIn(engine, rows.items[0].fields) == AgentIn(engine, rows.items[1].fields))
  }

  lemma RowStatus(engine: Engine, row: Body, seen: set<string>)
    ensures var (status, seen') := SeatIdentityOf(engine, row, seen);
      var agent := AgentIn(engine, row);
      && (status == InvalidSeat <==> !(RowHolds(engine, row) && (agent.Some? ==> agent.value !in seen)))
      && (status == LegacySeat <==> "agent_passport" !in row)
      && seen' == if agent.Some? then seen + {agent.value} else seen
  {
    hide DeclarationBound;
  }

  /** On any header whatever: the status is not invalid if and only if the rows' identities
      hold, and it then says signed, legacy or mixed by which rows carry a passport. */
  lemma StatusIffHolds(engine: Engine, header: Body)
    ensures IdentityOf(engine, header) != IdentityInvalid <==> IdentityHolds(engine, header)
    ensures IdentityHolds(engine, header) ==>
      var rows := Get(header, "entrants").items;
      var first, second := "agent_passport" in rows[0].fields, "agent_passport" in rows[1].fields;
      IdentityOf(engine, header) ==
        if first && second then VerifiedSigned else if first || second then Mixed else SelfDeclaredLegacy
  {
    var entrants := Get(header, "entrants");
    if RowsCanonical(entrants) {
      var a, b := entrants.items[0], entrants.items[1];
      assert entrants.items == [a, b];
      SeatPairIdentities(engine, a, b);
      RowStatus(engine, a.fields, {});
      var (first, seen) := SeatIdentityOf(engine, a.fields, {});
      RowStatus(engine, b.fields, seen);
      var second := SeatIdentityOf(engine, b.fields, seen).0;
      SummaryOfTwo(first, second);
      hide SeatIdentityOf, SeatIdentities, Summary, RowHolds, AgentIn;
      assert IdentityOf(engine, header) == Summary([first, second]);
    }
  }
}
