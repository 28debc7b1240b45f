/**
 Signed identity on both sides of a transcript: what the runner insists on before play
 (arena/match.py) and what the verifier concludes from the header (arena/replay.py).
 */
module IdentityBinding {
  import opened Wrappers
  import opened JsonValues
  import opened Games
  import opened Referee
  import opened Replay
  import opened HeaderSeats
  import opened Passport
  import opened RunVerdict

  function TextOf(j: Json): string {
    if j.Str? then j.s else ""
  }

  // What the header check reads of a passport that verify_passport returns.
  function IdentityFrom(scheme: Scheme, j: Json): Option<Identity> {
    match VerifyPassport(scheme, j)
    case None => None
    case Some(p) =>
      Some(Identity(TextOf(Get(p, "agentId")), TextOf(Get(p, "harnessSha256")), TextOf(Get(p, "displayName")),
        Get(p, "claimedModel")))
  }

  ghost predicate Verifies(engine: Engine, scheme: Scheme) {
    forall j :: engine.passport(j) == IdentityFrom(scheme, j)
  }

  // _seat_passport: the passport is valid and describes this seat's script, name and
  // claimed model.
  predicate SeatAccepted(scheme: Scheme, s: Seat) {
    s.passport.None? ||
    match VerifyPassport(scheme, s.passport.value)
    case None => false
    case Some(p) =>
      && s.script.Obj? && Get(s.script.fields, "sha256") == Get(p, "harnessSha256")
      && Get(p, "displayName") == Str(s.name)
      && Get(p, "claimedModel") == s.claimedModel
  }

  function AgentOf(scheme: Scheme, passport: Json): Json {
    match VerifyPassport(scheme, passport)
    case None => Null
    case Some(p) => Get(p, "agentId")
  }

  /** run_match before any process starts: every passport fits its seat, and one signed
      agent does not hold both. */
  predicate Preflight(scheme: Scheme, a: Seat, b: Seat) {
    && SeatAccepted(scheme, a) && SeatAccepted(scheme, b)
    && !(a.passport.Some? && b.passport.Some?
         && AgentOf(scheme, a.passport.value) == AgentOf(scheme, b.passport.value))
  }

  lemma VerifiedTexts(scheme: Scheme, j: Json)
    requires VerifyPassport(scheme, j).Some?
    ensures var p := VerifyPassport(scheme, j).value;
      Get(p, "agentId").Str? && Get(p, "harnessSha256").Str? && Get(p, "displayName").Str?
  {
    VerifiedIsUnchanged(scheme, j);
    hide Base64.Strict, SigningBytes, Declared, IsProofScope, Normalized, Passport.AgentId;
  }

  lemma SeatRowFields(index: int, s: Seat)
    ensures SeatRow(index, s).Obj?
    ensures var row := SeatRow(index, s).fields;
      && Get(row, "seat") == Int(index) && Get(row, "script") == s.script
      && Get(row, "name") == Str(s.name) && Get(row, "claimed_model") == s.claimedModel
      && ("agent_passport" in row <==> s.passport.Some?)
      && (s.passport.Some? ==> row["agent_passport"] == s.passport.value)
  {
  }

  // The verifier's reading of one seat row that the runner wrote.
  lemma SeatRowIdentity(engine: Engine, scheme: Scheme, index: int, s: Seat, seen: set<string>)
    requires Verifies(engine, scheme)
    ensures var (status, seen') := SeatIdentityOf(engine, SeatRow(index, s).fields, seen);
      && (s.passport.None? ==> status == LegacySeat && seen' == seen && SeatAccepted(scheme, s))
      && (s.passport.Some? ==>
            var agent := TextOf(AgentOf(scheme, s.passport.value));
            && (status == SignedSeat <==> SeatAccepted(scheme, s) && agent !in seen)
            && (status != SignedSeat ==> status == InvalidSeat)
            && (SeatAccepted(scheme, s) ==> seen' == seen + {agent}))
  {
    SeatRowFields(index, s);
    hide SeatRow, VerifyPassport;
    if s.passport.Some? {
      var j := s.passport.value;
      assert engine.passport(j) == IdentityFrom(scheme, j);
      NullIsNoPassport(scheme);
      if VerifyPassport(scheme, j).Some? {
        VerifiedTexts(scheme, j);
      }
    }
  }

  lemma NullIsNoPassport(scheme: Scheme)
    ensures VerifyPassport(scheme, Null) == None
  {
  }

  lemma TwoRows(seats: seq<Seat>)
    requires |seats| == 2
    ensures SeatRows(seats) == [SeatRow(0, seats[0]), SeatRow(1, seats[1])]
  {
    hide SeatRow;
  }

  // The entrants block of a runner's header, read row by row.
  lemma HeaderIdentity(engine: Engine, m: Match)
    requires |m.seats| == 2
    ensures var a, b := SeatRow(0, m.seats[0]), SeatRow(1, m.seats[1]);
      && a.Obj? && b.Obj?
      && IdentityOf(engine, HeaderBody(engine, m)) == Summary(SeatIdentities(engine, [a, b], {}))
  {
    hide HeaderBody, SeatRows, SeatRow, SeatIdentities, Summary, IdentityOf, GameBlock, EngineBlock, AttestationBlock;
    SeatRowFields(0, m.seats[0]);
    SeatRowFields(1, m.seats[1]);
    HeaderFields(engine, m);
    TwoRows(m.seats);
    RowsIdentity(engine, HeaderBody(engine, m), SeatRow(0, m.seats[0]), SeatRow(1, m.seats[1]));
  }

  /** The runner's checks before play are exactly what the verifier will ask of the
      header: it finds the identities valid if and only if they passed, and says signed,
      mixed or legacy by which seats carry a passport. */
  lemma PreflightDecidesIdentity(engine: Engine, scheme: Scheme, m: Match)
    requires Verifies(engine, scheme) && |m.seats| == 2
    ensures var a, b := m.seats[0], m.seats[1];
      var status := IdentityOf(engine, HeaderBody(engine, m));
      && (status != IdentityInvalid <==> Preflight(scheme, a, b))
      && (status == VerifiedSigned ==> a.passport.Some? && b.passport.Some?)
      && (status == SelfDeclaredLegacy ==> a.passport.None? && b.passport.None?)
      && (status == Mixed ==> a.passport.Some? != b.passport.Some?)
  {
    hide HeaderBody, SeatRow, SeatIdentityOf, SeatIdentities, SeatAccepted, VerifyPassport, Verifies, IdentityOf,
         Summary, AgentOf, TextOf;
    var a, b := m.seats[0], m.seats[1];
    HeaderIdentity(engine, m);
    SeatPairIdentities(engine, SeatRow(0, a), SeatRow(1, b));
    SeatRowIdentity(engine, scheme, 0, a, {});
    var (first, seen) := SeatIdentityOf(engine, SeatRow(0, a).fields, {});
    SeatRowIdentity(engine, scheme, 1, b, seen);
    var second := SeatIdentityOf(engine, SeatRow(1, b).fields, seen).0;
    SummaryOfTwo(first, second);
    assert SeatIdentities(engine, [SeatRow(0, a), SeatRow(1, b)], {}) == [first, second];
    assert a.passport.Some? && SeatAccepted(scheme, a) ==> seen == {TextOf(AgentOf(scheme, a.passport.value))};
    if a.passport.Some? && b.passport.Some? && SeatAccepted(scheme, a) && SeatAccepted(scheme, b) {
      AgentsCompareAsText(scheme, a, b);
    }
  }

  lemma AgentsCompareAsText(scheme: Scheme, a: Seat, b: Seat)
    requires a.passport.Some? && b.passport.Some? && SeatAccepted(scheme, a) && SeatAccepted(scheme, b)
    ensures TextOf(AgentOf(scheme, a.passport.value)) == TextOf(AgentOf(scheme, b.passport.value))
      <==> AgentOf(scheme, a.passport.value) == AgentOf(scheme, b.passport.value)
  {
    VerifiedTexts(scheme, a.passport.value);
    VerifiedTexts(scheme, b.passport.value);
    hide VerifyPassport;
  }
}
