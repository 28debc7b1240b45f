/**
 verify_chain: the check of a hostile record list, and what an accepted head
 commits to.
 */
module ChainCheck {
  import opened Wrappers
  import opened JsonValues
  import opened Utf8
  import opened Canonical
  import opened CanonicalInverse
  import opened Transcript

  datatype ChainFault =
    | NotAnObject
    | WrongKeys
    | BadKind
    | BadSeq
    | BadBody
    | BadHex
    | SeqMismatch
    | PrevMismatch
    | NotEncodable
    | HashMismatch

  const RECORD_KEYS: set<string> := {"kind", "seq", "body", "prev", "hash"}

  // The first objection to one record, given its position and the previous hash.
  function Objection(sha: Sha, prev: string, index: nat, record: Json): Option<ChainFault> {
    if !record.Obj? then Some(NotAnObject)
    else
      var m := record.fields;
      if m.Keys != RECORD_KEYS then Some(WrongKeys)
      else if !((m["kind"].Str? && m["kind"].s != "") || m["kind"].Broken?) then Some(BadKind)
      else if !m["seq"].Int? then Some(BadSeq)
      else if !m["body"].Obj? then Some(BadBody)
      else if !Hex64Value(m["prev"]) || !Hex64Value(m["hash"]) then Some(BadHex)
      else if m["seq"].n != index then Some(SeqMismatch)
      else if m["prev"].s != prev then Some(PrevMismatch)
      else
        match Chain(sha, prev, Obj(map["kind" := m["kind"], "seq" := m["seq"], "body" := m["body"]]))
        case Err(_) => Some(NotEncodable)
        case Ok(hash) => if hash != m["hash"].s then Some(HashMismatch) else None
  }

  // The typed reading of a record; meaningful once nothing is objected to.
  function AsRecord(record: Json): Record {
    match record
    case Obj(m) =>
      (match (Get(m, "kind"), Get(m, "seq"), Get(m, "body"), Get(m, "prev"), Get(m, "hash"))
       case (Str(kind), Int(n), Obj(body), Str(prev), Str(hash)) => Record(kind, n, body, prev, hash)
       case _ => Record("", 0, map[], "", ""))
    case _ => Record("", 0, map[], "", "")
  }

  function AsRecords(js: seq<Json>): seq<Record> {
    seq(|js|, i requires 0 <= i < |js| => AsRecord(js[i]))
  }

  // The hash a record must carry as prev: that of its predecessor.
  function PrevAt(js: seq<Json>, i: nat): string
    requires i <= |js|
  {
    HeadOf(AsRecords(js[..i]))
  }

  ghost predicate AcceptedAt(sha: Sha, js: seq<Json>, i: nat)
    requires i < |js|
  {
    Objection(sha, PrevAt(js, i), i, js[i]).None?
  }

  ghost predicate Accepted(sha: Sha, js: seq<Json>) {
    forall i | 0 <= i < |js| :: AcceptedAt(sha, js, i)
  }

  lemma KeysOfFive(m: Body)
    requires m.Keys == RECORD_KEYS
    ensures m == map["kind" := m["kind"], "seq" := m["seq"], "body" := m["body"],
                     "prev" := m["prev"], "hash" := m["hash"]]
  {
  }

  lemma UnobjectionableIsLinked(sha: Sha, prev: string, index: nat, record: Json)
    requires Objection(sha, prev, index, record).None?
    ensures var r := AsRecord(record);
      record == RecordJson(r) && Linked(sha, prev, index, r) && r.kind != ""
  {
    var m := record.fields;
    KeysOfFive(m);
    KindIsText(sha, prev, m);
    hide Canonical.Chain, Hex64;
  }

  // A kind with an unpaired surrogate has no canonical bytes, so the chain refuses it.
  lemma KindIsText(sha: Sha, prev: string, m: Body)
    requires m.Keys == RECORD_KEYS
    requires Chain(sha, prev, Obj(map["kind" := m["kind"], "seq" := m["seq"], "body" := m["body"]])).Ok?
    ensures !m["kind"].Broken?
  {
    var committed := map["kind" := m["kind"], "seq" := m["seq"], "body" := m["body"]];
    assert Textual(committed["kind"]);
  }

  lemma FiveFields(r: Record)
    ensures var m := RecordJson(r).fields;
      && m.Keys == RECORD_KEYS && m["kind"] == Str(r.kind) && m["seq"] == Int(r.seqNo)
      && m["body"] == Obj(r.body) && m["prev"] == Str(r.prev) && m["hash"] == Str(r.hash)
    ensures AsRecord(RecordJson(r)) == r
  {
  }

  lemma LinkedIsUnobjectionable(sha: Sha, prev: string, index: nat, r: Record)
    requires Linked(sha, prev, index, r) && r.kind != "" && Hex64(prev)
    ensures Objection(sha, prev, index, RecordJson(r)).None?
  {
    FiveFields(r);
    FieldsPass(sha, prev, index, RecordJson(r).fields, r);
  }

  lemma FieldsPass(sha: Sha, prev: string, index: nat, m: Body, r: Record)
    requires Linked(sha, prev, index, r) && r.kind != "" && Hex64(prev)
    requires m.Keys == RECORD_KEYS && m["kind"] == Str(r.kind) && m["seq"] == Int(r.seqNo)
    requires m["body"] == Obj(r.body) && m["prev"] == Str(r.prev) && m["hash"] == Str(r.hash)
    ensures Objection(sha, prev, index, Obj(m)).None?
  {
    assert map["kind" := m["kind"], "seq" := m["seq"], "body" := m["body"]]
        == Committed(r.kind, r.seqNo, r.body).fields;
  }

  // The objection at the first bad record from position i on, given the hash before it.
  function FirstObjection(sha: Sha, js: seq<Json>, i: nat, prev: string): Option<(nat, ChainFault)>
    requires i <= |js|
    decreases |js| - i
  {
    if i == |js| then None
    else
      match Objection(sha, prev, i, js[i])
      case Some(fault) => Some((i, fault))
      case None => FirstObjection(sha, js, i + 1, AsRecord(js[i]).hash)
  }

  /** verify_chain: every hash recomputed, stopping at the first bad record. */
  method VerifyChain(sha: Sha, js: seq<Json>) returns (broken: Option<(nat, ChainFault)>)
    ensures broken == FirstObjection(sha, js, 0, GENESIS)
  {
    var prev := GENESIS;
    for i := 0 to |js|
      invariant FirstObjection(sha, js, i, prev) == FirstObjection(sha, js, 0, GENESIS)
    {
      var objection := Objection(sha, prev, i, js[i]);
      if objection.Some? {
        return Some((i, objection.value));
      }
      prev := AsRecord(js[i]).hash;
    }
    return None;
  }

  lemma PrevAtStep(js: seq<Json>, i: nat)
    requires i < |js|
    ensures PrevAt(js, i + 1) == AsRecord(js[i]).hash
  {
    assert AsRecords(js[..i + 1])[i] == AsRecord(js[i]);
  }

  lemma {:induction false} NoObjectionFrom(sha: Sha, js: seq<Json>, i: nat)
    requires i <= |js|
    ensures FirstObjection(sha, js, i, PrevAt(js, i)).None? <==> forall k | i <= k < |js| :: AcceptedAt(sha, js, k)
    decreases |js| - i
  {
    hide Objection, AsRecord;
    if i < |js| {
      NoObjectionFrom(sha, js, i + 1);
      PrevAtStep(js, i);
      assert AcceptedAt(sha, js, i) <==> Objection(sha, PrevAt(js, i), i, js[i]).None?;
    }
  }

  /** No objection is raised exactly when each record is acceptable in its place. */
  lemma NoObjectionIsAccepted(sha: Sha, js: seq<Json>)
    ensures FirstObjection(sha, js, 0, GENESIS).None? <==> Accepted(sha, js)
  {
    NoObjectionFrom(sha, js, 0);
  }

  /** What verify_chain accepts is exactly a well-typed chain: the JSON of records
      with named kinds, numbered in order, each hash recomputing. */
  lemma AcceptedIsChained(sha: Sha, js: seq<Json>)
    requires Accepted(sha, js)
    ensures js == RecordsJson(AsRecords(js))
    ensures Chained(sha, AsRecords(js))
    ensures forall r | r in AsRecords(js) :: r.kind != ""
  {
    var rs := AsRecords(js);
    forall i | 0 <= i < |js| ensures js[i] == RecordJson(rs[i]) && LinkedAt(sha, rs, i) && rs[i].kind != "" {
      assert AcceptedAt(sha, js, i);
      assert AsRecords(js[..i]) == rs[..i];
      UnobjectionableIsLinked(sha, PrevAt(js, i), i, js[i]);
    }
  }

  lemma HeadIsHex(sha: Sha, rs: seq<Record>)
    requires Chained(sha, rs)
    ensures Hex64(HeadOf(rs))
  {
    if rs != [] {
      assert LinkedAt(sha, rs, |rs| - 1);
    }
  }

  lemma ChainedPrefix(sha: Sha, rs: seq<Record>, n: nat)
    requires Chained(sha, rs) && n <= |rs|
    ensures Chained(sha, rs[..n])
  {
    forall i | 0 <= i < n ensures LinkedAt(sha, rs[..n], i) {
      assert LinkedAt(sha, rs, i);
      assert rs[..n][..i] == rs[..i];
    }
  }

  lemma ChainedIsAccepted(sha: Sha, rs: seq<Record>)
    requires Chained(sha, rs) && forall r | r in rs :: r.kind != ""
    ensures Accepted(sha, RecordsJson(rs))
    ensures AsRecords(RecordsJson(rs)) == rs
  {
    var js := RecordsJson(rs);
    forall i | 0 <= i < |rs| ensures AsRecord(js[i]) == rs[i] {
      FiveFields(rs[i]);
    }
    forall i | 0 <= i < |js| ensures AcceptedAt(sha, js, i) {
      assert LinkedAt(sha, rs, i);
      assert AsRecords(js[..i]) == rs[..i];
      ChainedPrefix(sha, rs, i);
      HeadIsHex(sha, rs[..i]);
      LinkedIsUnobjectionable(sha, HeadOf(rs[..i]), i, rs[i]);
    }
  }

  // -- what a head commits to ---------------------------------------------

  function PreimageOf(r: Record): seq<Byte>
    requires Encodable(Committed(r.kind, r.seqNo, r.body))
  {
    ChainPreimage(r.prev, Committed(r.kind, r.seqNo, r.body))
  }

  // Two records of the lists hash alike from different preimages.
  ghost predicate RecordsCollide(sha: Sha, a: Record, b: Record) {
    && Encodable(Committed(a.kind, a.seqNo, a.body))
    && Encodable(Committed(b.kind, b.seqNo, b.body))
    && Collision(sha, PreimageOf(a), PreimageOf(b))
  }

  lemma CommittedDetermines(a: Record, b: Record)
    requires Committed(a.kind, a.seqNo, a.body) == Committed(b.kind, b.seqNo, b.body)
    ensures a.kind == b.kind && a.seqNo == b.seqNo && a.body == b.body
  {
    var m := Committed(a.kind, a.seqNo, a.body).fields;
    assert m["kind"] == Str(a.kind) && m["seq"] == Int(a.seqNo) && m["body"] == Obj(a.body);
    assert m["kind"] == Str(b.kind) && m["seq"] == Int(b.seqNo) && m["body"] == Obj(b.body);
  }

  lemma EqualHashesMeanEqualRecords(sha: Sha, a: Record, b: Record, i: nat, j: nat)
    requires Linked(sha, a.prev, i, a) && Linked(sha, b.prev, j, b) && a.hash == b.hash
    ensures a == b || RecordsCollide(sha, a, b)
  {
    if PreimageOf(a) == PreimageOf(b) {
      PreimageDeterminesRecord(a.prev, Committed(a.kind, a.seqNo, a.body),
                               b.prev, Committed(b.kind, b.seqNo, b.body));
      CommittedDetermines(a, b);
    }
  }

  // Some record of one list and some record of the other collide.
  ghost predicate SomeCollide(sha: Sha, a: seq<Record>, b: seq<Record>) {
    exists x, y | x in a && y in b :: RecordsCollide(sha, x, y)
  }

  lemma LastRecords(sha: Sha, a: seq<Record>, b: seq<Record>)
    requires Chained(sha, a) && Chained(sha, b) && a != [] && b != []
    requires HeadOf(a) == HeadOf(b)
    ensures SomeCollide(sha, a, b) || (a[|a| - 1] == b[|b| - 1] && |a| == |b|)
  {
    assert LinkedAt(sha, a, |a| - 1) && LinkedAt(sha, b, |b| - 1);
    EqualHashesMeanEqualRecords(sha, a[|a| - 1], b[|b| - 1], |a| - 1, |b| - 1);
  }

  function Front(a: seq<Record>): seq<Record>
    requires a != []
  {
    a[..|a| - 1]
  }

  lemma HeadBelow(sha: Sha, a: seq<Record>)
    requires Chained(sha, a) && a != []
    ensures Chained(sha, Front(a)) && HeadOf(Front(a)) == a[|a| - 1].prev
    ensures a == Front(a) + [a[|a| - 1]]
  {
    hide Canonical.Chain;
    assert LinkedAt(sha, a, |a| - 1);
    ChainedPrefix(sha, a, |a| - 1);
  }

  // Chains of one length.
  lemma {:induction false} HeadCommitsSameLength(sha: Sha, a: seq<Record>, b: seq<Record>)
    requires Chained(sha, a) && Chained(sha, b) && HeadOf(a) == HeadOf(b) && |a| == |b|
    ensures a == b || SomeCollide(sha, a, b)
    decreases |a|
  {
    if a != [] {
      LastRecords(sha, a, b);
      if !SomeCollide(sha, a, b) {
        HeadBelow(sha, a);
        HeadBelow(sha, b);
        HeadCommitsSameLength(sha, Front(a), Front(b));
        assert forall x | x in Front(a) :: x in a;
        assert forall y | y in Front(b) :: y in b;
      }
    }
  }

  /** The head fixes the whole transcript: two chains with one head are the same
      chain, or they hold two records that hash alike from different preimages, or
      one chain is empty and the other ends in a preimage of the genesis value. */
  lemma HeadCommits(sha: Sha, a: seq<Record>, b: seq<Record>)
    requires Chained(sha, a) && Chained(sha, b) && HeadOf(a) == HeadOf(b)
    ensures
      || a == b
      || SomeCollide(sha, a, b)
      || ((a == [] || b == []) && HeadOf(a) == HeadOf(b) == GENESIS)
  {
    if a != [] && b != [] {
      LastRecords(sha, a, b);
      if |a| == |b| {
        HeadCommitsSameLength(sha, a, b);
      }
    }
  }

  /** Two hostile record lists that verify_chain accepts with one head hold the same
      values, unless the hash has collided or produced the genesis value. */
  lemma AcceptedHeadCommits(sha: Sha, a: seq<Json>, b: seq<Json>)
    requires Accepted(sha, a) && Accepted(sha, b)
    requires HeadOf(AsRecords(a)) == HeadOf(AsRecords(b))
    ensures
      || a == b
      || SomeCollide(sha, AsRecords(a), AsRecords(b))
      || ((a == [] || b == []) && HeadOf(AsRecords(a)) == GENESIS)
  {
    AcceptedIsChained(sha, a);
    AcceptedIsChained(sha, b);
    HeadCommits(sha, AsRecords(a), AsRecords(b));
  }

  /** A writer's records pass verify_chain as long as every kind has a name. */
  lemma WrittenRecordsAreAccepted(sha: Sha, rs: seq<Record>)
    requires Chained(sha, rs)
    ensures Accepted(sha, RecordsJson(rs)) <==> forall r | r in rs :: r.kind != ""
    ensures (forall r | r in rs :: r.kind != "") ==> AsRecords(RecordsJson(rs)) == rs
  {
    if forall r | r in rs :: r.kind != "" {
      ChainedIsAccepted(sha, rs);
    } else {
      var r :| r in rs && r.kind == "";
      var i :| 0 <= i < |rs| && rs[i] == r;
      var js := RecordsJson(rs);
      assert js[i].fields["kind"] == Str("");
      assert !AcceptedAt(sha, js, i);
    }
  }
}
