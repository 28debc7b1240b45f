/**
 The generated verifier around the engine (bin/build_verifier.py): a scan of the raw
 transcript that no embedded engine is trusted with, and the effective verdict.
 */
module Preflight {
  import opened Wrappers
  import opened JsonValues
  import opened Games
  import opened Replay
  import opened Verifier
  import JsonLoads
  import KeyOrder
  import Transcript

  // -- what the scan looks for -------------------------------------------------------

  function Values(m: Body): (r: seq<Json>)
    ensures forall v :: v in r <==> exists k | k in m :: m[k] == v
  {
    var keys := KeyOrder.Sorted(m.Keys);
    var r := seq(|keys|, i requires 0 <= i < |keys| => assert keys[i] in keys; m[keys[i]]);
    assert forall k | k in m :: m[k] in r by {
      forall k | k in m ensures m[k] in r {
        assert k in keys;
        var i :| 0 <= i < |keys| && keys[i] == k;
        assert r[i] == m[k];
      }
    }
    r
  }

  // The key occurs in j, at some depth.
  predicate Mentions(j: Json, key: string) {
    match j
    case Obj(m) => key in m || exists k | k in m :: Mentions(m[k], key)
    case List(items) => exists x | x in items :: Mentions(x, key)
    case _ => false
  }

  predicate AnyMentions(js: seq<Json>, key: string) {
    exists x | x in js :: Mentions(x, key)
  }

  function Nodes(j: Json): nat
    decreases j, 1, 0
  {
    match j
    case Obj(m) => 1 + NodesUnder(j, Values(m))
    case List(items) => 1 + NodesUnder(j, items)
    case _ => 1
  }

  function NodesUnder(j: Json, children: seq<Json>): nat
    requires forall x | x in children :: x < j
    decreases j, 0, |children|
  {
    if children == [] then 0
    else
      var front, last := children[..|children| - 1], children[|children| - 1];
      assert last in children && forall x | x in front :: x in children;
      NodesUnder(j, front) + Nodes(last)
  }

  function AllNodes(js: seq<Json>): nat {
    if js == [] then 0 else AllNodes(js[..|js| - 1]) + Nodes(js[|js| - 1])
  }

  lemma {:induction false} NodesUnderIsAll(j: Json, children: seq<Json>)
    requires forall x | x in children :: x < j
    ensures NodesUnder(j, children) == AllNodes(children)
  {
    hide Nodes;
    if children != [] {
      var front := children[..|children| - 1];
      forall x | x in front ensures x < j {
        assert x in children;
      }
      NodesUnderIsAll(j, front);
    }
  }

  lemma {:induction false} AllNodesAppend(a: seq<Json>, b: seq<Json>)
    ensures AllNodes(a + b) == AllNodes(a) + AllNodes(b)
  {
    hide Nodes;
    if b == [] {
      assert a + b == a;
    } else {
      var n := |b| - 1;
      assert (a + b)[..|a| + n] == a + b[..n];
      AllNodesAppend(a, b[..n]);
    }
  }

  lemma WithoutOne(a: seq<Json>, i: nat)
    requires i < |a|
    ensures multiset(a[..i] + a[i + 1..]) == multiset(a) - multiset{a[i]}
    ensures a == a[..i] + ([a[i]] + a[i + 1..])
  {
    assert a == a[..i] + ([a[i]] + a[i + 1..]);
  }

  lemma AllNodesDrop(a: seq<Json>, i: nat)
    requires i < |a|
    ensures AllNodes(a) == AllNodes(a[..i] + a[i + 1..]) + Nodes(a[i])
  {
    hide Nodes;
    WithoutOne(a, i);
    AllNodesAppend([a[i]], a[i + 1..]);
    AllNodesAppend(a[..i], [a[i]] + a[i + 1..]);
    AllNodesAppend(a[..i], a[i + 1..]);
    assert AllNodes([a[i]]) == Nodes(a[i]) by {
      assert [a[i]][..0] == [];
    }
  }

  // The order of a dict's values does not change what there is to visit.
  lemma {:induction false} AllNodesPermute(a: seq<Json>, b: seq<Json>)
    requires multiset(a) == multiset(b)
    ensures AllNodes(a) == AllNodes(b)
    decreases |a|
  {
    hide Nodes, AllNodes;
    if a == [] {
      assert |multiset(b)| == 0;
      assert a == b;
    } else {
      var n := |a| - 1;
      var i := LastElsewhere(a, b);
      AllNodesPermute(a[..n], b[..i] + b[i + 1..]);
      LastCounts(a);
      AllNodesDrop(b, i);
    }
  }

  lemma LastElsewhere(a: seq<Json>, b: seq<Json>) returns (i: nat)
    requires a != [] && multiset(a) == multiset(b)
    ensures i < |b| && b[i] == a[|a| - 1] && multiset(a[..|a| - 1]) == multiset(b[..i] + b[i + 1..])
  {
    var n := |a| - 1;
    assert a[n] in multiset(b);
    i :| 0 <= i < |b| && b[i] == a[n];
    WithoutOne(a, n);
    WithoutOne(b, i);
    assert a[..n] + a[n + 1..] == a[..n];
  }

  lemma LastCounts(a: seq<Json>)
    requires a != []
    ensures AllNodes(a) == AllNodes(a[..|a| - 1]) + Nodes(a[|a| - 1])
  {
    hide Nodes;
  }

  // dict.values(): the values of a dict in whatever order it keeps them.
  type ValueOrder = f: Body -> seq<Json> | forall m :: multiset(f(m)) == multiset(Values(m))
    witness (m: Body) => Values(m)

  // What is pushed for one popped value.
  function Children(order: ValueOrder, j: Json): seq<Json> {
    match j
    case Obj(m) => order(m)
    case List(items) => items
    case _ => []
  }

  // The scan of a stack with so many more nodes allowed; None is the refusal.
  function Scan(order: ValueOrder, pending: seq<Json>, needle: string, allowed: nat): Option<bool>
    decreases allowed
  {
    if pending == [] then Some(false)
    else if allowed == 0 then None
    else
      var rest, current := pending[..|pending| - 1], pending[|pending| - 1];
      if current.Obj? && needle in current.fields then Some(true)
      else Scan(order, rest + Children(order, current), needle, allowed - 1)
  }

  lemma FoundNothing(order: ValueOrder, needle: string, allowed: nat)
    ensures Scan(order, [], needle, allowed) == Some(false)
  {
  }

  lemma FoundNow(order: ValueOrder, pending: seq<Json>, needle: string, allowed: nat)
    requires pending != [] && allowed > 0
    requires var current := pending[|pending| - 1]; current.Obj? && needle in current.fields
    ensures Scan(order, pending, needle, allowed) == Some(true)
  {
  }

  lemma OutOfNodes(order: ValueOrder, pending: seq<Json>, needle: string)
    requires pending != []
    ensures Scan(order, pending, needle, 0) == None
  {
  }

  lemma ScanStep(order: ValueOrder, pending: seq<Json>, needle: string, allowed: nat)
    requires pending != [] && allowed > 0
    requires var current := pending[|pending| - 1]; !(current.Obj? && needle in current.fields)
    ensures Scan(order, pending, needle, allowed) ==
      Scan(order, pending[..|pending| - 1] + Children(order, pending[|pending| - 1]), needle, allowed - 1)
  {
  }

  /** _contains_object_key: a scan with an explicit stack, refused at the node limit. */
  method ContainsObjectKey(order: ValueOrder, value: Json, needle: string, limit: nat) returns (found: Option<bool>)
    ensures found == Scan(order, [value], needle, limit)
  {
    hide Scan, Values;
    var pending := [value];
    var visited := 0;
    while pending != []
      invariant visited <= limit && Scan(order, pending, needle, limit - visited) == Scan(order, [value], needle, limit)
      decreases limit - visited
    {
      var current := pending[|pending| - 1];
      if visited + 1 > limit {
        OutOfNodes(order, pending, needle);
        return None;
      }
      if current.Obj? && needle in current.fields {
        FoundNow(order, pending, needle, limit - visited);
        return Some(true);
      }
      ScanStep(order, pending, needle, limit - visited);
      pending := pending[..|pending| - 1];
      visited := visited + 1;
      if current.Obj? {
        pending := pending + order(current.fields);
      } else if current.List? {
        pending := pending + current.items;
      } else {
        assert pending + [] == pending;
      }
    }
    FoundNothing(order, needle, limit - visited);
    return Some(false);
  }

  // What pushing the children of a value does to what there is to visit and to find.
  lemma ChildrenScan(order: ValueOrder, j: Json, key: string)
    ensures Nodes(j) == 1 + AllNodes(Children(order, j))
    ensures Mentions(j, key) <==> (j.Obj? && key in j.fields) || AnyMentions(Children(order, j), key)
  {
    hide Mentions, Nodes, Values;
    if j.Obj? {
      ObjectScan(j, key);
      AllNodesPermute(order(j.fields), Values(j.fields));
      SameMentions(order(j.fields), Values(j.fields), key);
    } else if j.List? {
      ListScan(j, key);
    } else {
      LeafScan(j, key);
    }
  }

  lemma {:induction false} ScanIsTrue(order: ValueOrder, pending: seq<Json>, key: string, allowed: nat)
    ensures var found := Scan(order, pending, key, allowed);
      && (found.Some? ==> found.value == AnyMentions(pending, key))
      && (found.None? ==> AllNodes(pending) > allowed)
      && (found == Some(false) ==> AllNodes(pending) <= allowed)
    decreases allowed
  {
    hide Mentions, Nodes, Children, AllNodes;
    if pending == [] {
      NothingPending();
    } else {
      Popped(pending, key);
      var rest, current := pending[..|pending| - 1], pending[|pending| - 1];
      ChildrenScan(order, current, key);
      if allowed > 0 && !(current.Obj? && key in current.fields) {
        Pushed(rest, Children(order, current), key);
        hide AnyMentions;
        ScanIsTrue(order, rest + Children(order, current), key, allowed - 1);
      }
    }
  }

  lemma NothingPending()
    ensures AllNodes([]) == 0
  {
  }

  /** Whatever the order of values in dicts, the scan agrees with "the key occurs at some
      depth" unless it refuses, refuses only beyond the limit, and says no exactly of a value
      within the limit that nowhere holds the key. */
  lemma ScanDecidesMention(order: ValueOrder, value: Json, key: string, limit: nat)
    ensures var found := Scan(order, [value], key, limit);
      && (found.Some? ==> found.value == Mentions(value, key))
      && (found.None? ==> Nodes(value) > limit)
      && (found == Some(false) <==> !Mentions(value, key) && Nodes(value) <= limit)
  {
    hide Scan, Mentions, Nodes;
    ScanIsTrue(order, [value], key, limit);
    Popped([value], key);
    assert [value][..0] == [];
    NothingPending();
  }

  lemma Popped(pending: seq<Json>, key: string)
    requires pending != []
    ensures var n := |pending| - 1;
      && AllNodes(pending) == AllNodes(pending[..n]) + Nodes(pending[n])
      && (AnyMentions(pending, key) <==> AnyMentions(pending[..n], key) || Mentions(pending[n], key))
  {
    hide Mentions, Nodes;
    var n := |pending| - 1;
    assert pending == pending[..n] + [pending[n]];
  }

  lemma Pushed(pending: seq<Json>, more: seq<Json>, key: string)
    ensures AllNodes(pending + more) == AllNodes(pending) + AllNodes(more)
    ensures AnyMentions(pending + more, key) <==> AnyMentions(pending, key) || AnyMentions(more, key)
  {
    hide Mentions, Nodes;
    AllNodesAppend(pending, more);
    assert forall x :: x in pending + more <==> x in pending || x in more;
  }

  lemma SameMentions(a: seq<Json>, b: seq<Json>, key: string)
    requires multiset(a) == multiset(b)
    ensures AnyMentions(a, key) <==> AnyMentions(b, key)
  {
    hide Mentions;
    assert forall x :: x in a <==> x in multiset(a);
    assert forall x :: x in b <==> x in multiset(b);
  }

  lemma ObjectScan(j: Json, key: string)
    requires j.Obj?
    ensures Nodes(j) == 1 + AllNodes(Values(j.fields))
    ensures Mentions(j, key) <==> key in j.fields || AnyMentions(Values(j.fields), key)
  {
    NodesUnderIsAll(j, Values(j.fields));
  }

  lemma ListScan(j: Json, key: string)
    requires j.List?
    ensures Nodes(j) == 1 + AllNodes(j.items)
    ensures Mentions(j, key) <==> AnyMentions(j.items, key)
  {
    NodesUnderIsAll(j, j.items);
  }

  lemma LeafScan(j: Json, key: string)
    requires !j.Obj? && !j.List?
    ensures Nodes(j) == 1 && !Mentions(j, key)
  {
  }

  // -- the transcript as the wrapper reads it -------------------------------------------

  const KEY := "agent_passport"
  const MAX_PREFLIGHT_NODES: nat := 1000000

  // The value of every line that is not blank; None if one of them does not parse.
  function Rows(lines: seq<string>): Option<seq<Json>> {
    if lines == [] then Some([])
    else
      var last := lines[|lines| - 1];
      match Rows(lines[..|lines| - 1])
      case None => None
      case Some(rows) =>
        if Transcript.Stripped(last) == "" then Some(rows)
        else
          match JsonLoads.Loads(last)
          case Err(_) => None
          case Ok(row) => Some(rows + [row])
  }

  function TextRows(text: string): Option<seq<Json>> {
    Rows(Transcript.Lines(Transcript.Translated(text)))
  }

  predicate IsHeader(row: Json) {
    row.Obj? && Get(row.fields, "kind") == Str("header")
  }

  // Some entrant row of a header body carries a passport.
  predicate RowSigned(body: Body) {
    var rows := Get(body, "entrants");
    rows.List? && exists r | r in rows.items :: r.Obj? && KEY in r.fields
  }

  function HeaderOf(rows: seq<Json>): Json {
    if rows != [] && rows[0].Obj? then Get(rows[0].fields, "body") else Null
  }

  function RecordedDigest(rows: seq<Json>): Json {
    var body := HeaderOf(rows);
    if !body.Obj? then Null
    else
      var engine := Get(body.fields, "engine");
      if engine.Obj? then Get(engine.fields, "digest") else Null
  }

  // One header, first; canonical seats; and passports in them or nowhere.
  predicate Proper(rows: seq<Json>) {
    && (forall r | r in rows :: r.Obj?)
    && rows != [] && IsHeader(rows[0]) && (forall r | r in rows[1..] :: !IsHeader(r))
    && HeaderOf(rows).Obj? && RowsCanonical(Get(HeaderOf(rows).fields, "entrants"))
    && (AnyMentions(rows, KEY) <==> RowSigned(HeaderOf(rows).fields))
  }

  predicate Scannable(rows: seq<Json>) {
    forall r | r in rows :: Nodes(r) <= MAX_PREFLIGHT_NODES
  }

  datatype Inspection = Inspection(digest: Json, signed: bool, clean: bool)

  // Positions of the header records.
  function HeaderPositions(rows: seq<Json>): seq<nat> {
    if rows == [] then []
    else
      var n := |rows| - 1;
      HeaderPositions(rows[..n]) + (if IsHeader(rows[n]) then [n] else [])
  }

  lemma {:induction false} NoHeaderPositions(rows: seq<Json>)
    ensures HeaderPositions(rows) == [] <==> forall r | r in rows :: !IsHeader(r)
    ensures forall i | i in HeaderPositions(rows) :: i < |rows|
  {
    hide IsHeader;
    if rows != [] {
      NoHeaderPositions(rows[..|rows| - 1]);
      assert rows == rows[..|rows| - 1] + [rows[|rows| - 1]];
    }
  }

  lemma {:induction false} OneHeader(rows: seq<Json>)
    ensures HeaderPositions(rows) == [0] <==>
      rows != [] && IsHeader(rows[0]) && forall r | r in rows[1..] :: !IsHeader(r)
  {
    hide IsHeader;
    if |rows| == 1 {
      assert HeaderPositions(rows[..0]) == [];
      assert rows[1..] == [];
    } else if |rows| > 1 {
      var n := |rows| - 1;
      var before := HeaderPositions(rows[..n]);
      OneHeader(rows[..n]);
      NoHeaderPositions(rows[..n]);
      assert rows[1..] == rows[..n][1..] + [rows[n]];
      assert rows[n] in rows[1..];
      assert rows[0] == rows[..n][0] && rows[0] in rows[..n];
      if IsHeader(rows[n]) {
        assert HeaderPositions(rows) == before + [n];
        assert HeaderPositions(rows)[|before|] == n;
      } else {
        assert HeaderPositions(rows) == before + [];
      }
    }
  }

  // One more line.
  lemma RowsStep(lines: seq<string>, i: nat)
    requires i < |lines| && Rows(lines[..i]).Some?
    ensures Transcript.Stripped(lines[i]) == "" ==> Rows(lines[..i + 1]) == Rows(lines[..i])
    ensures Transcript.Stripped(lines[i]) != "" ==>
      var row := JsonLoads.Loads(lines[i]);
      Rows(lines[..i + 1]) == if row.Ok? then Some(Rows(lines[..i]).value + [row.value]) else None
  {
    hide Transcript.Stripped, JsonLoads.Loads;
    assert lines[..i + 1][..i] == lines[..i];
  }

  lemma {:induction false} RowsPrefix(lines: seq<string>, n: nat)
    requires n <= |lines| && Rows(lines).Some?
    ensures Rows(lines[..n]).Some? && Rows(lines[..n]).value <= Rows(lines).value
  {
    hide Transcript.Stripped, JsonLoads.Loads;
    if n == |lines| {
      assert lines[..n] == lines;
    } else {
      var front := lines[..|lines| - 1];
      assert front[..n] == lines[..n];
      RowsPrefix(front, n);
    }
  }

  // -- reading and judging --------------------------------------------------------------

  // What reading line by line comes to: all rows and whether one mentions a passport, or
  // the point where a line or the scan was refused.
  datatype Reading = Read(rows: seq<Json>, signed: bool) | Refused(signed: bool)

  function ReadRow(order: ValueOrder, rows: seq<Json>, signed: bool, line: string): Reading {
    if Transcript.Stripped(line) == "" then Read(rows, signed)
    else
      match JsonLoads.Loads(line)
      case Err(_) => Refused(signed)
      case Ok(row) =>
        if signed then Read(rows + [row], true)
        else
          match Scan(order, [row], KEY, MAX_PREFLIGHT_NODES)
          case None => Refused(false)
          case Some(found) => Read(rows + [row], found)
  }

  function ReadLines(order: ValueOrder, lines: seq<string>): Reading {
    if lines == [] then Read([], false)
    else
      match ReadLines(order, lines[..|lines| - 1])
      case Refused(signed) => Refused(signed)
      case Read(rows, signed) => ReadRow(order, rows, signed, lines[|lines| - 1])
  }

  function ReadText(order: ValueOrder, text: string): Reading {
    ReadLines(order, Transcript.Lines(Transcript.Translated(text)))
  }

  // The verdict on rows that were all read.
  function Concluded(rows: seq<Json>, signed: bool): Inspection {
    if (exists r | r in rows :: !r.Obj?) || HeaderPositions(rows) != [0] || !HeaderOf(rows).Obj? then
      Inspection(Null, signed, false)
    else
      var body := HeaderOf(rows).fields;
      Inspection(RecordedDigest(rows), signed, RowsCanonical(Get(body, "entrants")) && signed == RowSigned(body))
  }

  function Inspected(order: ValueOrder, text: string): Inspection {
    match ReadText(order, text)
    case Refused(signed) => Inspection(Null, signed, false)
    case Read(rows, signed) => Concluded(rows, signed)
  }

  // What the loop of _inspect_transcript keeps besides the rows.
  predicate Gathered(rows: seq<Json>, shaped: bool, positions: seq<nat>, header: Option<Json>) {
    && (shaped <==> forall r | r in rows :: r.Obj?)
    && positions == HeaderPositions(rows)
    && (positions == [] ==> header.None?)
    && (positions != [] && positions[0] < |rows| ==> header == Some(rows[positions[0]]))
  }

  lemma PositionsStep(rows: seq<Json>, row: Json)
    ensures HeaderPositions(rows + [row]) == HeaderPositions(rows) + (if IsHeader(row) then [|rows|] else [])
  {
    hide IsHeader;
    assert (rows + [row])[..|rows|] == rows;
  }

  lemma GatherStep(rows: seq<Json>, shaped: bool, positions: seq<nat>, header: Option<Json>, row: Json)
    requires Gathered(rows, shaped, positions, header)
    ensures Gathered(rows + [row], shaped && row.Obj?, positions + (if IsHeader(row) then [|rows|] else []),
                     if IsHeader(row) && header.None? then Some(row) else header)
  {
    hide IsHeader;
    NoHeaderPositions(rows);
    PositionsStep(rows, row);
    hide HeaderPositions;
    var all := rows + [row];
    assert forall r :: r in all <==> r in rows || r == row;
    if positions != [] {
      assert positions[0] in positions;
    }
  }

  lemma ReadStep(order: ValueOrder, lines: seq<string>, i: nat)
    requires i < |lines|
    ensures ReadLines(order, lines[..i + 1]) ==
      match ReadLines(order, lines[..i])
      case Refused(signed) => Refused(signed)
      case Read(rows, signed) => ReadRow(order, rows, signed, lines[i])
  {
    assert lines[..i + 1][..i] == lines[..i];
  }

  lemma {:induction false} RefusalStays(order: ValueOrder, lines: seq<string>, n: nat)
    requires n <= |lines| && ReadLines(order, lines[..n]).Refused?
    ensures ReadLines(order, lines) == ReadLines(order, lines[..n])
  {
    hide ReadRow;
    if n == |lines| {
      assert lines[..n] == lines;
    } else {
      var front := lines[..|lines| - 1];
      assert front[..n] == lines[..n];
      RefusalStays(order, front, n);
    }
  }

  lemma NothingRead(order: ValueOrder)
    ensures ReadLines(order, []) == Read([], false) && Gathered([], true, [], None)
  {
  }

  /** _inspect_transcript, for any order of values in dicts. */
  method InspectTranscript(order: ValueOrder, text: string) returns (r: Inspection)
    ensures r == Inspected(order, text)
  {
    hide Transcript.Stripped, JsonLoads.Loads, RowsCanonical, RowSigned, MAX_PREFLIGHT_NODES, ReadLines, Gathered,
         Scan, Values;
    var lines := Transcript.Lines(Transcript.Translated(text));
    var signed, shaped := false, true;
    var positions: seq<nat> := [];
    var header: Option<Json> := None;
    var count := 0;
    ghost var rows: seq<Json> := [];
    NothingRead(order);
    for i := 0 to |lines|
      invariant ReadLines(order, lines[..i]) == Read(rows, signed) && count == |rows|
      invariant Gathered(rows, shaped, positions, header)
    {
      ReadStep(order, lines, i);
      if Transcript.Stripped(lines[i]) != "" {
        var row := JsonLoads.Loads(lines[i]);
        if row.Err? {
          RefusalStays(order, lines, i + 1);
          return Inspection(Null, signed, false);
        }
        GatherStep(rows, shaped, positions, header, row.value);
        assert positions + [] == positions;
        if !signed {
          var found := ContainsObjectKey(order, row.value, KEY, MAX_PREFLIGHT_NODES);
          if found.None? {
            RefusalStays(order, lines, i + 1);
            return Inspection(Null, signed, false);
          }
          signed := found.value;
        }
        if !row.value.Obj? {
          shaped := false;
        } else if Get(row.value.fields, "kind") == Str("header") {
          positions := positions + [count];
          header := if header.None? then Some(row.value) else header;
        }
        rows := rows + [row.value];
        count := count + 1;
      }
    }
    assert lines[..|lines|] == lines;
    GatheredHeader(rows, shaped, positions, header);
    if !shaped || positions != [0] {
      return Inspection(Null, signed, false);
    }
    var body := Get(header.value.fields, "body");
    if !body.Obj? {
      return Inspection(Null, signed, false);
    }
    var engine := Get(body.fields, "engine");
    var digest := if engine.Obj? then Get(engine.fields, "digest") else Null;
    if !RowsCanonical(Get(body.fields, "entrants")) || signed != RowSigned(body.fields) {
      return Inspection(digest, signed, false);
    }
    return Inspection(digest, signed, true);
  }

  lemma GatheredHeader(rows: seq<Json>, shaped: bool, positions: seq<nat>, header: Option<Json>)
    requires Gathered(rows, shaped, positions, header)
    ensures shaped <==> !exists r | r in rows :: !r.Obj?
    ensures positions == HeaderPositions(rows)
    ensures shaped && positions == [0] ==>
      && rows != [] && rows[0].Obj? && header == Some(rows[0]) && HeaderOf(rows) == Get(rows[0].fields, "body")
  {
    hide IsHeader;
    OneHeader(rows);
    if rows != [] {
      assert rows[0] in rows;
    }
  }

  // -- what an inspection is worth ----------------------------------------------------------

  /** What has been read is true: the rows are those of the lines, and the flag says whether
      one of them mentions a passport. A refusal leaves the flag true of the rows before it,
      and happens only at a line that does not parse or a row beyond the node limit. */
  lemma {:induction false} ReadingIsTrue(order: ValueOrder, lines: seq<string>)
    ensures var r := ReadLines(order, lines);
      && (r.Read? ==> Rows(lines) == Some(r.rows) && r.signed == AnyMentions(r.rows, KEY))
      && (r.Refused? ==>
            SaysOfSome(lines, r.signed)
            && (Rows(lines).Some? ==> !Scannable(Rows(lines).value)))
  {
    hide Transcript.Stripped, JsonLoads.Loads, Scan, Mentions, Nodes, MAX_PREFLIGHT_NODES;
    if lines == [] {
    } else {
      var n := |lines| - 1;
      ReadingIsTrue(order, lines[..n]);
      ReadStep(order, lines, n);
      assert lines[..n + 1] == lines;
      match ReadLines(order, lines[..n])
      case Refused(signed) => RefusedEarlier(order, lines, signed);
      case Read(rows, signed) => ReadOneMore(order, lines, rows, signed);
    }
  }

  predicate SaysOf(lines: seq<string>, signed: bool) {
    Rows(lines).Some? && signed == AnyMentions(Rows(lines).value, KEY)
  }

  predicate SaysOfSome(lines: seq<string>, signed: bool) {
    exists n | 0 <= n <= |lines| :: SaysOf(lines[..n], signed)
  }

  lemma RefusedEarlier(order: ValueOrder, lines: seq<string>, signed: bool)
    requires lines != []
    requires SaysOfSome(lines[..|lines| - 1], signed)
    requires Rows(lines[..|lines| - 1]).Some? ==> !Scannable(Rows(lines[..|lines| - 1]).value)
    ensures SaysOfSome(lines, signed)
    ensures Rows(lines).Some? ==> !Scannable(Rows(lines).value)
  {
    hide Transcript.Stripped, JsonLoads.Loads, Nodes, MAX_PREFLIGHT_NODES, SaysOf;
    var front := lines[..|lines| - 1];
    var n :| 0 <= n <= |front| && SaysOf(front[..n], signed);
    assert front[..n] == lines[..n];
    if Rows(lines).Some? {
      RowsPrefix(lines, |front|);
      var r :| r in Rows(front).value && Nodes(r) > MAX_PREFLIGHT_NODES;
      assert r in Rows(lines).value;
    }
  }

  lemma ReadOneMore(order: ValueOrder, lines: seq<string>, rows: seq<Json>, signed: bool)
    requires lines != []
    requires Rows(lines[..|lines| - 1]) == Some(rows) && signed == AnyMentions(rows, KEY)
    ensures var r := ReadRow(order, rows, signed, lines[|lines| - 1]);
      && (r.Read? ==> Rows(lines) == Some(r.rows) && r.signed == AnyMentions(r.rows, KEY))
      && (r.Refused? ==>
            SaysOfSome(lines, r.signed)
            && (Rows(lines).Some? ==> !Scannable(Rows(lines).value)))
  {
    hide Transcript.Stripped, JsonLoads.Loads, Scan, Mentions, Nodes, MAX_PREFLIGHT_NODES;
    var n, line := |lines| - 1, lines[|lines| - 1];
    assert SaysOf(lines[..n], signed);
    if Transcript.Stripped(line) != "" && JsonLoads.Loads(line).Ok? {
      var row := JsonLoads.Loads(line).value;
      ScanDecidesMention(order, row, KEY, MAX_PREFLIGHT_NODES);
      Pushed(rows, [row], KEY);
      OneMentions(row);
      assert row in rows + [row];
    }
  }

  lemma OneMentions(row: Json)
    ensures AnyMentions([row], KEY) == Mentions(row, KEY)
  {
    hide Mentions;
  }

  lemma ConcludedIsProper(rows: seq<Json>, signed: bool)
    requires signed == AnyMentions(rows, KEY)
    ensures Concluded(rows, signed).clean <==> Proper(rows)
    ensures Concluded(rows, signed).clean ==>
      Concluded(rows, signed) == Inspection(RecordedDigest(rows), AnyMentions(rows, KEY), true)
  {
    hide RowsCanonical, RowSigned, IsHeader, AnyMentions;
    OneHeader(rows);
  }

  /** An inspection is clean if and only if every line parses, no scan was refused, and the
      rows have the proper shape; it then tells the truth about the whole file. */
  lemma CleanIffProper(order: ValueOrder, text: string)
    ensures Inspected(order, text).clean <==>
      ReadText(order, text).Read? && TextRows(text).Some? && Proper(TextRows(text).value)
    ensures Inspected(order, text).clean ==>
      var rows := TextRows(text).value;
      Inspected(order, text) == Inspection(RecordedDigest(rows), AnyMentions(rows, KEY), true)
  {
    hide Proper, Concluded, AnyMentions, RecordedDigest;
    ReadingIsTrue(order, Transcript.Lines(Transcript.Translated(text)));
    var r := ReadText(order, text);
    if r.Read? {
      ConcludedIsProper(r.rows, r.signed);
    }
  }

  /** A file whose rows are within the node limit is read to the end. */
  lemma ScannableIsRead(order: ValueOrder, text: string)
    requires TextRows(text).Some? && Scannable(TextRows(text).value)
    ensures ReadText(order, text).Read?
  {
    ReadingIsTrue(order, Transcript.Lines(Transcript.Translated(text)));
    hide Scannable, AnyMentions;
  }

  // -- the effective verdict ---------------------------------------------------------------

  // The embedded engines by digest, and the file names of their sources.
  datatype Bundle = Bundle(engines: map<string, Engine>, sources: map<string, set<string>>, newest: string) {
    predicate Packed() {
      engines.Keys == sources.Keys && newest in engines
    }

    // DEFAULT_ENGINE_DIGEST stands in for a digest the bundle does not hold.
    function Select(recorded: Json): string {
      if recorded.Str? && recorded.s in engines then recorded.s else newest
    }
  }

  predicate Capable(sources: set<string>) {
    "passport.py" in sources
  }

  /** What an effective PASS amounts to: a transcript of proper shape, judged a PASS by the
      very engine it names, and by one that checks passports if it mentions any. */
  ghost predicate Trusted(b: Bundle, text: string)
    requires b.Packed()
  {
    TextRows(text).Some? &&
    var rows := TextRows(text).value;
    var recorded := RecordedDigest(rows);
    && Proper(rows)
    && recorded.Str? && recorded.s in b.engines
    && Verified(b.engines[recorded.s], text).pass && Verified(b.engines[recorded.s], text).digestMatch
    && (AnyMentions(rows, KEY) ==> Capable(b.sources[recorded.s]))
  }

  /** main: the effective verdict is PASS exactly for a trusted transcript whose scan was
      not refused, and no transcript within the node limit is refused. */
  method EffectiveVerdict(order: ValueOrder, b: Bundle, text: string) returns (pass: bool)
    requires b.Packed()
    ensures pass <==> Trusted(b, text) && ReadText(order, text).Read?
    ensures TextRows(text).Some? && Scannable(TextRows(text).value) ==> (pass <==> Trusted(b, text))
  {
    hide TextRows, Proper, RecordedDigest, AnyMentions, Scannable, Verified, Inspected, ReadText;
    CleanIffProper(order, text);
    if TextRows(text).Some? && Scannable(TextRows(text).value) {
      ScannableIsRead(order, text);
    }
    var seen := InspectTranscript(order, text);
    var selected := b.Select(seen.digest);
    var report := Verify(b.engines[selected], text);
    pass := && report.pass && report.digestMatch && seen.digest == Str(selected)
            && seen.clean && (!seen.signed || Capable(b.sources[selected]));
  }

  /** No signed downgrade: an effective PASS on a transcript that mentions a passport at
      any depth of any record has one in an entrant row, and was given by an engine that
      contains the passport module. */
  lemma NoSignedDowngrade(b: Bundle, text: string)
    requires b.Packed() && Trusted(b, text)
    requires AnyMentions(TextRows(text).value, KEY)
    ensures var rows := TextRows(text).value;
      var entrants := Get(HeaderOf(rows).fields, "entrants");
      && entrants.List? && |entrants.items| == 2
      && (exists i | 0 <= i < 2 :: entrants.items[i].Obj? && KEY in entrants.items[i].fields)
      && Capable(b.sources[RecordedDigest(rows).s])
  {
    hide Verified, Mentions;
    var items := Get(HeaderOf(TextRows(text).value).fields, "entrants").items;
    var r :| r in items && r.Obj? && KEY in r.fields;
    var i :| 0 <= i < |items| && items[i] == r;
  }
}
