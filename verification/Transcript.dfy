/**
 arena/transcript.py: the append-only hash-chained record list, its writer, its
 loader and the check that recomputes every hash.
 */
module Transcript {
  import opened Wrappers
  import opened JsonValues
  import opened Canonical
  import opened CanonicalInverse
  import JsonLoads

  datatype Record = Record(kind: string, seqNo: int, body: Body, prev: string, hash: string)

  // The part of a record its hash commits to, besides the previous hash.
  function Committed(kind: string, seqNo: int, body: Body): Json {
    Obj(map["kind" := Str(kind), "seq" := Int(seqNo), "body" := Obj(body)])
  }

  function RecordJson(r: Record): Json {
    Obj(map["kind" := Str(r.kind), "seq" := Int(r.seqNo), "body" := Obj(r.body),
            "prev" := Str(r.prev), "hash" := Str(r.hash)])
  }

  function RecordsJson(rs: seq<Record>): seq<Json> {
    seq(|rs|, i requires 0 <= i < |rs| => RecordJson(rs[i]))
  }

  // head_of
  function HeadOf(rs: seq<Record>): string {
    if rs == [] then GENESIS else rs[|rs| - 1].hash
  }

  predicate Linked(sha: Sha, prev: string, index: nat, r: Record) {
    r.seqNo == index && r.prev == prev && Chain(sha, prev, Committed(r.kind, r.seqNo, r.body)) == Ok(r.hash)
  }

  ghost predicate LinkedAt(sha: Sha, rs: seq<Record>, i: nat)
    requires i < |rs|
  {
    Linked(sha, HeadOf(rs[..i]), i, rs[i])
  }

  ghost predicate Chained(sha: Sha, rs: seq<Record>) {
    forall i | 0 <= i < |rs| :: LinkedAt(sha, rs, i)
  }

  lemma CommittedEncodable(kind: string, seqNo: int, body: Body)
    ensures Encodable(Committed(kind, seqNo, body)) <==> Encodable(Obj(body))
  {
    var m := map["kind" := Str(kind), "seq" := Int(seqNo), "body" := Obj(body)];
    assert m["body"] == Obj(body);
    if Encodable(Obj(body)) {
      forall k | k in m ensures Checked(m[k]) && Textual(m[k]) {
      }
    }
  }

  lemma RecordEncodable(r: Record)
    requires Encodable(Obj(r.body))
    ensures Encodable(RecordJson(r))
  {
    var m := RecordJson(r).fields;
    forall k | k in m ensures Checked(m[k]) && Textual(m[k]) {
    }
  }

  // -- writing ------------------------------------------------------------

  predicate Writable(r: Record) {
    Encodable(Obj(r.body))
  }

  // json.dumps of the record, once its body is known to have canonical bytes.
  function LineText(r: Record): string {
    if Writable(r) then RecordEncodable(r); Text(RecordJson(r)) else ""
  }

  function FileText(rs: seq<Record>): string {
    if rs == [] then "" else LineText(rs[0]) + ("\n" + FileText(rs[1..]))
  }

  lemma Assoc(a: string, b: string, c: string, d: string)
    ensures a + (b + (c + d)) == (a + (b + c)) + d
  {
  }

  lemma {:induction false} FileTextAppend(rs: seq<Record>, r: Record)
    ensures FileText(rs + [r]) == FileText(rs) + (LineText(r) + "\n")
  {
    if rs == [] {
      assert [] + [r] == [r];
      assert FileText([r][1..]) == "";
      assert "\n" + "" == "\n";
    } else {
      FileTextAppend(rs[1..], r);
      assert (rs + [r])[0] == rs[0] && (rs + [r])[1..] == rs[1..] + [r];
      Assoc(LineText(rs[0]), "\n", FileText(rs[1..]), LineText(r) + "\n");
    }
  }

  // The record that commits a kind and a body onto a chain.
  function NextRecord(sha: Sha, prev: string, seqNo: nat, kind: string, body: Body): Result<Record, EncodeError> {
    var hash :- Chain(sha, prev, Committed(kind, seqNo, body));
    Ok(Record(kind, seqNo, body, prev, hash))
  }

  lemma NextRecordExists(sha: Sha, prev: string, seqNo: nat, kind: string, body: Body)
    ensures NextRecord(sha, prev, seqNo, kind, body).Ok? <==> Encodable(Obj(body))
    ensures !Encodable(Obj(body)) ==>
      && CanonicalBytes(Obj(body)).Err?
      && NextRecord(sha, prev, seqNo, kind, body) == Err(CanonicalBytes(Obj(body)).error)
  {
    CommittedEncodable(kind, seqNo, body);
    if !Encodable(Obj(body)) {
      CommittedFails(kind, seqNo, body);
    }
  }

  lemma NextRecordChains(sha: Sha, rs: seq<Record>, line: Record)
    requires Chained(sha, rs)
    requires NextRecord(sha, HeadOf(rs), |rs|, line.kind, line.body) == Ok(line)
    ensures Chained(sha, rs + [line])
  {
    forall i | 0 <= i < |rs| + 1 ensures LinkedAt(sha, rs + [line], i) {
      assert (rs + [line])[..i] == rs[..i];
      if i < |rs| {
        assert LinkedAt(sha, rs, i);
      } else {
        assert rs[..i] == rs;
      }
    }
  }

  // What a writer's fields say about each other.
  ghost predicate WriterState(sha: Sha, prev: string, seqNo: nat, rs: seq<Record>, file: string) {
    && Chained(sha, rs)
    && prev == HeadOf(rs)
    && seqNo == |rs|
    && file == FileText(rs)
  }

  lemma AppendKeepsState(sha: Sha, prev: string, seqNo: nat, rs: seq<Record>, file: string, kind: string, body: Body)
    requires WriterState(sha, prev, seqNo, rs, file) && Encodable(Obj(body))
    ensures var r := NextRecord(sha, prev, seqNo, kind, body);
      && r.Ok? && r.value.kind == kind && r.value.body == body && Writable(r.value)
      && WriterState(sha, r.value.hash, seqNo + 1, rs + [r.value], file + (LineText(r.value) + "\n"))
  {
    NextRecordExists(sha, prev, seqNo, kind, body);
    var line := NextRecord(sha, prev, seqNo, kind, body).value;
    NextRecordChains(sha, rs, line);
    FileTextAppend(rs, line);
  }

  class TranscriptWriter {
    const sha: Sha
    var prev: string
    var seqNo: nat
    var records: seq<Record>
    var file: string

    ghost predicate Valid()
      reads this
    {
      WriterState(sha, prev, seqNo, records, file)
    }

    constructor (sha: Sha)
      ensures Valid() && this.sha == sha && records == []
    {
      this.sha := sha;
      prev, seqNo, records, file := GENESIS, 0, [], "";
    }

    /** Commits one record. A body without canonical bytes changes nothing. */
    method Append(kind: string, body: Body) returns (r: Result<Record, EncodeError>)
      requires Valid()
      modifies this
      ensures Valid()
      ensures r.Ok? <==> Encodable(Obj(body))
      ensures r.Err? ==> unchanged(this) && CanonicalBytes(Obj(body)) == Err(r.error)
      ensures r.Ok? ==>
        && r.value.kind == kind && r.value.body == body
        && records == old(records) + [r.value]
    {
      hide NextRecord, WriterState, LineText, Encodable, CanonicalBytes;
      NextRecordExists(sha, prev, seqNo, kind, body);
      var line := NextRecord(sha, prev, seqNo, kind, body);
      if line.Err? {
        return Err(line.error);
      }
      AppendKeepsState(sha, prev, seqNo, records, file, kind, body);
      file := file + (LineText(line.value) + "\n");
      records := records + [line.value];
      prev := line.value.hash;
      seqNo := seqNo + 1;
      return Ok(line.value);
    }
  }

  lemma CommittedFails(kind: string, seqNo: int, body: Body)
    requires !Encodable(Obj(body))
    ensures CanonicalBytes(Committed(kind, seqNo, body)) == CanonicalBytes(Obj(body))
  {
    var m := map["kind" := Str(kind), "seq" := Int(seqNo), "body" := Obj(body)];
    assert m["body"] == Obj(body);
    assert Checked(Obj(body)) ==> forall k | k in m :: Checked(m[k]);
  }

  // -- loading ------------------------------------------------------------

  datatype LineFault = RepeatedKey | NotJson | NotObject
  datatype ChainBroken = ChainBroken(lineNo: nat, fault: LineFault)

  // Universal newlines: the translation open() applies when reading text.
  function Translated(s: string): string {
    if s == "" then ""
    else if s[0] != '\r' then [s[0]] + Translated(s[1..])
    else if |s| > 1 && s[1] == '\n' then Translated(s[1..])
    else "\n" + Translated(s[1..])
  }

  function LineEnd(s: string): (n: nat)
    ensures n <= |s|
    ensures forall i | 0 <= i < n :: s[i] != '\n'
    ensures n < |s| ==> s[n] == '\n'
  {
    if s == "" || s[0] == '\n' then 0 else 1 + LineEnd(s[1..])
  }

  function Lines(s: string): seq<string>
    decreases |s|
  {
    var n := LineEnd(s);
    if n == |s| then [s] else [s[..n]] + Lines(s[n + 1..])
  }

  // str.isspace
  predicate IsWhitespace(c: char) {
    var n := c as int;
    9 <= n <= 13 || 28 <= n <= 32 || n == 0x85 || n == 0xA0 || n == 0x1680 || 0x2000 <= n <= 0x200A
    || n == 0x2028 || n == 0x2029 || n == 0x202F || n == 0x205F || n == 0x3000
  }

  function Stripped(s: string): string
    decreases |s|
  {
    if s == "" then ""
    else if IsWhitespace(s[0]) then Stripped(s[1..])
    else if IsWhitespace(s[|s| - 1]) then Stripped(s[..|s| - 1])
    else s
  }

  // The record a non-blank line stands for.
  function LineRecord(line: string): Result<Json, LineFault> {
    match JsonLoads.Loads(line)
    case Err(DuplicateKey) => Err(RepeatedKey)
    case Err(Malformed) => Err(NotJson)
    case Ok(value) => if value.Obj? then Ok(value) else Err(NotObject)
  }

  function LoadedFrom(lines: seq<string>, lineNo: nat): Result<seq<Json>, ChainBroken> {
    if lines == [] then Ok([])
    else
      var line := Stripped(lines[0]);
      if line == "" then LoadedFrom(lines[1..], lineNo + 1)
      else
        match LineRecord(line)
        case Err(fault) => Err(ChainBroken(lineNo, fault))
        case Ok(record) => Then([record], LoadedFrom(lines[1..], lineNo + 1))
  }

  function Loaded(text: string): Result<seq<Json>, ChainBroken> {
    LoadedFrom(Lines(Translated(text)), 1)
  }

  // What the loader returns when these records precede the rest of the file.
  function Then(records: seq<Json>, others: Result<seq<Json>, ChainBroken>): Result<seq<Json>, ChainBroken> {
    if others.Ok? then Ok(records + others.value) else others
  }

  lemma ThenAssociates(records: seq<Json>, record: Json, others: Result<seq<Json>, ChainBroken>)
    ensures Then(records, Then([record], others)) == Then(records + [record], others)
  {
    if others.Ok? {
      assert records + ([record] + others.value) == (records + [record]) + others.value;
    }
  }

  /** The loader: one record per non-blank line, in order, or the first bad line. */
  method Load(text: string) returns (r: Result<seq<Json>, ChainBroken>)
    ensures r == Loaded(text)
  {
    var records: seq<Json> := [];
    var lines := Lines(Translated(text));
    assert lines[0..] == lines;
    assert Then(records, LoadedFrom(lines, 1)) == LoadedFrom(lines, 1) by {
      assert LoadedFrom(lines, 1).Ok? ==> [] + LoadedFrom(lines, 1).value == LoadedFrom(lines, 1).value;
    }
    for n := 0 to |lines|
      invariant Loaded(text) == Then(records, LoadedFrom(lines[n..], n + 1))
    {
      var line := Stripped(lines[n]);
      assert lines[n..][1..] == lines[n + 1..];
      if line != "" {
        var record := LineRecord(line);
        if record.Err? {
          return Err(ChainBroken(n + 1, record.error));
        }
        ThenAssociates(records, record.value, LoadedFrom(lines[n + 1..], n + 2));
        records := records + [record.value];
      }
    }
    assert records + [] == records;
    return Ok(records);
  }

  lemma {:induction false} TranslatedNoReturn(s: string)
    requires '\r' !in s
    ensures Translated(s) == s
  {
    if s != "" {
      TranslatedNoReturn(s[1..]);
      assert s == [s[0]] + s[1..];
    }
  }

  lemma LinesOfLine(line: string, rest: string)
    requires '\n' !in line
    ensures Lines(line + ("\n" + rest)) == [line] + Lines(rest)
  {
    var s := line + ("\n" + rest);
    assert s[|line|] == '\n';
    assert LineEnd(s) == |line| by {
      assert forall i | 0 <= i < |line| :: s[i] == line[i];
    }
    assert s[..|line|] == line && s[|line| + 1..] == rest;
  }

  function LineTexts(rs: seq<Record>): seq<string> {
    if rs == [] then [""] else [LineText(rs[0])] + LineTexts(rs[1..])
  }

  lemma LineTextIsOneLine(r: Record)
    requires Writable(r)
    ensures Encodable(RecordJson(r))
    ensures '\n' !in LineText(r) && '\r' !in LineText(r)
    ensures LineText(r) != "" && Stripped(LineText(r)) == LineText(r)
    ensures LineRecord(LineText(r)) == Ok(RecordJson(r))
  {
    RecordEncodable(r);
    SeparatorNeverOccurs(RecordJson(r));
    LoadsInvertsText(RecordJson(r));
    ObjectTextIsBraced(RecordJson(r));
    BracedIsStripped(LineText(r));
  }

  lemma BracedIsStripped(s: string)
    requires s != "" && s[0] == '{' && s[|s| - 1] == '}'
    ensures Stripped(s) == s
  {
  }

  lemma {:induction false} FileTextLines(rs: seq<Record>)
    requires forall r | r in rs :: Writable(r)
    ensures Lines(FileText(rs)) == LineTexts(rs)
    ensures '\r' !in FileText(rs)
    ensures |LineTexts(rs)| == |rs| + 1
  {
    if rs != [] {
      FileTextLines(rs[1..]);
      LineTextIsOneLine(rs[0]);
      LinesOfLine(LineText(rs[0]), FileText(rs[1..]));
    }
  }

  // Lines that each hold one record, and one blank last line.
  lemma {:induction false} GoodLinesLoad(lines: seq<string>, values: seq<Json>, lineNo: nat)
    requires |lines| == |values| + 1 && lines[|values|] == ""
    requires forall i | 0 <= i < |values| ::
      lines[i] != "" && Stripped(lines[i]) == lines[i] && LineRecord(lines[i]) == Ok(values[i])
    ensures LoadedFrom(lines, lineNo) == Ok(values)
  {
    if values == [] {
      assert LoadedFrom(lines[1..], lineNo + 1) == Ok([]);
    } else {
      GoodLinesLoad(lines[1..], values[1..], lineNo + 1);
      assert values == [values[0]] + values[1..];
    }
  }

  lemma {:induction false} LineTextAt(rs: seq<Record>, i: nat)
    requires i <= |rs|
    ensures |LineTexts(rs)| == |rs| + 1
    ensures LineTexts(rs)[i] == if i == |rs| then "" else LineText(rs[i])
  {
    if rs != [] {
      LineTextAt(rs[1..], if i == 0 then 0 else i - 1);
    }
  }

  lemma WrittenLinesLoad(rs: seq<Record>)
    requires forall r | r in rs :: Writable(r)
    ensures LoadedFrom(LineTexts(rs), 1) == Ok(RecordsJson(rs))
  {
    LineTextAt(rs, |rs|);
    forall i | 0 <= i < |rs|
      ensures var line := LineTexts(rs)[i];
        line != "" && Stripped(line) == line && LineRecord(line) == Ok(RecordsJson(rs)[i])
    {
      LineTextAt(rs, i);
      LineTextIsOneLine(rs[i]);
    }
    GoodLinesLoad(LineTexts(rs), RecordsJson(rs), 1);
  }

  /** Whatever a writer has appended, loading its file gives back exactly those
      records, one per line. */
  lemma WrittenFileLoads(sha: Sha, rs: seq<Record>)
    requires Chained(sha, rs)
    ensures forall r | r in rs :: Writable(r)
    ensures Loaded(FileText(rs)) == Ok(RecordsJson(rs))
    ensures |Lines(FileText(rs))| == |rs| + 1
  {
    ChainedEncodable(sha, rs);
    FileTextLines(rs);
    TranslatedNoReturn(FileText(rs));
    WrittenLinesLoad(rs);
  }

  lemma ChainedEncodable(sha: Sha, rs: seq<Record>)
    requires Chained(sha, rs)
    ensures forall r | r in rs :: Encodable(Obj(r.body)) && Writable(r)
    ensures forall r | r in rs :: Encodable(Committed(r.kind, r.seqNo, r.body))
  {
    forall r | r in rs
      ensures Encodable(Obj(r.body)) && Writable(r) && Encodable(Committed(r.kind, r.seqNo, r.body))
    {
      var i :| 0 <= i < |rs| && rs[i] == r;
      assert LinkedAt(sha, rs, i);
      CommittedEncodable(r.kind, r.seqNo, r.body);
      RecordEncodable(r);
    }
  }
}
