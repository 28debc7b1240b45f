/**
 arena/sandbox.py, the receiving side of Entrant: the pumps that turn what the child
 writes, in whatever pieces the pipe hands over, into a bounded queue of lines and a
 bounded stderr tail.
 */
module BytePump {
  import opened Wrappers
  import opened JsonValues
  import opened Utf8
  import opened LineStream

  const READ_CHUNK_BYTES := 8192

  // _positive_limit: True and False are not numbers here.
  function PositiveLimit(value: Json): Option<nat> {
    if value.Int? && value.n > 0 then Some(value.n) else None
  }

  datatype Limits = Limits(line: nat, total: nat, stderr: nat) {
    predicate Allowed() {
      0 < line <= total && 0 < stderr
    }

    function ReadSize(): nat {
      var least := if line < total then line + 1 else total + 1;
      if least < READ_CHUNK_BYTES then least else READ_CHUNK_BYTES
    }
  }

  // The limit checks of __init__.
  function CheckedLimits(line: Json, total: Json, stderr: Json): (r: Option<Limits>)
    ensures r.Some? <==>
      && line.Int? && total.Int? && stderr.Int?
      && 0 < line.n <= total.n && 0 < stderr.n
    ensures r.Some? ==> r.value.Allowed()
  {
    match (PositiveLimit(line), PositiveLimit(total), PositiveLimit(stderr))
    case (Some(l), Some(t), Some(e)) => if l > t then None else Some(Limits(l, t, e))
    case _ => None
  }

  // How reading the pipe comes to its end: at end of file, or by an exception.
  type Ending = Option<string>

  // Reads as os.read gives them: never empty, never longer than asked for.
  predicate Readable(chunks: seq<seq<Byte>>, size: nat) {
    forall c | c in chunks :: 0 < |c| <= size
  }

  // -- what the queue is meant to hold --------------------------------------

  // How many reads stay within the total.
  function Fitting(chunks: seq<seq<Byte>>, total: nat): (n: nat)
    ensures n <= |chunks|
    ensures |Concat(chunks[..n])| <= total
    ensures n < |chunks| ==> |Concat(chunks[..n + 1])| > total
  {
    if chunks == [] then 0
    else
      var front := chunks[..|chunks| - 1];
      var n := Fitting(front, total);
      assert chunks[..|chunks|] == chunks;
      assert front[..n] == chunks[..n];
      assert n < |front| ==> front[..n + 1] == chunks[..n + 1];
      if n == |front| && |Concat(chunks)| <= total then n + 1 else n
  }

  function Pumped(text: Decoder, limits: Limits, chunks: seq<seq<Byte>>, ending: Ending): seq<Item> {
    var n := Fitting(chunks, limits.total);
    var segments := Segments(Concat(chunks[..n]));
    if (n == |chunks| && ending.None?) || !Short(segments, limits.line) then
      Delivered(text, limits.line, segments) + [Eof]
    else
      LinesOf(text, segments[..|segments| - 1])
      + [Failed(if n < |chunks| then TotalExceeded(limits.total) else ReadFailed(ending.value))] + [Eof]
  }

  // -- the pumps ------------------------------------------------------------

  // raw.find(b"\n", cursor), with the length of raw for "not found".
  method FindNewline(raw: seq<Byte>, cursor: nat) returns (end: nat)
    requires cursor <= |raw|
    ensures cursor <= end <= |raw| && NEWLINE !in raw[cursor..end]
    ensures end < |raw| ==> raw[end] == NEWLINE
  {
    end := cursor;
    while end < |raw| && raw[end] != NEWLINE
      invariant cursor <= end <= |raw| && NEWLINE !in raw[cursor..end]
    {
      end := end + 1;
    }
  }

  // The lines of what has been read so far, and their text on the queue after base.
  ghost predicate Progress(text: Decoder, limit: nat, queue: seq<Item>, base: seq<Item>, seen: seq<Byte>,
                           lines: seq<seq<Byte>>, pending: seq<Byte>)
  {
    && Segments(seen) == lines + [pending]
    && Short(lines, limit)
    && queue == base + LinesOf(text, lines)
  }

  lemma PartRead(text: Decoder, limit: nat, queue: seq<Item>, base: seq<Item>, read: seq<Byte>,
                 lines: seq<seq<Byte>>, pending: seq<Byte>, raw: seq<Byte>, cursor: nat, end: nat)
    requires cursor <= end <= |raw| && NEWLINE !in raw[cursor..end]
    requires Progress(text, limit, queue, base, read + raw[..cursor], lines, pending)
    ensures Progress(text, limit, queue, base, read + raw[..end], lines, pending + raw[cursor..end])
  {
    ExtendLine(read + raw[..cursor], lines, pending, raw[cursor..end]);
    assert read + raw[..end] == read + raw[..cursor] + raw[cursor..end];
  }

  lemma LineRead(text: Decoder, limit: nat, queue: seq<Item>, base: seq<Item>, read: seq<Byte>,
                 lines: seq<seq<Byte>>, pending: seq<Byte>, raw: seq<Byte>, end: nat)
    requires end < |raw| && raw[end] == NEWLINE && |pending| <= limit
    requires Progress(text, limit, queue, base, read + raw[..end], lines, pending)
    ensures Progress(text, limit, queue + Emitted(text, pending), base, read + raw[..end + 1], lines + [pending], [])
  {
    FinishLine(read + raw[..end], lines, pending);
    assert read + raw[..end + 1] == read + raw[..end] + [NEWLINE];
    assert (lines + [pending])[..|lines|] == lines;
    assert base + LinesOf(text, lines) + Emitted(text, pending) ==
      base + (LinesOf(text, lines) + Emitted(text, pending));
  }

  class Entrant {
    const limits: Limits
    const text: Decoder
    // every item ever put on the queue, in order
    var queue: seq<Item>
    var bytesSeen: nat
    var stderrBuf: seq<Byte>

    constructor (limits: Limits, text: Decoder)
      requires limits.Allowed()
      ensures this.limits == limits && this.text == text
      ensures queue == [] && bytesSeen == 0 && stderrBuf == []
    {
      this.limits, this.text := limits, text;
      queue, bytesSeen, stderrBuf := [], 0, [];
    }

    method EmitStdoutLine(raw: seq<Byte>)
      modifies this`queue
      ensures queue == old(queue) + Emitted(text, raw)
    {
      var line := text(raw);
      if line != "" {
        queue := queue + [Line(line)];
      }
    }

    // What one read does to the line being assembled. The ghost parameters name the
    // bytes read before it and the lines already delivered from them.
    method TakeChunk(raw: seq<Byte>, before: seq<Byte>, ghost base: seq<Item>, ghost read: seq<Byte>,
                     ghost complete: seq<seq<Byte>>)
      returns (pending: seq<Byte>, stopped: bool, ghost taken: nat, ghost lines: seq<seq<Byte>>)
      requires Progress(text, limits.line, queue, base, read, complete, before) && |before| <= limits.line
      modifies this`queue
      ensures taken <= |raw| && |pending| <= limits.line + |raw|
      ensures !stopped ==> taken == |raw| && |pending| <= limits.line
      ensures stopped ==>
        |pending| > limits.line && queue != [] && queue[|queue| - 1] == Failed(LineExceeded(limits.line))
      ensures var delivered := if stopped then queue[..|queue| - 1] else queue;
        Progress(text, limits.line, delivered, base, read + raw[..taken], lines, pending)
    {
      hide Progress;
      pending, stopped, taken, lines := before, false, 0, complete;
      var cursor := 0;
      assert read + raw[..0] == read;
      while cursor < |raw|
        invariant cursor == taken <= |raw| && |pending| <= limits.line
        invariant Progress(text, limits.line, queue, base, read + raw[..taken], lines, pending)
      {
        var end := FindNewline(raw, cursor);
        PartRead(text, limits.line, queue, base, read, lines, pending, raw, cursor, end);
        pending, taken := pending + raw[cursor..end], end;
        if |pending| > limits.line {
          queue := queue + [Failed(LineExceeded(limits.line))];
          stopped := true;
          return;
        }
        if end == |raw| {
          break;
        }
        LineRead(text, limits.line, queue, base, read, lines, pending, raw, end);
        EmitStdoutLine(pending);
        lines, pending, taken := lines + [pending], [], end + 1;
        cursor := end + 1;
      }
    }

    /** _pump_stdout: from the reads of one stream to the queue. */
    method PumpStdout(chunks: seq<seq<Byte>>, ending: Ending) returns (ghost peak: nat)
      requires limits.Allowed() && Readable(chunks, limits.ReadSize()) && bytesSeen == 0
      modifies this`queue, this`bytesSeen
      ensures queue == old(queue) + Pumped(text, limits, chunks, ending)
      ensures peak <= limits.line + limits.ReadSize()
    {
      hide Progress, Pumped, Readable;
      ghost var base := queue;
      var pending: seq<Byte> := [];
      ghost var lines: seq<seq<Byte>> := [];
      peak := 0;
      NothingRead(text, limits.line, base);
      for i := 0 to |chunks|
        invariant peak <= limits.line + limits.ReadSize() && |pending| <= limits.line
        invariant bytesSeen == |Concat(chunks[..i])| <= limits.total
        invariant Progress(text, limits.line, queue, base, Concat(chunks[..i]), lines, pending)
      {
        var raw := chunks[i];
        ReadIsBounded(chunks, limits.ReadSize(), i);
        bytesSeen := bytesSeen + |raw|;
        if bytesSeen > limits.total {
          TooMuch(text, limits, chunks, ending, queue, base, i, lines, pending);
          queue := queue + [Failed(TotalExceeded(limits.total))] + [Eof];
          return;
        }
        var stopped;
        ghost var taken;
        pending, stopped, taken, lines := TakeChunk(raw, pending, base, Concat(chunks[..i]), lines);
        peak := if |pending| > peak then |pending| else peak;
        if stopped {
          TooLong(text, limits, chunks, ending, queue[..|queue| - 1], base, i, taken, lines, pending);
          queue := queue + [Eof];
          return;
        }
        assert raw[..|raw|] == raw;
      }
      assert chunks[..|chunks|] == chunks;
      if ending.None? {
        AllRead(text, limits, chunks, queue, base, lines, pending);
        if pending != [] {
          EmitStdoutLine(pending);
        }
      } else {
        TornDown(text, limits, chunks, ending, queue, base, lines, pending);
        queue := queue + [Failed(ReadFailed(ending.value))];
      }
      queue := queue + [Eof];
    }

    /** _pump_stderr: the first bytes of the stream, as many as the limit allows. */
    method PumpStderr(chunks: seq<seq<Byte>>)
      requires stderrBuf == []
      modifies this`stderrBuf
      ensures var stream := Concat(chunks);
        stderrBuf == if |stream| <= limits.stderr then stream else stream[..limits.stderr]
    {
      assert Concat(chunks[..0]) == [];
      for i := 0 to |chunks|
        invariant stderrBuf == First(Concat(chunks[..i]), limits.stderr)
      {
        var raw := chunks[i];
        assert chunks[..i + 1][..i] == chunks[..i];
        FirstGrows(Concat(chunks[..i]), raw, limits.stderr);
        if limits.stderr > |stderrBuf| {
          stderrBuf := stderrBuf + First(raw, limits.stderr - |stderrBuf|);
        }
      }
      assert chunks[..|chunks|] == chunks;
    }
  }

  // raw[:n]
  function First(b: seq<Byte>, n: nat): seq<Byte> {
    if |b| <= n then b else b[..n]
  }

  lemma FirstGrows(a: seq<Byte>, b: seq<Byte>, n: nat)
    ensures First(a + b, n) == First(a, n) + (if n > |First(a, n)| then First(b, n - |First(a, n)|) else [])
  {
  }

  // -- how each way out of the loop meets the specification ---------------------

  lemma NothingRead(text: Decoder, limit: nat, base: seq<Item>)
    ensures Progress(text, limit, base, base, Concat([]), [], [])
  {
    assert base + [] == base;
  }

  lemma ReadIsBounded(chunks: seq<seq<Byte>>, size: nat, i: nat)
    requires i < |chunks| && Readable(chunks, size)
    ensures |chunks[i]| <= size
    ensures Concat(chunks[..i + 1]) == Concat(chunks[..i]) + chunks[i]
  {
    assert chunks[i] in chunks;
    assert chunks[..i + 1][..i] == chunks[..i];
  }

  lemma {:induction false} ConcatGrows(chunks: seq<seq<Byte>>, i: nat, j: nat)
    requires i <= j <= |chunks|
    ensures Concat(chunks[..i]) <= Concat(chunks[..j])
    ensures |Concat(chunks[..i])| <= |Concat(chunks[..j])|
  {
    if i < j {
      ConcatGrows(chunks, i, j - 1);
      assert chunks[..j][..j - 1] == chunks[..j - 1];
    }
  }

  lemma FitsPast(chunks: seq<seq<Byte>>, total: nat, i: nat)
    requires i < |chunks| && |Concat(chunks[..i + 1])| <= total
    ensures i < Fitting(chunks, total)
  {
    var n := Fitting(chunks, total);
    if n <= i {
      ConcatGrows(chunks, n + 1, i + 1);
    }
  }

  // The reads that fit are told apart by the total alone.
  lemma FittingIs(chunks: seq<seq<Byte>>, total: nat, i: nat)
    requires i <= |chunks| && |Concat(chunks[..i])| <= total
    requires i < |chunks| ==> |Concat(chunks[..i + 1])| > total
    ensures Fitting(chunks, total) == i
  {
    var n := Fitting(chunks, total);
    if 0 < i {
      FitsPast(chunks, total, i - 1);
    }
    if i < n {
      ConcatGrows(chunks, i + 1, n);
    }
  }

  lemma LinesThenPending(limit: nat, lines: seq<seq<Byte>>, pending: seq<Byte>)
    requires Short(lines, limit) && |pending| <= limit
    ensures Short(lines + [pending], limit)
  {
  }

  lemma TooMuch(text: Decoder, limits: Limits, chunks: seq<seq<Byte>>, ending: Ending, queue: seq<Item>,
                base: seq<Item>, i: nat, lines: seq<seq<Byte>>, pending: seq<Byte>)
    requires i < |chunks| && |Concat(chunks[..i])| <= limits.total < |Concat(chunks[..i + 1])|
    requires Progress(text, limits.line, queue, base, Concat(chunks[..i]), lines, pending) && |pending| <= limits.line
    ensures queue + [Failed(TotalExceeded(limits.total))] + [Eof] == base + Pumped(text, limits, chunks, ending)
  {
    FittingIs(chunks, limits.total, i);
    var segments := Segments(Concat(chunks[..i]));
    assert segments[..|segments| - 1] == lines;
    LinesThenPending(limits.line, lines, pending);
    hide Concat, Fitting, Segments, Delivered, LinesOf, Short;
  }

  lemma TornDown(text: Decoder, limits: Limits, chunks: seq<seq<Byte>>, ending: Ending, queue: seq<Item>,
                 base: seq<Item>, lines: seq<seq<Byte>>, pending: seq<Byte>)
    requires |Concat(chunks)| <= limits.total && ending.Some?
    requires Progress(text, limits.line, queue, base, Concat(chunks), lines, pending) && |pending| <= limits.line
    ensures queue + [Failed(ReadFailed(ending.value))] + [Eof] == base + Pumped(text, limits, chunks, ending)
  {
    hide Concat, Fitting, Segments, Delivered, LinesOf, Short;
    assert chunks[..|chunks|] == chunks;
    FittingIs(chunks, limits.total, |chunks|);
    var segments := Segments(Concat(chunks));
    assert segments[..|segments| - 1] == lines;
    LinesThenPending(limits.line, lines, pending);
  }

  lemma AllRead(text: Decoder, limits: Limits, chunks: seq<seq<Byte>>, queue: seq<Item>, base: seq<Item>,
                lines: seq<seq<Byte>>, pending: seq<Byte>)
    requires |Concat(chunks)| <= limits.total
    requires Progress(text, limits.line, queue, base, Concat(chunks), lines, pending) && |pending| <= limits.line
    ensures queue + Emitted(text, pending) + [Eof] == base + Pumped(text, limits, chunks, None)
  {
    hide Concat, Fitting, Segments, Delivered, Short;
    assert chunks[..|chunks|] == chunks;
    FittingIs(chunks, limits.total, |chunks|);
    var segments := Segments(Concat(chunks));
    assert segments[..|segments| - 1] == lines;
    LinesThenPending(limits.line, lines, pending);
    ShortIsDelivered(text, limits.line, segments);
  }

  lemma TooLong(text: Decoder, limits: Limits, chunks: seq<seq<Byte>>, ending: Ending, queue: seq<Item>,
                base: seq<Item>, i: nat, taken: nat, lines: seq<seq<Byte>>, pending: seq<Byte>)
    requires i < |chunks| && taken <= |chunks[i]| && |Concat(chunks[..i + 1])| <= limits.total
    requires Progress(text, limits.line, queue, base, Concat(chunks[..i]) + chunks[i][..taken], lines, pending)
    requires |pending| > limits.line
    ensures queue + [Failed(LineExceeded(limits.line))] + [Eof] == base + Pumped(text, limits, chunks, ending)
  {
    var read := Concat(chunks[..i]) + chunks[i][..taken];
    FitsPast(chunks, limits.total, i);
    var n := Fitting(chunks, limits.total);
    ConcatGrows(chunks, i + 1, n);
    assert chunks[..i + 1][..i] == chunks[..i];
    var stream := Concat(chunks[..n]);
    assert read <= Concat(chunks[..i + 1]) <= stream;
    hide Concat, Fitting, Segments, Delivered, LinesOf, Short;
    LongLineDelivers(text, limits.line, queue, base, read, stream, lines, pending);
  }

  lemma LongLineDelivers(text: Decoder, limit: nat, queue: seq<Item>, base: seq<Item>, read: seq<Byte>,
                         stream: seq<Byte>, lines: seq<seq<Byte>>, pending: seq<Byte>)
    requires Progress(text, limit, queue, base, read, lines, pending) && |pending| > limit && read <= stream
    ensures !Short(Segments(stream), limit)
    ensures queue + [Failed(LineExceeded(limit))] + [Eof] == base + (Delivered(text, limit, Segments(stream)) + [Eof])
  {
    hide Segments, Delivered, LinesOf, Short;
    var rest := stream[|read|..];
    assert stream == read + rest;
    OverlongEnds(text, limit, read, rest, lines, pending);
    OverlongIsNotShort(limit, read, rest, lines, pending);
  }

  lemma OverlongIsNotShort(limit: nat, read: seq<Byte>, rest: seq<Byte>, lines: seq<seq<Byte>>, pending: seq<Byte>)
    requires Segments(read) == lines + [pending] && |pending| > limit
    ensures !Short(Segments(read + rest), limit)
  {
    SegmentsJoin(read, rest);
    var later := Segments(rest);
    assert Segments(read + rest)[|lines|] == pending + later[0];
    assert Segments(read + rest)[|lines|] in Segments(read + rest);
  }

  // -- what the specification says of the stream -----------------------------------

  /** Within the total limit the queue depends on the stream alone, however it was cut
      up: the non-blank lines up to the first one too long, at most one error, one eof. */
  lemma ChunkingIsInvisible(text: Decoder, limits: Limits, chunks: seq<seq<Byte>>)
    requires |Concat(chunks)| <= limits.total
    ensures var segments := Segments(Concat(chunks));
      var good := Leading(limits.line, segments);
      Pumped(text, limits, chunks, None) ==
        LinesOf(text, good) + (if good == segments then [] else [Failed(LineExceeded(limits.line))]) + [Eof]
    ensures forall item | item in LinesOf(text, Leading(limits.line, Segments(Concat(chunks)))) ::
      item.Line? && item.text != ""
  {
    LinesAreLines(text, Leading(limits.line, Segments(Concat(chunks))));
    assert chunks[..|chunks|] == chunks;
    FittingIs(chunks, limits.total, |chunks|);
    DeliveredIsLeading(text, limits.line, Segments(Concat(chunks)));
  }

  // The lines that count when reading ends early: the unfinished one never does.
  function Salvaged(limit: nat, segments: seq<seq<Byte>>): seq<seq<Byte>>
    requires segments != []
  {
    if Short(segments, limit) then segments[..|segments| - 1] else Leading(limit, segments)
  }

  // Why reading ended early.
  function Cause(limits: Limits, chunks: seq<seq<Byte>>, ending: Ending): Problem
    requires Fitting(chunks, limits.total) < |chunks| || ending.Some?
  {
    var n := Fitting(chunks, limits.total);
    if !Short(Segments(Concat(chunks[..n])), limits.line) then LineExceeded(limits.line)
    else if n < |chunks| then TotalExceeded(limits.total)
    else ReadFailed(ending.value)
  }

  lemma CutShort(text: Decoder, limits: Limits, chunks: seq<seq<Byte>>, ending: Ending)
    requires Fitting(chunks, limits.total) < |chunks| || ending.Some?
    ensures var segments := Segments(Concat(chunks[..Fitting(chunks, limits.total)]));
      Pumped(text, limits, chunks, ending) ==
        LinesOf(text, Salvaged(limits.line, segments)) + [Failed(Cause(limits, chunks, ending))] + [Eof]
  {
    hide Concat, Segments, Delivered, LinesOf, Fitting, Leading, Short;
    var segments := Segments(Concat(chunks[..Fitting(chunks, limits.total)]));
    if !Short(segments, limits.line) {
      DeliveredIsLeading(text, limits.line, segments);
      assert Leading(limits.line, segments) != segments;
    }
  }

  lemma NotFitting(chunks: seq<seq<Byte>>, total: nat)
    requires |Concat(chunks)| > total
    ensures Fitting(chunks, total) < |chunks|
  {
    assert chunks[..|chunks|] == chunks;
  }

  /** Over the total limit, or with the pipe torn down, the queue holds a prefix of
      those lines, then one error, then eof. */
  lemma CutShortIsAPrefix(text: Decoder, limits: Limits, chunks: seq<seq<Byte>>, ending: Ending)
    returns (lines: seq<Item>, problem: Problem)
    requires |Concat(chunks)| > limits.total || ending.Some?
    ensures lines <= LinesOf(text, Leading(limits.line, Segments(Concat(chunks))))
    ensures Pumped(text, limits, chunks, ending) == lines + [Failed(problem)] + [Eof]
    ensures forall item | item in lines :: item.Line? && item.text != ""
  {
    if |Concat(chunks)| > limits.total {
      NotFitting(chunks, limits.total);
    }
    CutShort(text, limits, chunks, ending);
    var n := Fitting(chunks, limits.total);
    assert chunks[..|chunks|] == chunks;
    ConcatGrows(chunks, n, |chunks|);
    hide Concat, Segments, Delivered, LinesOf, Fitting, Leading, Salvaged, Cause, Pumped;
    var read, stream := Concat(chunks[..n]), Concat(chunks);
    var good := Salvaged(limits.line, Segments(read));
    lines, problem := LinesOf(text, good), Cause(limits, chunks, ending);
    SalvagedIsLeading(limits.line, read, stream);
    LinesGrow(text, good, Leading(limits.line, Segments(stream)));
    LinesAreLines(text, good);
  }

  lemma SalvagedIsLeading(limit: nat, read: seq<Byte>, stream: seq<Byte>)
    requires read <= stream
    ensures Salvaged(limit, Segments(read)) <= Leading(limit, Segments(stream))
  {
    var segments := Segments(read);
    assert stream == read + stream[|read|..];
    hide Segments;
    LeadingIsLeading(limit, read, stream[|read|..], Salvaged(limit, segments));
  }

  lemma LeadingIsLeading(limit: nat, read: seq<Byte>, rest: seq<Byte>, good: seq<seq<Byte>>)
    requires good <= Segments(read)[..|Segments(read)| - 1] && Short(good, limit)
    ensures good <= Leading(limit, Segments(read + rest))
  {
    SegmentsJoin(read, rest);
    LeadingHolds(limit, good, Segments(read + rest));
  }
}
