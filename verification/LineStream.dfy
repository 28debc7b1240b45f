/**
 The stream an entrant writes, read as lines: what the byte pump is meant to deliver,
 said without chunks, buffers or cursors.
 */
module LineStream {
  import opened Utf8

  const NEWLINE: Byte := 10

  // The stretches between newlines; the last one is the unfinished line.
  function Segments(b: seq<Byte>): (r: seq<seq<Byte>>)
    ensures |r| >= 1
  {
    if b == [] then [[]]
    else
      var later := Segments(b[1..]);
      if b[0] == NEWLINE then [[]] + later else [[b[0]] + later[0]] + later[1..]
  }

  function Concat(chunks: seq<seq<Byte>>): seq<Byte> {
    if chunks == [] then [] else Concat(chunks[..|chunks| - 1]) + chunks[|chunks| - 1]
  }

  // The last segment of one stream runs on into the first of the next.
  function Joined(x: seq<seq<Byte>>, y: seq<seq<Byte>>): seq<seq<Byte>>
    requires |x| >= 1 && |y| >= 1
  {
    x[..|x| - 1] + [x[|x| - 1] + y[0]] + y[1..]
  }

  /** Cutting a stream anywhere and reading the two parts gives the same lines, but for
      the one that the cut falls in. */
  lemma {:induction false} SegmentsJoin(a: seq<Byte>, b: seq<Byte>)
    ensures Segments(a + b) == Joined(Segments(a), Segments(b))
  {
    hide Segments, Joined;
    if a == [] {
      assert a + b == b;
      JoinedToNothing(Segments(b));
    } else {
      SegmentsJoin(a[1..], b);
      assert (a + b)[0] == a[0] && (a + b)[1..] == a[1..] + b;
      SegmentsFromFront(a);
      SegmentsFromFront(a + b);
      JoinedPrepends(a[0], Segments(a[1..]), Segments(b));
    }
  }

  lemma JoinedToNothing(y: seq<seq<Byte>>)
    requires |y| >= 1
    ensures Segments([]) == [[]] && Joined([[]], y) == y
  {
    assert [] + y[0] == y[0];
  }

  lemma SegmentsFromFront(b: seq<Byte>)
    requires b != []
    ensures var later := Segments(b[1..]);
      Segments(b) == if b[0] == NEWLINE then [[]] + later else [[b[0]] + later[0]] + later[1..]
  {
  }

  lemma JoinedPrepends(b: Byte, x: seq<seq<Byte>>, y: seq<seq<Byte>>)
    requires |x| >= 1 && |y| >= 1
    ensures [[]] + Joined(x, y) == Joined([[]] + x, y)
    ensures [[b] + Joined(x, y)[0]] + Joined(x, y)[1..] == Joined([[b] + x[0]] + x[1..], y)
  {
    assert ([[]] + x)[..|x|] == [[]] + x[..|x| - 1];
    if |x| == 1 {
      assert [b] + (x[0] + y[0]) == ([b] + x[0]) + y[0];
    }
  }

  lemma {:induction false} SegmentsOfPlain(b: seq<Byte>)
    requires NEWLINE !in b
    ensures Segments(b) == [b]
  {
    if b != [] {
      assert b == [b[0]] + b[1..] && b[0] in b;
      SegmentsOfPlain(b[1..]);
    }
  }

  lemma SegmentsOfNewline()
    ensures Segments([NEWLINE]) == [[], []]
  {
    assert Segments([NEWLINE][1..]) == [[]];
  }

  // More of the line being read.
  lemma ExtendLine(done: seq<Byte>, complete: seq<seq<Byte>>, pending: seq<Byte>, part: seq<Byte>)
    requires Segments(done) == complete + [pending] && NEWLINE !in part
    ensures Segments(done + part) == complete + [pending + part]
  {
    SegmentsJoin(done, part);
    SegmentsOfPlain(part);
  }

  // The end of the line being read.
  lemma FinishLine(done: seq<Byte>, complete: seq<seq<Byte>>, pending: seq<Byte>)
    requires Segments(done) == complete + [pending]
    ensures Segments(done + [NEWLINE]) == (complete + [pending]) + [[]]
  {
    SegmentsJoin(done, [NEWLINE]);
    SegmentsOfNewline();
    assert pending + [] == pending;
  }

  // -- what is delivered --------------------------------------------------

  datatype Problem = TotalExceeded(limit: nat) | LineExceeded(limit: nat) | ReadFailed(name: string)

  datatype Item = Line(text: string) | Failed(problem: Problem) | Eof

  // bytes(raw).decode("utf-8", errors="replace").strip(): an empty line has no text.
  type Decoder = f: seq<Byte> -> string | f([]) == "" witness (b: seq<Byte>) => ""

  function Emitted(text: Decoder, segment: seq<Byte>): seq<Item> {
    if text(segment) == "" then [] else [Line(text(segment))]
  }

  predicate Short(segments: seq<seq<Byte>>, limit: nat) {
    forall s | s in segments :: |s| <= limit
  }

  // The non-blank lines.
  function LinesOf(text: Decoder, segments: seq<seq<Byte>>): seq<Item> {
    if segments == [] then []
    else LinesOf(text, segments[..|segments| - 1]) + Emitted(text, segments[|segments| - 1])
  }

  // The non-blank lines up to the first one too long, which is an error and the end.
  function Delivered(text: Decoder, limit: nat, segments: seq<seq<Byte>>): seq<Item> {
    if segments == [] then []
    else if |segments[0]| > limit then [Failed(LineExceeded(limit))]
    else Emitted(text, segments[0]) + Delivered(text, limit, segments[1..])
  }

  lemma {:induction false} LinesFromFront(text: Decoder, segments: seq<seq<Byte>>)
    requires segments != []
    ensures LinesOf(text, segments) == Emitted(text, segments[0]) + LinesOf(text, segments[1..])
  {
    var n := |segments| - 1;
    if n > 0 {
      LinesFromFront(text, segments[..n]);
      assert segments[..n][1..] == segments[1..][..n - 1];
    }
  }

  lemma {:induction false} ShortIsDelivered(text: Decoder, limit: nat, segments: seq<seq<Byte>>)
    requires Short(segments, limit)
    ensures Delivered(text, limit, segments) == LinesOf(text, segments)
  {
    if segments != [] {
      LinesFromFront(text, segments);
      ShortIsDelivered(text, limit, segments[1..]);
    }
  }

  lemma {:induction false} DeliveredStops(text: Decoder, limit: nat, complete: seq<seq<Byte>>, long: seq<Byte>,
                                          more: seq<seq<Byte>>)
    requires Short(complete, limit) && |long| > limit
    ensures Delivered(text, limit, complete + [long] + more) == LinesOf(text, complete) + [Failed(LineExceeded(limit))]
  {
    var all := complete + [long] + more;
    if complete == [] {
      assert all[0] == long;
    } else {
      assert all[0] == complete[0] && all[1..] == complete[1..] + [long] + more;
      DeliveredStops(text, limit, complete[1..], long, more);
      LinesFromFront(text, complete);
    }
  }

  // Delivery from a line that is already too long does not depend on what follows.
  lemma OverlongEnds(text: Decoder, limit: nat, done: seq<Byte>, rest: seq<Byte>, complete: seq<seq<Byte>>,
                     long: seq<Byte>)
    requires Segments(done) == complete + [long] && Short(complete, limit) && |long| > limit
    ensures Delivered(text, limit, Segments(done + rest)) == LinesOf(text, complete) + [Failed(LineExceeded(limit))]
  {
    SegmentsJoin(done, rest);
    var later := Segments(rest);
    DeliveredStops(text, limit, complete, long + later[0], later[1..]);
  }

  // The lines before the first one too long.
  function Leading(limit: nat, segments: seq<seq<Byte>>): (r: seq<seq<Byte>>)
    ensures r <= segments && Short(r, limit)
    ensures |r| < |segments| ==> |segments[|r|]| > limit
  {
    if segments == [] || |segments[0]| > limit then []
    else
      var r := [segments[0]] + Leading(limit, segments[1..]);
      r
  }

  lemma DeliveredIsLeading(text: Decoder, limit: nat, segments: seq<seq<Byte>>)
    ensures var r := Leading(limit, segments);
      Delivered(text, limit, segments) ==
        LinesOf(text, r) + (if r == segments then [] else [Failed(LineExceeded(limit))])
  {
    var r := Leading(limit, segments);
    if r == segments {
      ShortIsDelivered(text, limit, segments);
    } else {
      assert segments == r + [segments[|r|]] + segments[|r| + 1..];
      DeliveredStops(text, limit, r, segments[|r|], segments[|r| + 1..]);
    }
  }

  lemma {:induction false} LinesGrow(text: Decoder, a: seq<seq<Byte>>, b: seq<seq<Byte>>)
    requires a <= b
    ensures LinesOf(text, a) <= LinesOf(text, b)
  {
    if a != b {
      LinesGrow(text, a, b[..|b| - 1]);
    } else {
    }
  }

  lemma LeadingHolds(limit: nat, short: seq<seq<Byte>>, segments: seq<seq<Byte>>)
    requires short <= segments && Short(short, limit)
    ensures short <= Leading(limit, segments)
  {
    var r := Leading(limit, segments);
    assert forall i | 0 <= i < |short| :: |short[i]| <= limit;
  }

  lemma {:induction false} LinesAreLines(text: Decoder, segments: seq<seq<Byte>>)
    ensures forall item | item in LinesOf(text, segments) :: item.Line? && item.text != ""
  {
    if segments != [] {
      LinesAreLines(text, segments[..|segments| - 1]);
    }
  }
}
