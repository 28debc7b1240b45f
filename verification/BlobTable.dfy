/**
 bin/build_verifier.py, render_source_sets: every embedded source is written once, under
 the hash of its encoding, and read back through that table.
 */
module BlobTable {
  import opened Wrappers
  import opened Utf8
  import opened Canonical

  const LINE_WIDTH := 88

  function BlobId(sha: Sha, b64: string): string {
    sha(Utf8.Encode(b64))
  }

  ghost predicate NoClash(sha: Sha, values: seq<string>) {
    forall v, w | v in values && w in values && v != w :: BlobId(sha, v) != BlobId(sha, w)
  }

  // The table holds each value under its identifier, and nothing else.
  ghost predicate Tabulates(sha: Sha, values: seq<string>, blobs: map<string, string>) {
    && (forall v | v in values :: BlobId(sha, v) in blobs && blobs[BlobId(sha, v)] == v)
    && (forall id | id in blobs :: blobs[id] in values && BlobId(sha, blobs[id]) == id)
  }

  /** The table of all sources of all sets, or the clash that stops the build. A clash is a
      collision of the hash: two encodings with one identifier. */
  method GatherBlobs(sha: Sha, values: seq<string>) returns (r: Result<map<string, string>, (string, string)>)
    ensures r.Ok? <==> NoClash(sha, values)
    ensures r.Ok? ==> Tabulates(sha, values, r.value)
    ensures r.Err? ==> r.error.0 in values && r.error.1 in values
                       && Collision(sha, Utf8.Encode(r.error.0), Utf8.Encode(r.error.1))
  {
    hide Utf8.Encode;
    var blobs: map<string, string> := map[];
    for i := 0 to |values|
      invariant Tabulates(sha, values[..i], blobs)
    {
      var id := BlobId(sha, values[i]);
      var existing := if id in blobs then blobs[id] else values[i];
      if existing != values[i] {
        assert existing in values[..i];
        Differ(existing, values[i]);
        return Err((existing, values[i]));
      }
      blobs := blobs[id := values[i]];
      assert values[..i + 1] == values[..i] + [values[i]];
    }
    assert values[..|values|] == values;
    return Ok(blobs);
  }

  lemma Differ(v: string, w: string)
    requires v != w
    ensures Utf8.Encode(v) != Utf8.Encode(w)
  {
    if Utf8.Encode(v) == Utf8.Encode(w) {
      EncodeInjective(v, w);
    }
  }

  // The literals one blob is written as; an empty blob is one empty literal.
  function Chunks(b64: string): (r: seq<string>)
    ensures r != [] && forall c | c in r :: |c| <= LINE_WIDTH
  {
    if |b64| <= LINE_WIDTH then [b64] else [b64[..LINE_WIDTH]] + Chunks(b64[LINE_WIDTH..])
  }

  // Adjacent literals are one string.
  function Adjoined(chunks: seq<string>): string {
    if chunks == [] then "" else chunks[0] + Adjoined(chunks[1..])
  }

  /** A blob reads back as it was, however many lines it took. */
  lemma {:induction false} ChunksAdjoin(b64: string)
    ensures Adjoined(Chunks(b64)) == b64
  {
    if |b64| <= LINE_WIDTH {
      assert Adjoined([b64][1..]) == "";
    } else {
      ChunksAdjoin(b64[LINE_WIDTH..]);
      assert Chunks(b64)[1..] == Chunks(b64[LINE_WIDTH..]);
      assert b64 == b64[..LINE_WIDTH] + b64[LINE_WIDTH..];
    }
  }
}
