/**
 The interface of a game module (arena/games/__init__.py) and what the referee and
 the verifier share about the engine they run in.
 */
module Games {
  import opened Wrappers
  import opened JsonValues
  import opened Canonical

  // The class name of a raised exception.
  type Fault = string

  datatype End = End(winner: Option<int>, reason: string)

  // A deterministic game. Every call may raise.
  datatype Game = Game(
    name: string,
    version: string,
    summary: string,
    setup: Json -> Result<Json, Fault>,
    observation: (Json, Json) -> Result<Json, Fault>,
    legal: (Json, Json) -> Result<(bool, string), Fault>,
    apply: (Json, Json) -> Result<Json, Fault>,
    terminal: Json -> Result<Option<End>, Fault>,
    moveBound: Json -> Result<int, Fault>)

  // What verify_passport returns, as far as the header check reads it.
  datatype Identity = Identity(agentId: string, harnessSha256: string, displayName: string, claimedModel: Json)

  // One engine build: its hash, its games, its own source digest, the validators it
  // imports, and Python's repr and str on values.
  datatype Engine = Engine(
    sha: Sha,
    games: map<string, Game>,
    digest: string,
    isolationValid: Json -> bool,
    passport: Json -> Option<Identity>,
    repr: Json -> string,
    str: Json -> string)

  // One record without its place in the chain.
  datatype Entry = Entry(kind: string, body: Body)

  // Bodies of the entries of one kind, in order.
  function Bodies(entries: seq<Entry>, kind: string): seq<Body> {
    if entries == [] then []
    else
      var last := entries[|entries| - 1];
      Bodies(entries[..|entries| - 1], kind) + (if last.kind == kind then [last.body] else [])
  }

  lemma BodiesPush(entries: seq<Entry>, e: Entry, kind: string)
    ensures Bodies(entries + [e], kind) == Bodies(entries, kind) + (if e.kind == kind then [e.body] else [])
  {
    assert (entries + [e])[..|entries|] == entries;
  }

  lemma {:induction false} BodiesAppend(a: seq<Entry>, b: seq<Entry>, kind: string)
    ensures Bodies(a + b, kind) == Bodies(a, kind) + Bodies(b, kind)
  {
    if b == [] {
      assert a + b == a;
    } else {
      var n := |b| - 1;
      assert (a + b)[..|a| + n] == a + b[..n] && (a + b)[|a| + n] == b[n];
      BodiesAppend(a, b[..n], kind);
    }
  }

  lemma {:induction false} BodiesMembership(entries: seq<Entry>, kind: string)
    ensures forall b :: b in Bodies(entries, kind) <==> Entry(kind, b) in entries
    ensures |Bodies(entries, kind)| <= |entries|
  {
    if entries != [] {
      var front, last := entries[..|entries| - 1], entries[|entries| - 1];
      BodiesMembership(front, kind);
      assert entries == front + [last];
    }
  }

  // 1 - x for a recorded value x; booleans count as integers. A float cannot occur:
  // a body holding one has no place in a chain.
  function OneMinus(j: Json): Result<int, Fault> {
    match j
    case Int(n) => Ok(1 - n)
    case Bool(b) => Ok(if b then 0 else 1)
    case _ => Err("TypeError")
  }

  // n == j in Python, for an int n and a value that is not a float.
  predicate EqualsInt(n: int, j: Json) {
    j == Int(n) || (j.Bool? && n == if j.b then 1 else 0)
  }
}
