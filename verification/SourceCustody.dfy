/**
 bin/build_verifier.py: a source map as a snapshot stores it, read twice. The builder
 reads it with _decode_source_map; the generated verifier reads it again, with rules of
 its own, in _decode_sources.
 */
module SourceCustody {
  import opened Wrappers
  import opened JsonValues
  import opened Utf8
  import opened SourcePaths
  import opened SourceTrie
  import opened WalkOrder
  import Base64

  const MAX_SOURCE_FILES := 256
  const MAX_SOURCE_BYTES := 2097152
  const MAX_SOURCE_SET_BYTES := 16777216
  const REQUIRED: set<string> := {"__init__.py", "canonical.py", "integrity.py", "replay.py"}

  // An item of the dict: a path and what should be its encoded bytes.
  datatype Source = Source(rel: string, value: Json)

  function RelsOf(sources: seq<Source>): (r: seq<string>)
    ensures |r| == |sources| && forall i | 0 <= i < |r| :: r[i] == sources[i].rel
  {
    seq(|sources|, i requires 0 <= i < |sources| => sources[i].rel)
  }

  // A dict: its items in order of insertion, no key twice.
  ghost predicate IsDict(sources: seq<Source>) {
    Distinct(RelsOf(sources))
  }

  // The bytes of one value: a bounded string in canonical base64.
  function Raw(value: Json): Option<seq<Byte>> {
    if !value.Str? || |value.s| > (MAX_SOURCE_BYTES + 2) / 3 * 4 then None
    else
      match Base64.Decode(value.s)
      case None => None
      case Some(raw) => if Base64.Encode(raw) == value.s && |raw| <= MAX_SOURCE_BYTES then Some(raw) else None
  }

  function Size(value: Json): nat {
    match Raw(value)
    case None => 0
    case Some(raw) => |raw|
  }

  function TotalSize(sources: seq<Source>): nat {
    if sources == [] then 0 else TotalSize(sources[..|sources| - 1]) + Size(sources[|sources| - 1].value)
  }

  lemma {:induction false} TotalGrows(sources: seq<Source>, n: nat)
    requires n <= |sources|
    ensures TotalSize(sources[..n]) <= TotalSize(sources)
  {
    hide Size;
    if n == |sources| {
      assert sources[..n] == sources;
    } else {
      var front := sources[..|sources| - 1];
      assert front[..n] == sources[..n];
      TotalGrows(front, n);
    }
  }

  predicate Sound(s: Source) {
    ValidPath(s.rel) && Raw(s.value).Some?
  }

  // What both readers ask, apart from collisions.
  predicate Bounded(sources: seq<Source>) {
    && 1 <= |sources| <= MAX_SOURCE_FILES
    && (forall s | s in sources :: Sound(s))
    && TotalSize(sources) <= MAX_SOURCE_SET_BYTES
    && (forall r | r in REQUIRED :: r in RelsOf(sources))
  }

  datatype File = File(rel: string, raw: seq<Byte>)

  function RawOf(s: Source): seq<Byte>
    requires Sound(s)
  {
    Raw(s.value).value
  }

  lemma RelsOfGrows(front: seq<Source>, last: Source)
    ensures RelsOf(front + [last]) == RelsOf(front) + [last.rel]
  {
  }

  function Contents(sources: seq<Source>): (m: map<string, seq<Byte>>)
    requires forall s | s in sources :: Sound(s)
    ensures forall r :: r in m <==> r in RelsOf(sources)
  {
    if sources == [] then map[]
    else
      hide Sound, RawOf, RelsOf;
      var front, last := sources[..|sources| - 1], sources[|sources| - 1];
      assert last in sources && sources == front + [last];
      RelsOfGrows(front, last);
      Contents(front)[last.rel := RawOf(last)]
  }

  function FilesIn(order: seq<string>, contents: map<string, seq<Byte>>): (r: seq<File>)
    requires forall rel | rel in order :: rel in contents
    ensures |r| == |order| && forall i | 0 <= i < |r| :: r[i] == File(order[i], contents[order[i]])
  {
    seq(|order|, i requires 0 <= i < |order| => assert order[i] in order; File(order[i], contents[order[i]]))
  }

  // The files of a source map in walk order; None is a SnapshotError.
  function SourceMap(sources: seq<Source>): Option<seq<File>> {
    if !Bounded(sources) then None
    else
      match Ordered(RelsOf(sources))
      case None => None
      case Some(order) => OrderedFacts(RelsOf(sources)); Some(FilesIn(order, Contents(sources)))
  }

  /** _decode_source_map */
  method DecodeSourceMap(sources: seq<Source>) returns (files: Option<seq<File>>)
    ensures files == SourceMap(sources)
  {
    hide ValidPath, Raw, Ordered, REQUIRED;
    if !(1 <= |sources| <= MAX_SOURCE_FILES) {
      return None;
    }
    var decoded: map<string, seq<Byte>> := map[];
    var total := 0;
    for i := 0 to |sources|
      invariant forall s | s in sources[..i] :: Sound(s)
      invariant total == TotalSize(sources[..i]) <= MAX_SOURCE_SET_BYTES
      invariant decoded == Contents(sources[..i])
    {
      var s := sources[i];
      assert s in sources;
      assert sources[..i + 1][..i] == sources[..i];
      if !ValidPath(s.rel) {
        return None;
      }
      var raw := Raw(s.value);
      if raw.None? {
        return None;
      }
      total := total + |raw.value|;
      if total > MAX_SOURCE_SET_BYTES {
        TotalGrows(sources, i + 1);
        return None;
      }
      decoded := decoded[s.rel := raw.value];
    }
    assert sources[..|sources|] == sources;
    if exists r | r in REQUIRED :: r !in decoded {
      return None;
    }
    var order := EngineWalkOrder(RelsOf(sources));
    if order.None? {
      return None;
    }
    OrderedFacts(RelsOf(sources));
    return Some(FilesIn(order.value, decoded));
  }

  // -- the generated reader -----------------------------------------------------------

  predicate FoldedIn(rels: seq<string>, f: string) {
    exists r | r in rels :: Fold(r) == f
  }

  // No two paths are one once case is folded.
  predicate FoldedApart(rels: seq<string>) {
    rels == [] ||
    var front, last := rels[..|rels| - 1], rels[|rels| - 1];
    FoldedApart(front) && !FoldedIn(front, Fold(last))
  }

  function FoldedPaths(rels: seq<string>): set<string> {
    set r | r in rels :: Fold(r)
  }

  // A folded path goes through a place that another folded path names.
  predicate PassesThrough(rel: string, folded: set<string>) {
    var parts := Parts(Fold(rel));
    exists k | 1 <= k < |parts| :: Join(parts[..k]) in folded
  }

  predicate Unpackable(sources: seq<Source>) {
    var rels := RelsOf(sources);
    Bounded(sources) && FoldedApart(rels) && forall r | r in rels :: !PassesThrough(r, FoldedPaths(rels))
  }

  datatype Unpacking = Unpacking(rel: string, parts: Path, raw: seq<Byte>)

  function Unpackings(sources: seq<Source>): seq<Unpacking>
    requires forall s | s in sources :: Sound(s)
  {
    if sources == [] then []
    else
      var last := sources[|sources| - 1];
      Unpackings(sources[..|sources| - 1]) + [Unpacking(last.rel, Parts(last.rel), RawOf(last))]
  }

  lemma {:induction false} FoldedClash(rels: seq<string>, n: nat)
    requires n < |rels| && FoldedIn(rels[..n], Fold(rels[n]))
    ensures !FoldedApart(rels)
  {
    hide FoldedIn, Fold;
    if n + 1 < |rels| {
      var front := rels[..|rels| - 1];
      assert front[..n] == rels[..n];
      FoldedClash(front, n);
    }
  }

  lemma FoldedNext(rels: seq<string>, i: nat)
    requires i < |rels|
    ensures FoldedPaths(rels[..i + 1]) == FoldedPaths(rels[..i]) + {Fold(rels[i])}
    ensures FoldedIn(rels[..i], Fold(rels[i])) <==> Fold(rels[i]) in FoldedPaths(rels[..i])
    ensures FoldedApart(rels[..i + 1]) <==> FoldedApart(rels[..i]) && Fold(rels[i]) !in FoldedPaths(rels[..i])
  {
    hide Fold;
    assert rels[..i + 1] == rels[..i] + [rels[i]];
    assert rels[..i + 1][..i] == rels[..i];
  }

  lemma NothingFolded()
    ensures FoldedPaths([]) == {} && FoldedApart([])
  {
  }

  // Reading up to the first source that is refused, or all of them.
  method ReadSources(sources: seq<Source>) returns (decoded: Option<seq<Unpacking>>)
    ensures decoded.Some? <==>
      && (forall s | s in sources :: Sound(s)) && TotalSize(sources) <= MAX_SOURCE_SET_BYTES
      && FoldedApart(RelsOf(sources))
    ensures decoded.Some? ==> decoded.value == Unpackings(sources)
  {
    hide ValidPath, Raw, Fold, FoldedPaths, FoldedApart, FoldedIn;
    var rels := RelsOf(sources);
    NothingFolded();
    var files: seq<Unpacking> := [];
    var seen: set<string> := {};
    var total := 0;
    for i := 0 to |sources|
      invariant forall s | s in sources[..i] :: Sound(s)
      invariant total == TotalSize(sources[..i]) <= MAX_SOURCE_SET_BYTES
      invariant files == Unpackings(sources[..i])
      invariant seen == FoldedPaths(rels[..i]) && FoldedApart(rels[..i])
    {
      var s := sources[i];
      assert s in sources;
      assert sources[..i + 1][..i] == sources[..i];
      FoldedNext(rels, i);
      if Fold(s.rel) in seen {
        FoldedClash(rels, i);
        return None;
      }
      if !ValidPath(s.rel) {
        return None;
      }
      seen := seen + {Fold(s.rel)};
      var raw := Raw(s.value);
      if raw.None? {
        return None;
      }
      total := total + |raw.value|;
      if total > MAX_SOURCE_SET_BYTES {
        TotalGrows(sources, i + 1);
        return None;
      }
      files := files + [Unpacking(s.rel, Parts(s.rel), raw.value)];
    }
    assert sources[..|sources|] == sources && rels[..|rels|] == rels;
    return Some(files);
  }

  /** _decode_sources: the files in dict order, or None for its ValueError. */
  method DecodeSources(sources: seq<Source>) returns (files: Option<seq<Unpacking>>)
    ensures files.Some? <==> Unpackable(sources)
    ensures files.Some? ==> files.value == Unpackings(sources)
  {
    hide Sound, REQUIRED, PassesThrough, Fold, FoldedApart, FoldedPaths, Unpackings, RelsOf, TotalSize;
    if !(1 <= |sources| <= MAX_SOURCE_FILES) {
      return None;
    }
    var decoded := ReadSources(sources);
    if decoded.None? {
      return None;
    }
    var rels := RelsOf(sources);
    if exists r | r in REQUIRED :: r !in rels {
      return None;
    }
    var folded := FoldedPaths(rels);
    for i := 0 to |rels|
      invariant forall j | 0 <= j < i :: !PassesThrough(rels[j], folded)
    {
      if PassesThrough(rels[i], folded) {
        assert rels[i] in rels;
        return None;
      }
    }
    return decoded;
  }

  // -- the two readers agree --------------------------------------------------------------

  // Neither folded path is the other one or leads through it.
  ghost predicate Apart(p: Path, q: Path) {
    !(FoldPath(p) <= FoldPath(q)) && !(FoldPath(q) <= FoldPath(p))
  }

  // Directories that fold alike are spelled alike.
  predicate SpelledAlike(p: Path, q: Path) {
    Fold(p[0]) == Fold(q[0]) && |p| > 1 && |q| > 1 ==> p[0] == q[0] && SpelledAlike(p[1..], q[1..])
  }

  lemma FoldPathTail(p: Path)
    ensures FoldPath(p)[0] == Fold(p[0])
    ensures |p| > 1 ==> FoldPath(p)[1..] == FoldPath(p[1..])
    ensures |FoldPath(p)| == |p|
  {
  }

  lemma PrefixSteps(a: seq<string>, b: seq<string>)
    requires a != [] && b != []
    ensures a <= b <==> a[0] == b[0] && a[1..] <= b[1..]
  {
    assert a == [a[0]] + a[1..] && b == [b[0]] + b[1..];
  }

  lemma {:induction false} CompatibleIffApart(p: Path, q: Path)
    ensures Compatible(p, q) <==> Apart(p, q) && SpelledAlike(p, q)
  {
    FoldPathTail(p);
    FoldPathTail(q);
    PrefixSteps(FoldPath(p), FoldPath(q));
    PrefixSteps(FoldPath(q), FoldPath(p));
    hide FoldPath, Fold;
    if |p| > 1 && |q| > 1 {
      CompatibleIffApart(p[1..], q[1..]);
    }
  }

  lemma FoldedParts(rel: string)
    ensures Fold(rel) == Join(FoldPath(Parts(rel)))
    ensures Parts(Fold(rel)) == FoldPath(Parts(rel))
  {
    JoinOfParts(rel);
    FoldOfJoin(Parts(rel));
    FoldPathSlashFree(Parts(rel));
    PartsOfJoin(FoldPath(Parts(rel)));
  }

  lemma FoldedSame(a: string, b: string)
    ensures Fold(a) == Fold(b) <==> FoldPath(Parts(a)) == FoldPath(Parts(b))
  {
    FoldedParts(a);
    FoldedParts(b);
  }

  predicate NamesPrefix(p: Path, k: nat, text: string) {
    1 <= k < |p| && Join(p[..k]) == text
  }

  lemma PrefixSlashFree(p: Path, k: nat)
    requires SlashFree(p) && 1 <= k < |p|
    ensures SlashFree(p[..k])
  {
    forall part | part in p[..k] ensures SLASH !in part {
      assert part in p;
    }
  }

  lemma PrefixByName(p: Path, q: Path)
    requires SlashFree(p) && SlashFree(q)
    ensures (exists k: nat :: NamesPrefix(p, k, Join(q))) <==> q < p
  {
    PartsOfJoin(q);
    if q < p {
      assert p[..|q|] == q;
      assert NamesPrefix(p, |q|, Join(q));
    }
    if exists k: nat :: NamesPrefix(p, k, Join(q)) {
      var k: nat :| NamesPrefix(p, k, Join(q));
      PrefixSlashFree(p, k);
      PartsOfJoin(p[..k]);
    }
  }

  // a goes through the place b names, both folded.
  lemma GoesThrough(a: string, b: string)
    ensures (exists k: nat :: NamesPrefix(Parts(Fold(a)), k, Fold(b))) <==> FoldPath(Parts(b)) < FoldPath(Parts(a))
  {
    FoldedParts(a);
    FoldedParts(b);
    FoldPathSlashFree(Parts(a));
    FoldPathSlashFree(Parts(b));
    hide Fold, FoldPath, NamesPrefix, SlashFree;
    PrefixByName(FoldPath(Parts(a)), FoldPath(Parts(b)));
  }

  lemma ThroughSomething(rel: string, rels: seq<string>) returns (b: string)
    requires PassesThrough(rel, FoldedPaths(rels))
    ensures b in rels && FoldPath(Parts(b)) < FoldPath(Parts(rel))
  {
    hide Fold, FoldPath, Parts;
    var parts := Parts(Fold(rel));
    var k: nat :| 1 <= k < |parts| && Join(parts[..k]) in FoldedPaths(rels);
    b :| b in rels && Fold(b) == Join(parts[..k]);
    GoesThrough(rel, b);
    assert NamesPrefix(Parts(Fold(rel)), k, Fold(b));
  }

  lemma ThroughThis(rel: string, rels: seq<string>, b: string)
    requires b in rels && FoldPath(Parts(b)) < FoldPath(Parts(rel))
    ensures PassesThrough(rel, FoldedPaths(rels))
  {
    hide Fold, FoldPath, Parts;
    GoesThrough(rel, b);
    var k: nat :| NamesPrefix(Parts(Fold(rel)), k, Fold(b));
    assert Join(Parts(Fold(rel))[..k]) in FoldedPaths(rels);
  }

  lemma PassesThroughOne(rel: string, rels: seq<string>)
    ensures PassesThrough(rel, FoldedPaths(rels)) <==>
      exists b | b in rels :: FoldPath(Parts(b)) < FoldPath(Parts(rel))
  {
    hide PassesThrough, FoldedPaths, FoldPath;
    if PassesThrough(rel, FoldedPaths(rels)) {
      var b := ThroughSomething(rel, rels);
    }
    if exists b | b in rels :: FoldPath(Parts(b)) < FoldPath(Parts(rel)) {
      var b :| b in rels && FoldPath(Parts(b)) < FoldPath(Parts(rel));
      ThroughThis(rel, rels, b);
    }
  }

  lemma {:induction false} FoldedApartPairs(rels: seq<string>)
    requires Distinct(rels)
    ensures FoldedApart(rels) <==> forall a, b | a in rels && b in rels && a != b :: Fold(a) != Fold(b)
  {
    hide Fold;
    if rels != [] {
      var front, last := rels[..|rels| - 1], rels[|rels| - 1];
      assert rels == front + [last];
      DistinctGrows(front, last);
      FoldedApartPairs(front);
      hide Distinct;
      assert forall r :: r in rels <==> r in front || r == last;
    }
  }

  // What the flat checks of the generated reader come to, pair by pair.
  ghost predicate AllApart(rels: seq<string>) {
    forall a, b | a in rels && b in rels && a != b :: Apart(Parts(a), Parts(b))
  }

  ghost predicate AllSpelledAlike(rels: seq<string>) {
    forall a, b | a in rels && b in rels && a != b :: SpelledAlike(Parts(a), Parts(b))
  }

  lemma FlatChecks(rels: seq<string>)
    requires Distinct(rels)
    ensures FoldedApart(rels) && (forall r | r in rels :: !PassesThrough(r, FoldedPaths(rels))) <==> AllApart(rels)
  {
    FoldedApartPairs(rels);
    forall a, b | a in rels && b in rels ensures (Fold(a) == Fold(b)) == (FoldPath(Parts(a)) == FoldPath(Parts(b))) {
      FoldedSame(a, b);
    }
    forall r | r in rels
      ensures PassesThrough(r, FoldedPaths(rels)) <==> exists b | b in rels :: FoldPath(Parts(b)) < FoldPath(Parts(r))
    {
      PassesThroughOne(r, rels);
    }
    hide Fold, FoldPath, Distinct, FoldedApart, PassesThrough, FoldedPaths;
  }

  lemma AllFit(rels: seq<string>)
    requires Distinct(rels) && forall r | r in rels :: ValidPath(r)
    ensures Harmonious(rels) <==> AllApart(rels) && AllSpelledAlike(rels)
  {
    hide ValidPath, Distinct, Apart, SpelledAlike;
    forall a, b | a in rels && b in rels
      ensures Fits(a, b) <==> Apart(Parts(a), Parts(b)) && SpelledAlike(Parts(a), Parts(b))
    {
      CompatibleIffApart(Parts(a), Parts(b));
    }
    hide Fits;
  }

  /** Whatever the builder accepts the generated verifier accepts. The builder asks one
      thing more, no less: that directories which fold alike be spelled alike. */
  lemma AcceptedIsUnpackable(sources: seq<Source>)
    requires IsDict(sources)
    ensures SourceMap(sources).Some? <==> Unpackable(sources) && AllSpelledAlike(RelsOf(sources))
  {
    hide ValidPath, AllApart, AllSpelledAlike, Ordered, FilesIn, Contents, PassesThrough, FoldedApart, Harmonious,
         Distinct, Bounded;
    var rels := RelsOf(sources);
    if Bounded(sources) {
      BoundedPathsAreValid(sources);
      AllFit(rels);
      FlatChecks(rels);
      OrderedIsPermutation(rels);
    }
  }

  lemma BoundedPathsAreValid(sources: seq<Source>)
    requires Bounded(sources)
    ensures forall r | r in RelsOf(sources) :: ValidPath(r)
  {
    hide ValidPath;
    forall r | r in RelsOf(sources) ensures ValidPath(r) {
      var i :| 0 <= i < |sources| && RelsOf(sources)[i] == r;
      assert Sound(sources[i]);
    }
  }

  /** Where the sources that the generated reader accepts are unpacked: below the package
      root, at places that stay distinct when case is folded, none of them inside another. */
  lemma UnpacksApart(sources: seq<Source>, root: seq<string>, a: string, b: string)
    requires IsDict(sources) && Unpackable(sources)
    requires a in RelsOf(sources) && b in RelsOf(sources)
    ensures Resolved(root, Parts(a)) == root + Parts(a)
    ensures a != b ==> Apart(Parts(a), Parts(b))
  {
    hide SpelledAlike, AllSpelledAlike, PassesThrough, FoldedApart, Distinct, PartAllowed, Apart, FilesIn, Contents,
         Ordered;
    BoundedPathsAreValid(sources);
    ValidStaysInside(root, Parts(a));
    FlatChecks(RelsOf(sources));
  }
}
