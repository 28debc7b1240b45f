/**
 The digest that names a snapshot, and the digest that the engine unpacked from it
 computes of itself (bin/build_verifier.py and arena/integrity.py).
 */
module SnapshotDigest {
  import opened Wrappers
  import opened JsonValues
  import opened Utf8
  import opened Canonical
  import opened CanonicalInverse
  import opened SourcePaths
  import opened DirectoryWalk
  import opened WalkOrder
  import opened SourceCustody

  // -- unpacking --------------------------------------------------------------------

  function Put<T>(d: Dir<T>, p: Path, x: T): Dir<T>
    decreases |p|
  {
    if |p| == 1 then d.(files := d.files[p[0] := x])
    else
      var child := if p[0] in d.dirs then d.dirs[p[0]] else Dir(map[], map[]);
      d.(dirs := d.dirs[p[0] := Put(child, p[1..], x)])
  }

  lemma {:induction false} PutHolds<T>(d: Dir<T>, p: Path, x: T, q: Path)
    ensures Lookup(Put(d, p, x), q) == if q == p then Some(x) else Lookup(d, q)
    decreases |p|
  {
    if |p| > 1 && |q| > 1 {
      assert p == [p[0]] + p[1..] && q == [q[0]] + q[1..];
      var child := if p[0] in d.dirs then d.dirs[p[0]] else Dir(map[], map[]);
      PutHolds(child, p[1..], x, q[1..]);
    } else if |p| == 1 && |q| == 1 {
      assert p == [p[0]] && q == [q[0]];
    }
  }

  // _unpack: the package directory once every file is written.
  function Unpacked(files: seq<Unpacking>): Dir<seq<Byte>> {
    if files == [] then Dir(map[], map[])
    else
      var last := files[|files| - 1];
      Put(Unpacked(files[..|files| - 1]), last.parts, last.raw)
  }

  lemma {:induction false} UnpackedHolds(sources: seq<Source>, q: Path)
    requires forall s | s in sources :: Sound(s)
    ensures Lookup(Unpacked(Unpackings(sources)), q) ==
      match Named(RelsOf(sources), q)
      case None => None
      case Some(r) => Some(Contents(sources)[r])
  {
    hide Sound, Named, RelsOf, RawOf;
    if sources == [] {
      NothingThere(q);
    } else {
      var front, last := sources[..|sources| - 1], sources[|sources| - 1];
      assert last in sources && sources == front + [last];
      UnpackedHolds(front, q);
      var before := Unpacked(Unpackings(front));
      assert Unpackings(sources)[..|Unpackings(front)|] == Unpackings(front);
      PutHolds(before, Parts(last.rel), RawOf(last), q);
      RelsOfGrows(front, last);
      NamedAfter(RelsOf(front), last.rel, q);
      hide Lookup, Put;
      NamedIsIn(RelsOf(front), q);
      NamedHere(q, last.rel, RelsOf(front));
    }
  }

  lemma NothingThere(q: Path)
    ensures Named(RelsOf([]), q) == None && Lookup(Unpacked([]), q) == None
  {
  }

  lemma NamedIsIn(rels: seq<string>, q: Path)
    ensures Named(rels, q).Some? ==> Named(rels, q).value in rels
  {
  }

  // A name at another place is another name.
  lemma NamedHere(q: Path, rel: string, rels: seq<string>)
    ensures q != Parts(rel) && Named(rels, q).Some? ==> Named(rels, q).value != rel
  {
    if SlashFree(q) {
      PartsOfJoin(q);
    }
  }

  // -- the two digests ----------------------------------------------------------------

  function Pair(sha: Sha, f: File): Json {
    List([Str(f.rel), Str(sha(f.raw))])
  }

  function PairsJson(sha: Sha, files: seq<File>): Json {
    List(seq(|files|, i requires 0 <= i < |files| => Pair(sha, files[i])))
  }

  // digest_for, and engine_digest of the same list
  function DigestFor(sha: Sha, files: seq<File>): Result<string, EncodeError> {
    Digest(sha, PairsJson(sha, files))
  }

  // What engine_files lists of a package directory.
  function OwnSources(d: Dir<seq<Byte>>): (r: seq<File>)
    ensures |r| == |Walk(Pruned(d))|
    ensures forall i | 0 <= i < |r| :: r[i] == File(Join(Walk(Pruned(d))[i].path), Walk(Pruned(d))[i].item)
  {
    var listing := Walk(Pruned(d));
    seq(|listing|, i requires 0 <= i < |listing| => File(Join(listing[i].path), listing[i].item))
  }

  lemma PairsEncodable(sha: Sha, files: seq<File>)
    ensures Encodable(PairsJson(sha, files))
  {
    forall x | x in PairsJson(sha, files).items ensures Checked(x) && Textual(x) {
      var i :| 0 <= i < |files| && x == Pair(sha, files[i]);
    }
  }

  lemma UnpackedIsUnpacked(sources: seq<Source>)
    requires forall s | s in sources :: Sound(s)
    ensures HoldsExactly(RelsOf(sources), Unpacked(Unpackings(sources)))
  {
    hide Sound, Lookup, Unpacked, Named;
    forall q: Path ensures Lookup(Unpacked(Unpackings(sources)), q).Some? <==> Named(RelsOf(sources), q).Some? {
      UnpackedHolds(sources, q);
    }
  }

  // Each file the engine lists of itself has the bytes of the source with its name.
  lemma OwnSourceBytes(sources: seq<Source>, i: nat)
    requires (forall s | s in sources :: Sound(s)) && i < |OwnSources(Unpacked(Unpackings(sources)))|
    ensures var f := OwnSources(Unpacked(Unpackings(sources)))[i];
      f.rel in RelsOf(sources) && f.raw == Contents(sources)[f.rel]
  {
    hide Sound, Unpacked, Contents, RelsOf, Walk, Pruned, Lookup;
    var d := Unpacked(Unpackings(sources));
    var l := Walk(Pruned(d))[i];
    assert l in Walk(Pruned(d)) && l == Listed(l.path, l.item);
    WalkLists(Pruned(d), l.path, l.item);
    PrunedHolds(d, l.path);
    UnpackedHolds(sources, l.path);
  }

  /** The engine unpacked from an accepted source map lists itself exactly as the map's
      digest does, if and only if no source lies in a directory its walk skips. */
  lemma UnpackedListsItself(sources: seq<Source>)
    requires SourceMap(sources).Some?
    ensures OwnSources(Unpacked(Unpackings(sources))) == SourceMap(sources).value
      <==> forall r | r in RelsOf(sources) :: Visited(Parts(r))
  {
    hide Sound, Unpacked, Contents, RelsOf, Walk, Pruned, Ordered, HoldsExactly, Visited, REQUIRED;
    var d, rels := Unpacked(Unpackings(sources)), RelsOf(sources);
    var files, own := SourceMap(sources).value, OwnSources(d);
    UnpackedIsUnpacked(sources);
    OrderIsEngineWalk(rels, d);
    var texts, order := Texts(Walk(Pruned(d))), Ordered(rels).value;
    assert |own| == |texts| && forall i | 0 <= i < |own| :: own[i].rel == texts[i];
    assert |files| == |order| && forall i | 0 <= i < |files| :: files[i].rel == order[i];
    if own == files {
      assert texts == order;
    }
    if texts == order {
      forall i | 0 <= i < |own| ensures own[i] == files[i] {
        OwnSourceBytes(sources, i);
      }
    }
  }

  lemma PairsTellNames(sha: Sha, a: seq<File>, b: seq<File>)
    requires PairsJson(sha, a) == PairsJson(sha, b)
    ensures |a| == |b| && forall i | 0 <= i < |a| :: a[i].rel == b[i].rel
  {
    forall i | 0 <= i < |a| && |a| == |b| ensures a[i].rel == b[i].rel {
      assert PairsJson(sha, a).items[i] == Pair(sha, a[i]);
      assert PairsJson(sha, b).items[i] == Pair(sha, b[i]);
    }
  }

  /** The digest that names a snapshot is the one its unpacked engine computes of itself,
      exactly when no source lies in a skipped directory; otherwise equal digests would
      exhibit a collision of the hash. */
  lemma SnapshotDigestIsEngineDigest(sha: Sha, sources: seq<Source>)
    requires SourceMap(sources).Some?
    ensures var own, files := OwnSources(Unpacked(Unpackings(sources))), SourceMap(sources).value;
      && Encodable(PairsJson(sha, own)) && Encodable(PairsJson(sha, files))
      && ((forall r | r in RelsOf(sources) :: Visited(Parts(r))) ==> DigestFor(sha, own) == DigestFor(sha, files))
      && (DigestFor(sha, own) == DigestFor(sha, files) ==>
            || (forall r | r in RelsOf(sources) :: Visited(Parts(r)))
            || Collision(sha, Utf8.Encode(Text(PairsJson(sha, own))), Utf8.Encode(Text(PairsJson(sha, files)))))
  {
    hide Unpacked, Unpackings, Sound, Ordered, FilesIn, Contents, RelsOf, Visited, PairsJson, Digest, Text,
         Utf8.Encode, OwnSources;
    var own, files := OwnSources(Unpacked(Unpackings(sources))), SourceMap(sources).value;
    PairsEncodable(sha, own);
    PairsEncodable(sha, files);
    UnpackedListsItself(sources);
    if DigestFor(sha, own) == DigestFor(sha, files) {
      EqualDigestsMeanEqualValues(sha, PairsJson(sha, own), PairsJson(sha, files));
      if PairsJson(sha, own) == PairsJson(sha, files) {
        PairsTellNames(sha, own, files);
        SameNamesSameSources(sources);
      }
    }
  }

  // Listing the same names is listing the same files.
  lemma SameNamesSameSources(sources: seq<Source>)
    requires SourceMap(sources).Some?
    requires var own, files := OwnSources(Unpacked(Unpackings(sources))), SourceMap(sources).value;
      |own| == |files| && forall i | 0 <= i < |own| :: own[i].rel == files[i].rel
    ensures OwnSources(Unpacked(Unpackings(sources))) == SourceMap(sources).value
  {
    hide Sound, Unpacked, Contents, RelsOf, Walk, Pruned, Ordered, HoldsExactly, Visited, REQUIRED;
    var own, files := OwnSources(Unpacked(Unpackings(sources))), SourceMap(sources).value;
    forall i | 0 <= i < |own| ensures own[i] == files[i] {
      OwnSourceBytes(sources, i);
    }
  }
}
