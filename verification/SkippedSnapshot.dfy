/**
 A source map that both readers accept and whose unpacked engine does not list itself as
 the map does: one source lies below .git.
 */
module SkippedSnapshot {
  import opened Wrappers
  import opened JsonValues
  import opened SourcePaths
  import opened DirectoryWalk
  import opened WalkOrder
  import opened SourceCustody
  import opened SnapshotDigest

  const HIDDEN := ".git/a.py"
  const RELS: seq<string> := ["__init__.py", "canonical.py", "integrity.py", "replay.py", HIDDEN]

  // The map: every file empty.
  function EmptySources(rels: seq<string>): (r: seq<Source>)
    ensures |r| == |rels| && forall i | 0 <= i < |r| :: r[i] == Source(rels[i], Str(""))
  {
    seq(|rels|, i requires 0 <= i < |rels| => Source(rels[i], Str("")))
  }

  // -- the paths are valid -------------------------------------------------------------

  lemma DeviceStarts()
    ensures forall s | s in DEVICE_STEMS :: |s| >= 3
    ensures forall s | s in DEVICE_STEMS :: [s[0], s[1]] in {['C', 'O'], ['P', 'R'], ['A', 'U'], ['N', 'U'], ['L', 'P']}
  {
  }

  lemma StemStarts(part: string)
    requires part != "" && part[0] != '.'
    ensures Stem(part) != "" && Stem(part)[0] == Upper(part[0])
    ensures |part| > 1 && part[1] != '.' ==> |Stem(part)| > 1 && Stem(part)[1] == Upper(part[1])
    ensures |part| > 1 && part[1] == '.' ==> |Stem(part)| == 1
  {
    if |part| > 1 {
      assert Stem(part) == [Upper(part[0])] + Stem(part[1..]);
    }
  }

  // No device is named like this.
  predicate HarmlessStart(part: string) {
    |part| >= 4 && part[0] != '.' &&
    (part[1] == '.' ||
     [Upper(part[0]), Upper(part[1])] !in {['C', 'O'], ['P', 'R'], ['A', 'U'], ['N', 'U'], ['L', 'P']})
  }

  lemma PythonPartAllowed(part: string)
    requires HarmlessStart(part) && |part| <= MAX_PART_BYTES && EndsWithPy(part)
    ensures PartAllowed(part)
  {
    DeviceStarts();
    StemStarts(part);
    assert part[|part| - 1] == part[|part| - 3..][2];
    hide DEVICE_STEMS, Stem, Upper;
    if part[1] != '.' {
      assert [Stem(part)[0], Stem(part)[1]] == [Upper(part[0]), Upper(part[1])];
    }
  }

  lemma FlatIsValid(rel: string)
    requires HarmlessStart(rel) && |rel| <= MAX_PART_BYTES && EndsWithPy(rel)
    requires forall c | c in rel :: PathChar(c) && c != SLASH
    ensures ValidPath(rel) && Parts(rel) == [rel]
  {
    PythonPartAllowed(rel);
    assert rel[0] != SLASH by {
      assert rel[0] in rel;
    }
    hide PartAllowed, Parts, HarmlessStart, EndsWithPy, PathChar;
    SplitFirst(rel, "");
  }

  // A Python file in one directory.
  lemma NestedIsValid(dir: string, name: string)
    requires PartAllowed(dir) && SLASH !in dir && |dir| + |name| < MAX_PART_BYTES
    requires HarmlessStart(name) && EndsWithPy(name) && SLASH !in name
    requires forall c | c in dir + name :: PathChar(c)
    ensures ValidPath(dir + "/" + name) && Parts(dir + "/" + name) == [dir, name]
  {
    PythonPartAllowed(name);
    SplitFirst(dir, name);
    SplitFirst(name, "");
    assert [dir] + [name] == [dir, name];
    var rel := dir + "/" + name;
    assert rel[0] == dir[0] && dir[0] in dir;
    forall c | c in rel ensures PathChar(c) {
      assert c in dir + name || c == '/';
    }
    hide PartAllowed, Parts, PathChar;
  }

  lemma GitIsAllowed()
    ensures PartAllowed(".git") && SLASH !in ".git"
  {
    DeviceStarts();
    assert Stem(".git") == "";
    hide DEVICE_STEMS;
  }

  lemma HiddenIsValid()
    ensures ValidPath(HIDDEN) && Parts(HIDDEN) == [".git", "a.py"]
    ensures !Visited(Parts(HIDDEN))
  {
    GitIsAllowed();
    assert HIDDEN == ".git" + "/" + "a.py";
    assert EndsWithPy("a.py");
    hide PartAllowed, ValidPath, Parts;
    NestedIsValid(".git", "a.py");
  }

  // -- they stand side by side ------------------------------------------------------------

  lemma HeadsDiffer(a: string, b: string)
    requires Parts(a)[0] != "" && Parts(b)[0] != ""
    requires FoldChar(Parts(a)[0][0]) != FoldChar(Parts(b)[0][0])
    ensures Fits(a, b)
  {
    assert Fold(Parts(a)[0])[0] != Fold(Parts(b)[0])[0];
  }

  // The first character of a path, folded.
  function Head(rel: string): char {
    if Parts(rel)[0] == "" then SLASH else FoldChar(Parts(rel)[0][0])
  }

  // A valid path that starts with c, folded.
  predicate Starts(rel: string, c: char) {
    ValidPath(rel) && Parts(rel)[0] != "" && Head(rel) == c
  }

  lemma {:induction false} HeadsKeepApart(rels: seq<string>, heads: seq<char>)
    requires |rels| == |heads| && forall i | 0 <= i < |rels| :: Starts(rels[i], heads[i])
    requires forall i, j | 0 <= i < j < |heads| :: heads[i] != heads[j]
    ensures Harmonious(rels)
  {
    hide ValidPath;
    if rels != [] {
      var n := |rels| - 1;
      var front, rel := rels[..n], rels[n];
      HeadsKeepApart(front, heads[..n]);
      forall a | a in front ensures Fits(rel, a) {
        var i :| 0 <= i < n && front[i] == a;
        assert Starts(rels[i], heads[i]);
        HeadsDiffer(rel, a);
      }
      HarmonyGrows(front, rel);
      assert rels == front + [rel];
    }
  }

  lemma InitStarts()
    ensures Starts("__init__.py", '_')
  {
    hide ValidPath, Parts;
    FlatIsValid("__init__.py");
  }

  lemma CanonicalStarts()
    ensures Starts("canonical.py", 'c')
  {
    hide ValidPath, Parts;
    FlatIsValid("canonical.py");
  }

  lemma IntegrityStarts()
    ensures Starts("integrity.py", 'i')
  {
    hide ValidPath, Parts;
    FlatIsValid("integrity.py");
  }

  lemma ReplayStarts()
    ensures Starts("replay.py", 'r')
  {
    hide ValidPath, Parts;
    FlatIsValid("replay.py");
  }

  lemma HiddenStarts()
    ensures Starts(HIDDEN, '.')
  {
    hide ValidPath, Parts;
    HiddenIsValid();
  }

  const HEADS := ['_', 'c', 'i', 'r', '.']

  lemma RelsAreHarmonious()
    ensures Harmonious(RELS)
  {
    InitStarts();
    CanonicalStarts();
    IntegrityStarts();
    ReplayStarts();
    HiddenStarts();
    hide Starts, Harmonious;
    HeadsKeepApart(RELS, HEADS);
  }

  // -- the map is accepted ------------------------------------------------------------------

  lemma EmptyFileIsRaw()
    ensures Raw(Str("")) == Some([]) && Size(Str("")) == 0
  {
  }

  lemma {:induction false} EmptyTotal(rels: seq<string>)
    ensures TotalSize(EmptySources(rels)) == 0
  {
    EmptyFileIsRaw();
    hide Raw, Size;
    if rels != [] {
      var n := |rels| - 1;
      assert EmptySources(rels)[..n] == EmptySources(rels[..n]);
      EmptyTotal(rels[..n]);
    }
  }

  lemma EmptyMapIsAccepted(rels: seq<string>)
    requires Harmonious(rels) && 1 <= |rels| <= MAX_SOURCE_FILES && forall r | r in REQUIRED :: r in rels
    ensures RelsOf(EmptySources(rels)) == rels && SourceMap(EmptySources(rels)).Some?
  {
    hide Raw, Size, ValidPath, Ordered, TotalSize, FilesIn, Contents, REQUIRED, Distinct, Fits;
    var sources := EmptySources(rels);
    assert RelsOf(sources) == rels;
    EmptyTotal(rels);
    EmptyFileIsRaw();
    forall s | s in sources ensures Sound(s) {
      var i :| 0 <= i < |sources| && sources[i] == s;
      assert rels[i] in rels;
    }
    OrderedIsPermutation(rels);
  }

  /** The map is accepted by the builder, hence by the generated verifier, and the engine
      unpacked from it lists itself otherwise than the map does: it leaves a source out. */
  lemma HiddenSourceIsUnlisted()
    ensures var sources := EmptySources(RELS);
      && SourceMap(sources).Some?
      && OwnSources(Unpacked(Unpackings(sources))) != SourceMap(sources).value
  {
    RelsAreHarmonious();
    HiddenIsValid();
    RequiredAreThere();
    hide Harmonious, Visited, ValidPath, Parts, SourceMap, OwnSources, Unpacked, Unpackings, REQUIRED;
    EmptyMapIsAccepted(RELS);
    assert RELS[4] == HIDDEN;
    AcceptedSources(EmptySources(RELS));
    UnpackedListsItself(EmptySources(RELS));
  }

  lemma RequiredAreThere()
    ensures forall r | r in REQUIRED :: r in RELS
  {
    assert RELS[0] in RELS && RELS[1] in RELS && RELS[2] in RELS && RELS[3] in RELS;
  }

  lemma AcceptedSources(sources: seq<Source>)
    requires SourceMap(sources).Some?
    ensures forall s | s in sources :: Sound(s)
  {
    hide Sound, Ordered, FilesIn, Contents, TotalSize;
  }
}
