/**
 bin/build_verifier.py, _engine_walk_order: the order it gives a set of source paths,
 and that this is the order of the engine's own directory walk.
 */
module WalkOrder {
  import opened Wrappers
  import opened SourcePaths
  import opened DirectoryWalk
  import opened SourceTrie
  import KeyOrder

  // -- the trie as a directory -----------------------------------------------------

  function FileNames(node: Node): set<string> {
    set k | k in node.files :: node.files[k].name
  }

  function DirNames(node: Node): set<string> {
    set k | k in node.dirs :: node.dirs[k].name
  }

  lemma NamesAreKeys(node: Node, n: string)
    requires Kept(node)
    ensures n in FileNames(node) <==> Fold(n) in node.files && node.files[Fold(n)].name == n
    ensures n in DirNames(node) <==> Fold(n) in node.dirs && node.dirs[Fold(n)].name == n
  {
    hide Fold;
    if n in FileNames(node) {
      var k :| k in node.files && node.files[k].name == n;
    }
    if n in DirNames(node) {
      var k :| k in node.dirs && node.dirs[k].name == n;
    }
  }

  lemma AllNamesAreKeys(node: Node)
    requires Kept(node)
    ensures forall n | n in FileNames(node) :: Fold(n) in node.files && node.files[Fold(n)].name == n
    ensures forall n | n in DirNames(node) :: Fold(n) in node.dirs && node.dirs[Fold(n)].name == n
  {
    forall n | n in FileNames(node) ensures Fold(n) in node.files && node.files[Fold(n)].name == n {
      NamesAreKeys(node, n);
    }
    forall n | n in DirNames(node) ensures Fold(n) in node.dirs && node.dirs[Fold(n)].name == n {
      NamesAreKeys(node, n);
    }
  }

  // The directory a trie stands for, each file holding its path text.
  function Unfolded(node: Node): Dir<string>
    requires Kept(node)
  {
    AllNamesAreKeys(node);
    Dir(map n | n in FileNames(node) :: node.files[Fold(n)].rel,
        map n | n in DirNames(node) :: Unfolded(node.dirs[Fold(n)].node))
  }

  lemma {:induction false} UnfoldedFinds(node: Node, q: Path)
    requires Kept(node)
    ensures Lookup(Unfolded(node), q) == Find(node, q)
    decreases |q|
  {
    NamesAreKeys(node, q[0]);
    hide Fold;
    if |q| > 1 && q[0] in DirNames(node) {
      UnfoldedFinds(node.dirs[Fold(q[0])].node, q[1..]);
    }
  }

  // -- the nested function walk ------------------------------------------------------

  function Rels(listing: seq<Listed<string>>): (r: seq<string>)
    ensures |r| == |listing| && forall i | 0 <= i < |r| :: r[i] == listing[i].item
  {
    seq(|listing|, i requires 0 <= i < |listing| => listing[i].item)
  }

  lemma RelsUnder(name: string, listing: seq<Listed<string>>)
    ensures Rels(Under(name, listing)) == Rels(listing)
  {
  }

  lemma RelsJoin(a: seq<Listed<string>>, b: seq<Listed<string>>)
    ensures Rels(a + b) == Rels(a) + Rels(b)
  {
  }

  lemma UnfoldedNames(node: Node)
    requires Kept(node)
    ensures Unfolded(node).files.Keys == FileNames(node) && Unfolded(node).dirs.Keys == DirNames(node)
    ensures forall n | n in FileNames(node) ::
      Fold(n) in node.files && Unfolded(node).files[n] == node.files[Fold(n)].rel
  {
    hide Fold, Kept, FileNames, DirNames;
    AllNamesAreKeys(node);
  }

  lemma UnfoldedBranch(node: Node, n: string)
    requires Kept(node) && n in DirNames(node)
    ensures Fold(n) in node.dirs && node.dirs[Fold(n)] < node && Kept(node.dirs[Fold(n)].node)
    ensures n in Unfolded(node).dirs && Unfolded(node).dirs[n] == Unfolded(node.dirs[Fold(n)].node)
  {
    AllNamesAreKeys(node);
  }

  method WalkNode(node: Node) returns (ordered: seq<string>)
    requires Kept(node)
    ensures ordered == Rels(Walk(Unfolded(node)))
    decreases node, 1
  {
    hide FilesByName, DirsByName, Rels, Unfolded, Kept;
    UnfoldedNames(node);
    var fileNames, dirNames := KeyOrder.Sorted(FileNames(node)), KeyOrder.Sorted(DirNames(node));
    ordered := WalkFiles(node, fileNames);
    var below := WalkDirs(node, dirNames);
    RelsJoin(FilesByName(Unfolded(node), fileNames), DirsByName(Unfolded(node), dirNames));
    ordered := ordered + below;
  }

  method WalkFiles(node: Node, names: seq<string>) returns (ordered: seq<string>)
    requires Kept(node) && forall n | n in names :: n in FileNames(node)
    ensures forall n | n in names :: n in Unfolded(node).files
    ensures ordered == Rels(FilesByName(Unfolded(node), names))
  {
    hide Unfolded, Kept;
    UnfoldedNames(node);
    ordered := [];
    for i := 0 to |names|
      invariant |ordered| == i && forall j | 0 <= j < i :: ordered[j] == Unfolded(node).files[names[j]]
    {
      ordered := ordered + [node.files[Fold(names[i])].rel];
    }
  }

  // What is still to come from the subdirectories from i on.
  function DirsRest(node: Node, names: seq<string>, i: nat): seq<string>
    requires Kept(node) && i <= |names| && forall n | n in names :: n in DirNames(node)
  {
    UnfoldedNames(node);
    Rels(DirsByName(Unfolded(node), names[i..]))
  }

  lemma DirsRestStep(node: Node, names: seq<string>, i: nat)
    requires Kept(node) && i < |names| && forall n | n in names :: n in DirNames(node)
    ensures Fold(names[i]) in node.dirs && node.dirs[Fold(names[i])] < node && Kept(node.dirs[Fold(names[i])].node)
    ensures DirsRest(node, names, i) ==
      Rels(Walk(Unfolded(node.dirs[Fold(names[i])].node))) + DirsRest(node, names, i + 1)
  {
    UnfoldedNames(node);
    UnfoldedBranch(node, names[i]);
    hide Walk, Rels, Kept;
    var child := Unfolded(node.dirs[Fold(names[i])].node);
    hide Unfolded;
    assert names[i..][1..] == names[i + 1..];
    RelsUnder(names[i], Walk(child));
    RelsJoin(Under(names[i], Walk(child)), DirsByName(Unfolded(node), names[i + 1..]));
  }

  method WalkDirs(node: Node, names: seq<string>) returns (ordered: seq<string>)
    requires Kept(node) && forall n | n in names :: n in DirNames(node)
    ensures ordered == DirsRest(node, names, 0)
    ensures forall n | n in names :: n in Unfolded(node).dirs
    ensures ordered == Rels(DirsByName(Unfolded(node), names))
    decreases node, 0
  {
    hide Walk, Rels, DirsRest, Unfolded, Kept;
    ordered := [];
    for i := 0 to |names|
      invariant ordered + DirsRest(node, names, i) == DirsRest(node, names, 0)
    {
      DirsRestStep(node, names, i);
      var below := WalkNode(node.dirs[Fold(names[i])].node);
      ordered := ordered + below;
    }
    AllDirsWalked(node, names);
  }

  lemma AllDirsWalked(node: Node, names: seq<string>)
    requires Kept(node) && forall n | n in names :: n in DirNames(node)
    ensures DirsRest(node, names, |names|) == []
    ensures forall n | n in names :: n in Unfolded(node).dirs
    ensures DirsRest(node, names, 0) == Rels(DirsByName(Unfolded(node), names))
  {
    hide Unfolded, Kept;
    UnfoldedNames(node);
    assert names[0..] == names;
  }

  // -- planting every path ---------------------------------------------------------------

  function Planted(paths: seq<string>): Option<Node> {
    if paths == [] then Some(EMPTY)
    else
      var rel := paths[|paths| - 1];
      match Planted(paths[..|paths| - 1])
      case None => None
      case Some(node) => if ValidPath(rel) then Insert(node, Parts(rel), rel) else None
  }

  // What _engine_walk_order returns; None is a SnapshotError.
  function Ordered(paths: seq<string>): Option<seq<string>> {
    match Planted(paths)
    case None => None
    case Some(node) => PlantedIsKept(paths); Some(Rels(Walk(Unfolded(node))))
  }

  lemma {:induction false} PlantedIsKept(paths: seq<string>)
    requires Planted(paths).Some?
    ensures Kept(Planted(paths).value)
  {
    hide ValidPath;
    if paths != [] {
      var front, rel := paths[..|paths| - 1], paths[|paths| - 1];
      PlantedIsKept(front);
      InsertKeeps(Planted(front).value, Parts(rel), rel);
    }
  }

  lemma {:induction false} PlantingStops(paths: seq<string>, n: nat)
    requires n <= |paths| && Planted(paths[..n]).None?
    ensures Planted(paths).None?
  {
    hide ValidPath, Insert;
    if n == |paths| {
      assert paths[..n] == paths;
    } else {
      var front := paths[..|paths| - 1];
      assert front[..n] == paths[..n];
      PlantingStops(front, n);
    }
  }

  method EngineWalkOrder(paths: seq<string>) returns (ordered: Option<seq<string>>)
    ensures ordered == Ordered(paths)
  {
    hide ValidPath, Insert, Walk, Rels, Unfolded;
    var root := EMPTY;
    for i := 0 to |paths|
      invariant Planted(paths[..i]) == Some(root)
    {
      assert paths[..i + 1][..i] == paths[..i];
      if !ValidPath(paths[i]) {
        PlantingStops(paths, i + 1);
        return None;
      }
      var next := Insert(root, Parts(paths[i]), paths[i]);
      if next.None? {
        PlantingStops(paths, i + 1);
        return None;
      }
      root := next.value;
    }
    assert paths[..|paths|] == paths;
    PlantedIsKept(paths);
    var rels := WalkNode(root);
    return Some(rels);
  }

  // -- what the order is -----------------------------------------------------------------

  // The path text that belongs at a place.
  function Named(paths: seq<string>, q: Path): Option<string> {
    if SlashFree(q) && Join(q) in paths then Some(Join(q)) else None
  }

  lemma NamedAfter(front: seq<string>, rel: string, q: Path)
    ensures Named(front + [rel], q) == if q == Parts(rel) then Some(rel) else Named(front, q)
  {
    JoinOfParts(rel);
    if SlashFree(q) {
      PartsOfJoin(q);
    }
  }

  lemma {:induction false} PlantedFinds(paths: seq<string>, q: Path)
    requires Planted(paths).Some?
    ensures Find(Planted(paths).value, q) == Named(paths, q)
  {
    hide ValidPath, Named, Insert;
    if paths == [] {
      NothingNamed(q);
    } else {
      var front, rel := paths[..|paths| - 1], paths[|paths| - 1];
      PlantedFinds(front, q);
      assert paths == front + [rel];
      NamedAfter(front, rel, q);
      InsertFinds(Planted(front).value, Parts(rel), rel, q);
    }
  }

  lemma NothingNamed(q: Path)
    ensures Named([], q) == None && Find(EMPTY, q) == None
  {
  }

  ghost predicate Distinct(paths: seq<string>) {
    forall r :: multiset(paths)[r] <= 1
  }

  // Paths that _engine_walk_order takes.
  ghost predicate Fits(a: string, b: string) {
    Compatible(Parts(a), Parts(b))
  }

  ghost predicate Harmonious(paths: seq<string>) {
    && (forall r | r in paths :: ValidPath(r))
    && Distinct(paths)
    && (forall a, b | a in paths && b in paths && a != b :: Fits(a, b))
  }

  lemma {:induction false} PlantedIffHarmonious(paths: seq<string>)
    ensures Planted(paths).Some? <==> Harmonious(paths)
  {
    hide ValidPath, Insert, Fits;
    if paths != [] {
      var front, rel := paths[..|paths| - 1], paths[|paths| - 1];
      assert paths == front + [rel];
      PlantedIffHarmonious(front);
      HarmonyGrows(front, rel);
      if Planted(front).Some? {
        PlantsNext(front, rel);
      }
    }
  }

  lemma DistinctGrows(front: seq<string>, rel: string)
    ensures Distinct(front + [rel]) <==> Distinct(front) && rel !in front
  {
    var all := front + [rel];
    assert multiset(all) == multiset(front) + multiset{rel};
    if Distinct(all) {
      assert multiset(all)[rel] <= 1;
      forall r ensures multiset(front)[r] <= 1 {
        assert multiset(all)[r] <= 1;
      }
    }
  }

  lemma FitsIsSymmetric(a: string, b: string)
    ensures Fits(a, b) == Fits(b, a) && !Fits(a, a)
  {
    CompatibleIsSymmetric(Parts(a), Parts(b));
  }

  lemma HarmonyGrows(front: seq<string>, rel: string)
    ensures Harmonious(front + [rel]) <==> Harmonious(front) && ValidPath(rel) && forall a | a in front :: Fits(rel, a)
  {
    hide ValidPath, Fits, Distinct;
    FitsIsSymmetric(rel, rel);
    forall a | a in front ensures Fits(rel, a) == Fits(a, rel) {
      FitsIsSymmetric(rel, a);
    }
    DistinctGrows(front, rel);
    var all := front + [rel];
    assert forall a :: a in all <==> a in front || a == rel;
  }

  lemma PlantsNext(front: seq<string>, rel: string)
    requires Planted(front).Some?
    ensures Insert(Planted(front).value, Parts(rel), rel).Some? <==> forall a | a in front :: Fits(rel, a)
  {
    hide Insert, Compatible;
    var node := Planted(front).value;
    PlantedIsKept(front);
    if Insert(node, Parts(rel), rel).Some? {
      forall a | a in front ensures Fits(rel, a) {
        PlantedFinds(front, Parts(a));
        JoinOfParts(a);
        InsertedIsCompatible(node, Parts(rel), rel, Parts(a));
      }
    }
    if forall a | a in front :: Fits(rel, a) {
      forall q: Path | Find(node, q).Some? ensures Compatible(Parts(rel), q) {
        PlantedFinds(front, q);
        PartsOfJoin(q);
        assert Fits(rel, Join(q));
      }
      CompatibleInserts(node, Parts(rel), rel);
    }
  }

  // -- the theorems -----------------------------------------------------------------------

  ghost predicate InWalkOrder(rels: seq<string>) {
    forall i, j | 0 <= i < j < |rels| :: Earlier(Parts(rels[i]), Parts(rels[j]))
  }

  // What the walk of a planted trie lists.
  lemma PlantedLists(paths: seq<string>, l: Listed<string>)
    requires Planted(paths).Some? && Kept(Planted(paths).value)
    ensures l in Walk(Unfolded(Planted(paths).value)) <==> l.item in paths && l.path == Parts(l.item)
  {
    var node := Planted(paths).value;
    WalkLists(Unfolded(node), l.path, l.item);
    UnfoldedFinds(node, l.path);
    PlantedFinds(paths, l.path);
    JoinOfParts(l.item);
    if SlashFree(l.path) {
      PartsOfJoin(l.path);
    }
  }

  // A listing in order, of paths at their own places.
  lemma ListedRels(paths: seq<string>, listing: seq<Listed<string>>)
    requires InOrder(listing)
    requires forall l :: l in listing <==> l.item in paths && l.path == Parts(l.item)
    ensures InWalkOrder(Rels(listing))
    ensures forall r :: r in Rels(listing) <==> r in paths
  {
    var rels := Rels(listing);
    forall i | 0 <= i < |rels| ensures listing[i].path == Parts(rels[i]) && rels[i] in paths {
      assert listing[i] in listing;
    }
    forall r | r in paths ensures r in rels {
      assert Listed(Parts(r), r) in listing;
      var i :| 0 <= i < |listing| && listing[i] == Listed(Parts(r), r);
      assert rels[i] == r;
    }
  }

  lemma OrderedFacts(paths: seq<string>)
    requires Ordered(paths).Some?
    ensures InWalkOrder(Ordered(paths).value)
    ensures forall r :: r in Ordered(paths).value <==> r in paths
  {
    hide Planted, Walk, Unfolded, Kept, Rels, InWalkOrder;
    PlantedIsKept(paths);
    var listing := Walk(Unfolded(Planted(paths).value));
    WalkInOrder(Unfolded(Planted(paths).value));
    forall l: Listed<string> ensures l in listing <==> l.item in paths && l.path == Parts(l.item) {
      PlantedLists(paths, l);
    }
    ListedRels(paths, listing);
  }

  lemma {:induction false} WalkOrderIsDistinct(rels: seq<string>)
    requires InWalkOrder(rels)
    ensures Distinct(rels)
  {
    if rels != [] {
      var front, last := rels[..|rels| - 1], rels[|rels| - 1];
      assert rels == front + [last];
      WalkOrderIsDistinct(front);
      forall i | 0 <= i < |front| ensures front[i] != last {
        assert Earlier(Parts(rels[i]), Parts(rels[|rels| - 1]));
        EarlierIsTotal(Parts(rels[i]), Parts(last));
      }
      DistinctGrows(front, last);
    } else {
    }
  }

  lemma DistinctSameMembers(a: seq<string>, b: seq<string>)
    requires Distinct(a) && Distinct(b) && forall r :: r in a <==> r in b
    ensures multiset(a) == multiset(b)
  {
    forall r ensures multiset(a)[r] == multiset(b)[r] {
      assert multiset(a)[r] <= 1 && multiset(b)[r] <= 1;
      assert (r in a <==> multiset(a)[r] > 0) && (r in b <==> multiset(b)[r] > 0);
    }
  }

  /** The order is a permutation of the paths, in the order of the engine's walk; it is
      given exactly to sets of valid paths no two of which collide. */
  lemma OrderedIsPermutation(paths: seq<string>)
    ensures Ordered(paths).Some? <==> Harmonious(paths)
    ensures Ordered(paths).Some? ==>
      multiset(Ordered(paths).value) == multiset(paths) && InWalkOrder(Ordered(paths).value)
  {
    PlantedIffHarmonious(paths);
    if Ordered(paths).Some? {
      OrderedFacts(paths);
      WalkOrderIsDistinct(Ordered(paths).value);
      hide ValidPath, Fits, InWalkOrder, Ordered, Planted;
      DistinctSameMembers(Ordered(paths).value, paths);
    }
  }

  lemma HarmoniousPermutes(a: seq<string>, b: seq<string>)
    requires multiset(a) == multiset(b)
    ensures Harmonious(a) <==> Harmonious(b)
    ensures forall r :: r in a <==> r in b
  {
    assert forall r :: r in a <==> r in multiset(a);
    assert forall r :: r in b <==> r in multiset(b);
  }

  lemma SameTreesWalkAlike(a: seq<string>, b: seq<string>)
    requires Planted(a).Some? && Planted(b).Some? && forall r :: r in a <==> r in b
    ensures Kept(Planted(a).value) && Kept(Planted(b).value)
    ensures Walk(Unfolded(Planted(a).value)) == Walk(Unfolded(Planted(b).value))
  {
    PlantedIsKept(a);
    PlantedIsKept(b);
    var na, nb := Planted(a).value, Planted(b).value;
    hide Planted, Unfolded, Lookup, Find, Kept, Walk;
    forall p: Path ensures Lookup(Unfolded(na), p) == Lookup(Unfolded(nb), p) {
      UnfoldedFinds(na, p);
      UnfoldedFinds(nb, p);
      PlantedFinds(a, p);
      PlantedFinds(b, p);
    }
    WalkDetermined(Unfolded(na), Unfolded(nb));
  }

  /** The order does not depend on the order the paths come in, nor does the refusal. */
  lemma InputOrderIsInvisible(a: seq<string>, b: seq<string>)
    requires multiset(a) == multiset(b)
    ensures Ordered(a) == Ordered(b)
  {
    hide Planted, Harmonious, Unfolded, Kept, Walk, Rels;
    HarmoniousPermutes(a, b);
    PlantedIffHarmonious(a);
    PlantedIffHarmonious(b);
    if Planted(a).Some? {
      SameTreesWalkAlike(a, b);
    }
  }

  // -- the engine's own walk ---------------------------------------------------------------

  // d holds a file at each of the paths and none anywhere else.
  ghost predicate HoldsExactly<T>(paths: seq<string>, d: Dir<T>) {
    forall p: Path :: Lookup(d, p).Some? <==> Named(paths, p).Some?
  }

  function Texts<T>(listing: seq<Listed<T>>): (r: seq<string>)
    ensures |r| == |listing| && forall i | 0 <= i < |r| :: r[i] == Join(listing[i].path)
  {
    seq(|listing|, i requires 0 <= i < |listing| => Join(listing[i].path))
  }

  lemma UnpackedAt<T>(paths: seq<string>, d: Dir<T>, p: Path)
    requires HoldsExactly(paths, d) && Lookup(d, p).Some?
    ensures SlashFree(p) && Join(p) in paths && Parts(Join(p)) == p
  {
    assert Named(paths, p).Some?;
    PartsOfJoin(p);
  }

  lemma {:induction false} WalkOrderUnique(a: seq<string>, b: seq<string>)
    requires InWalkOrder(a) && InWalkOrder(b) && forall r :: r in a <==> r in b
    ensures a == b
  {
    var la := seq(|a|, i requires 0 <= i < |a| => Listed(Parts(a[i]), a[i]));
    var lb := seq(|b|, i requires 0 <= i < |b| => Listed(Parts(b[i]), b[i]));
    ListedAlike(a, b, la, lb);
    ListedAlike(b, a, lb, la);
    InOrderUnique(la, lb);
    forall i | 0 <= i < |a| ensures a[i] == b[i] {
      assert la[i].item == lb[i].item;
    }
  }

  lemma ListedAlike(a: seq<string>, b: seq<string>, la: seq<Listed<string>>, lb: seq<Listed<string>>)
    requires |la| == |a| && forall i | 0 <= i < |a| :: la[i] == Listed(Parts(a[i]), a[i])
    requires |lb| == |b| && forall i | 0 <= i < |b| :: lb[i] == Listed(Parts(b[i]), b[i])
    requires forall r | r in a :: r in b
    ensures forall e | e in la :: e in lb
  {
    forall e | e in la ensures e in lb {
      var i :| 0 <= i < |la| && la[i] == e;
      assert a[i] in a;
      var j :| 0 <= j < |b| && b[j] == a[i];
      assert lb[j] == e;
    }
  }

  // What engine_files lists of a directory that holds exactly some paths.
  lemma EngineTexts<T>(paths: seq<string>, d: Dir<T>)
    requires HoldsExactly(paths, d)
    ensures InWalkOrder(Texts(Walk(Pruned(d))))
    ensures forall r :: r in Texts(Walk(Pruned(d))) <==> r in paths && Visited(Parts(r))
  {
    var listing := Walk(Pruned(d));
    var texts := Texts(listing);
    WalkInOrder(Pruned(d));
    hide Pruned, Walk, Visited, HoldsExactly, Texts;
    forall i | 0 <= i < |listing|
      ensures Parts(texts[i]) == listing[i].path && texts[i] in paths && Visited(Parts(texts[i]))
    {
      assert listing[i] in listing;
      assert listing[i] == Listed(listing[i].path, listing[i].item);
      WalkLists(Pruned(d), listing[i].path, listing[i].item);
      PrunedHolds(d, listing[i].path);
      UnpackedAt(paths, d, listing[i].path);
    }
    forall r | r in paths && Visited(Parts(r)) ensures r in texts {
      PathIsListed(paths, d, r);
      var i :| 0 <= i < |listing| && listing[i].path == Parts(r);
      JoinOfParts(r);
      assert texts[i] == r;
    }
  }

  lemma PathIsListed<T>(paths: seq<string>, d: Dir<T>, r: string)
    requires HoldsExactly(paths, d) && r in paths && Visited(Parts(r))
    ensures exists i :: 0 <= i < |Walk(Pruned(d))| && Walk(Pruned(d))[i].path == Parts(r)
  {
    hide Pruned, Walk, Visited;
    var p := Parts(r);
    JoinOfParts(r);
    assert Named(paths, p).Some?;
    var x := Lookup(d, p).value;
    PrunedHolds(d, p);
    WalkLists(Pruned(d), p, x);
    var i :| 0 <= i < |Walk(Pruned(d))| && Walk(Pruned(d))[i] == Listed(p, x);
  }

  /** The snapshot order and the engine's walk of the unpacked files agree exactly when no
      path goes through a directory that the walk skips. */
  lemma OrderIsEngineWalk<T>(paths: seq<string>, d: Dir<T>)
    requires Ordered(paths).Some? && HoldsExactly(paths, d)
    ensures Texts(Walk(Pruned(d))) == Ordered(paths).value <==> forall r | r in paths :: Visited(Parts(r))
  {
    OrderedFacts(paths);
    EngineTexts(paths, d);
    hide Ordered, Walk, Pruned, Visited, HoldsExactly, Texts;
    var texts, ordered := Texts(Walk(Pruned(d))), Ordered(paths).value;
    if forall r | r in paths :: Visited(Parts(r)) {
      WalkOrderUnique(texts, ordered);
    }
  }
}
