/**
 The walk both sides of a source digest rely on (arena/integrity.py, engine_files):
 the files of a directory by name, then its subdirectories by name.
 */
module DirectoryWalk {
  import opened Wrappers
  import opened SourcePaths
  import KeyOrder

  datatype Dir<T> = Dir(files: map<string, T>, dirs: map<string, Dir<T>>)

  function Lookup<T>(d: Dir<T>, p: Path): Option<T> {
    if |p| == 1 then
      if p[0] in d.files then Some(d.files[p[0]]) else None
    else if p[0] in d.dirs then Lookup(d.dirs[p[0]], p[1..])
    else None
  }

  datatype Listed<T> = Listed(path: Path, item: T)

  function FilesByName<T>(d: Dir<T>, names: seq<string>): (r: seq<Listed<T>>)
    requires forall n | n in names :: n in d.files
    ensures |r| == |names| && forall i | 0 <= i < |r| :: r[i] == Listed([names[i]], d.files[names[i]])
  {
    if names == [] then [] else [Listed([names[0]], d.files[names[0]])] + FilesByName(d, names[1..])
  }

  function Under<T>(name: string, listing: seq<Listed<T>>): (r: seq<Listed<T>>)
    ensures |r| == |listing|
    ensures forall i | 0 <= i < |r| :: r[i] == Listed([name] + listing[i].path, listing[i].item)
  {
    if listing == [] then []
    else [Listed([name] + listing[0].path, listing[0].item)] + Under(name, listing[1..])
  }

  function DirsByName<T>(d: Dir<T>, names: seq<string>): seq<Listed<T>>
    requires forall n | n in names :: n in d.dirs
    decreases d, 0, |names|
  {
    if names == [] then [] else Under(names[0], Walk(d.dirs[names[0]])) + DirsByName(d, names[1..])
  }

  function Walk<T>(d: Dir<T>): seq<Listed<T>>
    decreases d, 1, 0
  {
    FilesByName(d, KeyOrder.Sorted(d.files.Keys)) + DirsByName(d, KeyOrder.Sorted(d.dirs.Keys))
  }

  // -- the order ------------------------------------------------------------------

  // p is listed before q.
  predicate Earlier(p: Path, q: Path) {
    if |p| == 1 && |q| == 1 then KeyOrder.Before(p[0], q[0])
    else if |p| == 1 then true
    else if |q| == 1 then false
    else if p[0] == q[0] then Earlier(p[1..], q[1..])
    else KeyOrder.Before(p[0], q[0])
  }

  lemma {:induction false} EarlierIsTotal(p: Path, q: Path)
    ensures p == q || Earlier(p, q) || Earlier(q, p)
    ensures !(Earlier(p, q) && Earlier(q, p))
    ensures p == q ==> !Earlier(p, q)
  {
    KeyOrder.BeforeTrichotomy(p[0], q[0]);
    if |p| > 1 && |q| > 1 && p[0] == q[0] {
      EarlierIsTotal(p[1..], q[1..]);
      assert p == [p[0]] + p[1..] && q == [q[0]] + q[1..];
    }
    if |p| == 1 && |q| == 1 {
      assert p == [p[0]] && q == [q[0]];
    }
  }

  ghost predicate InOrder<T>(listing: seq<Listed<T>>) {
    forall i, j | 0 <= i < j < |listing| :: Earlier(listing[i].path, listing[j].path)
  }

  /** A listing in order is determined by what it lists. */
  lemma {:induction false} InOrderUnique<T>(a: seq<Listed<T>>, b: seq<Listed<T>>)
    requires InOrder(a) && InOrder(b)
    requires forall e :: e in a <==> e in b
    ensures a == b
  {
    assert a == [] <==> b == [] by {
      assert a != [] ==> a[0] in a;
      assert b != [] ==> b[0] in b;
    }
    if a != [] {
      HeadsAgree(a, b);
      TailsAgree(a, b);
      TailsAgree(b, a);
      InOrderUnique(a[1..], b[1..]);
      assert a == [a[0]] + a[1..] && b == [b[0]] + b[1..];
    }
  }

  lemma FirstIsLeast<T>(a: seq<Listed<T>>, e: Listed<T>)
    requires InOrder(a) && e in a
    ensures e == a[0] || Earlier(a[0].path, e.path)
  {
    var i :| 0 <= i < |a| && a[i] == e;
    assert i > 0 ==> Earlier(a[0].path, a[i].path);
  }

  lemma HeadsAgree<T>(a: seq<Listed<T>>, b: seq<Listed<T>>)
    requires InOrder(a) && InOrder(b) && a != [] && b != []
    requires forall e :: e in a <==> e in b
    ensures a[0] == b[0]
  {
    assert a[0] in a && b[0] in b;
    FirstIsLeast(a, b[0]);
    FirstIsLeast(b, a[0]);
    EarlierIsTotal(a[0].path, b[0].path);
  }

  lemma TailsAgree<T>(a: seq<Listed<T>>, b: seq<Listed<T>>)
    requires InOrder(a) && a != [] && b != [] && a[0] == b[0]
    requires forall e :: e in a <==> e in b
    ensures forall e | e in a[1..] :: e in b[1..]
  {
    forall e | e in a[1..] ensures e in b[1..] {
      var i :| 1 <= i < |a| && a[i] == e;
      assert Earlier(a[0].path, a[i].path);
      EarlierIsTotal(a[0].path, a[i].path);
      assert e in b;
    }
  }

  // -- the walk is in order and lists the tree ---------------------------------------

  lemma FilesInOrder<T>(d: Dir<T>, names: seq<string>)
    requires (forall n | n in names :: n in d.files) && KeyOrder.Ascending(names)
    ensures InOrder(FilesByName(d, names))
  {
  }

  lemma UnderInOrder<T>(name: string, listing: seq<Listed<T>>)
    requires InOrder(listing)
    ensures InOrder(Under(name, listing))
  {
    var r := Under(name, listing);
    forall i, j | 0 <= i < j < |r| ensures Earlier(r[i].path, r[j].path) {
      assert Earlier(listing[i].path, listing[j].path);
      assert r[i].path[1..] == listing[i].path && r[j].path[1..] == listing[j].path;
    }
  }

  lemma OrderedConcat<T>(a: seq<Listed<T>>, b: seq<Listed<T>>)
    requires InOrder(a) && InOrder(b)
    requires forall x, y | x in a && y in b :: Earlier(x.path, y.path)
    ensures InOrder(a + b)
  {
    var r := a + b;
    forall i, j | 0 <= i < j < |r| ensures Earlier(r[i].path, r[j].path) {
      if i < |a| && |a| <= j {
        assert r[i] in a && r[j] in b;
      }
    }
  }

  // Everything a directory listing holds is below one of the named subdirectories.
  lemma {:induction false} DirsBelow<T>(d: Dir<T>, names: seq<string>)
    requires forall n | n in names :: n in d.dirs
    ensures forall e | e in DirsByName(d, names) :: |e.path| > 1 && e.path[0] in names
  {
    hide Walk;
    if names != [] {
      DirsBelow(d, names[1..]);
      var first, rest := Under(names[0], Walk(d.dirs[names[0]])), DirsByName(d, names[1..]);
      forall e: Listed<T> | e in first + rest ensures |e.path| > 1 && e.path[0] in names {
        if e in first {
          assert names[0] in names;
        }
      }
    }
  }

  lemma {:induction false} DirsInOrder<T>(d: Dir<T>, names: seq<string>)
    requires (forall n | n in names :: n in d.dirs) && KeyOrder.Ascending(names)
    ensures InOrder(DirsByName(d, names))
    decreases d, 0, |names|
  {
    hide Walk;
    if names != [] {
      var first, rest := Under(names[0], Walk(d.dirs[names[0]])), DirsByName(d, names[1..]);
      WalkInOrder(d.dirs[names[0]]);
      UnderInOrder(names[0], Walk(d.dirs[names[0]]));
      DirsInOrder(d, names[1..]);
      DirsBelow(d, names[1..]);
      forall x, y | x in first && y in rest ensures Earlier(x.path, y.path) {
        NamesApart(names, x.path, y.path);
      }
      OrderedConcat(first, rest);
    }
  }

  lemma NamesApart(names: seq<string>, p: Path, q: Path)
    requires KeyOrder.Ascending(names) && names != [] && |p| > 1 && |q| > 1
    requires p[0] == names[0] && q[0] in names[1..]
    ensures Earlier(p, q)
  {
    var j :| 1 <= j < |names| && names[j] == q[0];
    assert KeyOrder.Before(names[0], names[j]);
    KeyOrder.BeforeTrichotomy(names[0], names[j]);
  }

  lemma {:induction false} WalkInOrder<T>(d: Dir<T>)
    ensures InOrder(Walk(d))
    decreases d, 1, 0
  {
    var fileNames, dirNames := KeyOrder.Sorted(d.files.Keys), KeyOrder.Sorted(d.dirs.Keys);
    FilesInOrder(d, fileNames);
    DirsInOrder(d, dirNames);
    DirsBelow(d, dirNames);
    OrderedConcat(FilesByName(d, fileNames), DirsByName(d, dirNames));
  }

  lemma InUnder<T>(name: string, listing: seq<Listed<T>>, p: Path, x: T)
    ensures Listed(p, x) in Under(name, listing) <==> |p| > 1 && p[0] == name && Listed(p[1..], x) in listing
  {
    var r := Under(name, listing);
    if Listed(p, x) in r {
      var i :| 0 <= i < |r| && r[i] == Listed(p, x);
      assert p[1..] == listing[i].path;
    }
    if |p| > 1 && p[0] == name && Listed(p[1..], x) in listing {
      var i :| 0 <= i < |listing| && listing[i] == Listed(p[1..], x);
      assert p == [name] + p[1..];
      assert r[i] == Listed(p, x);
    }
  }

  lemma InFiles<T>(d: Dir<T>, names: seq<string>, p: Path, x: T)
    requires forall n | n in names :: n in d.files
    ensures Listed(p, x) in FilesByName(d, names) <==> |p| == 1 && p[0] in names && d.files[p[0]] == x
  {
    var r := FilesByName(d, names);
    if |p| == 1 && p[0] in names && d.files[p[0]] == x {
      var i :| 0 <= i < |names| && names[i] == p[0];
      assert p == [names[i]];
      assert r[i] == Listed(p, x);
    }
  }

  lemma {:induction false} InDirs<T>(d: Dir<T>, names: seq<string>, p: Path, x: T)
    requires forall n | n in names :: n in d.dirs
    ensures Listed(p, x) in DirsByName(d, names) <==>
      |p| > 1 && p[0] in names && Lookup(d.dirs[p[0]], p[1..]) == Some(x)
    decreases d, 0, |names|
  {
    hide Walk, Lookup;
    if names != [] {
      InDirs(d, names[1..], p, x);
      InUnder(names[0], Walk(d.dirs[names[0]]), p, x);
      if |p| > 1 && p[0] == names[0] {
        WalkLists(d.dirs[names[0]], p[1..], x);
      }
    }
  }

  /** The walk lists what the tree holds and nothing else. */
  lemma {:induction false} WalkLists<T>(d: Dir<T>, p: Path, x: T)
    ensures Listed(p, x) in Walk(d) <==> Lookup(d, p) == Some(x)
    decreases d, 1, 0
  {
    InFiles(d, KeyOrder.Sorted(d.files.Keys), p, x);
    InDirs(d, KeyOrder.Sorted(d.dirs.Keys), p, x);
    hide FilesByName, DirsByName;
  }

  /** Trees holding the same files are walked alike, however they were put together. */
  lemma WalkDetermined<T>(d: Dir<T>, e: Dir<T>)
    requires forall p: Path :: Lookup(d, p) == Lookup(e, p)
    ensures Walk(d) == Walk(e)
  {
    hide Lookup, Walk;
    WalkInOrder(d);
    WalkInOrder(e);
    forall l: Listed<T> ensures l in Walk(d) <==> l in Walk(e) {
      WalkLists(d, l.path, l.item);
      WalkLists(e, l.path, l.item);
    }
    InOrderUnique(Walk(d), Walk(e));
  }

  // -- engine_files -----------------------------------------------------------------

  const SKIP_DIRS: set<string> := {"__pycache__", ".git", ".pytest_cache"}

  // What the walk of engine_files passes over is not there.
  function Pruned<T>(d: Dir<T>): Dir<T> {
    Dir(map n | n in d.files && EndsWithPy(n) :: d.files[n],
        map n | n in d.dirs && n !in SKIP_DIRS :: Pruned(d.dirs[n]))
  }

  // A path engine_files visits: no directory is skipped, and the file is Python.
  predicate Visited(p: Path) {
    if |p| == 1 then EndsWithPy(p[0]) else p[0] !in SKIP_DIRS && Visited(p[1..])
  }

  lemma {:induction false} PrunedHolds<T>(d: Dir<T>, p: Path)
    ensures Lookup(Pruned(d), p) == if Visited(p) then Lookup(d, p) else None
  {
    if |p| > 1 && p[0] in d.dirs && p[0] !in SKIP_DIRS {
      PrunedHolds(d.dirs[p[0]], p[1..]);
    }
  }

  function PythonNames(names: seq<string>): (r: seq<string>)
    ensures forall n :: n in r <==> n in names && EndsWithPy(n)
  {
    if names == [] then [] else (if EndsWithPy(names[0]) then [names[0]] else []) + PythonNames(names[1..])
  }

  lemma {:induction false} PythonNamesAscend(names: seq<string>)
    requires KeyOrder.Ascending(names)
    ensures KeyOrder.Ascending(PythonNames(names))
  {
    if names != [] {
      PythonNamesAscend(names[1..]);
      var rest := PythonNames(names[1..]);
      forall j | 0 <= j < |rest| ensures KeyOrder.Before(names[0], rest[j]) {
        assert rest[j] in rest;
        var i :| 1 <= i < |names| && names[i] == rest[j];
        assert KeyOrder.Before(names[0], names[i]);
      }
    }
  }

  // Sorting and then passing over is passing over and then sorting.
  lemma PythonNamesSorted<T>(d: Dir<T>)
    ensures PythonNames(KeyOrder.Sorted(d.files.Keys)) == KeyOrder.Sorted(Pruned(d).files.Keys)
  {
    PythonNamesAscend(KeyOrder.Sorted(d.files.Keys));
    KeyOrder.SortedUnique(PythonNames(KeyOrder.Sorted(d.files.Keys)), KeyOrder.Sorted(Pruned(d).files.Keys));
  }

  lemma KeptDirs<T>(d: Dir<T>)
    ensures Pruned(d).dirs.Keys == d.dirs.Keys - SKIP_DIRS
  {
  }

  /** engine_files over a whole tree. */
  method EngineFiles<T>(d: Dir<T>) returns (out: seq<Listed<T>>)
    ensures out == Walk(Pruned(d))
    decreases d
  {
    hide Pruned, FilesByName, DirsByName, PythonNames;
    assert KeyOrder.Sorted(d.files.Keys)[0..] == KeyOrder.Sorted(d.files.Keys);
    PythonNamesSorted(d);
    KeptDirs(d);
    out := OwnFiles(d, KeyOrder.Sorted(d.files.Keys));
    var below := SubdirectoryFiles(d, KeyOrder.Sorted(d.dirs.Keys - SKIP_DIRS));
    out := out + below;
  }

  lemma KeptFiles<T>(d: Dir<T>, names: seq<string>)
    requires forall n | n in names :: n in d.files
    ensures forall n | n in PythonNames(names) :: n in Pruned(d).files && Pruned(d).files[n] == d.files[n]
  {
  }

  // What is still to come when the names from i on have not been looked at.
  function OwnRest<T>(d: Dir<T>, names: seq<string>, i: nat): seq<Listed<T>>
    requires i <= |names| && forall n | n in names :: n in d.files
  {
    KeptFiles(d, names[i..]);
    FilesByName(Pruned(d), PythonNames(names[i..]))
  }

  lemma OwnRestStep<T>(d: Dir<T>, names: seq<string>, i: nat)
    requires i < |names| && forall n | n in names :: n in d.files
    ensures OwnRest(d, names, i) ==
      (if EndsWithPy(names[i]) then [Listed([names[i]], d.files[names[i]])] else []) + OwnRest(d, names, i + 1)
  {
    assert names[i..][1..] == names[i + 1..];
    KeptFiles(d, names[i..]);
    KeptFiles(d, names[i + 1..]);
    hide Pruned;
    if EndsWithPy(names[i]) {
      FileAhead(Pruned(d), names[i], PythonNames(names[i + 1..]));
    }
  }

  method OwnFiles<T>(d: Dir<T>, names: seq<string>) returns (out: seq<Listed<T>>)
    requires forall n | n in names :: n in d.files
    ensures out == OwnRest(d, names, 0)
  {
    hide OwnRest;
    out := [];
    for i := 0 to |names|
      invariant out + OwnRest(d, names, i) == OwnRest(d, names, 0)
    {
      OwnRestStep(d, names, i);
      if EndsWithPy(names[i]) {
        out := out + [Listed([names[i]], d.files[names[i]])];
      }
    }
    NoneLeft(d, names);
  }

  lemma NoneLeft<T>(d: Dir<T>, names: seq<string>)
    requires forall n | n in names :: n in d.files
    ensures OwnRest(d, names, |names|) == []
  {
  }

  lemma FileAhead<T>(d: Dir<T>, name: string, names: seq<string>)
    requires name in d.files && forall n | n in names :: n in d.files
    ensures FilesByName(d, [name] + names) == [Listed([name], d.files[name])] + FilesByName(d, names)
  {
    assert ([name] + names)[1..] == names;
  }

  method SubdirectoryFiles<T>(d: Dir<T>, names: seq<string>) returns (out: seq<Listed<T>>)
    requires forall n | n in names :: n in d.dirs && n !in SKIP_DIRS
    ensures out == DirsByName(Pruned(d), names)
    decreases d, 0
  {
    hide DirsByName, Walk;
    out := [];
    assert names[0..] == names;
    for i := 0 to |names|
      invariant out + DirsByName(Pruned(d), names[i..]) == DirsByName(Pruned(d), names)
    {
      var below := EngineFiles(d.dirs[names[i]]);
      DirsFrom(Pruned(d), names, i);
      out := out + Under(names[i], below);
    }
    NoDirsLeft(Pruned(d), names);
  }

  lemma DirsFrom<T>(d: Dir<T>, names: seq<string>, i: nat)
    requires i < |names| && forall n | n in names :: n in d.dirs
    ensures DirsByName(d, names[i..]) == Under(names[i], Walk(d.dirs[names[i]])) + DirsByName(d, names[i + 1..])
  {
    hide Walk;
    assert names[i..][1..] == names[i + 1..];
  }

  lemma NoDirsLeft<T>(d: Dir<T>, names: seq<string>)
    requires forall n | n in names :: n in d.dirs
    ensures DirsByName(d, names[|names|..]) == []
  {
  }
}
