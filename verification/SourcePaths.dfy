/**
 bin/build_verifier.py: package-relative source paths, as text and as lists of parts.
 */
module SourcePaths {
  // A path is a non-empty list of parts: directories, then a file name.
  type Path = p: seq<string> | p != [] witness [""]

  const SLASH := '/'

  function SlashAt(s: string): (n: nat)
    ensures n <= |s| && (forall i | 0 <= i < n :: s[i] != SLASH) && (n < |s| ==> s[n] == SLASH)
  {
    if s == "" || s[0] == SLASH then 0 else 1 + SlashAt(s[1..])
  }

  // rel.split("/")
  function Parts(rel: string): (p: Path)
    ensures forall part | part in p :: SLASH !in part
    decreases |rel|
  {
    var n := SlashAt(rel);
    if n == |rel| then [rel]
    else
      var rest := Parts(rel[n + 1..]);
      [rel[..n]] + rest
  }

  // "/".join(parts)
  function Join(p: Path): string {
    if |p| == 1 then p[0] else p[0] + "/" + Join(p[1..])
  }

  predicate SlashFree(p: Path) {
    forall part | part in p :: SLASH !in part
  }

  lemma SplitFirst(first: string, rest: string)
    requires SLASH !in first
    ensures Parts(first) == [first]
    ensures Parts(first + "/" + rest) == [first] + Parts(rest)
  {
    var s := first + "/" + rest;
    assert forall i | 0 <= i < |first| :: s[i] == first[i];
    assert s[|first|] == SLASH;
    assert SlashAt(s) == |first|;
    assert s[..|first|] == first && s[|first| + 1..] == rest;
  }

  /** Splitting undoes joining, so a path is named by its text alone. */
  lemma {:induction false} PartsOfJoin(p: Path)
    requires SlashFree(p)
    ensures Parts(Join(p)) == p
  {
    assert p[0] in p;
    if |p| == 1 {
      SplitFirst(p[0], "");
    } else {
      assert SlashFree(p[1..]) by {
        assert forall part | part in p[1..] :: part in p;
      }
      PartsOfJoin(p[1..]);
      SplitFirst(p[0], Join(p[1..]));
    }
  }

  lemma JoinCons(first: string, p: Path)
    ensures Join([first] + p) == first + "/" + Join(p)
  {
    assert ([first] + p)[1..] == p;
  }

  lemma AroundSlash(rel: string, n: nat)
    requires n < |rel| && rel[n] == SLASH
    ensures rel == rel[..n] + "/" + rel[n + 1..]
  {
  }

  lemma PartsAround(rel: string)
    ensures var n := SlashAt(rel);
      if n == |rel| then Parts(rel) == [rel]
      else Parts(rel) == [rel[..n]] + Parts(rel[n + 1..]) && rel == rel[..n] + "/" + rel[n + 1..]
  {
    hide SlashAt;
    var n := SlashAt(rel);
    if n < |rel| {
      AroundSlash(rel, n);
    }
  }

  lemma {:induction false} JoinOfParts(rel: string)
    ensures Join(Parts(rel)) == rel
    decreases |rel|
  {
    PartsAround(rel);
    hide Parts;
    var n := SlashAt(rel);
    if n < |rel| {
      hide Join;
      JoinOfParts(rel[n + 1..]);
      JoinCons(rel[..n], Parts(rel[n + 1..]));
    }
  }

  // -- case folding, on the ASCII text that validation leaves ---------------------

  function FoldChar(c: char): char {
    if 'A' <= c <= 'Z' then (c as int + 32) as char else c
  }

  // str.casefold on ASCII text
  function Fold(s: string): (r: string)
    ensures |r| == |s| && forall i | 0 <= i < |s| :: r[i] == FoldChar(s[i])
  {
    if s == "" then "" else [FoldChar(s[0])] + Fold(s[1..])
  }

  function FoldPath(p: Path): (r: Path)
    ensures |r| == |p| && forall i | 0 <= i < |p| :: r[i] == Fold(p[i])
  {
    if |p| == 1 then [Fold(p[0])] else [Fold(p[0])] + FoldPath(p[1..])
  }

  lemma FoldKeepsSlashFree(s: string)
    requires SLASH !in s
    ensures SLASH !in Fold(s)
  {
    forall i | 0 <= i < |s| ensures Fold(s)[i] != SLASH {
      assert s[i] in s;
    }
  }

  lemma FoldPathSlashFree(p: Path)
    requires SlashFree(p)
    ensures SlashFree(FoldPath(p))
  {
    forall part | part in FoldPath(p) ensures SLASH !in part {
      var i :| 0 <= i < |p| && FoldPath(p)[i] == part;
      assert p[i] in p;
      FoldKeepsSlashFree(p[i]);
    }
  }

  lemma {:induction false} FoldAppend(a: string, b: string)
    ensures Fold(a + b) == Fold(a) + Fold(b)
  {
    if a == "" {
      assert a + b == b;
      assert Fold(a) + Fold(b) == Fold(b);
    } else {
      assert (a + b)[1..] == a[1..] + b;
      FoldAppend(a[1..], b);
    }
  }

  lemma FoldSlash()
    ensures Fold("/") == "/"
  {
    assert Fold("/"[1..]) == "";
  }

  lemma FoldPathCons(first: string, p: Path)
    ensures FoldPath([first] + p) == [Fold(first)] + FoldPath(p)
  {
    assert ([first] + p)[1..] == p;
  }

  lemma {:induction false} FoldOfJoin(p: Path)
    ensures Fold(Join(p)) == Join(FoldPath(p))
    decreases |p|
  {
    if |p| > 1 {
      FoldOfJoin(p[1..]);
      hide Fold, FoldPath, Join;
      var first, rest := p[0], p[1..];
      assert p == [first] + rest;
      JoinCons(first, rest);
      FoldPathCons(first, rest);
      JoinCons(Fold(first), FoldPath(rest));
      FoldAppend(first + "/", Join(rest));
      FoldAppend(first, "/");
      FoldSlash();
    }
  }

  // -- validation ----------------------------------------------------------------

  const MAX_SOURCE_PATH_BYTES := 240
  const MAX_PART_BYTES := 100

  const DEVICE_STEMS: set<string> :=
    {"CON", "PRN", "AUX", "NUL",
     "COM1", "COM2", "COM3", "COM4", "COM5", "COM6", "COM7", "COM8", "COM9",
     "LPT1", "LPT2", "LPT3", "LPT4", "LPT5", "LPT6", "LPT7", "LPT8", "LPT9"}

  // _SOURCE_PATH_CHARS; it holds neither a backslash nor a colon.
  predicate PathChar(c: char) {
    'a' <= c <= 'z' || 'A' <= c <= 'Z' || '0' <= c <= '9' || c == '.' || c == '_' || c == '-' || c == '/'
  }

  // part.split(".", 1)[0].upper()
  function Stem(part: string): string {
    if part == "" || part[0] == '.' then "" else [Upper(part[0])] + Stem(part[1..])
  }

  function Upper(c: char): char {
    if 'a' <= c <= 'z' then (c as int - 32) as char else c
  }

  predicate PartAllowed(part: string) {
    && part != "" && part != "." && part != ".."
    && part[|part| - 1] != '.' && part[|part| - 1] != ' '
    && Stem(part) !in DEVICE_STEMS
    && |part| <= MAX_PART_BYTES
  }

  predicate EndsWithPy(name: string) {
    |name| >= 3 && name[|name| - 3..] == ".py"
  }

  // The condition of _validate_source_path, and of _decode_sources on one path.
  predicate ValidPath(rel: string) {
    var p := Parts(rel);
    && 0 < |rel| <= MAX_SOURCE_PATH_BYTES && rel[0] != SLASH
    && (forall c | c in rel :: PathChar(c))
    && (forall part | part in p :: PartAllowed(part))
    && EndsWithPy(p[|p| - 1])
  }

  // -- where a path leads -----------------------------------------------------------

  // os.path.abspath(os.path.join(root, *parts)), below the root of the file system.
  function Resolved(root: seq<string>, parts: seq<string>): seq<string>
    decreases |parts|
  {
    if parts == [] then root
    else
      var part := parts[0];
      var next := if part == "" || part == "." then root
                  else if part == ".." then (if root == [] then [] else root[..|root| - 1])
                  else root + [part];
      Resolved(next, parts[1..])
  }

  /** A valid path leads below the package root, to the place its parts spell. */
  lemma {:induction false} ValidStaysInside(root: seq<string>, p: seq<string>)
    requires forall part | part in p :: PartAllowed(part)
    ensures Resolved(root, p) == root + p
    decreases |p|
  {
    if p == [] {
      assert root + p == root;
    } else {
      assert p[0] in p;
      ValidStaysInside(root + [p[0]], p[1..]);
      assert root + [p[0]] + p[1..] == root + p;
    }
  }
}
