/**
 bin/build_verifier.py, _engine_walk_order: a trie keyed by folded names, built path by
 path and then walked in the engine's order.
 */
module SourceTrie {
  import opened Wrappers
  import opened SourcePaths

  datatype Leaf = Leaf(name: string, rel: string)
  datatype Branch = Branch(name: string, node: Node)
  datatype Node = Node(files: map<string, Leaf>, dirs: map<string, Branch>)

  const EMPTY := Node(map[], map[])

  // One path put into the trie; None is the collision error.
  function Insert(node: Node, parts: Path, rel: string): Option<Node>
    decreases |parts|
  {
    var folded := Fold(parts[0]);
    if |parts| == 1 then
      if folded in node.dirs || folded in node.files then None
      else Some(node.(files := node.files[folded := Leaf(parts[0], rel)]))
    else if folded in node.files then None
    else
      var entry := if folded in node.dirs then node.dirs[folded] else Branch(parts[0], EMPTY);
      if entry.name != parts[0] then None
      else
        match Insert(entry.node, parts[1..], rel)
        case None => None
        case Some(child) => Some(node.(dirs := node.dirs[folded := Branch(parts[0], child)]))
  }

  // Every key is its entry's name folded, and no branch is bare.
  predicate Kept(node: Node) {
    && (forall k | k in node.files :: Fold(node.files[k].name) == k)
    && (forall k | k in node.dirs ::
          Fold(node.dirs[k].name) == k && node.dirs[k].node != EMPTY && Kept(node.dirs[k].node))
    && node.files.Keys !! node.dirs.Keys
  }

  // The path text stored at a place, if any.
  function Find(node: Node, q: Path): Option<string> {
    var folded := Fold(q[0]);
    if |q| == 1 then
      if folded in node.files && node.files[folded].name == q[0] then Some(node.files[folded].rel) else None
    else if folded in node.dirs && node.dirs[folded].name == q[0] then Find(node.dirs[folded].node, q[1..])
    else None
  }

  lemma KeptWithFile(node: Node, name: string, rel: string)
    requires Kept(node) && Fold(name) !in node.dirs
    ensures Kept(node.(files := node.files[Fold(name) := Leaf(name, rel)]))
  {
    hide Fold;
  }

  lemma KeptWithBranch(node: Node, name: string, child: Node)
    requires Kept(node) && Fold(name) !in node.files && Kept(child) && child != EMPTY
    ensures Kept(node.(dirs := node.dirs[Fold(name) := Branch(name, child)]))
  {
    hide Fold;
  }

  lemma {:induction false} InsertKeeps(node: Node, parts: Path, rel: string)
    requires Kept(node) && Insert(node, parts, rel).Some?
    ensures Kept(Insert(node, parts, rel).value) && Insert(node, parts, rel).value != EMPTY
    decreases |parts|
  {
    hide Fold;
    var folded := Fold(parts[0]);
    if |parts| > 1 {
      var entry := if folded in node.dirs then node.dirs[folded] else Branch(parts[0], EMPTY);
      assert Kept(entry.node);
      InsertKeeps(entry.node, parts[1..], rel);
      KeptWithBranch(node, parts[0], Insert(entry.node, parts[1..], rel).value);
      assert folded in Insert(node, parts, rel).value.dirs;
    } else {
      KeptWithFile(node, parts[0], rel);
      assert folded in Insert(node, parts, rel).value.files;
    }
  }

  lemma SamePath(p: Path, q: Path)
    requires |p| > 1 && |q| > 1
    ensures p == q <==> p[0] == q[0] && p[1..] == q[1..]
  {
    assert p == [p[0]] + p[1..] && q == [q[0]] + q[1..];
  }

  lemma {:induction false} InsertFinds(node: Node, parts: Path, rel: string, q: Path)
    requires Insert(node, parts, rel).Some?
    ensures Find(Insert(node, parts, rel).value, q) == if q == parts then Some(rel) else Find(node, q)
    decreases |parts|
  {
    hide Fold;
    if |parts| > 1 {
      if |q| > 1 {
        SamePath(q, parts);
        var folded := Fold(parts[0]);
        var entry := if folded in node.dirs then node.dirs[folded] else Branch(parts[0], EMPTY);
        InsertFinds(entry.node, parts[1..], rel, q[1..]);
      }
    } else if |q| == 1 {
      assert q == [q[0]] && parts == [parts[0]];
    }
  }

  // -- which paths can stand side by side ---------------------------------------

  // Neither path lands on the other once case is folded, and shared directories are
  // spelled alike.
  predicate Compatible(p: Path, q: Path) {
    if Fold(p[0]) != Fold(q[0]) then true
    else if |p| == 1 || |q| == 1 then false
    else p[0] == q[0] && Compatible(p[1..], q[1..])
  }

  lemma {:induction false} CompatibleIsSymmetric(p: Path, q: Path)
    ensures Compatible(p, q) == Compatible(q, p)
    ensures !Compatible(p, p)
  {
    hide Fold;
    if |p| > 1 {
      CompatibleIsSymmetric(p[1..], if |q| > 1 then q[1..] else p[1..]);
    }
  }

  ghost predicate CompatibleWith(node: Node, p: Path) {
    forall q: Path | Find(node, q).Some? :: Compatible(p, q)
  }

  // A trie that is not empty stores something.
  lemma {:induction false} SomethingStored(node: Node) returns (q: Path)
    requires Kept(node) && node != EMPTY
    ensures Find(node, q).Some?
    decreases node
  {
    hide Fold;
    assert node.files == map[] && node.dirs == map[] ==> node == EMPTY;
    if node.files != map[] {
      var k :| k in node.files;
      q := [node.files[k].name];
    } else {
      var k :| k in node.dirs;
      var rest := SomethingStored(node.dirs[k].node);
      q := [node.dirs[k].name] + rest;
      assert q[1..] == rest;
    }
  }

  lemma StoredIsCompatible(node: Node, p: Path, q: Path)
    requires CompatibleWith(node, p) && Find(node, q).Some?
    ensures Compatible(p, q)
  {
  }

  lemma {:induction false} InsertedIsCompatible(node: Node, parts: Path, rel: string, q: Path)
    requires Kept(node) && Insert(node, parts, rel).Some? && Find(node, q).Some?
    ensures Compatible(parts, q)
  {
    hide Fold;
    if |parts| > 1 && |q| > 1 && Fold(parts[0]) == Fold(q[0]) {
      InsertedIsCompatible(node.dirs[Fold(q[0])].node, parts[1..], rel, q[1..]);
    }
  }

  // What a collision in the way of a path proves.
  lemma FileInTheWay(node: Node, parts: Path)
    requires Kept(node) && CompatibleWith(node, parts)
    ensures Fold(parts[0]) !in node.files
    ensures Fold(parts[0]) in node.dirs ==> |parts| > 1 && node.dirs[Fold(parts[0])].name == parts[0]
  {
    hide Fold, CompatibleWith;
    var folded := Fold(parts[0]);
    if folded in node.files {
      StoredIsCompatible(node, parts, [node.files[folded].name]);
    } else if folded in node.dirs {
      DirectoryInTheWay(node, parts);
    }
  }

  lemma DirectoryInTheWay(node: Node, parts: Path)
    requires Kept(node) && CompatibleWith(node, parts) && Fold(parts[0]) in node.dirs
    ensures |parts| > 1 && node.dirs[Fold(parts[0])].name == parts[0]
  {
    hide Fold, CompatibleWith, Find;
    var entry := node.dirs[Fold(parts[0])];
    var rest := SomethingStored(entry.node);
    StoredBelow(node, Fold(parts[0]), rest);
    StoredIsCompatible(node, parts, [entry.name] + rest);
  }

  lemma StoredBelow(node: Node, folded: string, rest: Path)
    requires Kept(node) && folded in node.dirs && Find(node.dirs[folded].node, rest).Some?
    ensures Find(node, [node.dirs[folded].name] + rest).Some?
    ensures Fold(node.dirs[folded].name) == folded
  {
    hide Fold;
    assert ([node.dirs[folded].name] + rest)[1..] == rest;
  }

  lemma {:induction false} CompatibleInserts(node: Node, parts: Path, rel: string)
    requires Kept(node) && CompatibleWith(node, parts)
    ensures Insert(node, parts, rel).Some?
    decreases |parts|
  {
    FileInTheWay(node, parts);
    if |parts| > 1 {
      var folded := Fold(parts[0]);
      var entry := if folded in node.dirs then node.dirs[folded] else Branch(parts[0], EMPTY);
      forall q: Path | Find(entry.node, q).Some? ensures Compatible(parts[1..], q) {
        BelowIsCompatible(node, parts, entry, q);
      }
      CompatibleInserts(entry.node, parts[1..], rel);
    }
  }

  lemma BelowIsCompatible(node: Node, parts: Path, entry: Branch, q: Path)
    requires Kept(node) && CompatibleWith(node, parts) && |parts| > 1 && Find(entry.node, q).Some?
    requires Fold(parts[0]) in node.dirs ==> entry == node.dirs[Fold(parts[0])] && entry.name == parts[0]
    requires Fold(parts[0]) !in node.dirs ==> entry == Branch(parts[0], EMPTY)
    ensures Compatible(parts[1..], q)
  {
    hide Fold;
    var whole := [parts[0]] + q;
    assert whole[1..] == q && whole[0] == parts[0];
    if Fold(parts[0]) in node.dirs {
      assert Find(node, whole).Some?;
      assert Compatible(parts, whole);
    }
  }
}
