/**
 "Sorted by path" (arena/integrity.py, engine_files) read as the order of the paths' texts:
 when the order of the walk is that order, and when it is not.
 */
module PathOrder {
  import opened Wrappers
  import opened SourcePaths
  import opened DirectoryWalk
  import KeyOrder

  // The first part as the text spells it: a directory with its slash.
  function Spelled(p: Path): string {
    if |p| == 1 then p[0] else p[0] + "/"
  }

  function Rest(p: Path): string {
    if |p| == 1 then "" else Join(p[1..])
  }

  /** What is found where two paths first differ: whether the walk and the text put them in
      the same order. */
  predicate OrdersAgree(p: Path, q: Path) {
    if |p| > 1 && |q| > 1 && p[0] == q[0] then OrdersAgree(p[1..], q[1..])
    else if |p| == 1 && |q| == 1 then true
    else if |p| == 1 then KeyOrder.Before(p[0], q[0] + "/")
    else if |q| == 1 then KeyOrder.Before(q[0], p[0] + "/")
    else KeyOrder.Before(p[0], q[0]) <==> KeyOrder.Before(p[0] + "/", q[0] + "/")
  }

  // -- the order of texts, part by part --------------------------------------------------

  lemma {:induction false} BeforePast(front: string, a: string, b: string)
    ensures KeyOrder.Before(front + a, front + b) <==> KeyOrder.Before(a, b)
  {
    if front == "" {
      assert front + a == a && front + b == b;
    } else {
      assert (front + a)[1..] == front[1..] + a && (front + b)[1..] == front[1..] + b;
      BeforePast(front[1..], a, b);
    }
  }

  // What follows decides nothing where neither start runs out with something behind it.
  lemma {:induction false} BeforeDecided(a: string, b: string, r: string, s: string)
    requires (a <= b ==> r == "") && (b <= a ==> s == "")
    ensures KeyOrder.Before(a + r, b + s) <==> KeyOrder.Before(a, b)
  {
    if a == "" {
      assert a + r == "";
      assert b == "" ==> b + s == "";
    } else if b == "" {
      assert b + s == "";
    } else if a[0] == b[0] {
      assert (a + r)[1..] == a[1..] + r && (b + s)[1..] == b[1..] + s;
      assert a[1..] <= b[1..] ==> a <= b by {
        PrefixGrows(a, b);
      }
      assert b[1..] <= a[1..] ==> b <= a by {
        PrefixGrows(b, a);
      }
      BeforeDecided(a[1..], b[1..], r, s);
    }
  }

  lemma PrefixGrows(a: string, b: string)
    requires a != "" && b != "" && a[0] == b[0]
    ensures a[1..] <= b[1..] ==> a <= b
  {
    assert a == [a[0]] + a[1..] && b == [b[0]] + b[1..];
  }

  lemma SlashStopsIt(a: string, b: string, text: string)
    requires SLASH !in a && SLASH !in b && (text == b || text == b + "/")
    ensures a + "/" <= text ==> a == b && text != b
  {
    assert forall i | 0 <= i < |b| :: b[i] != SLASH;
    if a + "/" <= text {
      var n := |a|;
      assert text[n] == (a + "/")[n] == SLASH;
      assert text[..n] == a;
    }
  }

  // A directory's spelling starts no spelling of another name.
  lemma SpelledEnds(p: Path, q: Path)
    requires SLASH !in p[0] && SLASH !in q[0]
    requires !(|p| > 1 && |q| > 1 && p[0] == q[0])
    ensures Spelled(p) <= Spelled(q) ==> Rest(p) == ""
  {
    if |p| > 1 {
      SlashStopsIt(p[0], q[0], Spelled(q));
    }
  }

  lemma JoinIsSpelled(p: Path)
    ensures Join(p) == Spelled(p) + Rest(p)
  {
  }

  lemma TailSlashFree(p: Path)
    requires SlashFree(p)
    ensures SLASH !in p[0] && (|p| > 1 ==> SlashFree(p[1..]))
  {
    assert p[0] in p;
    if |p| > 1 {
      assert forall part | part in p[1..] :: part in p;
    }
  }

  /** Of two paths the walk lists the one first whose text is first, if and only if the two
      orders agree where the paths first differ. */
  lemma {:induction false} AgreeIff(p: Path, q: Path)
    requires SlashFree(p) && SlashFree(q)
    ensures OrdersAgree(p, q) <==> (Earlier(p, q) <==> KeyOrder.Before(Join(p), Join(q)))
  {
    hide SlashFree;
    TailSlashFree(p);
    TailSlashFree(q);
    if |p| > 1 && |q| > 1 && p[0] == q[0] {
      AgreeIff(p[1..], q[1..]);
      BeforePast(p[0] + "/", Join(p[1..]), Join(q[1..]));
    } else {
      JoinIsSpelled(p);
      JoinIsSpelled(q);
      SpelledEnds(p, q);
      SpelledEnds(q, p);
      BeforeDecided(Spelled(p), Spelled(q), Rest(p), Rest(q));
      KeyOrder.BeforeTrichotomy(p[0], q[0]);
      KeyOrder.BeforeTrichotomy(Spelled(p), Spelled(q));
    }
  }

  // -- whole walks ---------------------------------------------------------------------

  ghost predicate TextsAscend<T>(listing: seq<Listed<T>>) {
    forall i, j | 0 <= i < j < |listing| :: KeyOrder.Before(Join(listing[i].path), Join(listing[j].path))
  }

  ghost predicate AllAgree<T>(listing: seq<Listed<T>>) {
    forall x, y | x in listing && y in listing :: OrdersAgree(x.path, y.path)
  }

  ghost predicate AllSlashFree<T>(listing: seq<Listed<T>>) {
    forall x | x in listing :: SlashFree(x.path)
  }

  /** The walk of a tree is sorted by the text of its paths if and only if the two orders
      agree where any two of those paths first differ. */
  lemma WalkSortedIff<T>(d: Dir<T>)
    requires AllSlashFree(Walk(d))
    ensures TextsAscend(Walk(d)) <==> AllAgree(Walk(d))
  {
    hide Walk, Join, OrdersAgree, Earlier, SlashFree, KeyOrder.Before;
    WalkInOrder(d);
    ListingSortedIff(Walk(d));
  }

  lemma ListingSortedIff<T>(listing: seq<Listed<T>>)
    requires InOrder(listing) && AllSlashFree(listing)
    ensures TextsAscend(listing) <==> AllAgree(listing)
  {
    hide Join, OrdersAgree, Earlier, SlashFree, KeyOrder.Before;
    if TextsAscend(listing) {
      forall x, y | x in listing && y in listing ensures OrdersAgree(x.path, y.path) {
        var i :| 0 <= i < |listing| && listing[i] == x;
        var j :| 0 <= j < |listing| && listing[j] == y;
        AscendingAgrees(listing, i, j);
      }
    }
    if AllAgree(listing) {
      forall i, j | 0 <= i < j < |listing| ensures KeyOrder.Before(Join(listing[i].path), Join(listing[j].path)) {
        assert listing[i] in listing && listing[j] in listing;
        AgreeIff(listing[i].path, listing[j].path);
        assert Earlier(listing[i].path, listing[j].path);
      }
    }
  }

  lemma AscendingAgrees<T>(listing: seq<Listed<T>>, i: nat, j: nat)
    requires i < |listing| && j < |listing| && InOrder(listing) && AllSlashFree(listing) && TextsAscend(listing)
    ensures OrdersAgree(listing[i].path, listing[j].path)
  {
    hide Join, OrdersAgree, Earlier, SlashFree, KeyOrder.Before;
    var p, q := listing[i].path, listing[j].path;
    assert listing[i] in listing && listing[j] in listing;
    AgreeIff(p, q);
    EarlierIsTotal(p, q);
    KeyOrder.BeforeTrichotomy(Join(p), Join(q));
    assert i < j ==> Earlier(p, q) && KeyOrder.Before(Join(p), Join(q));
    assert j < i ==> Earlier(q, p) && KeyOrder.Before(Join(q), Join(p));
  }

  // -- the engine's own files ------------------------------------------------------------

  // Two of them: a file, and the marker of the package of games.
  const FILE: Path := ["integrity.py"]
  const MARKER: Path := ["games", "__init__.py"]
  const ENGINE: Dir<()> :=
    Dir(map["integrity.py" := ()], map["games" := Dir(map["__init__.py" := ()], map[])])

  /** The engine's own walk is not sorted by path: "integrity.py" is listed before
      "games/__init__.py", whose text is the smaller. */
  lemma EngineWalkIsNotSorted()
    ensures Lookup(ENGINE, FILE) == Some(()) && Lookup(ENGINE, MARKER) == Some(())
    ensures Earlier(FILE, MARKER) && KeyOrder.Before(Join(MARKER), Join(FILE))
    ensures !TextsAscend(Walk(Pruned(ENGINE)))
  {
    EngineHolds();
    GamesBeforeIntegrity();
    hide Walk, Pruned, ENGINE, FILE, MARKER, Lookup, Join, Earlier, KeyOrder.Before;
    WalkLists(Pruned(ENGINE), FILE, ());
    WalkLists(Pruned(ENGINE), MARKER, ());
    WalkInOrder(Pruned(ENGINE));
    NotSorted(Walk(Pruned(ENGINE)), Listed(FILE, ()), Listed(MARKER, ()));
  }

  lemma EngineHolds()
    ensures Lookup(ENGINE, FILE) == Some(()) && Lookup(ENGINE, MARKER) == Some(())
    ensures Lookup(Pruned(ENGINE), FILE) == Some(()) && Lookup(Pruned(ENGINE), MARKER) == Some(())
  {
    hide Pruned;
    PrunedHolds(ENGINE, FILE);
    PrunedHolds(ENGINE, MARKER);
    assert MARKER[1..] == ["__init__.py"];
    assert EndsWithPy("integrity.py") && EndsWithPy("__init__.py");
  }

  lemma GamesBeforeIntegrity()
    ensures Earlier(FILE, MARKER) && KeyOrder.Before(Join(MARKER), Join(FILE))
  {
    assert Join(MARKER) == "games/" + Join(MARKER[1..]);
    assert Join(MARKER)[0] == 'g' && Join(FILE)[0] == 'i';
  }

  lemma NotSorted<T>(listing: seq<Listed<T>>, x: Listed<T>, y: Listed<T>)
    requires InOrder(listing) && x in listing && y in listing
    requires Earlier(x.path, y.path) && KeyOrder.Before(Join(y.path), Join(x.path))
    ensures !TextsAscend(listing)
  {
    hide Join, Earlier, KeyOrder.Before;
    var i :| 0 <= i < |listing| && listing[i] == x;
    var j :| 0 <= j < |listing| && listing[j] == y;
    EarlierComesFirst(listing, i, j);
    KeyOrder.BeforeTrichotomy(Join(x.path), Join(y.path));
    assert !KeyOrder.Before(Join(listing[i].path), Join(listing[j].path));
  }

  lemma EarlierComesFirst<T>(listing: seq<Listed<T>>, i: nat, j: nat)
    requires i < |listing| && j < |listing| && InOrder(listing) && Earlier(listing[i].path, listing[j].path)
    ensures i < j
  {
    hide Earlier;
    EarlierIsTotal(listing[i].path, listing[j].path);
  }
}
