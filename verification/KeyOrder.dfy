/** Python's ordering of str by code point, and sorted() over a set of them. */
module KeyOrder {
  predicate Before(a: string, b: string) {
    if b == "" then false
    else if a == "" then true
    else if a[0] != b[0] then a[0] < b[0]
    else Before(a[1..], b[1..])
  }

  ghost predicate Ascending(s: seq<string>) {
    forall i, j | 0 <= i < j < |s| :: Before(s[i], s[j])
  }

  lemma {:induction false} BeforeTrichotomy(a: string, b: string)
    ensures a == b || Before(a, b) || Before(b, a)
    ensures !(Before(a, b) && Before(b, a))
    ensures a == b ==> !Before(a, b)
  {
    if a != "" && b != "" && a[0] == b[0] {
      BeforeTrichotomy(a[1..], b[1..]);
      assert a == [a[0]] + a[1..] && b == [b[0]] + b[1..];
    }
  }

  lemma {:induction false} BeforeTransitive(a: string, b: string, c: string)
    requires Before(a, b) && Before(b, c)
    ensures Before(a, c)
  {
    if a != "" && a[0] == b[0] == c[0] {
      BeforeTransitive(a[1..], b[1..], c[1..]);
    }
  }

  lemma {:induction false} LeastExists(ks: set<string>)
    requires ks != {}
    ensures exists k :: k in ks && forall x | x in ks && x != k :: Before(k, x)
  {
    var k :| k in ks;
    var rest := ks - {k};
    if rest == {} {
      assert ks == {k};
    } else {
      LeastExists(rest);
      var m :| m in rest && forall x | x in rest && x != m :: Before(m, x);
      BeforeTrichotomy(k, m);
      if Before(k, m) {
        forall x | x in ks && x != k ensures Before(k, x) {
          if x != m {
            BeforeTransitive(k, m, x);
          }
        }
      } else {
        assert m in ks && forall x | x in ks && x != m :: Before(m, x);
      }
    }
  }

  lemma LeastUnique(ks: set<string>, a: string, b: string)
    requires a in ks && forall x | x in ks && x != a :: Before(a, x)
    requires b in ks && forall x | x in ks && x != b :: Before(b, x)
    ensures a == b
  {
    BeforeTrichotomy(a, b);
  }

  function Least(ks: set<string>): (k: string)
    requires ks != {}
    ensures k in ks && forall x | x in ks && x != k :: Before(k, x)
  {
    LeastExists(ks);
    assert forall a, b |
        && a in ks && (forall x | x in ks && x != a :: Before(a, x))
        && b in ks && (forall x | x in ks && x != b :: Before(b, x)) :: a == b
    by {
      forall a, b |
          && a in ks && (forall x | x in ks && x != a :: Before(a, x))
          && b in ks && (forall x | x in ks && x != b :: Before(b, x))
        ensures a == b
      {
        LeastUnique(ks, a, b);
      }
    }
    var k :| k in ks && forall x | x in ks && x != k :: Before(k, x);
    k
  }

  // sorted(ks)
  function Sorted(ks: set<string>): (r: seq<string>)
    ensures Ascending(r)
    ensures forall k :: k in r <==> k in ks
    ensures |r| == |ks|
    decreases |ks|
  {
    if ks == {} then
      []
    else
      var k := Least(ks);
      var rest := Sorted(ks - {k});
      assert forall i | 0 <= i < |rest| :: rest[i] in rest;
      [k] + rest
  }

  /** Sorting is determined by membership alone: an ascending listing of a set is
      its only ascending listing. */
  lemma {:induction false} SortedUnique(s: seq<string>, t: seq<string>)
    requires Ascending(s) && Ascending(t)
    requires forall k :: k in s <==> k in t
    ensures s == t
  {
    assert s == [] <==> t == [] by {
      assert s != [] ==> s[0] in s;
      assert t != [] ==> t[0] in t;
    }
    if s != [] {
      BeforeTrichotomy(s[0], t[0]);
      assert s[0] in t && t[0] in s;
      assert s[0] == t[0] by {
        if s[0] != t[0] {
          assert false;
        }
      }
      forall k ensures k in s[1..] <==> k in t[1..] {
        BeforeTrichotomy(k, s[0]);
        if k in s[1..] {
          var i :| 1 <= i < |s| && s[i] == k;
          assert Before(s[0], s[i]);
          assert k in t;
        }
        if k in t[1..] {
          var i :| 1 <= i < |t| && t[i] == k;
          assert Before(t[0], t[i]);
          assert k in s;
        }
      }
      SortedUnique(s[1..], t[1..]);
      assert s == [s[0]] + s[1..] && t == [t[0]] + t[1..];
    }
  }
}
