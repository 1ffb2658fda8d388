/** The (timestamp, id) order every paged query sorts by. */
module Ordering {
  datatype Key = Key(ts: int, id: nat)

  predicate Before(a: Key, b: Key) {
    a.ts < b.ts || (a.ts == b.ts && a.id < b.id)
  }

  ghost predicate Ascending(s: seq<Key>) {
    forall i, j | 0 <= i < j < |s| :: Before(s[i], s[j])
  }

  lemma {:induction false} HasFirst(keys: set<Key>)
    requires keys != {}
    ensures exists k | k in keys :: forall x | x in keys :: x == k || Before(k, x)
    decreases |keys|
  {
    var a :| a in keys;
    var rest := keys - {a};
    if rest == {} {
      assert keys == {a};
    } else {
      HasFirst(rest);
      var k :| k in rest && forall x | x in rest :: x == k || Before(k, x);
      if Before(a, k) {
        forall x | x in keys ensures x == a || Before(a, x) { assert x == a || x in rest; }
      } else {
        forall x | x in keys ensures x == k || Before(k, x) { assert x == a || x in rest; }
      }
    }
  }

  function First(keys: set<Key>): (k: Key)
    requires keys != {}
    ensures k in keys && forall x | x in keys :: x == k || Before(k, x)
  {
    HasFirst(keys);
    var k :| k in keys && forall x | x in keys :: x == k || Before(k, x);
    k
  }

  /** ORDER BY ts, id. */
  function Sorted(keys: set<Key>): (s: seq<Key>)
    ensures Ascending(s) && |s| == |keys|
    ensures forall x :: x in s <==> x in keys
    decreases |keys|
  {
    if keys == {} then []
    else
      var k := First(keys);
      var rest := Sorted(keys - {k});
      assert forall i | 0 <= i < |rest| :: rest[i] in keys - {k};
      [k] + rest
  }

  lemma HeadBelongs<T>(s: seq<T>)
    ensures s != [] ==> s[0] in s
  {
  }

  /** An order with no ties lists a set in one way only. */
  lemma {:induction false} SortedUnique(a: seq<Key>, b: seq<Key>)
    requires Ascending(a) && Ascending(b)
    requires forall x :: x in a <==> x in b
    ensures a == b
    decreases |a|
  {
    if a == [] {
      HeadBelongs(b);
    } else {
      assert a[0] in b;
      assert b[0] in a;
      assert a[0] == b[0];
      forall x ensures x in a[1..] <==> x in b[1..] {
        if x in a[1..] { assert x in b && x != a[0]; }
        if x in b[1..] { assert x in a && x != b[0]; }
      }
      SortedUnique(a[1..], b[1..]);
    }
  }

  function Ahead(keys: set<Key>, k: Key): set<Key> {
    set x | x in keys && Before(x, k)
  }

  /** In an ascending list, the elements before one are those that sort before it. */
  lemma AscendingPrefix(all: seq<Key>, m: nat, k: Key)
    requires Ascending(all) && m < |all|
    ensures k in all[..m] <==> k in all && Before(k, all[m])
  {
    if k in all && Before(k, all[m]) {
      var i :| 0 <= i < |all| && all[i] == k;
      assert i < m;
      assert all[..m][i] == k;
    }
    if k in all[..m] {
      var i :| 0 <= i < m && all[..m][i] == k;
      assert all[i] == k;
    }
  }

  /** A key stands where the number of keys before it says. */
  lemma AheadIsPosition(keys: set<Key>, i: nat)
    requires i < |keys|
    ensures |Ahead(keys, Sorted(keys)[i])| == i
  {
    var all := Sorted(keys);
    var ahead := Ahead(keys, all[i]);
    var listed := Sorted(ahead);
    forall x ensures x in all[..i] <==> x in listed {
      AscendingPrefix(all, i, x);
    }
    SortedUnique(all[..i], listed);
  }
}
