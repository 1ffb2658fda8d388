/** Walking the failure history page by page, by a (updated_ts, id) cursor. */
module FailedPages {
  import opened Wrappers
  import opened Ordering
  import opened Delegations

  const MAX_PAGE := 500

  function SafeLimit(limit: int): (n: nat)
    ensures 1 <= n <= 500 && (1 <= limit <= 500 ==> n == limit) && (limit < 1 ==> n == 1) && (limit > 500 ==> n == 500)
  {
    if limit < 1 then 1 else if limit > MAX_PAGE then MAX_PAGE else limit
  }

  function Reverse<T>(s: seq<T>): (r: seq<T>)
    ensures |r| == |s| && forall i | 0 <= i < |s| :: r[i] == s[|s| - 1 - i]
  {
    seq(|s|, i requires 0 <= i < |s| => s[|s| - 1 - i])
  }

  /** ORDER BY updated_ts DESC, id DESC. */
  function Descending(keys: set<Key>): seq<Key> {
    Reverse(Sorted(keys))
  }

  /** The rows strictly past the cursor; no cursor means all of them. */
  function PastCursor(failed: set<Key>, cursor: Option<Key>): set<Key> {
    match cursor
    case None => failed
    case Some(c) => set k | k in failed && (k.ts < c.ts || (k.ts == c.ts && k.id < c.id))
  }

  /** A full page, or all that is left. */
  function FailedPage(failed: set<Key>, limit: int, cursor: Option<Key>): (page: seq<Key>)
    ensures page <= Descending(PastCursor(failed, cursor))
    ensures |page| == SafeLimit(limit) || (|page| < SafeLimit(limit) && |page| == |Descending(PastCursor(failed, cursor))|)
  {
    var rows := Descending(PastCursor(failed, cursor));
    if |rows| <= SafeLimit(limit) then rows else rows[..SafeLimit(limit)]
  }

  /** `s` is what ORDER BY makes of `keys`. */
  ghost predicate Lists(s: seq<Key>, keys: set<Key>) {
    Ascending(s) && forall k :: k in s <==> k in keys
  }

  lemma CutLists(all: seq<Key>, failed: set<Key>, m: nat)
    requires Lists(all, failed) && m < |all|
    ensures Lists(all[..m], PastCursor(failed, Some(all[m])))
  {
    forall k ensures k in all[..m] <==> k in PastCursor(failed, Some(all[m])) {
      AscendingPrefix(all, m, k);
    }
  }

  lemma ListedOneWay(a: seq<Key>, b: seq<Key>, keys: set<Key>)
    requires Lists(a, keys) && Lists(b, keys)
    ensures a == b
  {
    SortedUnique(a, b);
  }

  lemma SortedLists(keys: set<Key>) returns (s: seq<Key>)
    ensures s == Sorted(keys) && Lists(s, keys) && |s| == |keys|
  {
    s := Sorted(keys);
  }

  lemma ReversePrefix(all: seq<Key>, m: nat)
    requires m <= |all|
    ensures Reverse(all[..m]) == Reverse(all)[|all| - m..]
  {
  }

  /** What is left past position `n` of the whole descending listing is exactly what
      the query past the row at `n - 1` lists. */
  lemma CursorCuts(failed: set<Key>, n: nat)
    requires 1 <= n <= |failed|
    ensures |Descending(failed)| == |failed|
    ensures Descending(PastCursor(failed, Some(Descending(failed)[n - 1]))) == Descending(failed)[n..]
  {
    var all := SortedLists(failed);
    var m := |failed| - n;
    assert Descending(failed)[n - 1] == all[m];
    CutLists(all, failed, m);
    var rest := SortedLists(PastCursor(failed, Some(all[m])));
    ListedOneWay(rest, all[..m], PastCursor(failed, Some(all[m])));
    ReversePrefix(all, m);
  }

  lemma ReverseHolds(s: seq<Key>, k: Key)
    ensures k in Reverse(s) <==> k in s
  {
    if k in s {
      var i :| 0 <= i < |s| && s[i] == k;
      assert Reverse(s)[|s| - 1 - i] == k;
    }
    if k in Reverse(s) {
      var i :| 0 <= i < |s| && Reverse(s)[i] == k;
      assert s[|s| - 1 - i] == k;
    }
  }

  lemma DescendingLists(failed: set<Key>)
    ensures |Descending(failed)| == |failed|
    ensures forall k :: k in Descending(failed) <==> k in failed
    ensures forall i, j | 0 <= i < j < |failed| :: Before(Descending(failed)[j], Descending(failed)[i])
  {
    forall k ensures k in Descending(failed) <==> k in failed { ReverseHolds(Sorted(failed), k); }
  }

  /** How far the loop has got: a prefix visited, the rest still past the cursor. */
  ghost predicate Progress(failed: set<Key>, visited: seq<Key>, cursor: Option<Key>) {
    && visited <= Descending(failed)
    && Descending(PastCursor(failed, cursor)) == Descending(failed)[|visited|..]
  }

  lemma PageAdvances(failed: set<Key>, visited: seq<Key>, cursor: Option<Key>, page: seq<Key>)
    requires Progress(failed, visited, cursor)
    requires page != [] && page <= Descending(failed)[|visited|..]
    ensures Progress(failed, visited + page, Some(page[|page| - 1]))
  {
    var more, last := visited + page, page[|page| - 1];
    PrefixGrows(Descending(failed), visited, page);
    CursorReached(failed, more, last);
  }

  lemma CursorReached(failed: set<Key>, visited: seq<Key>, last: Key)
    requires visited != [] && visited <= Descending(failed) && Descending(failed)[|visited| - 1] == last
    ensures Progress(failed, visited, Some(last))
  {
    CursorCuts(failed, |visited|);
  }

  lemma PrefixGrows<T>(all: seq<T>, n: seq<T>, page: seq<T>)
    requires n <= all && page != [] && page <= all[|n|..]
    ensures n + page <= all && all[|n + page| - 1] == page[|page| - 1]
  {
    assert forall i | 0 <= i < |page| :: page[i] == all[|n|..][i] == all[|n| + i];
  }

  method VisitKeys(failed: set<Key>, limit: int) returns (visited: seq<Key>)
    ensures visited == Descending(failed)
  {
    var cursor: Option<Key> := None;
    visited := [];
    assert Progress(failed, visited, cursor);
    while true
      invariant Progress(failed, visited, cursor)
      decreases |failed| - |visited|
    {
      var page := FailedPage(failed, limit, cursor);
      if page == [] { break; }
      PageAdvances(failed, visited, cursor, page);
      visited := visited + page;
      cursor := Some(page[|page| - 1]);
    }
    assert |Descending(failed)| == |failed|;
  }

  function FailedKeys(rows: Rows): set<Key> {
    set id | id in rows && rows[id].status.Failed? :: Key(rows[id].updatedTs, id)
  }

  /** The reconciliation loop: for any page size, and with timestamps that tie, it ends
      having visited every failed row exactly once, newest first. */
  method VisitFailures(rows: Rows, limit: int) returns (visited: seq<Key>)
    ensures forall id | id in rows && rows[id].status.Failed? :: Key(rows[id].updatedTs, id) in visited
    ensures forall k | k in visited :: k.id in rows && rows[k.id].status.Failed? && k.ts == rows[k.id].updatedTs
    ensures forall i, j | 0 <= i < j < |visited| :: Before(visited[j], visited[i]) && visited[i].id != visited[j].id
  {
    visited := VisitKeys(FailedKeys(rows), limit);
    DescendingLists(FailedKeys(rows));
    forall i, j | 0 <= i < j < |visited| ensures visited[i].id != visited[j].id {
      assert visited[i] in visited && visited[j] in visited;
    }
  }
}
