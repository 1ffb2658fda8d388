/** Parent pointers, seen as an arbitrary finite map: nothing here assumes a forest. */
module Ancestry {
  import opened Wrappers

  type Id = nat
  type Parents = map<Id, Option<Id>>

  /** The n-th ancestor; a dangling pointer is still reported, the step after it is not. */
  ghost function Up(p: Parents, id: Id, n: nat): Option<Id> {
    if n == 0 then Some(id)
    else
      match Up(p, id, n - 1)
      case None => None
      case Some(x) => if x in p then p[x] else None
  }

  ghost predicate Descends(p: Parents, d: Id, a: Id) {
    exists n: nat :: n >= 1 && Up(p, d, n) == Some(a)
  }

  /** The chain above `id` ends, and every proper ancestor on it is live. */
  ghost predicate ChainLive(p: Parents, live: set<Id>, id: Id) {
    exists n: nat :: EndsLive(p, live, id, n)
  }

  ghost predicate EndsLive(p: Parents, live: set<Id>, id: Id, n: nat) {
    && n >= 1
    && Up(p, id, n) == None
    && forall k: nat | 1 <= k < n :: LiveUp(p, live, id, k)
  }

  ghost predicate LiveUp(p: Parents, live: set<Id>, id: Id, k: nat) {
    Up(p, id, k).Some? && Up(p, id, k).value in live
  }

  lemma {:induction false} UpSplit(p: Parents, id: Id, m: nat, n: nat)
    ensures Up(p, id, m + n) == match Up(p, id, m) case None => None case Some(x) => Up(p, x, n)
    decreases n
  {
    if n > 0 {
      UpSplit(p, id, m, n - 1);
      assert m + n - 1 == m + (n - 1);
    }
  }

  /** The walk read from its first step instead of its last. */
  lemma {:induction false} UpFirst(p: Parents, id: Id, n: nat)
    requires n >= 1
    ensures Up(p, id, n) == if id in p && p[id].Some? then Up(p, p[id].value, n - 1) else None
  {
    assert Up(p, id, 0) == Some(id);
    if n > 1 { UpFirst(p, id, n - 1); }
  }

  lemma UpEnds(p: Parents, id: Id, m: nat, n: nat)
    requires m <= n && Up(p, id, m) == None
    ensures Up(p, id, n) == None
  {
    UpSplit(p, id, m, n - m);
  }

  /** A chain that repeats an ancestor never ends. */
  lemma {:induction false} RepeatNeverEnds(p: Parents, id: Id, i: nat, j: nat, n: nat)
    requires i < j && Up(p, id, i) == Up(p, id, j) && Up(p, id, j).Some?
    ensures Up(p, id, n).Some?
    decreases n
  {
    if n <= j {
      if Up(p, id, n) == None { UpEnds(p, id, n, j); }
    } else {
      UpSplit(p, id, j, n - j);
      UpSplit(p, id, i, n - j);
      RepeatNeverEnds(p, id, i, j, n - (j - i));
    }
  }

  /** Proper descent is transitive. */
  lemma DescendsTrans(p: Parents, d: Id, b: Id, a: Id)
    requires Descends(p, d, b) && Descends(p, b, a)
    ensures Descends(p, d, a)
  {
    var m: nat :| m >= 1 && Up(p, d, m) == Some(b);
    var n: nat :| n >= 1 && Up(p, b, n) == Some(a);
    UpSplit(p, d, m, n);
    assert Up(p, d, m + n) == Some(a);
  }

  /** Either the parent is `a`, or the parent descends from `a`. */
  lemma DescendsStep(p: Parents, d: Id, a: Id)
    ensures Descends(p, d, a) <==> d in p && p[d].Some? && (p[d].value == a || Descends(p, p[d].value, a))
  {
    if Descends(p, d, a) {
      var n: nat :| n >= 1 && Up(p, d, n) == Some(a);
      UpSplit(p, d, 1, n - 1);
      assert Up(p, d, 0) == Some(d);
      if n > 1 { assert Up(p, p[d].value, n - 1) == Some(a); }
    }
    if d in p && p[d].Some? {
      assert Up(p, d, 0) == Some(d);
      assert Up(p, d, 1) == p[d];
      if Descends(p, p[d].value, a) { DescendsTrans(p, d, p[d].value, a); }
    }
  }

  // ---- the upward walk ----

  datatype Verdict = Clear | Cyclic | StoppedAt(at: Id)

  /** What a walk from `cursor` finds, having already passed `seen`. */
  function Walk(p: Parents, live: set<Id>, cursor: Option<Id>, seen: set<Id>): Verdict
    requires live <= p.Keys
    decreases |live - seen|
  {
    match cursor
    case None => Clear
    case Some(a) =>
      if a in seen then Cyclic
      else if a !in live then StoppedAt(a)
      else
        assert live - (seen + {a}) < live - seen;
        SmallerSet(live - (seen + {a}), live - seen);
        Walk(p, live, p[a], seen + {a})
  }

  lemma SmallerSet<T>(a: set<T>, b: set<T>)
    requires a < b
    ensures |a| < |b|
  {
    var x :| x in b && x !in a;
    assert |b - a| >= 1 by { assert x in b - a; }
    assert a + (b - a) == b;
    assert |a + (b - a)| == |a| + |b - a|;
  }

  ghost predicate Passed(p: Parents, live: set<Id>, id: Id, k: nat, seen: set<Id>) {
    && (forall x | x in seen :: exists j: nat :: j <= k && Up(p, id, j) == Some(x))
    && (forall j: nat | 1 <= j <= k :: LiveUp(p, live, id, j))
  }

  lemma {:induction false} WalkMeaning(p: Parents, live: set<Id>, id: Id, k: nat, seen: set<Id>)
    requires live <= p.Keys
    requires Up(p, id, k).Some?
    requires Passed(p, live, id, k, seen)
    ensures match Walk(p, live, Up(p, id, k + 1), seen)
            case Clear => ChainLive(p, live, id)
            case Cyclic => !ChainLive(p, live, id) && forall n: nat :: Up(p, id, n).Some?
            case StoppedAt(a) =>
              && !ChainLive(p, live, id)
              && a !in live
              && exists m: nat :: m > k && Up(p, id, m) == Some(a) && forall j: nat | 1 <= j < m :: LiveUp(p, live, id, j)
    decreases |live - seen|
  {
    var cursor := Up(p, id, k + 1);
    match cursor {
      case None =>
        assert EndsLive(p, live, id, k + 1);
      case Some(a) =>
        if a in seen {
          var i: nat :| i <= k && Up(p, id, i) == Some(a);
          forall n: nat ensures Up(p, id, n).Some? { RepeatNeverEnds(p, id, i, k + 1, n); }
        } else if a !in live {
          assert !LiveUp(p, live, id, k + 1);
          if ChainLive(p, live, id) {
            var n: nat :| EndsLive(p, live, id, n);
            if n <= k + 1 { UpEnds(p, id, n, k + 1); }
          }
          assert Up(p, id, k + 1) == Some(a);
        } else {
          SmallerSet(live - (seen + {a}), live - seen);
          assert Up(p, id, k + 2) == p[a];
          assert LiveUp(p, live, id, k + 1);
          assert Passed(p, live, id, k + 1, seen + {a}) by {
            forall x | x in seen + {a} ensures exists j: nat :: j <= k + 1 && Up(p, id, j) == Some(x) {
              if x in seen {
                var j: nat :| j <= k && Up(p, id, j) == Some(x);
              } else {
                assert Up(p, id, k + 1) == Some(x);
              }
            }
          }
          WalkMeaning(p, live, id, k + 1, seen + {a});
        }
    }
  }

  /** On any parent map: the walk above `id` comes out clear exactly when the chain
      ends (so is acyclic) and all of it is live. */
  lemma WalkClearIff(p: Parents, live: set<Id>, id: Id)
    requires live <= p.Keys
    ensures Walk(p, live, if id in p then p[id] else None, {id}).Clear? <==> ChainLive(p, live, id)
  {
    assert Up(p, id, 0) == Some(id);
    assert Up(p, id, 1) == if id in p then p[id] else None;
    WalkMeaning(p, live, id, 0, {id});
  }

  // ---- the downward sweep ----

  ghost predicate OnCycle(p: Parents, a: Id) {
    Descends(p, a, a)
  }

  /** The ids exactly `n` steps below `a`. */
  ghost function Level(p: Parents, a: Id, n: nat): set<Id> {
    set d | d in p && Up(p, d, n) == Some(a)
  }

  ghost function Above(p: Parents, a: Id, n: nat): set<Id> {
    set d | d in p && exists m: nat :: 1 <= m < n && Up(p, d, m) == Some(a)
  }

  lemma NextLevel(p: Parents, a: Id, n: nat)
    requires n >= 1
    ensures Level(p, a, n + 1) == set d | d in p && p[d].Some? && p[d].value in Level(p, a, n)
  {
    forall d | d in p
      ensures Up(p, d, n + 1) == Some(a) <==> p[d].Some? && p[d].value in Level(p, a, n)
    {
      UpFirst(p, d, n + 1);
      if p[d].Some? { UpFirst(p, p[d].value, n); }
    }
  }

  /** Off a cycle, no id is met twice on the way down, so the sweep must end. */
  lemma OnTwoLevels(p: Parents, a: Id, d: Id, m: nat, n: nat)
    requires 1 <= m < n && Up(p, d, m) == Some(a) && Up(p, d, n) == Some(a)
    ensures OnCycle(p, a)
  {
    UpSplit(p, d, m, n - m);
  }

  lemma LevelsDisjoint(p: Parents, a: Id, n: nat)
    requires !OnCycle(p, a)
    ensures Level(p, a, n) !! Above(p, a, n)
  {
    forall d, m: nat | d in Level(p, a, n) && 1 <= m < n ensures Up(p, d, m) != Some(a) {
      if Up(p, d, m) == Some(a) { OnTwoLevels(p, a, d, m, n); }
    }
  }

  lemma AboveAt(p: Parents, a: Id, n: nat, d: Id)
    requires n >= 1
    ensures d in Above(p, a, n + 1) <==> d in Above(p, a, n) || d in Level(p, a, n)
  {
    if d in Above(p, a, n + 1) {
      var m: nat :| 1 <= m < n + 1 && Up(p, d, m) == Some(a);
      assert m < n || d in Level(p, a, n);
    }
  }

  lemma AboveNext(p: Parents, a: Id, n: nat)
    requires n >= 1
    ensures Above(p, a, n + 1) == Above(p, a, n) + Level(p, a, n)
  {
    forall d ensures d in Above(p, a, n + 1) <==> d in Above(p, a, n) + Level(p, a, n) { AboveAt(p, a, n, d); }
  }

  /** A path to `a` passes through every shallower level. */
  lemma {:induction false} PassesLevel(p: Parents, a: Id, d: Id, m: nat, n: nat) returns (x: Id)
    requires 1 <= n <= m && Up(p, d, m) == Some(a)
    ensures x in Level(p, a, n)
    decreases m
  {
    UpFirst(p, d, m);
    if m == n { x := d; } else { x := PassesLevel(p, a, p[d].value, m - 1, n); }
  }

  /** So once a level is empty, the sweep has met every descendant. */
  lemma SweepComplete(p: Parents, a: Id, n: nat)
    requires n >= 1 && Level(p, a, n) == {}
    ensures Above(p, a, n) == set d | d in p && Descends(p, d, a)
  {
    forall d | d in p && Descends(p, d, a) ensures d in Above(p, a, n) {
      var m: nat :| m >= 1 && Up(p, d, m) == Some(a);
      if m >= n { var x := PassesLevel(p, a, d, m, n); }
    }
  }

  // ---- whether the sweep ends ----

  /** Around a cycle as often as needed. */
  lemma {:induction false} LongWayRound(p: Parents, a: Id, m: nat, n: nat) returns (j: nat)
    requires m >= 1 && Up(p, a, m) == Some(a)
    ensures j >= n && j >= 1 && Up(p, a, j) == Some(a)
    decreases n
  {
    if n <= m {
      j := m;
    } else {
      var i := LongWayRound(p, a, m, n - m);
      UpSplit(p, a, i, m);
      j := i + m;
    }
  }

  lemma CycleNeverEmpties(p: Parents, a: Id, n: nat)
    requires OnCycle(p, a) && n >= 1
    ensures Level(p, a, n) != {}
  {
    var m: nat :| m >= 1 && Up(p, a, m) == Some(a);
    var j := LongWayRound(p, a, m, n);
    var x := PassesLevel(p, a, a, j, n);
  }

  lemma SweepProgress(p: Parents, a: Id, n: nat)
    requires !OnCycle(p, a) && n >= 1 && Level(p, a, n) != {}
    ensures p.Keys - Above(p, a, n + 1) < p.Keys - Above(p, a, n)
  {
    AboveNext(p, a, n);
    LevelsDisjoint(p, a, n);
    var d :| d in Level(p, a, n);
    assert d in p.Keys - Above(p, a, n) && d !in p.Keys - Above(p, a, n + 1);
  }

  lemma {:induction false} SweepEnds(p: Parents, a: Id, n: nat) returns (k: nat)
    requires !OnCycle(p, a) && n >= 1
    ensures k >= n && Level(p, a, k) == {}
    decreases p.Keys - Above(p, a, n)
  {
    if Level(p, a, n) == {} {
      k := n;
    } else {
      SweepProgress(p, a, n);
      k := SweepEnds(p, a, n + 1);
    }
  }

  /** On any parent map: the level-by-level sweep below `a` comes to an empty level exactly
      when `a` is on no cycle. */
  lemma SweepEndsIff(p: Parents, a: Id)
    ensures (exists n: nat :: n >= 1 && Level(p, a, n) == {}) <==> !OnCycle(p, a)
  {
    if OnCycle(p, a) {
      forall n: nat | n >= 1 ensures Level(p, a, n) != {} { CycleNeverEmpties(p, a, n); }
    } else {
      var k := SweepEnds(p, a, 1);
    }
  }
}
