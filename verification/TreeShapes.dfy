/** Trees over parent pointers: what hangs where, and what being cut short means. */
module TreeShapes {
  import opened Wrappers
  import opened Ancestry
  import opened Ordering
  import opened Delegations

  datatype Node = Node(id: Id, children: seq<Node>)

  function Ids(n: Node): set<Id> {
    {n.id} + IdsOf(n.children)
  }

  function IdsOf(ns: seq<Node>): set<Id> {
    if ns == [] then {} else IdsOf(ns[..|ns| - 1]) + Ids(ns[|ns| - 1])
  }

  function Count(n: Node): nat {
    1 + CountOf(n.children)
  }

  function CountOf(ns: seq<Node>): nat {
    if ns == [] then 0 else CountOf(ns[..|ns| - 1]) + Count(ns[|ns| - 1])
  }

  /** Every edge of the tree is a parent pointer of the table. */
  ghost predicate Linked(rows: Rows, n: Node) {
    forall c | c in n.children :: c.id in rows && rows[c.id].terms.parent == Some(n.id) && Linked(rows, c)
  }

  /** No child of a member is missing. */
  ghost predicate ChildClosed(rows: Rows, ids: set<Id>) {
    forall c | c in rows && rows[c].terms.parent.Some? && rows[c].terms.parent.value in ids :: c in ids
  }

  lemma AppendNode(ns: seq<Node>, n: Node)
    ensures IdsOf(ns + [n]) == IdsOf(ns) + Ids(n) && CountOf(ns + [n]) == CountOf(ns) + Count(n)
  {
    assert (ns + [n])[..|ns|] == ns;
  }

  // ---- what the shape of the tree says about descent ----

  lemma {:induction false} LinkedDescend(rows: Rows, n: Node, d: Id)
    requires Linked(rows, n) && d in Ids(n)
    ensures d == n.id || Descends(ParentsOf(rows), d, n.id)
    decreases n
  {
    if d != n.id {
      var c := MemberOf(n.children, d);
      DescendsStep(ParentsOf(rows), c.id, n.id);
      LinkedDescend(rows, c, d);
      if d != c.id { DescendsTrans(ParentsOf(rows), d, c.id, n.id); }
    }
  }

  lemma {:induction false} MemberOf(ns: seq<Node>, d: Id) returns (c: Node)
    requires d in IdsOf(ns)
    ensures c in ns && d in Ids(c)
    decreases |ns|
  {
    if d in Ids(ns[|ns| - 1]) { c := ns[|ns| - 1]; } else { c := MemberOf(ns[..|ns| - 1], d); }
  }

  lemma {:induction false} ClosedHolds(rows: Rows, ids: set<Id>, a: Id, d: Id, m: nat)
    requires ChildClosed(rows, ids) && a in ids && Up(ParentsOf(rows), d, m) == Some(a)
    ensures d in ids
    decreases m
  {
    if m > 0 {
      UpFirst(ParentsOf(rows), d, m);
      ClosedHolds(rows, ids, a, rows[d].terms.parent.value, m - 1);
    }
  }

  lemma ClosedHasDescendants(rows: Rows, ids: set<Id>, a: Id)
    requires ChildClosed(rows, ids) && a in ids
    ensures DescendantsOf(rows, a) <= ids
  {
    forall d | d in DescendantsOf(rows, a) ensures d in ids {
      var m: nat :| m >= 1 && Up(ParentsOf(rows), d, m) == Some(a);
      ClosedHolds(rows, ids, a, d, m);
    }
  }

  // ---- one level of children ----

  function KeysOf(rows: Rows, ids: set<Id>): (keys: set<Key>)
    requires ids <= rows.Keys
  {
    set id | id in ids :: Key(rows[id].terms.createdTs, id)
  }

  lemma {:induction false} KeysCount(rows: Rows, ids: set<Id>)
    requires ids <= rows.Keys
    ensures |KeysOf(rows, ids)| == |ids|
    decreases |ids|
  {
    if ids != {} {
      var id :| id in ids;
      KeysCount(rows, ids - {id});
      assert KeysOf(rows, ids) == KeysOf(rows, ids - {id}) + {Key(rows[id].terms.createdTs, id)};
    }
  }

  /** The ids in creation order. */
  function Listing(rows: Rows, ids: set<Id>): (all: seq<Id>)
    requires ids <= rows.Keys
    ensures |all| == |ids| && forall c :: c in all <==> c in ids
  {
    var keys := Sorted(KeysOf(rows, ids));
    var all := seq(|keys|, i requires 0 <= i < |keys| => keys[i].id);
    KeysCount(rows, ids);
    ListingHolds(rows, ids, keys, all);
    all
  }

  lemma ListingHolds(rows: Rows, ids: set<Id>, keys: seq<Key>, all: seq<Id>)
    requires ids <= rows.Keys && |all| == |keys|
    requires forall i | 0 <= i < |keys| :: all[i] == keys[i].id
    requires forall k :: k in keys <==> k in KeysOf(rows, ids)
    ensures forall c :: c in all <==> c in ids
  {
    forall c ensures c in all <==> c in ids { Listed(rows, ids, keys, all, c); }
  }

  lemma Listed(rows: Rows, ids: set<Id>, keys: seq<Key>, all: seq<Id>, c: Id)
    requires ids <= rows.Keys && |all| == |keys|
    requires forall i | 0 <= i < |keys| :: all[i] == keys[i].id
    requires forall k :: k in keys <==> k in KeysOf(rows, ids)
    ensures c in all <==> c in ids
  {
    if c in ids {
      var k := Key(rows[c].terms.createdTs, c);
      assert k in KeysOf(rows, ids);
      var i :| 0 <= i < |keys| && keys[i] == k;
      assert all[i] == c;
    }
    if c in all {
      var i :| 0 <= i < |all| && all[i] == c;
      assert keys[i] in keys;
    }
  }

  // ---- hanging subtrees ----

  /** The subtrees hung under `item` so far, outside the ids already seen. */
  ghost predicate Hung(rows: Rows, item: Id, built: seq<Node>, before: set<Id>) {
    && IdsOf(built) !! before
    && CountOf(built) == |IdsOf(built)|
    && forall c | c in built :: c.id in rows && rows[c.id].terms.parent == Some(item) && Linked(rows, c)
  }

  lemma HangOne(rows: Rows, item: Id, built: seq<Node>, before: set<Id>, sub: Node)
    requires Hung(rows, item, built, before)
    requires sub.id in rows && rows[sub.id].terms.parent == Some(item) && Linked(rows, sub)
    requires Ids(sub) !! before + IdsOf(built) && Count(sub) == |Ids(sub)|
    ensures Hung(rows, item, built + [sub], before)
    ensures IdsOf(built + [sub]) == IdsOf(built) + Ids(sub) && CountOf(built + [sub]) == CountOf(built) + Count(sub)
    ensures ChildClosed(rows, IdsOf(built)) && ChildClosed(rows, Ids(sub)) ==> ChildClosed(rows, IdsOf(built + [sub]))
  {
    AppendNode(built, sub);
    assert |IdsOf(built) + Ids(sub)| == |IdsOf(built)| + |Ids(sub)|;
  }

  lemma RootHung(rows: Rows, item: Id, built: seq<Node>, before: set<Id>)
    requires item in before && Hung(rows, item, built, before)
    ensures var node := Node(item, built);
            && Linked(rows, node) && Ids(node) * before == {item}
            && Count(node) == |Ids(node)| && before + IdsOf(built) == before + Ids(node)
  {
    assert |{item} + IdsOf(built)| == 1 + |IdsOf(built)|;
  }

  lemma RootClosed(rows: Rows, item: Id, built: seq<Node>)
    requires ChildClosed(rows, IdsOf(built))
    requires forall c | c in ChildrenOf(rows, item) :: c in IdsOf(built)
    ensures ChildClosed(rows, Ids(Node(item, built)))
  {
  }

  // ---- what being cut short means ----

  /** Everything seen but the root hangs below something seen. */
  ghost predicate Rooted(rows: Rows, root: Id, seen: set<Id>) {
    root in seen && forall x | x in seen && x != root :: x in rows && rows[x].terms.parent.Some? && rows[x].terms.parent.value in seen
  }

  ghost predicate IsChild(rows: Rows, c: Id, item: Id) {
    c in rows && rows[c].terms.parent == Some(item)
  }

  /** Nothing hangs below `item` yet, unless the root itself does. */
  ghost predicate Bare(rows: Rows, root: Id, seen: set<Id>, item: Id) {
    forall x | x in seen && IsChild(rows, x, item) :: x == root
  }

  /** `cut` hangs below something seen and was left out, or is the root itself. */
  ghost predicate Cut(rows: Rows, root: Id, seen: set<Id>, cut: Id) {
    cut in rows && rows[cut].terms.parent.Some? && rows[cut].terms.parent.value in seen && (cut == root || cut !in seen)
  }

  ghost predicate CutElsewhere(rows: Rows, root: Id, seen: set<Id>, cut: Id, item: Id) {
    Cut(rows, root, seen, cut) && (cut == root || !IsChild(rows, cut, item))
  }

  /** Why it was left out: it is the root, or there was no room, or it is below the lowest level. */
  ghost predicate Excused(rows: Rows, root: Id, cut: Id, remaining: nat, depthLimit: nat) {
    || cut == root || remaining == 0
    || (cut in rows && rows[cut].terms.parent.Some? && Up(ParentsOf(rows), rows[cut].terms.parent.value, depthLimit) == Some(root))
  }

  /** No row seen before hangs below these. */
  ghost predicate NoWayBack(rows: Rows, ids: set<Id>, before: set<Id>) {
    forall c, x | c in before && x in ids :: !IsChild(rows, c, x)
  }

  lemma SeeChild(rows: Rows, root: Id, seen: set<Id>, item: Id, child: Id)
    requires Rooted(rows, root, seen) && item in seen && IsChild(rows, child, item) && child !in seen
    ensures Rooted(rows, root, seen + {child}) && Bare(rows, root, seen + {child}, child)
  {
  }

  /** A root is on a cycle exactly when it hangs below itself or something below it. */
  lemma CycleIff(rows: Rows, root: Id)
    ensures OnCycle(ParentsOf(rows), root)
       <==> root in rows && rows[root].terms.parent.Some? && rows[root].terms.parent.value in {root} + DescendantsOf(rows, root)
  {
    var p := ParentsOf(rows);
    DescendsStep(p, root, root);
    if root in rows && rows[root].terms.parent.Some? {
      var q := rows[root].terms.parent.value;
      if Descends(p, q, root) { DescendsStep(p, q, root); }
    }
  }

  /** The place cut short hangs below one of these. */
  ghost predicate CutWithin(rows: Rows, ids: set<Id>, cut: Id) {
    cut in rows && rows[cut].terms.parent.Some? && rows[cut].terms.parent.value in ids
  }

  lemma DistinctPage(rows: Rows, item: Id, page: seq<Id>)
    requires page <= Listing(rows, ChildrenOf(rows, item))
    ensures forall j, k | 0 <= j < k < |page| :: page[j] != page[k]
    ensures forall j | 0 <= j < |page| :: IsChild(rows, page[j], item)
  {
    var ids := ChildrenOf(rows, item);
    var all := Listing(rows, ids);
    forall j | 0 <= j < |page| ensures IsChild(rows, page[j], item) { assert all[j] in all && all[j] == page[j]; }
    forall j, k | 0 <= j < k < |page| ensures page[j] != page[k] { ListedTwice(rows, ids, j, k); }
  }

  lemma ListedTwice(rows: Rows, ids: set<Id>, j: nat, k: nat)
    requires ids <= rows.Keys && j < k < |Listing(rows, ids)|
    ensures Listing(rows, ids)[j] != Listing(rows, ids)[k]
  {
    var keys := Sorted(KeysOf(rows, ids));
    KeysCount(rows, ids);
    assert Listing(rows, ids)[j] == keys[j].id && Listing(rows, ids)[k] == keys[k].id;
    assert keys[j] in KeysOf(rows, ids) && keys[k] in KeysOf(rows, ids);
  }

  /** With all of `item`'s children hung anew, none of what was there before hangs below it. */
  lemma NoneBack(rows: Rows, item: Id, page: seq<Id>, built: seq<Node>, before: set<Id>)
    requires item in before && Hung(rows, item, built, before) && NoWayBack(rows, IdsOf(built), before)
    requires forall j | 0 <= j < |page| :: page[j] in IdsOf(built)
    requires forall c | c in ChildrenOf(rows, item) :: c in page
    ensures NoWayBack(rows, Ids(Node(item, built)), before)
  {
    forall c, x | c in before && x in Ids(Node(item, built)) ensures !IsChild(rows, c, x) {
      assert c in page ==> c in IdsOf(built);
    }
  }

  lemma {:induction false} LinkedParents(rows: Rows, n: Node, x: Id)
    requires Linked(rows, n) && x in Ids(n) && x != n.id
    ensures x in rows && rows[x].terms.parent.Some? && rows[x].terms.parent.value in Ids(n)
    decreases n
  {
    var c := MemberOf(n.children, x);
    ChildIds(n.children, c);
    if x != c.id { LinkedParents(rows, c, x); }
  }

  lemma {:induction false} ChildIds(ns: seq<Node>, c: Node)
    requires c in ns
    ensures Ids(c) <= IdsOf(ns)
    decreases |ns|
  {
    if c != ns[|ns| - 1] { ChildIds(ns[..|ns| - 1], c); }
  }

  /** Below a child nothing else hangs directly below its parent. */
  lemma OnlyThisChild(rows: Rows, item: Id, child: Id, sub: Node, before: set<Id>)
    requires Linked(rows, sub) && sub.id == child && item in before && Ids(sub) * (before + {child}) == {child} && child !in before
    ensures forall x | x in Ids(sub) && IsChild(rows, x, item) :: x == child
  {
    forall x | x in Ids(sub) && IsChild(rows, x, item) ensures x == child {
      if x != child { LinkedParents(rows, sub, x); }
    }
  }

  /** No more than `levels` below this node. */
  ghost predicate Shallow(n: Node, levels: int) {
    levels >= 0 && forall c | c in n.children :: Shallow(c, levels - 1)
  }

  ghost predicate AllShallow(ns: seq<Node>, levels: int) {
    forall c | c in ns :: Shallow(c, levels)
  }

  // ---- the builder, step by step ----

  /** What the builder carries along: room left, ids seen, whether and where it left one out. */
  datatype Cursor = Cursor(remaining: nat, seen: set<Id>, truncated: bool, cut: Id)

  ghost predicate Sound(rows: Rows, root: Id, limit: nat, s: Cursor) {
    && Rooted(rows, root, s.seen)
    && (s.truncated ==> Cut(rows, root, s.seen, s.cut) && Excused(rows, root, s.cut, s.remaining, limit))
  }

  /** About to build below `item`, `depth` levels down. */
  ghost predicate Enters(rows: Rows, root: Id, limit: nat, s: Cursor, item: Id, depth: nat) {
    && Sound(rows, root, limit, s) && item in s.seen && Bare(rows, root, s.seen, item)
    && Up(ParentsOf(rows), item, depth) == Some(root) && (s.truncated ==> CutElsewhere(rows, root, s.seen, s.cut, item))
  }

  /** Where a place left out since `before` can be. */
  ghost predicate CutSince(rows: Rows, root: Id, before: Cursor, after: Cursor, ids: set<Id>) {
    after.truncated ==> after.cut == root || (before.truncated && after.cut == before.cut) || CutWithin(rows, ids, after.cut)
  }

  /** The whole subtree of `item` has been built. */
  ghost predicate Built(rows: Rows, root: Id, limit: nat, item: Id, before: Cursor, after: Cursor, node: Node) {
    && node.id == item && Linked(rows, node) && Count(node) == |Ids(node)|
    && after.seen == before.seen + Ids(node) && Ids(node) * before.seen == {item}
    && after.remaining + Count(node) == before.remaining + 1
    && (before.truncated ==> after.truncated)
    && (!after.truncated ==> ChildClosed(rows, Ids(node)) && NoWayBack(rows, Ids(node), before.seen))
    && Sound(rows, root, limit, after) && CutSince(rows, root, before, after, Ids(node))
  }

  /** Some subtrees have been hung below `item`. */
  ghost predicate Hanging(rows: Rows, root: Id, limit: nat, item: Id, before: Cursor, after: Cursor, built: seq<Node>) {
    && Hung(rows, item, built, before.seen) && after.seen == before.seen + IdsOf(built) && item in before.seen
    && after.remaining + CountOf(built) == before.remaining
    && (before.truncated ==> after.truncated)
    && (!after.truncated ==> ChildClosed(rows, IdsOf(built)) && NoWayBack(rows, IdsOf(built), before.seen))
    && Sound(rows, root, limit, after)
  }

  /** The first `i` children have been dealt with, and more may come. */
  ghost predicate Underway(rows: Rows, root: Id, item: Id, before: Cursor, after: Cursor, built: seq<Node>, page: seq<Id>, i: nat) {
    && Covered(rows, root, item, after.seen, page, i)
    && (after.truncated ==> CutElsewhere(rows, root, after.seen, after.cut, item))
    && CutSince(rows, root, before, after, IdsOf(built))
    && (!after.truncated ==> HungUpTo(built, page, i))
  }

  /** What hangs below `item` is of this part of the page, or the root. */
  ghost predicate Covered(rows: Rows, root: Id, item: Id, seen: set<Id>, page: seq<Id>, i: nat) {
    i <= |page| && forall x | x in seen && IsChild(rows, x, item) :: x == root || x in page[..i]
  }

  ghost predicate HungUpTo(built: seq<Node>, page: seq<Id>, i: nat) {
    i <= |page| && i <= CountOf(built) && forall j | 0 <= j < i :: page[j] in IdsOf(built)
  }

  /** All children have been dealt with, or there was no room for more. */
  ghost predicate Through(rows: Rows, root: Id, item: Id, before: Cursor, after: Cursor, built: seq<Node>, page: seq<Id>) {
    && CutSince(rows, root, before, after, {item} + IdsOf(built))
    && (!after.truncated ==> HungUpTo(built, page, |page|))
  }
}
