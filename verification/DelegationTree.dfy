/** The bounded, cycle-safe metadata tree, built over any parent pointers at all. */
module DelegationTree {
  import opened Wrappers
  import opened Ancestry
  import opened Delegations
  import opened TreeShapes
  import opened TreeSteps

  const CHILD_PAGE := 500
  const MAX_DEPTH := 16
  const MAX_NODES := 500

  function Clamp(x: int, lo: nat, hi: nat): (n: nat)
    requires lo <= hi
    ensures lo <= n <= hi && (lo <= x <= hi ==> n == x) && (x < lo ==> n == lo) && (x > hi ==> n == hi)
  {
    if x < lo then lo else if x > hi then hi else x
  }

  /** The first children, oldest first, as many as asked for within the page's bounds. */
  method Children(rows: Rows, item: Id, limit: int) returns (page: seq<Id>)
    ensures |page| <= Clamp(limit, 1, CHILD_PAGE)
    ensures page <= Listing(rows, ChildrenOf(rows, item))
    ensures |page| < Clamp(limit, 1, CHILD_PAGE) ==> |page| == |ChildrenOf(rows, item)|
    ensures forall c | c in page :: IsChild(rows, c, item)
    ensures |ChildrenOf(rows, item)| <= Clamp(limit, 1, CHILD_PAGE) ==> forall c | c in ChildrenOf(rows, item) :: c in page
    ensures page == [] ==> ChildrenOf(rows, item) == {}
    ensures |page| < CHILD_PAGE && limit == CHILD_PAGE ==> forall c | c in ChildrenOf(rows, item) :: c in page
  {
    var all := Listing(rows, ChildrenOf(rows, item));
    var most := Clamp(limit, 1, CHILD_PAGE);
    page := if |all| <= most then all else all[..most];
  }

  // ---- the builder ----

  class Builder {
    const rows: Rows
    const root: Id
    const depthLimit: nat
    var remaining: nat
    var seen: set<Id>
    var truncated: bool
    ghost var cut: Id

    constructor (rows: Rows, root: Id, depthLimit: nat, maxNodes: nat)
      requires maxNodes >= 1
      ensures this.rows == rows && this.root == root && this.depthLimit == depthLimit
      ensures State() == Cursor(maxNodes - 1, {root}, false, root)
    {
      this.rows, this.root, this.depthLimit := rows, root, depthLimit;
      remaining, seen, truncated := maxNodes - 1, {root}, false;
      cut := root;
    }

    ghost function State(): Cursor
      reads this
    {
      Cursor(remaining, seen, truncated, cut)
    }

    method Build(item: Id, depth: nat) returns (node: Node)
      requires depth <= depthLimit && remaining < CHILD_PAGE && Enters(rows, root, depthLimit, State(), item, depth)
      modifies this
      decreases depthLimit - depth, 2
      ensures Built(rows, root, depthLimit, item, old(State()), State(), node) && Shallow(node, depthLimit - depth)
    {
      if depth == depthLimit {
        node := BuildLowest(item);
        return;
      }
      var page := Children(rows, item, CHILD_PAGE);
      DistinctPage(rows, item, page);
      var built := BuildChildren(item, page, depth);
      node := Node(item, built);
      BuiltFrom(rows, root, depthLimit, item, old(State()), State(), built, page);
    }

    /** On the lowest level only whether there is a child at all is asked. */
    method BuildLowest(item: Id) returns (node: Node)
      requires Enters(rows, root, depthLimit, State(), item, depthLimit)
      modifies this`truncated, this`cut
      ensures Built(rows, root, depthLimit, item, old(State()), State(), node) && Shallow(node, 0)
    {
      var first := Children(rows, item, 1);
      LowestLevel(rows, root, depthLimit, item, State(), first);
      if first != [] { truncated, cut := true, first[0]; }
      return Node(item, []);
    }

    /** One child not seen before, with everything under it. */
    method BuildChild(item: Id, child: Id, depth: nat) returns (sub: Node)
      requires depth < depthLimit && 0 < remaining < CHILD_PAGE && IsChild(rows, child, item) && child !in seen
      requires Sound(rows, root, depthLimit, State()) && item in seen && Up(ParentsOf(rows), item, depth) == Some(root)
      requires truncated ==> CutElsewhere(rows, root, seen, cut, item)
      modifies this
      decreases depthLimit - depth, 0
      ensures var s := old(State());
              Built(rows, root, depthLimit, child, s.(remaining := s.remaining - 1, seen := s.seen + {child}), State(), sub)
      ensures Shallow(sub, depthLimit - depth - 1)
    {
      ghost var s := State();
      EntersChild(rows, root, depthLimit, s, item, depth, child);
      seen, remaining := seen + {child}, remaining - 1;
      assert State() == s.(remaining := s.remaining - 1, seen := s.seen + {child});
      sub := Build(child, depth + 1);
    }

    method BuildChildren(item: Id, page: seq<Id>, depth: nat) returns (built: seq<Node>)
      requires depth < depthLimit && remaining < CHILD_PAGE && Enters(rows, root, depthLimit, State(), item, depth)
      requires forall j | 0 <= j < |page| :: IsChild(rows, page[j], item)
      requires forall j, k | 0 <= j < k < |page| :: page[j] != page[k]
      modifies this
      decreases depthLimit - depth, 1
      ensures CountOf(built) < CHILD_PAGE && AllShallow(built, depthLimit - depth - 1)
      ensures Hanging(rows, root, depthLimit, item, old(State()), State(), built)
      ensures Through(rows, root, item, old(State()), State(), built, page)
    {
      ghost var before := State();
      built := [];
      NothingHung(rows, root, depthLimit, before, item, depth, page);
      var i := 0;
      while i < |page|
        invariant i <= |page| && remaining <= before.remaining && AllShallow(built, depthLimit - depth - 1)
        invariant Hanging(rows, root, depthLimit, item, before, State(), built)
        invariant Underway(rows, root, item, before, State(), built, page, i)
      {
        var child := page[i];
        assert child !in page[..i];
        if remaining == 0 {
          NoRoom(rows, root, depthLimit, item, before, State(), built, page, i);
          truncated, cut := true, child;
          return;
        }
        if child in seen {
          LeavesOutRoot(rows, root, depthLimit, item, before, State(), built, page, i);
          truncated, cut := true, child;
        } else {
          ghost var mid := State();
          var sub := BuildChild(item, child, depth);
          GoesOn(rows, root, depthLimit, item, before, mid, built, page, i,
                 mid.(remaining := mid.remaining - 1, seen := mid.seen + {child}), State(), sub);
          built := built + [sub];
        }
        i := i + 1;
      }
      AllThrough(rows, root, item, before, State(), built, page);
    }
  }

  datatype Tree = Tree(root: Node, nodeCount: nat, truncated: bool)

  /** On any parent pointers, cycles included: a tree with no repeated node, no deeper and no
      larger than asked for within 16 levels and 500 nodes. It is cut short exactly when it
      leaves out a descendant or its root is on a cycle; otherwise it is the root and all of
      its descendants; and one is left out only for want of room or below the lowest level. */
  method BuildTree(rows: Rows, id: Id, maxDepth: int, maxNodes: int) returns (tree: Option<Tree>)
    ensures tree.None? <==> id !in rows
    ensures tree.Some? ==>
              var t, levels, most := tree.value, Clamp(maxDepth, 0, 16), Clamp(maxNodes, 1, 500);
              && t.root.id == id && Linked(rows, t.root) && Shallow(t.root, levels)
              && t.nodeCount == Count(t.root) == |Ids(t.root)| <= most
              && Ids(t.root) <= {id} + DescendantsOf(rows, id)
              && (t.truncated <==> OnCycle(ParentsOf(rows), id) || exists d | d in DescendantsOf(rows, id) :: d !in Ids(t.root))
              && (t.truncated && !OnCycle(ParentsOf(rows), id) && t.nodeCount < most ==>
                    exists d | d in DescendantsOf(rows, id) :: d !in Ids(t.root) && Up(ParentsOf(rows), d, levels + 1) == Some(id))
  {
    if id !in rows { return None; }
    var builder := new Builder(rows, id, Clamp(maxDepth, 0, MAX_DEPTH), Clamp(maxNodes, 1, MAX_NODES));
    assert Up(ParentsOf(rows), id, 0) == Some(id);
    var root := builder.Build(id, 0);
    assert builder.seen == Ids(root);
    CutShortIff(rows, id, Clamp(maxDepth, 0, MAX_DEPTH), Clamp(maxNodes, 1, MAX_NODES), builder.State(), root);
    return Some(Tree(root, |builder.seen|, builder.truncated));
  }
}
