/** What each step of the tree builder keeps. */
module TreeSteps {
  import opened Wrappers
  import opened Ancestry
  import opened Delegations
  import opened TreeShapes

  lemma NothingHung(rows: Rows, root: Id, limit: nat, s: Cursor, item: Id, depth: nat, page: seq<Id>)
    requires Enters(rows, root, limit, s, item, depth)
    ensures Hanging(rows, root, limit, item, s, s, []) && Underway(rows, root, item, s, s, [], page, 0)
  {
  }

  lemma EntersChild(rows: Rows, root: Id, limit: nat, s: Cursor, item: Id, depth: nat, child: Id)
    requires Sound(rows, root, limit, s) && item in s.seen && Up(ParentsOf(rows), item, depth) == Some(root)
    requires IsChild(rows, child, item) && child !in s.seen && s.remaining > 0
    requires s.truncated ==> CutElsewhere(rows, root, s.seen, s.cut, item)
    ensures Enters(rows, root, limit, s.(remaining := s.remaining - 1, seen := s.seen + {child}), child, depth + 1)
  {
    SeeChild(rows, root, s.seen, item, child);
    UpFirst(ParentsOf(rows), child, depth + 1);
    if s.truncated && s.cut != root { assert s.cut != child; }
  }

  lemma HangsChild(rows: Rows, root: Id, limit: nat, item: Id, before: Cursor, mid: Cursor, built: seq<Node>,
                   child: Id, entered: Cursor, after: Cursor, sub: Node)
    requires Hanging(rows, root, limit, item, before, mid, built) && IsChild(rows, child, item) && child !in mid.seen
    requires mid.remaining > 0 && entered == mid.(remaining := mid.remaining - 1, seen := mid.seen + {child})
    requires Built(rows, root, limit, child, entered, after, sub)
    ensures Hanging(rows, root, limit, item, before, after, built + [sub]) && CountOf(built) < CountOf(built + [sub])
    ensures IdsOf(built + [sub]) == IdsOf(built) + Ids(sub) && child in Ids(sub)
  {
    assert child in Ids(sub) && |Ids(sub)| >= 1;
    assert Ids(sub) !! mid.seen;
    HangOne(rows, item, built, before.seen, sub);
    if !after.truncated { NoWayBackOne(rows, before.seen, built, sub); }
  }

  lemma NoWayBackOne(rows: Rows, before: set<Id>, built: seq<Node>, sub: Node)
    requires NoWayBack(rows, IdsOf(built), before) && NoWayBack(rows, Ids(sub), before + IdsOf(built) + {sub.id})
    ensures NoWayBack(rows, IdsOf(built + [sub]), before)
  {
    AppendNode(built, sub);
  }

  lemma GoesOn(rows: Rows, root: Id, limit: nat, item: Id, before: Cursor, mid: Cursor, built: seq<Node>, page: seq<Id>, i: nat,
               entered: Cursor, after: Cursor, sub: Node)
    requires i < |page| && IsChild(rows, page[i], item) && page[i] !in mid.seen && mid.remaining > 0
    requires Hanging(rows, root, limit, item, before, mid, built) && Underway(rows, root, item, before, mid, built, page, i)
    requires entered == mid.(remaining := mid.remaining - 1, seen := mid.seen + {page[i]})
    requires Built(rows, root, limit, page[i], entered, after, sub)
    ensures Hanging(rows, root, limit, item, before, after, built + [sub])
    ensures Underway(rows, root, item, before, after, built + [sub], page, i + 1)
  {
    HangsChild(rows, root, limit, item, before, mid, built, page[i], entered, after, sub);
    ChildrenSoFar(rows, root, item, mid.seen, page, i, sub);
    if after.truncated {
      StillElsewhere(rows, root, item, before, mid, built, entered, after, sub);
    } else {
      PageSoFar(page, i, built, sub);
    }
  }

  lemma ChildrenSoFar(rows: Rows, root: Id, item: Id, seen: set<Id>, page: seq<Id>, i: nat, sub: Node)
    requires i < |page| && item in seen && page[i] !in seen && Linked(rows, sub) && sub.id == page[i]
    requires Ids(sub) * (seen + {page[i]}) == {page[i]}
    requires Covered(rows, root, item, seen, page, i)
    ensures Covered(rows, root, item, seen + Ids(sub), page, i + 1)
  {
    OnlyThisChild(rows, item, page[i], sub, seen);
    assert page[..i + 1] == page[..i] + [page[i]];
  }

  lemma PageSoFar(page: seq<Id>, i: nat, built: seq<Node>, sub: Node)
    requires i < |page| && HungUpTo(built, page, i) && page[i] in Ids(sub) && Count(sub) >= 1
    ensures HungUpTo(built + [sub], page, i + 1)
  {
    AppendNode(built, sub);
  }

  lemma StillElsewhere(rows: Rows, root: Id, item: Id, before: Cursor, mid: Cursor, built: seq<Node>, entered: Cursor, after: Cursor, sub: Node)
    requires after.truncated && Cut(rows, root, after.seen, after.cut) && item in mid.seen
    requires entered.truncated == mid.truncated && entered.cut == mid.cut
    requires mid.truncated ==> CutElsewhere(rows, root, mid.seen, mid.cut, item)
    requires CutSince(rows, root, before, mid, IdsOf(built)) && CutSince(rows, root, entered, after, Ids(sub))
    requires Ids(sub) !! mid.seen
    ensures CutElsewhere(rows, root, after.seen, after.cut, item)
    ensures CutSince(rows, root, before, after, IdsOf(built + [sub]))
  {
    AppendNode(built, sub);
  }

  /** A child that hangs here already can only be the root: this one is on a cycle. */
  lemma LeavesOutRoot(rows: Rows, root: Id, limit: nat, item: Id, before: Cursor, mid: Cursor, built: seq<Node>, page: seq<Id>, i: nat)
    requires i < |page| && IsChild(rows, page[i], item) && page[i] in mid.seen && page[i] !in page[..i]
    requires Hanging(rows, root, limit, item, before, mid, built) && Underway(rows, root, item, before, mid, built, page, i)
    ensures var after := mid.(truncated := true, cut := page[i]);
            Hanging(rows, root, limit, item, before, after, built) && Underway(rows, root, item, before, after, built, page, i + 1)
  {
    assert page[i] == root;
    RootLeftOut(rows, root, limit, item, mid);
    CoveredMore(rows, root, item, mid.seen, page, i);
  }

  lemma CoveredMore(rows: Rows, root: Id, item: Id, seen: set<Id>, page: seq<Id>, i: nat)
    requires i < |page| && Covered(rows, root, item, seen, page, i)
    ensures Covered(rows, root, item, seen, page, i + 1)
  {
    assert page[..i + 1] == page[..i] + [page[i]];
  }

  lemma RootLeftOut(rows: Rows, root: Id, limit: nat, item: Id, s: Cursor)
    requires Sound(rows, root, limit, s) && item in s.seen && IsChild(rows, root, item)
    ensures Sound(rows, root, limit, s.(truncated := true, cut := root)) && CutElsewhere(rows, root, s.seen, root, item)
  {
  }

  lemma NoRoom(rows: Rows, root: Id, limit: nat, item: Id, before: Cursor, mid: Cursor, built: seq<Node>, page: seq<Id>, i: nat)
    requires i < |page| && IsChild(rows, page[i], item) && mid.remaining == 0 && page[i] !in page[..i]
    requires Hanging(rows, root, limit, item, before, mid, built) && Underway(rows, root, item, before, mid, built, page, i)
    ensures var after := mid.(truncated := true, cut := page[i]);
            Hanging(rows, root, limit, item, before, after, built) && Through(rows, root, item, before, after, built, page)
  {
  }

  lemma AllThrough(rows: Rows, root: Id, item: Id, before: Cursor, after: Cursor, built: seq<Node>, page: seq<Id>)
    requires Underway(rows, root, item, before, after, built, page, |page|)
    ensures Through(rows, root, item, before, after, built, page)
  {
  }

  lemma BuiltFrom(rows: Rows, root: Id, limit: nat, item: Id, before: Cursor, after: Cursor, built: seq<Node>, page: seq<Id>)
    requires Hanging(rows, root, limit, item, before, after, built) && Through(rows, root, item, before, after, built, page)
    requires |page| <= CountOf(built) && !after.truncated ==> forall c | c in ChildrenOf(rows, item) :: c in page
    ensures Built(rows, root, limit, item, before, after, Node(item, built))
  {
    RootHung(rows, item, built, before.seen);
    if !after.truncated {
      forall c | c in ChildrenOf(rows, item) ensures c in IdsOf(built) { assert c in page; }
      RootClosed(rows, item, built);
      NoneBack(rows, item, page, built, before.seen);
    }
  }

  /** On the lowest level nothing is hung, and the first child, if there is one, is left out. */
  lemma LowestLevel(rows: Rows, root: Id, limit: nat, item: Id, s: Cursor, first: seq<Id>)
    requires Enters(rows, root, limit, s, item, limit)
    requires forall c | c in first :: IsChild(rows, c, item)
    requires first == [] ==> ChildrenOf(rows, item) == {}
    ensures Built(rows, root, limit, item, s, if first == [] then s else s.(truncated := true, cut := first[0]), Node(item, []))
  {
    RootHung(rows, item, [], s.seen);
    if first != [] {
      assert first[0] in first;
    } else if !s.truncated {
      RootClosed(rows, item, []);
      NoneBack(rows, item, [], [], s.seen);
    }
  }

  // ---- the whole tree ----

  lemma TreeDescends(rows: Rows, root: Node)
    requires Linked(rows, root)
    ensures Ids(root) <= {root.id} + DescendantsOf(rows, root.id)
  {
    forall d | d in Ids(root) ensures d in {root.id} + DescendantsOf(rows, root.id) {
      LinkedDescend(rows, root, d);
      if d != root.id { DescendsStep(ParentsOf(rows), d, root.id); }
    }
  }

  lemma LeftOut(rows: Rows, id: Id, ids: set<Id>, cut: Id)
    requires Cut(rows, id, ids, cut) && ids <= {id} + DescendantsOf(rows, id)
    ensures if cut == id then OnCycle(ParentsOf(rows), id) else cut in DescendantsOf(rows, id) && cut !in ids
  {
    CycleIff(rows, id);
    DescendsStep(ParentsOf(rows), cut, id);
  }

  lemma NothingLeftOut(rows: Rows, id: Id, ids: set<Id>)
    requires id in ids && ids <= {id} + DescendantsOf(rows, id) && ChildClosed(rows, ids) && NoWayBack(rows, ids, {id})
    ensures ids == {id} + DescendantsOf(rows, id) && !OnCycle(ParentsOf(rows), id)
  {
    ClosedHasDescendants(rows, ids, id);
    CycleIff(rows, id);
    if OnCycle(ParentsOf(rows), id) { assert IsChild(rows, id, rows[id].terms.parent.value); }
  }

  lemma BelowLowest(rows: Rows, id: Id, cut: Id, limit: nat)
    requires cut in rows && rows[cut].terms.parent.Some? && Up(ParentsOf(rows), rows[cut].terms.parent.value, limit) == Some(id)
    ensures Up(ParentsOf(rows), cut, limit + 1) == Some(id)
  {
    UpFirst(ParentsOf(rows), cut, limit + 1);
  }

  /** A built tree says it was cut short exactly when it leaves out a descendant or its root is
      on a cycle; and it leaves one out only for want of room or below the lowest level. */
  lemma CutShortIff(rows: Rows, id: Id, limit: nat, most: nat, after: Cursor, root: Node)
    requires id in rows && most >= 1 && Built(rows, id, limit, id, Cursor(most - 1, {id}, false, id), after, root)
    ensures Ids(root) <= {id} + DescendantsOf(rows, id)
    ensures after.truncated <==> OnCycle(ParentsOf(rows), id) || exists d | d in DescendantsOf(rows, id) :: d !in Ids(root)
    ensures after.truncated && !OnCycle(ParentsOf(rows), id) && Count(root) < most ==>
              exists d | d in DescendantsOf(rows, id) :: d !in Ids(root) && Up(ParentsOf(rows), d, limit + 1) == Some(id)
  {
    TreeDescends(rows, root);
    assert after.seen == Ids(root);
    if after.truncated {
      LeftOut(rows, id, Ids(root), after.cut);
      if after.cut != id && after.remaining > 0 { BelowLowest(rows, id, after.cut, limit); }
    } else {
      NothingLeftOut(rows, id, Ids(root));
    }
  }
}
