/** What every transaction keeps, and so what holds in every reachable ledger. */
module DelegationInvariants {
  import opened Wrappers
  import opened Ancestry
  import opened Sums
  import opened Delegations

  /** Height at most one; authority only narrows on the way down. */
  ghost predicate Shape(rows: Rows) {
    forall id | id in rows :: RowShape(rows, id)
  }

  ghost predicate RowShape(rows: Rows, id: Id)
    requires id in rows
  {
    var t := rows[id].terms;
    match t.parent
    case None => t.root == id && t.depth == 0
    case Some(p) => p in rows && rows[p].terms.parent.None? && ChildShape(t, rows[p].terms, p)
  }

  ghost predicate ChildShape(t: Terms, parent: Terms, p: Id) {
    && t.root == p && t.depth == 1 && t.maxChildren == 0
    && t.tools != {} && t.tools <= parent.tools
    && t.maxAttempts <= parent.maxAttempts
  }

  ghost predicate FanOut(rows: Rows) {
    forall p | p in rows :: |ChildrenOf(rows, p)| <= rows[p].terms.maxChildren
  }

  ghost predicate Concurrent(rows: Rows) {
    forall r | r in rows :: |ActiveChildren(rows, r)| <= rows[r].terms.maxActive
  }

  ghost function Shares(rows: Rows, root: Id, u: Unit): map<Id, nat> {
    map id | id in rows && rows[id].terms.root == root :: rows[id].terms.worker.Of(u)
  }

  /** What a branch has reserved is exactly what its members were given. */
  ghost predicate Budgeted(rows: Rows) {
    forall r, u | r in rows && rows[r].terms.parent.None? :: BranchBudgeted(rows, r, u)
  }

  ghost predicate BranchBudgeted(rows: Rows, r: Id, u: Unit)
    requires r in rows
  {
    rows[r].reserved.Of(u) == Total(Shares(rows, r, u)) <= rows[r].terms.branchMax.Of(u)
  }

  /** A delegation is claimed at most once... */
  ghost predicate ClaimedOnce(rows: Rows) {
    forall id | id in rows :: rows[id].attempts == if rows[id].status.Queued? then 0 else 1
  }

  /** ... and owns at most that one attempt's lease, spent within its limits. */
  ghost predicate Leased(s: State) {
    forall k | k in s.leases :: LeaseShape(s, k)
  }

  ghost predicate LeaseShape(s: State, k: (Id, nat))
    requires k in s.leases
  {
    var l := s.leases[k];
    && k.0 in s.rows && k.1 == 1 && !s.rows[k.0].status.Queued?
    && l.modelUsed <= l.modelLimit == s.rows[k.0].terms.worker.turns
    && l.toolUsed <= l.toolLimit == s.rows[k.0].terms.worker.calls
    && (l.state.Open? ==> s.rows[k.0].status.Running?)
  }

  ghost predicate Inv(s: State) {
    && Shape(s.rows) && FanOut(s.rows) && Concurrent(s.rows) && Budgeted(s.rows)
    && ClaimedOnce(s.rows) && Leased(s)
  }

  // ---- framing: everything but creation leaves the grid alone ----

  ghost predicate SameGrid(a: Rows, b: Rows) {
    a.Keys == b.Keys && forall id | id in a :: a[id].terms == b[id].terms && a[id].reserved == b[id].reserved
  }

  /** Nobody's status or attempt count changes either. */
  ghost predicate SameLives(a: Rows, b: Rows) {
    a.Keys == b.Keys && forall id | id in a :: a[id].status == b[id].status && a[id].attempts == b[id].attempts
  }

  lemma DemotionKeeps(rows: Rows, ids: set<Id>)
    ensures SameGrid(rows, Demote(rows, ids)) && SameLives(rows, Demote(rows, ids))
  {
  }

  lemma VettingKeeps(rows: Rows, cred: Credential, now: int)
    ensures SameGrid(rows, VetAttempt(rows, cred, now).1) && SameLives(rows, VetAttempt(rows, cred, now).1)
  {
  }

  lemma RecoveryKeepsGrid(s: State, victims: set<Id>, now: int)
    ensures SameGrid(s.rows, Recovered(s, victims, now).rows)
  {
  }

  lemma FinishKeepsGrid(rows: Rows, id: Id, outcome: Status, now: int, ids: set<Id>)
    requires id in rows
    ensures SameGrid(rows, Demote(rows[id := Ended(rows[id], outcome, now)], ids))
  {
    DemotionKeeps(rows[id := Ended(rows[id], outcome, now)], ids);
  }

  lemma NextKeepsGrid(profiles: Profiles, s: State, op: Op)
    requires !op.Create?
    ensures SameGrid(s.rows, Next(profiles, s, op).rows)
  {
    match op
    case Claim(_, _, _) =>
    case Finish(id, attempt, outcome, now) =>
      if Holds(s.rows, id, attempt) { FinishKeepsGrid(s.rows, id, outcome, now, DescendantsOf(s.rows, id)); }
    case Revoke(_, id, _) => DemotionKeeps(s.rows, DescendantsOf(s.rows, id) + {id});
    case Authorize(cred, now) => VettingKeeps(s.rows, cred, now);
    case Consume(cred, _, now) => VettingKeeps(s.rows, cred, now);
    case Recover(caller, dead, now) => RecoveryKeepsGrid(s, Recoverable(s.rows, caller, dead), now);
  }

  lemma ShapeFrame(a: Rows, b: Rows)
    requires SameGrid(a, b) && Shape(a)
    ensures Shape(b)
  {
    forall id | id in b ensures RowShape(b, id) { assert RowShape(a, id); }
  }

  lemma FanOutFrame(a: Rows, b: Rows)
    requires SameGrid(a, b) && FanOut(a)
    ensures FanOut(b)
  {
    forall p | p in b ensures |ChildrenOf(b, p)| <= b[p].terms.maxChildren {
      assert ChildrenOf(b, p) == ChildrenOf(a, p);
    }
  }

  lemma GridFrame(a: Rows, b: Rows)
    requires SameGrid(a, b) && Shape(a) && FanOut(a) && Budgeted(a)
    ensures Shape(b) && FanOut(b) && Budgeted(b)
  {
    ShapeFrame(a, b);
    FanOutFrame(a, b);
    forall r, u | r in b && b[r].terms.parent.None? ensures BranchBudgeted(b, r, u) {
      assert Shares(b, r, u) == Shares(a, r, u);
      assert BranchBudgeted(a, r, u);
    }
  }

  /** No new running row: the concurrency bound carries over. */
  lemma QuietFrame(a: Rows, b: Rows)
    requires SameGrid(a, b) && Concurrent(a)
    requires forall id | id in a :: b[id].status.Running? ==> a[id].status.Running?
    ensures Concurrent(b)
  {
    forall r | r in b ensures |ActiveChildren(b, r)| <= b[r].terms.maxActive {
      SubsetSize(ActiveChildren(b, r), ActiveChildren(a, r));
    }
  }

  // ---- creation ----

  ghost predicate RootAdmissible(rows: Rows, id: Id, t: Terms) {
    && id !in rows && t.parent.None? && t.root == id && t.depth == 0
    && forall u: Unit :: t.worker.Of(u) <= t.branchMax.Of(u)
  }

  ghost predicate ChildAdmissible(rows: Rows, id: Id, t: Terms, p: Id) {
    && id !in rows && t.parent == Some(p) && p in rows && rows[p].terms.parent.None?
    && ChildShape(t, rows[p].terms, p)
    && |ChildrenOf(rows, p)| < rows[p].terms.maxChildren
    && forall u: Unit :: rows[p].reserved.Of(u) + t.worker.Of(u) <= rows[p].terms.branchMax.Of(u)
  }

  ghost predicate Admissible(rows: Rows, id: Id, t: Terms) {
    match t.parent case None => RootAdmissible(rows, id, t) case Some(p) => ChildAdmissible(rows, id, t, p)
  }

  lemma Unreferenced(rows: Rows, id: Id)
    requires Shape(rows) && id !in rows
    ensures forall x | x in rows :: rows[x].terms.root != id && rows[x].terms.parent != Some(id)
  {
    forall x | x in rows ensures rows[x].terms.root != id && rows[x].terms.parent != Some(id) {
      assert RowShape(rows, x);
    }
  }

  /** What the admission checks establish: only a root ever has room for a child. */
  lemma AdmittedMeans(profiles: Profiles, rows: Rows, caller: Caller, role: string, parent: Option<Id>,
                      id: Id, capability: nat, now: int)
    requires Shape(rows)
    requires NewTerms(profiles, rows, caller, role, parent, id, capability, now).Success?
    ensures var t := NewTerms(profiles, rows, caller, role, parent, id, capability, now).value;
            t.parent == parent && Admissible(rows, id, t)
  {
    if parent.Some? { assert RowShape(rows, parent.value); }
  }

  /** An insertion, column by column. */
  ghost predicate Inserted(rows: Rows, after: Rows, id: Id, t: Terms) {
    && after.Keys == rows.Keys + {id}
    && after[id] == FreshRow(t)
    && forall x | x in rows ::
         && after[x].terms == rows[x].terms && after[x].status == rows[x].status && after[x].attempts == rows[x].attempts
         && after[x].reserved == if t.parent.Some? && x == t.root then rows[x].reserved.Plus(t.worker) else rows[x].reserved
  }

  lemma InsertedShape(rows: Rows, after: Rows, id: Id, t: Terms)
    requires Shape(rows) && Admissible(rows, id, t) && Inserted(rows, after, id, t)
    ensures Shape(after)
  {
    forall x | x in after ensures RowShape(after, x) {
      if x != id { assert RowShape(rows, x); }
    }
  }

  lemma InsertedChildren(rows: Rows, after: Rows, id: Id, t: Terms, q: Id)
    requires Inserted(rows, after, id, t) && id !in rows
    ensures ChildrenOf(after, q) == ChildrenOf(rows, q) + if t.parent == Some(q) then {id} else {}
  {
  }

  lemma InsertedActive(rows: Rows, after: Rows, id: Id, t: Terms, q: Id)
    requires Inserted(rows, after, id, t) && id !in rows
    ensures ActiveChildren(after, q) == ActiveChildren(rows, q)
  {
  }

  lemma InsertedFanOut(rows: Rows, after: Rows, id: Id, t: Terms)
    requires Shape(rows) && FanOut(rows) && Admissible(rows, id, t) && Inserted(rows, after, id, t)
    ensures FanOut(after)
  {
    Unreferenced(rows, id);
    assert ChildrenOf(rows, id) == {};
    forall q | q in after ensures |ChildrenOf(after, q)| <= after[q].terms.maxChildren {
      InsertedChildren(rows, after, id, t, q);
    }
  }

  lemma InsertedConcurrent(rows: Rows, after: Rows, id: Id, t: Terms)
    requires Shape(rows) && Concurrent(rows) && Admissible(rows, id, t) && Inserted(rows, after, id, t)
    ensures Concurrent(after)
  {
    Unreferenced(rows, id);
    assert ActiveChildren(rows, id) == {};
    forall q | q in after ensures |ActiveChildren(after, q)| <= after[q].terms.maxActive {
      InsertedActive(rows, after, id, t, q);
    }
  }

  lemma InsertedShares(rows: Rows, after: Rows, id: Id, t: Terms, r: Id, u: Unit)
    requires Inserted(rows, after, id, t) && id !in rows
    ensures Total(Shares(after, r, u)) == Total(Shares(rows, r, u)) + if r == t.root then t.worker.Of(u) else 0
  {
    if r == t.root {
      assert Shares(after, r, u) == Shares(rows, r, u)[id := t.worker.Of(u)];
      TotalInsert(Shares(rows, r, u), id, t.worker.Of(u));
    } else {
      assert Shares(after, r, u) == Shares(rows, r, u);
    }
  }

  lemma InsertedBudget(rows: Rows, after: Rows, id: Id, t: Terms, r: Id, u: Unit)
    requires Shape(rows) && Budgeted(rows) && Admissible(rows, id, t) && Inserted(rows, after, id, t)
    requires r in after && after[r].terms.parent.None?
    ensures BranchBudgeted(after, r, u)
  {
    InsertedShares(rows, after, id, t, r, u);
    if r == id {
      Unreferenced(rows, id);
      assert Shares(rows, r, u) == map[];
    } else {
      assert BranchBudgeted(rows, r, u);
    }
  }

  lemma InsertIs(rows: Rows, id: Id, t: Terms)
    requires Admissible(rows, id, t)
    ensures Inserted(rows, Insert(rows, id, t), id, t)
  {
  }

  lemma InsertedKeepsInv(s: State, after: Rows, id: Id, t: Terms)
    requires Inv(s) && Admissible(s.rows, id, t) && Inserted(s.rows, after, id, t)
    ensures Inv(s.(rows := after))
  {
    InsertedShape(s.rows, after, id, t);
    InsertedFanOut(s.rows, after, id, t);
    InsertedConcurrent(s.rows, after, id, t);
    forall r, u | r in after && after[r].terms.parent.None? ensures BranchBudgeted(after, r, u) {
      InsertedBudget(s.rows, after, id, t, r, u);
    }
    InsertedLeased(s, after, id, t);
  }

  lemma InsertedLeased(s: State, after: Rows, id: Id, t: Terms)
    requires ClaimedOnce(s.rows) && Leased(s) && Inserted(s.rows, after, id, t)
    ensures ClaimedOnce(after) && Leased(s.(rows := after))
  {
    forall k | k in s.leases ensures LeaseShape(s.(rows := after), k) { assert LeaseShape(s, k); }
  }

  // ---- every step, every run ----

  lemma CreateKeepsInv(profiles: Profiles, s: State, op: Op)
    requires Inv(s) && op.Create?
    ensures Inv(Next(profiles, s, op))
  {
    var made := NewTerms(profiles, s.rows, op.caller, op.role, op.parent, op.id, op.capability, op.now);
    if made.Success? {
      AdmittedMeans(profiles, s.rows, op.caller, op.role, op.parent, op.id, op.capability, op.now);
      InsertIs(s.rows, op.id, made.value);
      InsertedKeepsInv(s, Insert(s.rows, op.id, made.value), op.id, made.value);
    }
  }

  lemma LifecycleKept(profiles: Profiles, s: State, op: Op)
    requires !op.Create? && ClaimedOnce(s.rows) && Leased(s)
    ensures ClaimedOnce(Next(profiles, s, op).rows) && Leased(Next(profiles, s, op))
  {
    var t := Next(profiles, s, op);
    forall k | k in t.leases ensures LeaseShape(t, k) {
      LeaseKept(profiles, s, op, k);
    }
  }

  /** A lease that is untouched, spent from within its limits, or closed. */
  lemma LeaseFrame(s: State, t: State, k: (Id, nat))
    requires SameGrid(s.rows, t.rows) && k in s.leases && k in t.leases && LeaseShape(s, k)
    requires !s.rows[k.0].status.Queued? ==> !t.rows[k.0].status.Queued?
    requires t.leases[k].modelLimit == s.leases[k].modelLimit && t.leases[k].toolLimit == s.leases[k].toolLimit
    requires t.leases[k].modelUsed <= t.leases[k].modelLimit && t.leases[k].toolUsed <= t.leases[k].toolLimit
    requires t.leases[k].state.Open? ==> s.leases[k].state.Open? && t.rows[k.0].status.Running?
    ensures LeaseShape(t, k)
  {
  }

  lemma LeaseKept(profiles: Profiles, s: State, op: Op, k: (Id, nat))
    requires !op.Create? && ClaimedOnce(s.rows)
    requires k in Next(profiles, s, op).leases
    requires k in s.leases ==> LeaseShape(s, k)
    ensures LeaseShape(Next(profiles, s, op), k)
  {
    NextKeepsGrid(profiles, s, op);
    match op
    case Claim(_, _, _) =>
    case Finish(id, attempt, outcome, now) =>
      if Holds(s.rows, id, attempt) { LeaseOfFinished(s, id, attempt, outcome, now, k); }
    case Revoke(_, id, _) => DemotionKeeps(s.rows, DescendantsOf(s.rows, id) + {id});
    case Authorize(cred, now) => VettingKeeps(s.rows, cred, now);
    case Consume(cred, _, now) => VettingKeeps(s.rows, cred, now);
    case Recover(caller, dead, now) => LeaseOfRecovered(s, Recoverable(s.rows, caller, dead), now, k);
  }

  lemma LeaseOfFinished(s: State, id: Id, attempt: nat, outcome: Terminal, now: int, k: (Id, nat))
    requires Holds(s.rows, id, attempt) && ClaimedOnce(s.rows) && k in s.leases && LeaseShape(s, k)
    ensures var t := State(Demote(s.rows[id := Ended(s.rows[id], outcome, now)], DescendantsOf(s.rows, id)),
                           CloseLease(s.leases, id, attempt, outcome));
            k in t.leases && LeaseShape(t, k)
  {
    var rows := s.rows[id := Ended(s.rows[id], outcome, now)];
    FinishKeepsGrid(s.rows, id, outcome, now, DescendantsOf(s.rows, id));
    DemotionKeeps(rows, DescendantsOf(s.rows, id));
    LeaseFrame(s, State(Demote(rows, DescendantsOf(s.rows, id)), CloseLease(s.leases, id, attempt, outcome)), k);
  }

  lemma LeaseOfRecovered(s: State, victims: set<Id>, now: int, k: (Id, nat))
    requires forall id | id in victims :: id in s.rows && s.rows[id].status.Running?
    requires ClaimedOnce(s.rows) && k in s.leases && LeaseShape(s, k)
    ensures LeaseShape(Recovered(s, victims, now), k)
  {
    RecoveryKeepsGrid(s, victims, now);
    LeaseFrame(s, Recovered(s, victims, now), k);
  }

  lemma StartedConcurrent(a: Rows, b: Rows, id: Id)
    requires Shape(a) && Concurrent(a) && SameGrid(a, b) && id in a && !a[id].status.Running?
    requires forall x | x in a && x != id :: b[x].status == a[x].status
    requires a[id].terms.parent.Some? ==>
               var r := a[id].terms.root; r in a && |ActiveChildren(a, r)| < a[r].terms.maxActive
    ensures Concurrent(b)
  {
    var t := a[id].terms;
    forall r | r in b ensures |ActiveChildren(b, r)| <= b[r].terms.maxActive {
      StartedActive(a, b, id, r);
      SubsetSize(ActiveChildren(b, r), ActiveChildren(a, r) + if t.parent.Some? && r == t.root then {id} else {});
    }
  }

  lemma StartedActive(a: Rows, b: Rows, id: Id, r: Id)
    requires SameGrid(a, b) && id in a
    requires forall x | x in a && x != id :: b[x].status == a[x].status
    ensures ActiveChildren(b, r) <= ActiveChildren(a, r) + if a[id].terms.parent.Some? && r == a[id].terms.root then {id} else {}
  {
  }

  lemma OnlyClaimsStart(profiles: Profiles, s: State, op: Op)
    requires !op.Create? && !(op.Claim? && MayClaim(s, op.caller, op.id, op.now))
    ensures forall id | id in s.rows ::
              Next(profiles, s, op).rows[id].status.Running? ==> s.rows[id].status.Running?
  {
    NextKeepsGrid(profiles, s, op);
  }

  /** Every transaction keeps the forest's shape, fan-out, concurrency, budgets and leases. */
  lemma NextKeepsInv(profiles: Profiles, s: State, op: Op)
    requires Inv(s)
    ensures Inv(Next(profiles, s, op))
  {
    if op.Create? {
      CreateKeepsInv(profiles, s, op);
    } else {
      var t := Next(profiles, s, op);
      NextKeepsGrid(profiles, s, op);
      GridFrame(s.rows, t.rows);
      LifecycleKept(profiles, s, op);
      if op.Claim? && MayClaim(s, op.caller, op.id, op.now) {
        StartedConcurrent(s.rows, t.rows, op.id);
      } else {
        OnlyClaimsStart(profiles, s, op);
        QuietFrame(s.rows, t.rows);
      }
    }
  }

  /** So every ledger reachable from an empty database satisfies all of them. */
  lemma {:induction false} RunKeepsInv(profiles: Profiles, s: State, ops: seq<Op>)
    requires Inv(s)
    ensures Inv(Run(profiles, s, ops))
    decreases |ops|
  {
    if ops != [] {
      NextKeepsInv(profiles, s, ops[0]);
      RunKeepsInv(profiles, Next(profiles, s, ops[0]), ops[1..]);
    }
  }
}
