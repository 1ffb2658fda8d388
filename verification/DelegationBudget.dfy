/** Over every run, a branch never spends more than its root was granted. */
module DelegationBudget {
  import opened Ancestry
  import opened Sums
  import opened Delegations
  import opened DelegationInvariants

  function UnitOf(k: Kind): Unit {
    match k case Model => Turns case Tool => Calls
  }

  ghost function UsedBy(s: State, id: Id, k: Kind): nat {
    if (id, 1) in s.leases then s.leases[(id, 1)].Used(k) else 0
  }

  ghost function Spending(s: State, root: Id, k: Kind): map<Id, nat> {
    map id | id in s.rows && s.rows[id].terms.root == root :: UsedBy(s, id, k)
  }

  /** 1 when `op` is a successful call of kind `k` by a member of `root`'s branch. */
  ghost function Charge(profiles: Profiles, s: State, op: Op, root: Id, k: Kind): nat {
    if op.Consume? && op.kind == k && Accepts(profiles, s, op) && s.rows[op.cred.id].terms.root == root then 1 else 0
  }

  /** How many calls of kind `k` the branch of `root` made, counted on the trace. */
  ghost function CallsMade(profiles: Profiles, s: State, ops: seq<Op>, root: Id, k: Kind): nat
    decreases |ops|
  {
    if ops == [] then 0
    else Charge(profiles, s, ops[0], root, k) + CallsMade(profiles, Next(profiles, s, ops[0]), ops[1..], root, k)
  }

  lemma GrantedMeansPresented(rows: Rows, c: Credential, now: int)
    requires VetAttempt(rows, c, now).0
    ensures Presents(rows, c) && VetAttempt(rows, c, now).1 == rows
    ensures GrantHolds(rows[c.id], now) && ChainLive(ParentsOf(rows), LiveSet(rows, now), c.id)
  {
    WalkClearIff(ParentsOf(rows), LiveSet(rows, now), c.id);
  }

  lemma SpentOn(s: State, t: State, id: Id, root: Id, k: Kind, n: nat)
    requires t.rows == s.rows && id in s.rows
    requires forall x | x in s.rows :: UsedBy(t, x, k) == UsedBy(s, x, k) + if x == id then n else 0
    ensures Total(Spending(t, root, k)) == Total(Spending(s, root, k)) + if s.rows[id].terms.root == root then n else 0
  {
    if s.rows[id].terms.root == root {
      assert Spending(t, root, k) == Spending(s, root, k)[id := UsedBy(s, id, k) + n];
      TotalUpdate(Spending(s, root, k), id, UsedBy(s, id, k) + n);
    } else {
      assert Spending(t, root, k) == Spending(s, root, k);
    }
  }

  lemma ConsumeSpends(profiles: Profiles, s: State, op: Op, root: Id, k: Kind)
    requires Inv(s) && op.Consume? && Accepts(profiles, s, op)
    ensures Total(Spending(Next(profiles, s, op), root, k)) == Total(Spending(s, root, k)) + Charge(profiles, s, op, root, k)
  {
    GrantedMeansPresented(s.rows, op.cred, op.now);
    assert LeaseShape(s, (op.cred.id, op.cred.attempt));
    SpentOn(s, Next(profiles, s, op), op.cred.id, root, k, if op.kind == k then 1 else 0);
  }

  lemma CreateSpends(profiles: Profiles, s: State, op: Op, root: Id, k: Kind)
    requires Inv(s) && op.Create?
    ensures Total(Spending(Next(profiles, s, op), root, k)) == Total(Spending(s, root, k))
  {
    var made := NewTerms(profiles, s.rows, op.caller, op.role, op.parent, op.id, op.capability, op.now);
    if made.Success? {
      AdmittedMeans(profiles, s.rows, op.caller, op.role, op.parent, op.id, op.capability, op.now);
      InsertIs(s.rows, op.id, made.value);
      InsertedSpends(s, Insert(s.rows, op.id, made.value), op.id, made.value, root, k);
    }
  }

  lemma LeasesOwned(s: State)
    requires Leased(s)
    ensures forall k | k in s.leases :: k.0 in s.rows
  {
    forall k | k in s.leases ensures k.0 in s.rows { assert LeaseShape(s, k); }
  }

  lemma InsertedUses(s: State, after: Rows, id: Id, x: Id, k: Kind)
    requires Leased(s) && id !in s.rows
    ensures UsedBy(s.(rows := after), x, k) == UsedBy(s, x, k) && UsedBy(s, id, k) == 0
  {
    LeasesOwned(s);
  }

  lemma InsertedSpending(s: State, after: Rows, id: Id, t: Terms, root: Id, k: Kind)
    requires Leased(s) && id !in s.rows && Inserted(s.rows, after, id, t)
    ensures Spending(s.(rows := after), root, k) == if t.root == root then Spending(s, root, k)[id := 0] else Spending(s, root, k)
  {
    forall x ensures UsedBy(s.(rows := after), x, k) == UsedBy(s, x, k) && UsedBy(s, id, k) == 0 {
      InsertedUses(s, after, id, x, k);
    }
  }

  lemma InsertedSpends(s: State, after: Rows, id: Id, t: Terms, root: Id, k: Kind)
    requires Leased(s) && id !in s.rows && Inserted(s.rows, after, id, t)
    ensures Total(Spending(s.(rows := after), root, k)) == Total(Spending(s, root, k))
  {
    InsertedSpending(s, after, id, t, root, k);
    if t.root == root { TotalInsert(Spending(s, root, k), id, 0); }
  }

  lemma UsageKept(profiles: Profiles, s: State, op: Op, id: Id, k: Kind)
    requires ClaimedOnce(s.rows) && id in s.rows && !op.Create?
    requires op.Consume? ==> !Accepts(profiles, s, op)
    ensures UsedBy(Next(profiles, s, op), id, k) == UsedBy(s, id, k)
  {
  }

  lemma StepSpends(profiles: Profiles, s: State, op: Op, root: Id, k: Kind)
    requires Inv(s)
    ensures Total(Spending(Next(profiles, s, op), root, k)) == Total(Spending(s, root, k)) + Charge(profiles, s, op, root, k)
  {
    if op.Create? {
      CreateSpends(profiles, s, op, root, k);
    } else if op.Consume? && Accepts(profiles, s, op) {
      ConsumeSpends(profiles, s, op, root, k);
    } else {
      OtherSpends(profiles, s, op, root, k);
    }
  }

  lemma OtherSpends(profiles: Profiles, s: State, op: Op, root: Id, k: Kind)
    requires Inv(s) && !op.Create? && (op.Consume? ==> !Accepts(profiles, s, op))
    ensures Spending(Next(profiles, s, op), root, k) == Spending(s, root, k)
  {
    var t := Next(profiles, s, op);
    NextKeepsGrid(profiles, s, op);
    forall id | id in s.rows ensures UsedBy(t, id, k) == UsedBy(s, id, k) { UsageKept(profiles, s, op, id, k); }
    SameSpending(s, t, root, k);
  }

  lemma SameSpending(s: State, t: State, root: Id, k: Kind)
    requires SameGrid(s.rows, t.rows)
    requires forall id | id in s.rows :: UsedBy(t, id, k) == UsedBy(s, id, k)
    ensures Spending(t, root, k) == Spending(s, root, k)
  {
  }

  lemma {:induction false} RunSpends(profiles: Profiles, s: State, ops: seq<Op>, root: Id, k: Kind)
    requires Inv(s)
    ensures Total(Spending(Run(profiles, s, ops), root, k)) == Total(Spending(s, root, k)) + CallsMade(profiles, s, ops, root, k)
    decreases |ops|
  {
    if ops != [] {
      StepSpends(profiles, s, ops[0], root, k);
      NextKeepsInv(profiles, s, ops[0]);
      RunSpends(profiles, Next(profiles, s, ops[0]), ops[1..], root, k);
    }
  }

  lemma SpendingWithinBranch(s: State, root: Id, k: Kind)
    requires Inv(s) && root in s.rows && s.rows[root].terms.parent.None?
    ensures Total(Spending(s, root, k)) <= s.rows[root].terms.branchMax.Of(UnitOf(k))
  {
    var shares := Shares(s.rows, root, UnitOf(k));
    forall id | id in shares ensures Spending(s, root, k)[id] <= shares[id] {
      if (id, 1) in s.leases { assert LeaseShape(s, (id, 1)); }
    }
    TotalMonotone(Spending(s, root, k), shares);
    assert BranchBudgeted(s.rows, root, UnitOf(k));
  }

  /** The successful model calls (and likewise tool calls) of a root and all its
      descendants never add up to more than the root's branch maximum. */
  lemma BranchCallsBounded(profiles: Profiles, ops: seq<Op>, root: Id, k: Kind)
    ensures var s := Run(profiles, EMPTY, ops);
            if root in s.rows && s.rows[root].terms.parent.None?
            then CallsMade(profiles, EMPTY, ops, root, k) <= s.rows[root].terms.branchMax.Of(UnitOf(k))
            else CallsMade(profiles, EMPTY, ops, root, k) == 0
  {
    var s := Run(profiles, EMPTY, ops);
    RunKeepsInv(profiles, EMPTY, ops);
    RunSpends(profiles, EMPTY, ops, root, k);
    assert Spending(EMPTY, root, k) == map[];
    if root in s.rows && s.rows[root].terms.parent.None? {
      SpendingWithinBranch(s, root, k);
    } else {
      forall id | id in s.rows ensures s.rows[id].terms.root != root { assert RowShape(s.rows, id); }
      assert Spending(s, root, k) == map[];
    }
  }

  lemma SubtreeOfRoot(rows: Rows, root: Id, id: Id)
    requires Shape(rows) && id in rows && root in rows && rows[root].terms.parent.None?
    ensures rows[id].terms.root == root <==> id == root || Descends(ParentsOf(rows), id, root)
  {
    assert RowShape(rows, id) && RowShape(rows, root);
    DescendsStep(ParentsOf(rows), id, root);
    match rows[id].terms.parent
    case None =>
    case Some(p) => DescendsStep(ParentsOf(rows), p, root);
  }

  /** In every reachable ledger the rows charged to a root are it and its descendants. */
  lemma BranchIsSubtree(profiles: Profiles, ops: seq<Op>, root: Id, id: Id)
    requires var rows := Run(profiles, EMPTY, ops).rows; id in rows && root in rows && rows[root].terms.parent.None?
    ensures var rows := Run(profiles, EMPTY, ops).rows;
            rows[id].terms.root == root <==> id == root || Descends(ParentsOf(rows), id, root)
  {
    RunKeepsInv(profiles, EMPTY, ops);
    SubtreeOfRoot(Run(profiles, EMPTY, ops).rows, root, id);
  }

  // ---- one claim per delegation ----

  ghost function ClaimsWon(profiles: Profiles, s: State, ops: seq<Op>, id: Id): nat
    decreases |ops|
  {
    if ops == [] then 0
    else (if ops[0].Claim? && ops[0].id == id && Accepts(profiles, s, ops[0]) then 1 else 0)
         + ClaimsWon(profiles, Next(profiles, s, ops[0]), ops[1..], id)
  }

  ghost function AttemptsOf(s: State, id: Id): nat {
    if id in s.rows then s.rows[id].attempts else 0
  }

  lemma StepClaims(profiles: Profiles, s: State, op: Op, id: Id)
    ensures AttemptsOf(Next(profiles, s, op), id)
         == AttemptsOf(s, id) + if op.Claim? && op.id == id && Accepts(profiles, s, op) then 1 else 0
  {
  }

  lemma {:induction false} RunClaims(profiles: Profiles, s: State, ops: seq<Op>, id: Id)
    ensures AttemptsOf(Run(profiles, s, ops), id) == AttemptsOf(s, id) + ClaimsWon(profiles, s, ops, id)
    decreases |ops|
  {
    if ops != [] {
      StepClaims(profiles, s, ops[0], id);
      RunClaims(profiles, Next(profiles, s, ops[0]), ops[1..], id);
    }
  }

  /** No delegation is ever claimed twice, by anyone. */
  lemma ClaimedAtMostOnce(profiles: Profiles, ops: seq<Op>, id: Id)
    ensures ClaimsWon(profiles, EMPTY, ops, id) <= 1
  {
    RunKeepsInv(profiles, EMPTY, ops);
    RunClaims(profiles, EMPTY, ops, id);
  }
}
