/** One ledger under many processes: what any transactions of the others leave true of what
    this delegation has used. */
module Interference {
  import opened Ancestry
  import opened Delegations
  import opened DelegationInvariants
  import opened DelegationBudget

  ghost predicate Reaches(profiles: Profiles, s: State, t: State) {
    exists ops :: Run(profiles, s, ops) == t
  }

  lemma {:induction false} RunConcat(profiles: Profiles, s: State, a: seq<Op>, b: seq<Op>)
    ensures Run(profiles, s, a + b) == Run(profiles, Run(profiles, s, a), b)
    decreases |a|
  {
    if a == [] {
      assert a + b == b;
    } else {
      assert (a + b)[1..] == a[1..] + b;
      RunConcat(profiles, Next(profiles, s, a[0]), a[1..], b);
    }
  }

  lemma ConsumeUses(profiles: Profiles, s: State, op: Op, id: Id, k: Kind)
    requires Inv(s) && op.Consume? && Accepts(profiles, s, op)
    ensures UsedBy(Next(profiles, s, op), id, k) == UsedBy(s, id, k) + if op.kind == k && op.cred.id == id then 1 else 0
  {
    GrantedMeansPresented(s.rows, op.cred, op.now);
    assert LeaseShape(s, (op.cred.id, op.cred.attempt));
  }

  lemma OtherUses(profiles: Profiles, s: State, op: Op, id: Id, k: Kind)
    requires Inv(s) && (op.Consume? ==> !Accepts(profiles, s, op))
    ensures UsedBy(Next(profiles, s, op), id, k) == UsedBy(s, id, k)
  {
    if op.Create? {
      assert Next(profiles, s, op).leases == s.leases;
    } else if id in s.rows {
      UsageKept(profiles, s, op, id, k);
    } else {
      NextKeepsGrid(profiles, s, op);
      NextKeepsInv(profiles, s, op);
      LeasesOwned(s);
      LeasesOwned(Next(profiles, s, op));
    }
  }

  lemma {:induction false} UsesOnlyGrow(profiles: Profiles, s: State, ops: seq<Op>, id: Id, k: Kind)
    requires Inv(s)
    ensures UsedBy(s, id, k) <= UsedBy(Run(profiles, s, ops), id, k)
    decreases |ops|
  {
    if ops != [] {
      if ops[0].Consume? && Accepts(profiles, s, ops[0]) { ConsumeUses(profiles, s, ops[0], id, k); }
      else { OtherUses(profiles, s, ops[0], id, k); }
      NextKeepsInv(profiles, s, ops[0]);
      UsesOnlyGrow(profiles, Next(profiles, s, ops[0]), ops[1..], id, k);
    }
  }

  /** Some transactions lead here from an empty database. */
  ghost predicate Reached(profiles: Profiles, s: State) {
    Reaches(profiles, EMPTY, s)
  }

  lemma ReachedIsSound(profiles: Profiles, s: State)
    requires Reached(profiles, s)
    ensures Inv(s)
  {
    var ops :| Run(profiles, EMPTY, ops) == s;
    RunKeepsInv(profiles, EMPTY, ops);
  }

  lemma OneStep(profiles: Profiles, s: State, op: Op)
    ensures Reaches(profiles, s, Next(profiles, s, op))
  {
    assert [op][1..] == [];
    assert Run(profiles, s, [op]) == Next(profiles, s, op);
  }

  lemma ReachesThen(profiles: Profiles, a: State, b: State, c: State)
    requires Reaches(profiles, a, b) && Reaches(profiles, b, c)
    ensures Reaches(profiles, a, c)
  {
    var before, after :| Run(profiles, a, before) == b && Run(profiles, b, after) == c;
    RunConcat(profiles, a, before, after);
  }

  lemma ReachesItself(profiles: Profiles, s: State)
    ensures Reaches(profiles, s, s)
  {
    assert Run(profiles, s, []) == s;
  }

  /** One question to the ledger: others may have acted before it was answered. */
  ghost predicate Asked(profiles: Profiles, before: State, met: State, after: State, op: Op) {
    Reaches(profiles, before, met) && after == Next(profiles, met, op)
  }

  lemma AskedReaches(profiles: Profiles, before: State, met: State, after: State, op: Op)
    requires Asked(profiles, before, met, after, op)
    ensures Reaches(profiles, before, met) && Reaches(profiles, before, after)
  {
    OneStep(profiles, met, op);
    ReachesThen(profiles, before, met, after);
  }

  /** A question put between these two ledgers: others may have acted before it and after, and
      what it committed is part of what they led to. */
  ghost predicate AskedBetween(profiles: Profiles, before: State, met: State, after: State, op: Op) {
    Reaches(profiles, before, met) && Reaches(profiles, Next(profiles, met, op), after)
  }

  lemma AskedIsBetween(profiles: Profiles, before: State, met: State, after: State, op: Op)
    requires Asked(profiles, before, met, after, op)
    ensures AskedBetween(profiles, before, met, after, op) && Reaches(profiles, before, after)
  {
    AskedReaches(profiles, before, met, after, op);
    ReachesItself(profiles, after);
  }

  lemma AskedAmid(profiles: Profiles, a: State, b: State, met: State, c: State, d: State, op: Op)
    requires Reaches(profiles, a, b) && AskedBetween(profiles, b, met, c, op) && Reaches(profiles, c, d)
    ensures AskedBetween(profiles, a, met, d, op)
  {
    ReachesThen(profiles, a, b, met);
    ReachesThen(profiles, Next(profiles, met, op), c, d);
  }

  /** Whatever others do, what is reached stays reached and nothing used is given back. */
  lemma OthersOnlyAdd(profiles: Profiles, s: State, t: State, id: Id)
    requires Reached(profiles, s) && Reaches(profiles, s, t)
    ensures Reached(profiles, t)
    ensures UsedBy(s, id, Tool) <= UsedBy(t, id, Tool) && UsedBy(s, id, Model) <= UsedBy(t, id, Model)
  {
    var before, ops :| Run(profiles, EMPTY, before) == s && Run(profiles, s, ops) == t;
    RunConcat(profiles, EMPTY, before, ops);
    ReachedIsSound(profiles, s);
    UsesOnlyGrow(profiles, s, ops, id, Tool);
    UsesOnlyGrow(profiles, s, ops, id, Model);
  }

  /** A granted use puts the ledger one further ahead, of this kind only; a check or a
      refusal changes no count. */
  lemma BrokeredUses(profiles: Profiles, s: State, op: Op)
    requires Reached(profiles, s) && (op.Consume? || op.Authorize?)
    ensures var t := Next(profiles, s, op);
            var won := op.Consume? && Accepts(profiles, s, op);
            && Reached(profiles, t)
            && UsedBy(t, op.cred.id, Tool) == UsedBy(s, op.cred.id, Tool) + (if won && op.kind == Tool then 1 else 0)
            && UsedBy(t, op.cred.id, Model) == UsedBy(s, op.cred.id, Model) + (if won && op.kind == Model then 1 else 0)
  {
    ReachedIsSound(profiles, s);
    OneStep(profiles, s, op);
    OthersOnlyAdd(profiles, s, Next(profiles, s, op), op.cred.id);
    if op.Consume? && Accepts(profiles, s, op) {
      ConsumeUses(profiles, s, op, op.cred.id, Tool);
      ConsumeUses(profiles, s, op, op.cred.id, Model);
    } else {
      OtherUses(profiles, s, op, op.cred.id, Tool);
      OtherUses(profiles, s, op, op.cred.id, Model);
    }
  }

  /** What the delegation's own terms allow it. */
  ghost function Allowance(s: State, id: Id, k: Kind): nat {
    if id in s.rows then s.rows[id].terms.worker.Of(UnitOf(k)) else 0
  }

  lemma UsedWithinLease(profiles: Profiles, s: State, id: Id, k: Kind)
    requires Reached(profiles, s)
    ensures UsedBy(s, id, k) <= Allowance(s, id, k)
  {
    ReachedIsSound(profiles, s);
    LeasesOwned(s);
    if (id, 1) in s.leases { assert LeaseShape(s, (id, 1)); }
  }
}
