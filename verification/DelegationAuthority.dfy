/** Authority, once recorded as lost, never comes back: not to the delegation, not to
    any descendant it has or will have, and whatever the clock does. */
module DelegationAuthority {
  import opened Wrappers
  import opened Ancestry
  import opened Delegations
  import opened DelegationInvariants
  import DelegationBudget

  predicate Dead(row: Row) {
    !(row.status.Queued? || row.status.Running?) || row.grant.Expired? || row.grant.Revoked?
  }

  ghost predicate Lost(rows: Rows, id: Id) {
    id in rows && (Dead(rows[id]) || exists a :: a in rows && Dead(rows[a]) && Descends(ParentsOf(rows), id, a))
  }

  // ---- loss is permanent ----

  lemma {:induction false} UpExtends(p: Parents, q: Parents, id: Id, n: nat)
    requires forall x | x in p :: x in q && q[x] == p[x]
    requires Up(p, id, n).Some?
    ensures Up(q, id, n) == Up(p, id, n)
  {
    if n > 0 { UpExtends(p, q, id, n - 1); }
  }

  lemma DescentKept(p: Parents, q: Parents, d: Id, a: Id)
    requires forall x | x in p :: x in q && q[x] == p[x]
    requires Descends(p, d, a)
    ensures Descends(q, d, a)
  {
    var n: nat :| n >= 1 && Up(p, d, n) == Some(a);
    UpExtends(p, q, d, n);
  }

  lemma CreateKeepsRow(profiles: Profiles, s: State, op: Op, id: Id)
    requires op.Create? && id in s.rows
    ensures var t := Next(profiles, s, op).rows;
            id in t && t[id].terms == s.rows[id].terms && t[id].status == s.rows[id].status && t[id].grant == s.rows[id].grant
  {
  }

  lemma StepKeepsDead(profiles: Profiles, s: State, op: Op, id: Id)
    requires id in s.rows
    ensures var t := Next(profiles, s, op).rows;
            id in t && t[id].terms == s.rows[id].terms && (Dead(s.rows[id]) ==> Dead(t[id]))
  {
    if op.Create? {
      CreateKeepsRow(profiles, s, op, id);
    } else {
      NextKeepsGrid(profiles, s, op);
    }
  }

  lemma StepKeepsLost(profiles: Profiles, s: State, op: Op, id: Id)
    requires Lost(s.rows, id)
    ensures Lost(Next(profiles, s, op).rows, id)
  {
    var t := Next(profiles, s, op).rows;
    forall x | x in s.rows ensures x in t && t[x].terms == s.rows[x].terms && (Dead(s.rows[x]) ==> Dead(t[x])) {
      StepKeepsDead(profiles, s, op, x);
    }
    if !Dead(s.rows[id]) {
      var a :| a in s.rows && Dead(s.rows[a]) && Descends(ParentsOf(s.rows), id, a);
      DescentKept(ParentsOf(s.rows), ParentsOf(t), id, a);
    }
  }

  lemma {:induction false} RunKeepsLost(profiles: Profiles, s: State, ops: seq<Op>, id: Id)
    requires Lost(s.rows, id)
    ensures Lost(Run(profiles, s, ops).rows, id)
    decreases |ops|
  {
    if ops != [] {
      StepKeepsLost(profiles, s, ops[0], id);
      RunKeepsLost(profiles, Next(profiles, s, ops[0]), ops[1..], id);
    }
  }

  // ---- what loss refuses ----

  lemma DeadAncestorBlocks(rows: Rows, id: Id, a: Id, now: int)
    requires a in rows && Dead(rows[a]) && Descends(ParentsOf(rows), id, a)
    ensures !ChainLive(ParentsOf(rows), LiveSet(rows, now), id)
  {
    var p, live := ParentsOf(rows), LiveSet(rows, now);
    var m: nat :| m >= 1 && Up(p, id, m) == Some(a);
    forall n: nat ensures !EndsLive(p, live, id, n) {
      if n <= m && Up(p, id, n) == None { UpEnds(p, id, n, m); }
      assert !LiveUp(p, live, id, m);
    }
  }

  /** The operations that exercise the authority of delegation `id`. */
  predicate Exercises(op: Op, id: Id) {
    || (op.Claim? && op.id == id)
    || (op.Authorize? && op.cred.id == id)
    || (op.Consume? && op.cred.id == id)
    || (op.Create? && op.parent == Some(id))
  }

  lemma LostMeansRefused(profiles: Profiles, s: State, op: Op, id: Id)
    requires Inv(s) && Lost(s.rows, id) && Exercises(op, id)
    ensures !Accepts(profiles, s, op)
  {
    if op.Create? {
      if Accepts(profiles, s, op) {
        AdmittedMeans(profiles, s.rows, op.caller, op.role, op.parent, op.id, op.capability, op.now);
        RootHasNoAncestor(s.rows, id);
      }
    } else {
      if !Dead(s.rows[id]) {
        var a :| a in s.rows && Dead(s.rows[a]) && Descends(ParentsOf(s.rows), id, a);
        DeadAncestorBlocks(s.rows, id, a, op.now);
      }
      if (op.Authorize? || op.Consume?) && VetAttempt(s.rows, op.cred, op.now).0 {
        DelegationBudget.GrantedMeansPresented(s.rows, op.cred, op.now);
      }
    }
  }

  lemma RootHasNoAncestor(rows: Rows, id: Id)
    requires id in rows && rows[id].terms.parent.None?
    ensures forall a :: !Descends(ParentsOf(rows), id, a)
  {
    forall a ensures !Descends(ParentsOf(rows), id, a) { DescendsStep(ParentsOf(rows), id, a); }
  }

  lemma LossIsInherited(rows: Rows, d: Id, a: Id)
    requires Lost(rows, a) && d in rows && Descends(ParentsOf(rows), d, a)
    ensures Lost(rows, d)
  {
    if !Dead(rows[a]) {
      var b :| b in rows && Dead(rows[b]) && Descends(ParentsOf(rows), a, b);
      DescendsTrans(ParentsOf(rows), d, a, b);
    }
  }

  /** The theorem: from a reachable ledger where `a` is lost, after any further run,
      nothing that would exercise the authority of `a` or of any delegation then below
      it is accepted, at any time value. */
  lemma LossIsPermanent(profiles: Profiles, before: seq<Op>, after: seq<Op>, a: Id, d: Id, op: Op)
    requires Lost(Run(profiles, EMPTY, before).rows, a)
    requires var t := Run(profiles, Run(profiles, EMPTY, before), after);
             d == a || (d in t.rows && Descends(ParentsOf(t.rows), d, a))
    requires Exercises(op, d)
    ensures !Accepts(profiles, Run(profiles, Run(profiles, EMPTY, before), after), op)
  {
    var s := Run(profiles, EMPTY, before);
    var t := Run(profiles, s, after);
    RunKeepsInv(profiles, EMPTY, before);
    RunKeepsInv(profiles, s, after);
    RunKeepsLost(profiles, s, after, a);
    if d != a { LossIsInherited(t.rows, d, a); }
    LostMeansRefused(profiles, t, op, d);
  }

  // ---- what records a loss ----

  /** A check of `c`, whose own grant holds, walks up to `id` and finds its grant lapsed. */
  ghost predicate WalkExpires(rows: Rows, c: Credential, id: Id, now: int) {
    && Presents(rows, c) && GrantHolds(rows[c.id], now)
    && id in rows && rows[id].status.Running? && GrantLapsed(rows[id], now)
    && Walk(ParentsOf(rows), LiveSet(rows, now), rows[c.id].terms.parent, {c.id}) == StoppedAt(id)
  }

  /** Ending, revoking, recovery, and a committed check that meets a lapsed grant, be it the
      delegation's own or an ancestor's, each record the loss of that delegation. */
  lemma RecordsLoss(profiles: Profiles, s: State, op: Op, id: Id)
    requires id in s.rows
    requires
      || (op.Finish? && op.id == id && Accepts(profiles, s, op))
      || (op.Revoke? && op.id == id && Accepts(profiles, s, op))
      || (op.Recover? && id in Recoverable(s.rows, op.caller, op.dead))
      || ((op.Authorize? || op.Consume?) && op.cred.id == id && Presents(s.rows, op.cred) && GrantLapsed(s.rows[id], op.now))
      || ((op.Authorize? || op.Consume?) && WalkExpires(s.rows, op.cred, id, op.now))
    ensures Lost(Next(profiles, s, op).rows, id)
  {
    if op.Authorize? || op.Consume? {
      assert VetAttempt(s.rows, op.cred, op.now) == (false, Lapse(s.rows, id));
    }
  }

  /** A check below a lapsed grant records it: when the walk stops at a running ancestor
      whose grant ran out, that ancestor and everything below it are lost. */
  lemma AncestorLapseIsLoss(profiles: Profiles, s: State, op: Op, a: Id)
    requires (op.Authorize? || op.Consume?) && WalkExpires(s.rows, op.cred, a, op.now)
    ensures !Accepts(profiles, s, op)
    ensures Lost(Next(profiles, s, op).rows, a) && Lost(Next(profiles, s, op).rows, op.cred.id)
  {
    RecordsLoss(profiles, s, op, a);
    var p, live, t := ParentsOf(s.rows), LiveSet(s.rows, op.now), Next(profiles, s, op).rows;
    assert Up(p, op.cred.id, 0) == Some(op.cred.id);
    assert Up(p, op.cred.id, 1) == p[op.cred.id];
    WalkMeaning(p, live, op.cred.id, 0, {op.cred.id});
    var m: nat :| m > 0 && Up(p, op.cred.id, m) == Some(a) && forall j: nat | 1 <= j < m :: LiveUp(p, live, op.cred.id, j);
    assert Descends(p, op.cred.id, a);
    assert ParentsOf(t) == p by { NextKeepsGrid(profiles, s, op); }
    LossIsInherited(t, op.cred.id, a);
  }

  /** A grant can only be exercised on time: an accepted check or call found the
      delegation and every ancestor running, with an unexpired active grant. */
  lemma AcceptedMeansLive(profiles: Profiles, s: State, op: Op)
    requires (op.Authorize? || op.Consume?) && Accepts(profiles, s, op)
    ensures op.cred.id in s.rows && IsLive(s.rows[op.cred.id], op.now)
    ensures forall a | Descends(ParentsOf(s.rows), op.cred.id, a) :: a in s.rows && IsLive(s.rows[a], op.now)
    ensures op.Authorize? ==> Next(profiles, s, op) == s
  {
    DelegationBudget.GrantedMeansPresented(s.rows, op.cred, op.now);
    var p, live, id := ParentsOf(s.rows), LiveSet(s.rows, op.now), op.cred.id;
    var n: nat :| EndsLive(p, live, id, n);
    forall a | Descends(p, id, a) ensures a in s.rows && IsLive(s.rows[a], op.now) {
      var m: nat :| m >= 1 && Up(p, id, m) == Some(a);
      if n <= m { UpEnds(p, id, n, m); }
      assert LiveUp(p, live, id, m);
    }
  }
}
