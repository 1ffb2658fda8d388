/** The ledger object each runtime holds over the one shared database. Every method is
    one committed transaction of the transition system, whoever else shares the tables. */
module DelegationLedger {
  import opened Wrappers
  import opened Ancestry
  import opened Delegations
  import opened DelegationInvariants

  class Database {
    var rows: Rows
    var leases: Leases

    ghost function Current(): State
      reads this
    {
      State(rows, leases)
    }

    constructor ()
      ensures Current() == EMPTY && Inv(Current())
    {
      rows, leases := map[], map[];
    }
  }

  function ParentOf(rows: Rows, id: Id): Option<Id> {
    if id in rows then rows[id].terms.parent else None
  }

  /** The row the ancestor walk stops at, if the walk would expire its grant, is on no
      parent cycle. */
  ghost predicate StopEnds(rows: Rows, id: Id, now: int) {
    match Walk(ParentsOf(rows), LiveSet(rows, now), ParentOf(rows, id), {id})
    case StoppedAt(a) => a in rows && rows[a].status.Running? && GrantLapsed(rows[a], now) ==> !OnCycle(ParentsOf(rows), a)
    case _ => true
  }

  lemma ForestHasNoCycle(rows: Rows, id: Id)
    requires Shape(rows)
    ensures !OnCycle(ParentsOf(rows), id)
  {
    if id in rows {
      assert RowShape(rows, id);
      DescendsStep(ParentsOf(rows), id, id);
      if rows[id].terms.parent.Some? { DescendsStep(ParentsOf(rows), rows[id].terms.parent.value, id); }
    } else {
      DescendsStep(ParentsOf(rows), id, id);
    }
  }

  lemma ForestStopEnds(rows: Rows, id: Id, now: int)
    requires Shape(rows)
    ensures StopEnds(rows, id, now)
  {
    forall a ensures !OnCycle(ParentsOf(rows), a) { ForestHasNoCycle(rows, a); }
  }

  /** Two rows that are each other's parent. */
  function TwoRowCycle(row: Row, a: Id, b: Id): Rows {
    map[a := row.(terms := row.terms.(parent := Some(b))), b := row.(terms := row.terms.(parent := Some(a)))]
  }

  /** On them, when their grants have lapsed, the walk above one stops at the other, whose
      sweep meets a row on every level and so never ends. */
  lemma TwoRowCycleNeverEnds(row: Row, a: Id, b: Id, now: int, n: nat)
    requires a != b && row.status.Running? && GrantLapsed(row, now) && n >= 1
    ensures var rows := TwoRowCycle(row, a, b);
            && Walk(ParentsOf(rows), LiveSet(rows, now), ParentOf(rows, a), {a}) == StoppedAt(b)
            && !StopEnds(rows, a, now) && Level(ParentsOf(rows), b, n) != {}
  {
    var p := ParentsOf(TwoRowCycle(row, a, b));
    assert p[b] == Some(a) && p[a] == Some(b);
    assert Up(p, b, 0) == Some(b);
    assert Up(p, b, 1) == Some(a);
    assert Up(p, b, 2) == Some(b);
    CycleNeverEmpties(p, b, n);
  }

  function ChildrenOfAll(rows: Rows, ids: set<Id>): (children: set<Id>)
    ensures children == set d | d in ParentsOf(rows) && ParentsOf(rows)[d].Some? && ParentsOf(rows)[d].value in ids
  {
    set d | d in rows && rows[d].terms.parent.Some? && rows[d].terms.parent.value in ids
  }

  lemma EndedParents(rows: Rows, id: Id, outcome: Status, now: int)
    requires id in rows
    ensures ParentsOf(rows[id := Ended(rows[id], outcome, now)]) == ParentsOf(rows)
    ensures DescendantsOf(rows[id := Ended(rows[id], outcome, now)], id) + {} == DescendantsOf(rows, id)
  {
    assert ParentsOf(rows[id := Ended(rows[id], outcome, now)]) == ParentsOf(rows);
  }

  lemma RecoveredOne(s: State, done: set<Id>, id: Id, now: int)
    requires id in s.rows && id !in done
    ensures var before, after := Recovered(s, done, now), Recovered(s, done + {id}, now);
            && after.rows == before.rows[id := Ended(before.rows[id], Failed, now)]
            && after.leases == CloseLease(before.leases, id, before.rows[id].attempts, Failed)
  {
  }

  lemma RecoveredNone(s: State, now: int)
    ensures Recovered(s, {}, now) == s
  {
  }

  class Ledger {
    const db: Database
    const me: Caller
    const profiles: Profiles

    constructor (db: Database, me: Caller, profiles: Profiles)
      ensures this.db == db && this.me == me && this.profiles == profiles
    {
      this.db, this.me, this.profiles := db, me, profiles;
    }

    /** Sweeps the subtree level by level. It ends whenever `id` is on no parent cycle,
        and then it has met exactly the descendants. */
    method RevokeDescendants(id: Id, includeRoot: bool)
      requires !OnCycle(ParentsOf(db.rows), id)
      modifies db
      ensures db.leases == old(db.leases)
      ensures db.rows == Demote(old(db.rows), DescendantsOf(old(db.rows), id) + if includeRoot then {id} else {})
    {
      ghost var p := ParentsOf(db.rows);
      var found: set<Id> := {};
      var level := ChildrenOf(db.rows, id);
      ghost var n: nat := 1;
      assert level == Level(p, id, 1) by {
        assert forall d | d in p :: Up(p, d, 0) == Some(d) && Up(p, d, 1) == p[d];
      }
      while level != {}
        invariant db.rows == old(db.rows) && db.leases == old(db.leases)
        invariant n >= 1 && level == Level(p, id, n) && found == Above(p, id, n)
        decreases db.rows.Keys - found
      {
        LevelsDisjoint(p, id, n);
        NextLevel(p, id, n);
        AboveNext(p, id, n);
        found := found + level;
        level := ChildrenOfAll(db.rows, level);
        n := n + 1;
      }
      SweepComplete(p, id, n);
      db.rows := Demote(db.rows, found + if includeRoot then {id} else {});
    }

    /** A grant past its deadline is recorded as expired on sight. */
    method GrantIsActive(id: Id, now: int) returns (ok: bool)
      requires id in db.rows
      requires GrantLapsed(db.rows[id], now) ==> !OnCycle(ParentsOf(db.rows), id)
      modifies db
      ensures db.leases == old(db.leases)
      ensures ok == GrantHolds(old(db.rows)[id], now)
      ensures db.rows == if GrantLapsed(old(db.rows)[id], now) then Lapse(old(db.rows), id) else old(db.rows)
    {
      if !db.rows[id].grant.Active? { return false; }
      if db.rows[id].deadline >= now { return true; }
      ghost var before := db.rows;
      db.rows := db.rows[id := db.rows[id].(grant := Expired)];
      assert ParentsOf(db.rows) == ParentsOf(before);
      RevokeDescendants(id, false);
      assert DescendantsOf(before, id) + {} == DescendantsOf(before, id);
      return false;
    }

    /** The upward walk. True exactly when the chain above `id` ends and is live
        throughout, and then nothing has changed. */
    method AncestorsAuthorized(id: Id, now: int) returns (ok: bool)
      requires StopEnds(db.rows, id, now)
      modifies db
      ensures db.leases == old(db.leases)
      ensures (ok, db.rows) == VetAncestors(old(db.rows), id, now)
      ensures ok <==> ChainLive(ParentsOf(old(db.rows)), LiveSet(old(db.rows), now), id)
      ensures ok ==> db.rows == old(db.rows)
    {
      ghost var p, live := ParentsOf(db.rows), LiveSet(db.rows, now);
      WalkClearIff(p, live, id);
      var cursor := if id in db.rows then db.rows[id].terms.parent else None;
      ghost var start := cursor;
      var seen := {id};
      while cursor.Some?
        invariant db.rows == old(db.rows) && db.leases == old(db.leases)
        invariant Walk(p, live, cursor, seen) == Walk(p, live, start, {id})
        decreases live - seen, cursor.Some?
      {
        var a := cursor.value;
        if a in seen { return false; }
        if a !in db.rows || !db.rows[a].status.Running? { return false; }
        var active := GrantIsActive(a, now);
        if !active { return false; }
        seen := seen + {a};
        cursor := db.rows[a].terms.parent;
      }
      return true;
    }

    method AttemptAuthorized(c: Credential, now: int) returns (ok: bool)
      requires Shape(db.rows)
      modifies db
      ensures db.leases == old(db.leases)
      ensures (ok, db.rows) == VetAttempt(old(db.rows), c, now)
    {
      ForestHasNoCycle(db.rows, c.id);
      ForestStopEnds(db.rows, c.id, now);
      if !Presents(db.rows, c) { return false; }
      ok := GrantIsActive(c.id, now);
      if ok { ok := AncestorsAuthorized(c.id, now); }
    }

    method Create(role: string, parent: Option<Id>, id: Id, capability: nat, now: int)
      returns (r: Result<Id, CreateError>)
      requires Shape(db.rows)
      modifies db
      ensures db.Current() == Next(profiles, old(db.Current()), Op.Create(me, role, parent, id, capability, now))
      ensures match NewTerms(profiles, old(db.rows), me, role, parent, id, capability, now)
              case Success(_) => r == Success(id)
              case Failure(e) => r == Failure(e)
    {
      var admitted := NewTerms(profiles, db.rows, me, role, parent, id, capability, now);
      match admitted {
        case Failure(e) => return Failure(e);
        case Success(terms) =>
          AdmittedMeans(profiles, db.rows, me, role, parent, id, capability, now);
          if terms.parent.Some? {
            db.rows := db.rows[terms.root := db.rows[terms.root].(reserved := db.rows[terms.root].reserved.Plus(terms.worker))];
          }
          db.rows := db.rows[id := FreshRow(terms)];
          return Success(id);
      }
    }

    /** A claim that is refused rolls everything back, even an expiry it noticed. */
    method Claim(id: Id, now: int) returns (attempt: Option<nat>)
      requires Shape(db.rows)
      modifies db
      ensures db.Current() == Next(profiles, old(db.Current()), Op.Claim(me, id, now))
      ensures attempt == if MayClaim(old(db.Current()), me, id, now) then Some(old(db.rows)[id].attempts + 1) else None
    {
      var savedRows := db.rows;
      if id !in db.rows { return None; }
      var row := db.rows[id];
      if row.terms.target != "" && (me.machine == "" || row.terms.target != me.machine) { return None; }
      if row.terms.parent.Some? {
        var p := row.terms.parent.value;
        if p !in db.rows || !db.rows[p].status.Running? || db.rows[p].terms.target != me.machine
           || db.rows[p].owner != me { return None; }
      }
      ForestStopEnds(db.rows, id, now);
      var clear := AncestorsAuthorized(id, now);
      if !clear {
        db.rows := savedRows;
        return None;
      }
      if row.terms.parent.Some? {
        var r := row.terms.root;
        if r !in db.rows || db.rows[r].terms.maxActive < 1
           || |ActiveChildren(db.rows, r)| >= db.rows[r].terms.maxActive { return None; }
      }
      if !row.status.Queued? || row.attempts >= row.terms.maxAttempts { return None; }
      if !(row.grant.Issued? || row.grant.Active?) || (id, row.attempts + 1) in db.leases { return None; }
      Start(id, now);
      return Some(row.attempts + 1);
    }

    /** The row runs as this instance's next attempt, with a lease of its own. */
    method Start(id: Id, now: int)
      requires id in db.rows
      modifies db
      ensures db.Current() == Claimed(old(db.Current()), me, id, now)
    {
      var row := db.rows[id];
      db.rows := db.rows[id := row.(status := Running, attempts := row.attempts + 1, updatedTs := now, owner := me,
                                    grant := Active, deadline := now + LeaseSeconds(row))];
      db.leases := db.leases[(id, row.attempts + 1) := Lease(Open, row.terms.worker.turns, 0, row.terms.worker.calls, 0)];
    }

    /** `finish` and `cancel` differ only in the outcome they record. */
    method Finish(id: Id, attempt: nat, outcome: Terminal, now: int) returns (ok: bool)
      requires Shape(db.rows)
      modifies db
      ensures db.Current() == Next(profiles, old(db.Current()), Op.Finish(id, attempt, outcome, now))
      ensures ok == Holds(old(db.rows), id, attempt)
    {
      if !Holds(db.rows, id, attempt) { return false; }
      ghost var before := db.rows;
      ForestHasNoCycle(db.rows, id);
      db.rows := db.rows[id := Ended(db.rows[id], outcome, now)];
      db.leases := CloseLease(db.leases, id, attempt, outcome);
      EndedParents(before, id, outcome, now);
      RevokeDescendants(id, false);
      return true;
    }

    method Revoke(id: Id, attempt: nat) returns (ok: bool)
      requires Shape(db.rows)
      modifies db
      ensures db.Current() == Next(profiles, old(db.Current()), Op.Revoke(me, id, attempt))
      ensures ok == Accepts(profiles, old(db.Current()), Op.Revoke(me, id, attempt))
    {
      if !Holds(db.rows, id, attempt) || db.rows[id].owner != me { return false; }
      ForestHasNoCycle(db.rows, id);
      RevokeDescendants(id, true);
      return true;
    }

    method AuthorizeAttempt(c: Credential, now: int) returns (ok: bool)
      requires Shape(db.rows)
      modifies db
      ensures db.Current() == Next(profiles, old(db.Current()), Op.Authorize(c, now))
      ensures ok == Accepts(profiles, old(db.Current()), Op.Authorize(c, now))
    {
      ok := AttemptAuthorized(c, now);
    }

    method ConsumeResource(c: Credential, kind: Kind, now: int) returns (ok: bool)
      requires Shape(db.rows)
      modifies db
      ensures db.Current() == Next(profiles, old(db.Current()), Op.Consume(c, kind, now))
      ensures ok == Accepts(profiles, old(db.Current()), Op.Consume(c, kind, now))
    {
      ok := AttemptAuthorized(c, now);
      if !ok { return; }
      if !HasRoom(db.leases, c, kind) { return false; }
      db.leases := db.leases[(c.id, c.attempt) := db.leases[(c.id, c.attempt)].Spend(kind)];
    }

    /** `dead` is what the process-liveness probe proved; this row loop only visits
        rows of this machine owned by another instance. */
    method RecoverInterrupted(dead: set<Id>, now: int) returns (recovered: nat)
      requires Shape(db.rows)
      modifies db
      ensures db.Current() == Next(profiles, old(db.Current()), Op.Recover(me, dead, now))
      ensures recovered == |Recoverable(old(db.rows), me, dead)|
    {
      recovered := RecoverRows(Recoverable(db.rows, me, dead), now);
    }

    /** The row loop: one row at a time, each with its lease. */
    method RecoverRows(victims: set<Id>, now: int) returns (recovered: nat)
      requires victims <= db.rows.Keys
      modifies db
      ensures db.Current() == Recovered(old(db.Current()), victims, now)
      ensures recovered == |victims|
    {
      ghost var s := db.Current();
      var done: set<Id> := {};
      RecoveredNone(s, now);
      while victims - done != {}
        invariant done <= victims
        invariant db.rows == Recovered(s, done, now).rows && db.leases == Recovered(s, done, now).leases
        decreases victims - done
      {
        var id :| id in victims - done;
        RecoveredOne(s, done, id, now);
        var attempt := db.rows[id].attempts;
        db.rows := db.rows[id := Ended(db.rows[id], Failed, now)];
        db.leases := CloseLease(db.leases, id, attempt, Failed);
        done := done + {id};
      }
      assert done == victims;
      return |done|;
    }
  }
}
