/** What each transaction asks for and does, row by row and in the ledger's own terms, in every
    ledger that can be reached: there, a child's parent is its root. */
module DelegationTerms {
  import opened Wrappers
  import opened Ancestry
  import opened Delegations
  import opened DelegationInvariants

  // ---- a forest of height one ----

  lemma OneStepUp(rows: Rows, id: Id, n: nat)
    requires Shape(rows) && id in rows
    ensures Up(ParentsOf(rows), id, 0) == Some(id) && Up(ParentsOf(rows), id, 1) == rows[id].terms.parent
    ensures n >= 2 ==> Up(ParentsOf(rows), id, n) == None
  {
    var p := ParentsOf(rows);
    assert RowShape(rows, id);
    assert Up(p, id, 0) == Some(id);
    assert Up(p, id, 1) == rows[id].terms.parent;
    if n >= 2 {
      assert Up(p, id, 2) == None;
      UpEnds(p, id, 2, n);
    }
  }

  lemma ForestChain(rows: Rows, id: Id, live: set<Id>)
    requires Shape(rows) && id in rows
    ensures ChainLive(ParentsOf(rows), live, id) <==> rows[id].terms.parent.Some? ==> rows[id].terms.parent.value in live
  {
    var p, parent := ParentsOf(rows), rows[id].terms.parent;
    OneStepUp(rows, id, 2);
    if parent.None? {
      assert EndsLive(p, live, id, 1);
    } else {
      if parent.value in live {
        assert LiveUp(p, live, id, 1);
        assert EndsLive(p, live, id, 2);
      }
      if ChainLive(p, live, id) {
        var n: nat :| EndsLive(p, live, id, n);
        assert n >= 2;
        assert LiveUp(p, live, id, 1);
      }
    }
  }

  lemma ForestDescendants(rows: Rows, a: Id)
    requires Shape(rows)
    ensures DescendantsOf(rows, a) == set d | d in rows && rows[d].terms.parent == Some(a)
  {
    var p := ParentsOf(rows);
    forall d | d in rows ensures Descends(p, d, a) <==> rows[d].terms.parent == Some(a) {
      OneStepUp(rows, d, 1);
      if Descends(p, d, a) {
        var n: nat :| n >= 1 && Up(p, d, n) == Some(a);
        OneStepUp(rows, d, n);
      }
    }
  }

  // ---- the check of a credential ----

  /** Running under an active grant whose deadline has not passed. */
  predicate Unlapsed(rows: Rows, id: Id, now: int) {
    id in rows && rows[id].status == Running && rows[id].grant == Active && now <= rows[id].deadline
  }

  /** What the ledger knows of this attempt is what is presented. */
  predicate Known(rows: Rows, c: Credential) {
    && c.id in rows && rows[c.id].status == Running
    && (c.role, c.attempt, c.capability) == (rows[c.id].terms.role, rows[c.id].attempts, rows[c.id].terms.capability)
  }

  lemma LiveIsUnlapsed(rows: Rows, now: int)
    ensures forall id :: id in LiveSet(rows, now) <==> Unlapsed(rows, id, now)
  {
  }

  lemma VettedIff(rows: Rows, c: Credential, now: int)
    requires Shape(rows)
    ensures VetAttempt(rows, c, now).0
       <==> (&& Known(rows, c) && Unlapsed(rows, c.id, now)
             && (rows[c.id].terms.parent.Some? ==> Unlapsed(rows, rows[c.id].terms.parent.value, now)))
  {
    if c.id in rows && rows[c.id].terms.parent.Some? {
      WalkOnce(rows, c.id, now);
      LiveIsUnlapsed(rows, now);
    }
  }

  /** A check accepts exactly the running attempt's own role, number and capability, on time,
      below a parent that is itself running on time. */
  lemma CheckAcceptedIff(profiles: Profiles, s: State, c: Credential, now: int)
    requires Inv(s)
    ensures Accepts(profiles, s, Authorize(c, now))
       <==> (&& Known(s.rows, c) && Unlapsed(s.rows, c.id, now)
             && (s.rows[c.id].terms.parent.Some? ==> Unlapsed(s.rows, s.rows[c.id].terms.parent.value, now)))
  {
    VettedIff(s.rows, c, now);
  }

  /** And a use is paid for exactly when, besides, the attempt's lease is open with fewer used
      than its own terms allow. */
  lemma UseAcceptedIff(profiles: Profiles, s: State, c: Credential, kind: Kind, now: int)
    requires Inv(s)
    ensures Accepts(profiles, s, Consume(c, kind, now))
       <==> (&& Accepts(profiles, s, Authorize(c, now))
             && (c.id, c.attempt) in s.leases && s.leases[(c.id, c.attempt)].state == Open
             && match kind
                case Model => s.leases[(c.id, c.attempt)].modelUsed < s.rows[c.id].terms.worker.turns
                case Tool => s.leases[(c.id, c.attempt)].toolUsed < s.rows[c.id].terms.worker.calls)
  {
    RoomIff(s, c, kind);
    UseIsCheckAndRoom(profiles, s, c, kind, now);
  }

  lemma UseIsCheckAndRoom(profiles: Profiles, s: State, c: Credential, kind: Kind, now: int)
    ensures Accepts(profiles, s, Consume(c, kind, now)) <==> Accepts(profiles, s, Authorize(c, now)) && HasRoom(s.leases, c, kind)
  {
  }

  lemma RoomIff(s: State, c: Credential, kind: Kind)
    requires Leased(s)
    ensures HasRoom(s.leases, c, kind)
       <==> (&& (c.id, c.attempt) in s.leases && s.leases[(c.id, c.attempt)].state == Open
             && match kind
                case Model => s.leases[(c.id, c.attempt)].modelUsed < s.rows[c.id].terms.worker.turns
                case Tool => s.leases[(c.id, c.attempt)].toolUsed < s.rows[c.id].terms.worker.calls)
  {
    if (c.id, c.attempt) in s.leases { assert LeaseShape(s, (c.id, c.attempt)); }
  }

  lemma SpendCounts(l: Lease, kind: Kind)
    ensures var m := l.Spend(kind);
            && m.state == l.state && m.modelLimit == l.modelLimit && m.toolLimit == l.toolLimit
            && m.modelUsed == l.modelUsed + (if kind.Model? then 1 else 0)
            && m.toolUsed == l.toolUsed + (if kind.Tool? then 1 else 0)
  {
  }

  /** A use adds one to its own count of its own lease, and nothing else changes. */
  lemma UseCounts(profiles: Profiles, s: State, c: Credential, kind: Kind, now: int)
    requires Accepts(profiles, s, Consume(c, kind, now))
    ensures var t, k := Next(profiles, s, Consume(c, kind, now)), (c.id, c.attempt);
            && k in s.leases && t == State(s.rows, s.leases[k := t.leases[k]])
            && t.leases[k].state == Open && t.leases[k].modelLimit == s.leases[k].modelLimit && t.leases[k].toolLimit == s.leases[k].toolLimit
            && t.leases[k].modelUsed == s.leases[k].modelUsed + (if kind.Model? then 1 else 0)
            && t.leases[k].toolUsed == s.leases[k].toolUsed + (if kind.Tool? then 1 else 0)
  {
    SpendCounts(s.leases[(c.id, c.attempt)], kind);
  }

  // ---- what runs out, and what goes with it ----

  /** One row's grant is now this; every grant directly below it that was usable is revoked;
      nothing else changed. */
  ghost predicate TakesDown(before: Rows, after: Rows, a: Id, grant: Grant)
  {
    && a in before && after.Keys == before.Keys
    && after[a] == before[a].(grant := grant)
    && forall d | d in before && d != a ::
         after[d] == if before[d].terms.parent == Some(a) && before[d].grant in {Issued, Active}
                     then before[d].(grant := Revoked) else before[d]
  }

  lemma LapseTakesDown(rows: Rows, a: Id)
    requires Shape(rows) && a in rows
    ensures TakesDown(rows, Lapse(rows, a), a, Expired)
  {
    ForestDescendants(rows, a);
    assert RowShape(rows, a);
  }

  predicate PastDeadline(rows: Rows, id: Id, now: int) {
    id in rows && rows[id].status == Running && rows[id].grant == Active && rows[id].deadline < now
  }

  lemma VettingRecords(rows: Rows, c: Credential, now: int)
    requires Shape(rows)
    ensures var after := VetAttempt(rows, c, now).1;
            if Known(rows, c) && PastDeadline(rows, c.id, now) then TakesDown(rows, after, c.id, Expired)
            else if Known(rows, c) && Unlapsed(rows, c.id, now) && rows[c.id].terms.parent.Some?
                    && PastDeadline(rows, rows[c.id].terms.parent.value, now)
            then TakesDown(rows, after, rows[c.id].terms.parent.value, Expired)
            else after == rows
  {
    if c.id in rows {
      var parent := rows[c.id].terms.parent;
      assert RowShape(rows, c.id);
      if Known(rows, c) && PastDeadline(rows, c.id, now) {
        LapseTakesDown(rows, c.id);
      } else if Known(rows, c) && Unlapsed(rows, c.id, now) && parent.Some? {
        WalkOnce(rows, c.id, now);
        LiveIsUnlapsed(rows, now);
        LapseTakesDown(rows, parent.value);
      }
    }
  }

  /** A check changes the table only when it meets a deadline that has passed: the attempt's
      own, or, when that has not, its running parent's. Then that grant is expired and those
      directly below it are revoked. */
  lemma CheckRecords(profiles: Profiles, s: State, c: Credential, now: int)
    requires Inv(s)
    ensures var t := Next(profiles, s, Authorize(c, now)).rows;
            if Known(s.rows, c) && PastDeadline(s.rows, c.id, now) then TakesDown(s.rows, t, c.id, Expired)
            else if Known(s.rows, c) && Unlapsed(s.rows, c.id, now) && s.rows[c.id].terms.parent.Some?
                    && PastDeadline(s.rows, s.rows[c.id].terms.parent.value, now)
            then TakesDown(s.rows, t, s.rows[c.id].terms.parent.value, Expired)
            else t == s.rows
  {
    VettingRecords(s.rows, c, now);
  }

  lemma WalkOnce(rows: Rows, id: Id, now: int)
    requires Shape(rows) && id in rows && rows[id].terms.parent.Some?
    ensures var p := rows[id].terms.parent.value;
            Walk(ParentsOf(rows), LiveSet(rows, now), rows[id].terms.parent, {id})
            == if p in LiveSet(rows, now) then Clear else StoppedAt(p)
  {
    assert RowShape(rows, id);
  }

  // ---- claiming ----

  /** A queued delegation is claimed exactly when it is the caller's to run, nobody claimed it
      before, its grant is usable, and, below a parent, the caller runs that parent on time and
      fewer of its children are running than it may have at once. */
  lemma ClaimAcceptedIff(profiles: Profiles, s: State, caller: Caller, id: Id, now: int)
    requires Inv(s)
    ensures Accepts(profiles, s, Claim(caller, id, now))
       <==> (&& id in s.rows
             && var row := s.rows[id];
             && row.status == Queued && 0 < row.terms.maxAttempts && row.grant in {Issued, Active}
             && (row.terms.target == "" || (caller.machine != "" && row.terms.target == caller.machine))
             && (row.terms.parent.Some? ==>
                   var p := row.terms.parent.value;
                   && Unlapsed(s.rows, p, now) && s.rows[p].terms.target == caller.machine && s.rows[p].owner == caller
                   && |set c | c in s.rows && s.rows[c].terms.parent == Some(p) && s.rows[c].status == Running| < s.rows[p].terms.maxActive))
  {
    if id in s.rows { ClaimableIff(s, caller, id, now); }
  }

  lemma ClaimableIff(s: State, caller: Caller, id: Id, now: int)
    requires Shape(s.rows) && ClaimedOnce(s.rows) && Leased(s) && id in s.rows
    ensures MayClaim(s, caller, id, now)
       <==> (&& var row := s.rows[id];
             && row.status == Queued && 0 < row.terms.maxAttempts && row.grant in {Issued, Active}
             && (row.terms.target == "" || (caller.machine != "" && row.terms.target == caller.machine))
             && (row.terms.parent.Some? ==>
                   var p := row.terms.parent.value;
                   && Unlapsed(s.rows, p, now) && s.rows[p].terms.target == caller.machine && s.rows[p].owner == caller
                   && |set c | c in s.rows && s.rows[c].terms.parent == Some(p) && s.rows[c].status == Running| < s.rows[p].terms.maxActive))
  {
    var row := s.rows[id];
    assert RowShape(s.rows, id);
    ForestChain(s.rows, id, LiveSet(s.rows, now));
    if (id, 1) in s.leases { assert LeaseShape(s, (id, 1)); }
    if row.terms.parent.Some? { ActiveAreRunning(s.rows, row.terms.parent.value); }
  }

  lemma ActiveAreRunning(rows: Rows, p: Id)
    requires Shape(rows) && p in rows && rows[p].terms.parent.None?
    ensures ActiveChildren(rows, p) == set c | c in rows && rows[c].terms.parent == Some(p) && rows[c].status == Running
  {
    forall c | c in rows ensures rows[c].terms.parent.Some? ==> (rows[c].terms.root == p <==> rows[c].terms.parent == Some(p)) {
      assert RowShape(rows, c);
    }
  }

  /** Whole branch time for a coordinator, one's own for anyone else, never less than a second. */
  ghost predicate HasWindow(t: Terms, length: int) {
    && length >= 1
    && (t.parent.None? && t.maxDepth > 0 && t.branchMax.seconds >= 1 ==> length == t.branchMax.seconds)
    && (t.parent.Some? || t.maxDepth == 0 ==> t.worker.seconds >= 1 ==> length == t.worker.seconds)
  }

  /** A claim starts the attempt's clock, and opens its lease unused at the row's own limits. */
  lemma ClaimStarts(profiles: Profiles, s: State, caller: Caller, id: Id, now: int)
    requires Inv(s) && Accepts(profiles, s, Claim(caller, id, now))
    ensures var t := Next(profiles, s, Claim(caller, id, now));
            && id in s.rows && id in t.rows && t.rows == s.rows[id := t.rows[id]]
            && var (was, row) := (s.rows[id], t.rows[id]);
            && row.terms == was.terms && row.reserved == was.reserved
            && (row.status, row.attempts, row.owner, row.grant, row.updatedTs) == (Running, 1, caller, Active, now)
            && HasWindow(row.terms, row.deadline - now)
            && t.leases == s.leases[(id, 1) := Lease(Open, was.terms.worker.turns, 0, was.terms.worker.calls, 0)]
  {
    StartedRow(s, caller, id, now);
  }

  lemma StartedRow(s: State, caller: Caller, id: Id, now: int)
    requires id in s.rows && s.rows[id].attempts == 0
    ensures var t := Claimed(s, caller, id, now);
            && t.rows == s.rows[id := t.rows[id]]
            && var (was, row) := (s.rows[id], t.rows[id]);
            && row.terms == was.terms && row.reserved == was.reserved
            && (row.status, row.attempts, row.owner, row.grant, row.updatedTs) == (Running, 1, caller, Active, now)
            && HasWindow(row.terms, row.deadline - now)
            && t.leases == s.leases[(id, 1) := Lease(Open, was.terms.worker.turns, 0, was.terms.worker.calls, 0)]
  {
  }

  // ---- ending ----

  /** The attempt's lease is closed with this outcome, its counts kept; others are as they were. */
  ghost predicate ClosedLease(before: Leases, after: Leases, id: Id, attempt: nat, outcome: Status) {
    && after.Keys == before.Keys
    && forall k | k in before ::
         after[k] == if k == (id, attempt) && before[k].state == Open then before[k].(state := Closed(outcome)) else before[k]
  }

  lemma LeaseCloses(leases: Leases, id: Id, attempt: nat, outcome: Status)
    ensures ClosedLease(leases, CloseLease(leases, id, attempt, outcome), id, attempt, outcome)
  {
  }

  lemma FinishedRows(rows: Rows, id: Id, outcome: Status, now: int)
    requires Shape(rows) && id in rows
    ensures TakesDown(rows[id := rows[id].(status := outcome, updatedTs := now, owner := NOBODY)],
                      Demote(rows[id := Ended(rows[id], outcome, now)], DescendantsOf(rows, id)), id, rows[id].grant)
  {
    ForestDescendants(rows, id);
    assert RowShape(rows, id);
  }

  /** Finishing is for the running attempt alone. Its row records the outcome and nobody owns it,
      its children's usable grants are revoked, its lease is closed, and nothing else changes. */
  lemma FinishMeans(profiles: Profiles, s: State, id: Id, attempt: nat, outcome: Terminal, now: int)
    requires Inv(s)
    ensures var op := Op.Finish(id, attempt, outcome, now);
            && (Accepts(profiles, s, op) <==> id in s.rows && s.rows[id].status == Running && s.rows[id].attempts == attempt)
            && var t := Next(profiles, s, op);
            if !Accepts(profiles, s, op) then t == s
            else
              && TakesDown(s.rows[id := s.rows[id].(status := outcome, updatedTs := now, owner := NOBODY)], t.rows, id, s.rows[id].grant)
              && ClosedLease(s.leases, t.leases, id, attempt, outcome)
  {
    if id in s.rows { FinishedRows(s.rows, id, outcome, now); }
    LeaseCloses(s.leases, id, attempt, outcome);
  }

  lemma RevokedRows(rows: Rows, id: Id)
    requires Shape(rows) && id in rows
    ensures TakesDown(rows, Demote(rows, DescendantsOf(rows, id) + {id}), id,
                      if rows[id].grant in {Issued, Active} then Revoked else rows[id].grant)
  {
    ForestDescendants(rows, id);
    assert RowShape(rows, id);
    var victims := DescendantsOf(rows, id) + {id};
    assert forall d | d in rows :: d in victims <==> d == id || rows[d].terms.parent == Some(id);
  }

  /** Revoking is for the running attempt's owner. Its own grant, if usable, and its children's
      are revoked, and nothing else changes. */
  lemma RevokeMeans(profiles: Profiles, s: State, caller: Caller, id: Id, attempt: nat)
    requires Inv(s)
    ensures var op := Op.Revoke(caller, id, attempt);
            && (Accepts(profiles, s, op)
                <==> id in s.rows && s.rows[id].status == Running && s.rows[id].attempts == attempt && s.rows[id].owner == caller)
            && var t := Next(profiles, s, op);
            if !Accepts(profiles, s, op) then t == s
            else t.leases == s.leases
                 && TakesDown(s.rows, t.rows, id, if s.rows[id].grant in {Issued, Active} then Revoked else s.rows[id].grant)
  {
    RevokeIs(profiles, s, caller, id, attempt);
    if id in s.rows { RevokedRows(s.rows, id); }
  }

  lemma RevokeIs(profiles: Profiles, s: State, caller: Caller, id: Id, attempt: nat)
    ensures var op := Op.Revoke(caller, id, attempt);
            && (Accepts(profiles, s, op) <==> Holds(s.rows, id, attempt) && s.rows[id].owner == caller)
            && Next(profiles, s, op) == if Accepts(profiles, s, op) then s.(rows := Demote(s.rows, DescendantsOf(s.rows, id) + {id})) else s
  {
  }

  /** Running, owned by another instance of this machine, and proven dead. */
  predicate Orphaned(row: Row, caller: Caller, id: Id, dead: set<Id>) {
    && id in dead && row.status == Running && caller.machine != "" && row.owner.machine == caller.machine
    && row.owner.instance != "" && row.owner.instance != caller.instance
  }

  lemma RecoverableIff(rows: Rows, caller: Caller, dead: set<Id>, id: Id)
    requires id in rows
    ensures id in Recoverable(rows, caller, dead) <==> Orphaned(rows[id], caller, id, dead)
  {
  }

  lemma RecoveredRow(s: State, victims: set<Id>, now: int, id: Id)
    requires id in s.rows
    ensures Recovered(s, victims, now).rows.Keys == s.rows.Keys
    ensures Recovered(s, victims, now).rows[id]
         == if id in victims then s.rows[id].(status := Failed, updatedTs := now, owner := NOBODY) else s.rows[id]
  {
  }

  lemma RecoveredLease(s: State, victims: set<Id>, now: int, id: Id)
    requires ClaimedOnce(s.rows) && id in s.rows && (id, 1) in s.leases && !s.rows[id].status.Queued?
    ensures (id, 1) in Recovered(s, victims, now).leases
    ensures Recovered(s, victims, now).leases[(id, 1)]
         == if id in victims && s.leases[(id, 1)].state == Open then s.leases[(id, 1)].(state := Closed(Failed)) else s.leases[(id, 1)]
  {
    assert s.rows[id].attempts == 1;
  }

  /** The row and its lease fail together when the row is orphaned, else stay as they were. */
  ghost predicate Mended(s: State, t: State, caller: Caller, dead: set<Id>, now: int, id: Id) {
    && id in s.rows && t.rows.Keys == s.rows.Keys
    && var lost := Orphaned(s.rows[id], caller, id, dead);
    && t.rows[id] == (if lost then s.rows[id].(status := Failed, updatedTs := now, owner := NOBODY) else s.rows[id])
    && ((id, 1) in s.leases ==>
          && (id, 1) in t.leases
          && t.leases[(id, 1)] == if lost && s.leases[(id, 1)].state == Open
                                  then s.leases[(id, 1)].(state := Closed(Failed)) else s.leases[(id, 1)])
  }

  lemma RecoveredMeans(s: State, caller: Caller, dead: set<Id>, now: int, id: Id)
    requires ClaimedOnce(s.rows) && Leased(s) && id in s.rows
    ensures Mended(s, Recovered(s, Recoverable(s.rows, caller, dead), now), caller, dead, now, id)
  {
    var victims := Recoverable(s.rows, caller, dead);
    RecoverableIff(s.rows, caller, dead, id);
    RecoveredRow(s, victims, now, id);
    if (id, 1) in s.leases {
      assert LeaseShape(s, (id, 1));
      RecoveredLease(s, victims, now, id);
    }
  }

  /** Recovery fails exactly the running rows proven dead that this machine's other instances
      own, closing their leases, and changes nothing else. */
  lemma RecoveryMeans(profiles: Profiles, s: State, caller: Caller, dead: set<Id>, now: int, id: Id)
    requires ClaimedOnce(s.rows) && Leased(s) && id in s.rows
    ensures Mended(s, Next(profiles, s, Op.Recover(caller, dead, now)), caller, dead, now, id)
  {
    RecoverIs(profiles, s, caller, dead, now);
    RecoveredMeans(s, caller, dead, now, id);
  }

  lemma RecoverIs(profiles: Profiles, s: State, caller: Caller, dead: set<Id>, now: int)
    ensures Next(profiles, s, Op.Recover(caller, dead, now)) == Recovered(s, Recoverable(s.rows, caller, dead), now)
  {
  }
}
