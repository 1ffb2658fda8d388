/** The objects behind one process: the gate, the durable store and the wrapper over both. */
module ApprovalWrapper {
  import opened Wrappers
  import opened Approvals

  class Gate {
    var pending: map<Id, Call>

    constructor ()
      ensures pending == map[]
    {
      pending := map[];
    }

    method Request(id: Id, call: Call)
      requires id !in pending
      modifies this
      ensures pending == old(pending)[id := call]
    {
      pending := pending[id := call];
    }

    method Resolve(id: Id) returns (item: Option<Call>)
      modifies this
      ensures item == if id in old(pending) then Some(old(pending)[id]) else None
      ensures pending == old(pending) - {id}
    {
      if id !in pending { return None; }
      item := Some(pending[id]);
      pending := pending - {id};
    }
  }

  class SafetyStore {
    var pending: map<Id, Row>

    constructor ()
      ensures pending == map[]
    {
      pending := map[];
    }

    /** An id already stored keeps its row, and so its time limit. */
    method RecordApproval(id: Id, row: Row)
      modifies this
      ensures pending == if id in old(pending) then old(pending) else old(pending)[id := row]
    {
      if id !in pending { pending := pending[id := row]; }
    }

    /** Rows past their time limit are deleted, one by one, before the rest is returned. */
    method LoadPending(policy: Policy, now: int) returns (live: map<Id, Row>, expired: set<Id>)
      modifies this
      ensures InTime(policy, old(pending), live, now)
      ensures live == pending == Alive(policy, old(pending), now)
      ensures expired == old(pending).Keys - live.Keys
    {
      expired := set id | id in pending && IsExpired(policy, pending[id].requestedAt, now);
      var gone: set<Id> := {};
      while expired - gone != {}
        invariant gone <= expired && pending == old(pending) - gone
        decreases expired - gone
      {
        var id :| id in expired - gone;
        pending, gone := pending - {id}, gone + {id};
      }
      assert forall id | id in expired :: id !in expired - gone;
      live := pending;
    }

    method ConsumeApproval(id: Id) returns (row: Option<Row>)
      modifies this
      ensures row == if id in old(pending) then Some(old(pending)[id]) else None
      ensures pending == old(pending) - {id}
    {
      if id !in pending { return None; }
      row := Some(pending[id]);
      pending := pending - {id};
    }
  }

  /** The rows that stay are those asked for no longer ago than the limit, if there is one. */
  ghost predicate InTime(policy: Policy, rows: map<Id, Row>, live: map<Id, Row>, now: int) {
    && (forall id :: id in live <==> id in rows && (policy.enabled ==> now - rows[id].requestedAt <= policy.ttl))
    && forall id | id in live :: live[id] == rows[id]
  }

  /** Asked for longer ago than a limit in force. */
  ghost predicate Overdue(policy: Policy, requestedAt: map<Id, int>, id: Id, now: int) {
    policy.enabled && id in requestedAt && now - requestedAt[id] > policy.ttl
  }

  predicate HistoryOk(policy: Policy, p: Proc) {
    p.history == Trim(p.decided, policy.historyMax)
  }

  /** What taking and finishing one id leaves of a process and of the table. */
  function Settled(policy: Policy, p: Proc, durable: map<Id, Row>, take: Take): (Proc, map<Id, Row>) {
    (if take.id in durable then Finished(policy, p, take) else p, durable - {take.id})
  }

  /** Undisturbed, that is the model's two steps, the lock being free in between or not. */
  lemma SettledIsTwoSteps(policy: Policy, s: Sys, p: Pid, t: Thread, take: Take)
    requires p in s.procs && (p, t) !in s.taking && take.id in s.durable
    ensures var after := Done(policy, Took(s, p, t, take), p, t);
            (after.procs[p], after.durable) == Settled(policy, s.procs[p], s.durable, take)
            && after.taking == s.taking
  {
    assert s.taking[(p, t) := take] - {(p, t)} == s.taking;
    assert s.durable - {take.id} - {take.id} == s.durable - {take.id};
  }

  /** Which ids a pass over `ids` takes, and what it leaves; the order of the new records
      is that of the pass. */
  ghost predicate Passed(
    policy: Policy, before: Proc, rows: map<Id, Row>, after: Proc, left: map<Id, Row>, ids: set<Id>, taken: set<Id>, outcome: Outcome)
  {
    && Removed(before, rows, after, left, ids, taken)
    && Noted(before.decided, after.decided, taken, outcome)
    && (HistoryOk(policy, before) ==> HistoryOk(policy, after))
  }

  ghost predicate Removed(before: Proc, rows: map<Id, Row>, after: Proc, left: map<Id, Row>, ids: set<Id>, taken: set<Id>) {
    && taken == ids * rows.Keys * before.gate.Keys
    && left == rows - ids && after.gate == before.gate - taken
    && after.requestedAt == before.requestedAt - taken && after.killed == before.killed
  }

  /** One record of this outcome for each taken id, after what was there. */
  ghost predicate Noted(before: seq<Rec>, after: seq<Rec>, taken: set<Id>, outcome: Outcome) {
    && before <= after && |after| == |before| + |taken|
    && (forall i | |before| <= i < |after| :: after[i].outcome == outcome && after[i].id in taken)
    && (forall id | id in taken :: Rec(id, outcome) in after)
  }

  lemma NothingPassed(policy: Policy, before: Proc, rows: map<Id, Row>, outcome: Outcome)
    ensures Passed(policy, before, rows, before, rows, {}, {}, outcome)
  {
    assert Noted(before.decided, before.decided, {}, outcome);
    NothingRemoved(before, rows);
  }

  lemma AllSeen(ids: set<Id>, seen: set<Id>)
    requires seen <= ids && ids - seen == {}
    ensures seen == ids
  {
    assert forall id | id in ids :: id !in ids - seen;
  }

  lemma NothingRemoved(before: Proc, rows: map<Id, Row>)
    ensures Removed(before, rows, before, rows, {}, {})
  {
    assert before.gate - {} == before.gate && before.requestedAt - {} == before.requestedAt && rows - {} == rows;
  }

  lemma NotedOne(before: seq<Rec>, after: seq<Rec>, taken: set<Id>, id: Id, outcome: Outcome)
    requires Noted(before, after, taken, outcome) && id !in taken
    ensures Noted(before, after + [Rec(id, outcome)], taken + {id}, outcome)
  {
    assert (after + [Rec(id, outcome)])[|after|] == Rec(id, outcome);
  }

  lemma TakenStays(ids: set<Id>, rows: set<Id>, gate: set<Id>, taken: set<Id>, id: Id)
    requires taken == ids * rows * gate && id !in ids && !(id in rows && id in gate)
    ensures taken == (ids + {id}) * rows * gate
  {
  }

  lemma RemovedNone(before: Proc, rows: map<Id, Row>, after: Proc, left: map<Id, Row>, ids: set<Id>, taken: set<Id>, id: Id)
    requires id !in ids && Removed(before, rows, after, left, ids, taken) && (id !in left || id !in after.gate)
    ensures Removed(before, rows, after, left - {id}, ids + {id}, taken)
  {
    assert left - {id} == rows - (ids + {id});
    TakenStays(ids, rows.Keys, before.gate.Keys, taken, id);
  }

  lemma PassSkips(
    policy: Policy, before: Proc, rows: map<Id, Row>, after: Proc, left: map<Id, Row>, ids: set<Id>, taken: set<Id>, id: Id, outcome: Outcome)
    requires id !in ids && Passed(policy, before, rows, after, left, ids, taken, outcome)
    requires id !in left || id !in after.gate
    ensures Passed(policy, before, rows, after, left - {id}, ids + {id}, taken, outcome)
  {
    RemovedNone(before, rows, after, left, ids, taken, id);
  }

  lemma TakenGrows(ids: set<Id>, rows: set<Id>, gate: set<Id>, taken: set<Id>, id: Id)
    requires taken == ids * rows * gate && id !in ids && id in rows && id in gate
    ensures taken + {id} == (ids + {id}) * rows * gate && id !in taken
  {
  }

  lemma RemovedOne(before: Proc, rows: map<Id, Row>, after: Proc, left: map<Id, Row>, ids: set<Id>, taken: set<Id>, id: Id, next: Proc)
    requires id !in ids && Removed(before, rows, after, left, ids, taken) && id in left && id in after.gate
    requires next.gate == after.gate - {id} && next.requestedAt == after.requestedAt - {id} && next.killed == after.killed
    ensures Removed(before, rows, next, left - {id}, ids + {id}, taken + {id}) && id !in taken
  {
    TakenGrows(ids, rows.Keys, before.gate.Keys, taken, id);
    assert left - {id} == rows - (ids + {id});
    assert before.gate - taken - {id} == before.gate - (taken + {id});
    assert before.requestedAt - taken - {id} == before.requestedAt - (taken + {id});
  }

  lemma HistoryKept(policy: Policy, p: Proc, take: Take)
    ensures HistoryOk(policy, p) ==> HistoryOk(policy, Finished(policy, p, take))
  {
  }

  lemma PassTakes(
    policy: Policy, before: Proc, rows: map<Id, Row>, after: Proc, left: map<Id, Row>, ids: set<Id>, taken: set<Id>, take: Take)
    requires take.id !in ids && Passed(policy, before, rows, after, left, ids, taken, OutcomeOf(take.mode))
    requires take.id in left && take.id in after.gate
    ensures Passed(policy, before, rows, Finished(policy, after, take), left - {take.id}, ids + {take.id}, taken + {take.id}, OutcomeOf(take.mode))
  {
    var next := Finished(policy, after, take);
    RemovedOne(before, rows, after, left, ids, taken, take.id, next);
    NotedOne(before.decided, after.decided, taken, take.id, OutcomeOf(take.mode));
    HistoryKept(policy, after, take);
  }

  lemma PassGrows(
    policy: Policy, before: Proc, rows: map<Id, Row>, after: Proc, left: map<Id, Row>, ids: set<Id>, taken: set<Id>, take: Take)
    requires take.id !in ids && Passed(policy, before, rows, after, left, ids, taken, OutcomeOf(take.mode))
    ensures var (memory, table) := Settled(policy, after, left, take);
            var more := if take.id in left && take.id in after.gate then taken + {take.id} else taken;
            Passed(policy, before, rows, memory, table, ids + {take.id}, more, OutcomeOf(take.mode))
  {
    if take.id in left && take.id in after.gate {
      PassTakes(policy, before, rows, after, left, ids, taken, take);
    } else {
      PassSkips(policy, before, rows, after, left, ids, taken, take.id, OutcomeOf(take.mode));
    }
  }

  class Enhancements {
    const policy: Policy
    const gate: Gate
    const store: SafetyStore
    var requestedAt: map<Id, int>
    var killed: bool
    var history: seq<Rec>
    ghost var decided: seq<Rec>

    ghost function Memory(): Proc
      reads this, gate
    {
      Proc(gate.pending, requestedAt, killed, history, decided)
    }

    /** A new process: nothing in memory but the live stored rows. */
    constructor (policy: Policy, gate: Gate, store: SafetyStore, now: int)
      requires gate.pending == map[]
      modifies gate, store
      ensures this.policy == policy && this.gate == gate && this.store == store
      ensures InTime(policy, old(store.pending), store.pending, now)
      ensures store.pending == Alive(policy, old(store.pending), now)
      ensures Memory() == Reloaded(FRESH, store.pending)
    {
      this.policy, this.gate, this.store := policy, gate, store;
      requestedAt, killed, history, decided := map[], false, [], [];
      new;
      var _ := Rehydrate(now);
    }

    /** Live rows are put back into the gate, which keeps what it already holds. */
    method Rehydrate(now: int) returns (expired: set<Id>)
      requires requestedAt == map[]
      modifies this`requestedAt, gate, store
      ensures InTime(policy, old(store.pending), store.pending, now)
      ensures store.pending == Alive(policy, old(store.pending), now)
      ensures expired == old(store.pending).Keys - store.pending.Keys
      ensures Memory() == Reloaded(old(Memory()), store.pending)
    {
      var live;
      live, expired := store.LoadPending(policy, now);
      var done: set<Id> := {};
      while live.Keys - done != {}
        invariant done <= live.Keys && store.pending == live
        invariant gate.pending == map id | id in old(gate.pending).Keys + done ::
                                    if id in old(gate.pending) then old(gate.pending)[id] else live[id].call
        invariant requestedAt == map id | id in done :: live[id].requestedAt
        decreases live.Keys - done
      {
        var id :| id in live.Keys - done;
        if id !in gate.pending { gate.pending := gate.pending[id := live[id].call]; }
        requestedAt, done := requestedAt[id := live[id].requestedAt], done + {id};
      }
      AllSeen(live.Keys, done);
    }

    method ConfigurePersistence(now: int) returns (expired: set<Id>)
      modifies this`requestedAt, gate, store
      ensures InTime(policy, old(store.pending), store.pending, now)
      ensures store.pending == Alive(policy, old(store.pending), now)
      ensures Memory() == Reloaded(old(Memory()), store.pending)
    {
      requestedAt := map[];
      expired := Rehydrate(now);
    }

    /** The time is noted first; auditing an item the gate does not hold then fails. */
    method AuditRequest(id: Id, ts: int, ghost s: Sys, ghost p: Pid) returns (ok: bool)
      requires p in s.procs && s.procs[p] == Memory() && s.durable == store.pending
      modifies this`requestedAt, store
      ensures ok <==> id in gate.pending
      ensures Audited(s, p, id, ts).procs[p] == Memory() && Audited(s, p, id, ts).durable == store.pending
    {
      requestedAt := requestedAt[id := ts];
      if id !in gate.pending { return false; }
      store.RecordApproval(id, Row(gate.pending[id], ts));
      return true;
    }

    /** The durable row goes first. Only then is the gate asked, and only an item it still
        holds is recorded and returned. */
    method TakeAndRecord(id: Id, mode: Mode, now: int) returns (item: Option<Call>)
      modifies this, gate, store
      ensures killed == old(killed)
      ensures (Memory(), store.pending) == Settled(policy, old(Memory()), old(store.pending), Take(id, mode, now))
      ensures item == if id in old(store.pending) && id in old(gate.pending) then Some(old(gate.pending)[id]) else None
    {
      var row := store.ConsumeApproval(id);
      if row.None? { return None; }
      item := gate.Resolve(id);
      if item.None? {
        assert gate.pending == old(gate.pending);
        return;
      }
      var r := Rec(id, OutcomeOf(mode));
      var most := if policy.historyMax == 0 then 1 else policy.historyMax;
      history, decided := history + [r], decided + [r];
      if |history| > most { history := history[|history| - most..]; }
      requestedAt := requestedAt - {id};
    }

    /** The kill switch, then the time limit, then the decision; absent ids give nothing. */
    method ResolveWithOutcome(id: Id, approved: bool, now: int) returns (item: Option<Call>, outcome: Option<Outcome>)
      modifies this, gate, store
      ensures var mode := ModeOf(policy, old(Memory()), id, approved, now);
              && (Memory(), store.pending) == Settled(policy, old(Memory()), old(store.pending), Take(id, mode, now))
              && outcome == (if item.Some? then Some(OutcomeOf(mode)) else None)
      ensures item == if id in old(store.pending) && id in old(gate.pending) then Some(old(gate.pending)[id]) else None
      ensures outcome == if item.None? then None
                         else if old(killed) then Some(Killed)
                         else if Overdue(policy, old(requestedAt), id, now) then Some(Expired)
                         else if approved then Some(Approved)
                         else Some(Rejected)
    {
      if killed {
        item := TakeAndRecord(id, ToKill, now);
        return item, if item.Some? then Some(Killed) else None;
      }
      if id in requestedAt && IsExpired(policy, requestedAt[id], now) {
        item := TakeAndRecord(id, ToExpire, now);
        return item, if item.Some? then Some(Expired) else None;
      }
      item := TakeAndRecord(id, Decide(approved), now);
      return item, if item.None? then None else Some(if approved then Approved else Rejected);
    }

    /** The compatibility form gives an item back only for a real approval. */
    method ResolveWithHistory(id: Id, approved: bool, now: int) returns (item: Option<Call>)
      modifies this, gate, store
      ensures item.Some? <==> (&& approved && !old(killed) && !Overdue(policy, old(requestedAt), id, now)
                               && id in old(store.pending) && id in old(gate.pending))
      ensures item.Some? ==> item.value == old(gate.pending)[id] && id !in gate.pending && id !in store.pending
    {
      var outcome;
      item, outcome := ResolveWithOutcome(id, approved, now);
      if outcome != Some(Approved) { item := None; }
    }

    /** One more id of the pass. */
    method PassOne(id: Id, mode: Mode, now: int, ghost before: Proc, ghost rows: map<Id, Row>, ghost ids: set<Id>, taken: set<Id>)
      returns (more: set<Id>)
      requires id !in ids && Passed(policy, before, rows, Memory(), store.pending, ids, taken, OutcomeOf(mode))
      modifies this, gate, store
      ensures Passed(policy, before, rows, Memory(), store.pending, ids + {id}, more, OutcomeOf(mode))
    {
      PassGrows(policy, before, rows, Memory(), store.pending, ids, taken, Take(id, mode, now));
      var item := TakeAndRecord(id, mode, now);
      more := if item.Some? then taken + {id} else taken;
    }

    /** The loop both the sweep and the emergency stop run. */
    method Pass(ids: set<Id>, mode: Mode, now: int) returns (taken: set<Id>)
      modifies this, gate, store
      ensures Passed(policy, old(Memory()), old(store.pending), Memory(), store.pending, ids, taken, OutcomeOf(mode))
    {
      taken := {};
      ghost var before, rows := Memory(), store.pending;
      var seen: set<Id> := {};
      NothingPassed(policy, before, rows, OutcomeOf(mode));
      while ids - seen != {}
        invariant seen <= ids && Passed(policy, before, rows, Memory(), store.pending, seen, taken, OutcomeOf(mode))
        decreases ids - seen
      {
        var id :| id in ids - seen;
        taken := PassOne(id, mode, now, before, rows, seen, taken);
        seen := seen + {id};
      }
      AllSeen(ids, seen);
    }

    /** Every stored item asked for longer ago than the limit is taken out, and no other; a
        second sweep at the same time finds none. */
    method SweepExpired(now: int) returns (expired: set<Id>)
      modifies this, gate, store
      ensures var due := set id | id in old(requestedAt) && KnownExpired(policy, old(Memory()), id, now);
              Passed(policy, old(Memory()), old(store.pending), Memory(), store.pending, due, expired, Expired)
      ensures forall id :: id in store.pending <==> id in old(store.pending) && !Overdue(policy, old(requestedAt), id, now)
      ensures forall id :: id in expired <==>
                id in old(store.pending) && id in old(gate.pending) && Overdue(policy, old(requestedAt), id, now)
    {
      var due := set id | id in requestedAt && IsExpired(policy, requestedAt[id], now);
      assert due == set id | id in requestedAt && KnownExpired(policy, Memory(), id, now);
      expired := Pass(due, ToExpire, now);
    }

    /** The switch is set first; every stored item the gate holds is then rejected, unless
        the switch was already on. */
    method EngageKillSwitch(now: int) returns (ended: set<Id>)
      modifies this, gate, store
      ensures killed
      ensures old(killed) ==> ended == {} && Memory() == old(Memory()) && store.pending == old(store.pending)
      ensures !old(killed) ==>
                Passed(policy, old(Memory()).(killed := true), old(store.pending), Memory(), store.pending, old(gate.pending).Keys, ended, Killed)
    {
      ended := {};
      if killed { return; }
      killed := true;
      ended := Pass(gate.pending.Keys, ToKill, now);
    }

    method ReleaseKillSwitch() returns (wasActive: bool)
      modifies this`killed
      ensures Memory() == old(Memory()).(killed := false) && wasActive == old(killed)
    {
      wasActive, killed := killed, false;
    }

    method ClearHistory() returns (n: nat)
      modifies this`history, this`decided
      ensures n == |old(history)| && Memory() == old(Memory()).(history := [], decided := [])
    {
      n, history, decided := |history|, [], [];
    }
  }
}
