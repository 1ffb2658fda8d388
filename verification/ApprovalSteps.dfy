/** What each step does to memory and table, told without the model's own functions. */
module ApprovalSteps {
  import opened Approvals
  import opened ApprovalWrapper

  /** The stored row of `id` is taken for this; an id that is not stored is left alone. */
  ghost predicate TakenFor(s: Sys, t: Sys, k: (Pid, Thread), id: Id, mode: Mode, now: int) {
    if id in s.durable then t == s.(durable := s.durable - {id}, taking := s.taking[k := Take(id, mode, now)]) else t == s
  }

  /** A decision takes its row to reject it while the switch is on, to expire it past the limit,
      and else for what was decided; a sweep takes only what is past the limit, to expire it; an
      emergency stop takes rows to reject them. */
  lemma TakingMeans(policy: Policy, s: Sys, p: Pid, t: Thread, id: Id, approved: bool, now: int)
    requires p in s.procs && (p, t) !in s.taking
    ensures Enabled(policy, s, Resolve(p, t, id, approved, now)) ==>
              TakenFor(s, Next(policy, s, Resolve(p, t, id, approved, now)), (p, t), id,
                       if s.procs[p].killed then ToKill
                       else if Overdue(policy, s.procs[p].requestedAt, id, now) then ToExpire else Decide(approved), now)
    ensures if Overdue(policy, s.procs[p].requestedAt, id, now)
            then TakenFor(s, Next(policy, s, SweepOne(p, t, id, now)), (p, t), id, ToExpire, now)
            else Next(policy, s, SweepOne(p, t, id, now)) == s
    ensures TakenFor(s, Next(policy, s, KillOne(p, t, id, now)), (p, t), id, ToKill, now)
  {
  }

  /** Finishing an item the gate still holds gives it up, forgets its time, deletes what is stored
      under its id by then, and records it once; it is approved exactly when that was decided.
      An item the gate does not hold is dropped without a trace. */
  lemma FinishingMeans(policy: Policy, s: Sys, p: Pid, t: Thread)
    requires p in s.procs && (p, t) in s.taking
    ensures var (take, was, n) := (s.taking[(p, t)], s.procs[p], Next(policy, s, Finish(p, t)));
            && n.taking == s.taking - {(p, t)} && n.asked == s.asked && n.audits == s.audits && n.auditedAt == s.auditedAt
            && p in n.procs && n.procs == s.procs[p := n.procs[p]]
            && if take.id in was.gate then
                 && n.durable == s.durable - {take.id}
                 && n.procs[p].gate == was.gate - {take.id} && n.procs[p].requestedAt == was.requestedAt - {take.id}
                 && n.procs[p].killed == was.killed
                 && n.procs[p].decided == was.decided + [Rec(take.id, if take.mode == ToKill then Killed
                                                                      else if take.mode == ToExpire then Expired
                                                                      else if take.mode.approved then Approved else Rejected)]
                 && n.grants == s.grants + if take.mode == Decide(true) then [Grant(take.id, was.gate[take.id], take.now, was.killed)] else []
               else n.durable == s.durable && n.procs[p] == was && n.grants == s.grants
  {
  }

  /** After a start or a rebind the table holds the rows still in time, each of them is in the
      gate under its stored time, and what else the gate held before stays. */
  ghost predicate Reread(policy: Policy, s: Sys, t: Sys, p: Pid, was: Proc, now: int) {
    && t == s.(procs := t.procs, durable := t.durable) && p in t.procs && t.procs == s.procs[p := t.procs[p]]
    && InTime(policy, s.durable, t.durable, now)
    && var n := t.procs[p];
    && n.gate.Keys == was.gate.Keys + t.durable.Keys && n.requestedAt.Keys == t.durable.Keys
    && (forall id | id in n.gate :: n.gate[id] == if id in was.gate then was.gate[id] else t.durable[id].call)
    && (forall id | id in t.durable :: n.requestedAt[id] == t.durable[id].requestedAt)
    && n.killed == was.killed && n.history == was.history && n.decided == was.decided
  }

  lemma RereadingMeans(policy: Policy, s: Sys, p: Pid, now: int)
    ensures p !in s.procs ==> Reread(policy, s, Next(policy, s, Start(p, now)), p, Proc(map[], map[], false, [], []), now)
    ensures p in s.procs && LockFree(s.taking, p) ==> Reread(policy, s, Next(policy, s, Rebind(p, now)), p, s.procs[p], now)
  {
    if p !in s.procs { ReloadRereads(policy, s, p, Proc(map[], map[], false, [], []), now); }
    if p in s.procs { ReloadRereads(policy, s, p, s.procs[p], now); }
  }

  lemma ReloadRereads(policy: Policy, s: Sys, p: Pid, was: Proc, now: int)
    ensures Reread(policy, s, Reload(policy, s, p, was, now), p, was, now)
  {
  }

  /** The switch is set and released, a history cleared, a process lost with all it was doing,
      and the table is not touched. */
  lemma SwitchingMeans(policy: Policy, s: Sys, p: Pid)
    requires p in s.procs
    ensures var was := s.procs[p];
            && (LockFree(s.taking, p) ==>
                  && Next(policy, s, Engage(p)) == s.(procs := s.procs[p := was.(killed := true)])
                  && Next(policy, s, Release(p)) == s.(procs := s.procs[p := was.(killed := false)])
                  && Next(policy, s, ClearHistory(p)) == s.(procs := s.procs[p := was.(history := [], decided := [])]))
            && var lost := Next(policy, s, Crash(p));
            && lost == s.(procs := s.procs - {p}, taking := lost.taking)
            && forall k :: k in lost.taking <==> k in s.taking && k.0 != p
  {
  }

  /** Nothing but a decision a process has under way keeps its lock from another. */
  lemma LockMeans(policy: Policy, s: Sys, p: Pid, t: Thread, id: Id, approved: bool, now: int)
    ensures Enabled(policy, s, Resolve(p, t, id, approved, now))
       <==> (p in s.procs && (p, t) !in s.taking && forall u | (p, u) in s.taking :: !s.taking[(p, u)].mode.Decide?)
    ensures Enabled(policy, s, Finish(p, t)) <==> p in s.procs && (p, t) in s.taking
  {
  }
}
