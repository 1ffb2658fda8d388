/** No approval is granted twice, late, or under the kill switch, on any run. */
module ApprovalSafety {
  import opened Approvals

  // ---- at most one grant per audit ----

  function GrantsOf(grants: seq<Grant>, id: Id): nat
    decreases |grants|
  {
    if grants == [] then 0
    else GrantsOf(grants[..|grants| - 1], id) + if grants[|grants| - 1].id == id then 1 else 0
  }

  lemma OneMoreGrant(grants: seq<Grant>, g: Grant, id: Id)
    ensures GrantsOf(grants + [g], id) == GrantsOf(grants, id) + if g.id == id then 1 else 0
  {
    assert (grants + [g])[..|grants|] == grants;
  }

  function InFlight(taking: map<(Pid, Thread), Take>, id: Id): set<(Pid, Thread)> {
    set k | k in taking && taking[k].id == id
  }

  /** Every audit is spent at most once: on a stored row, a row being acted on, or a grant. */
  ghost predicate Conserved(s: Sys, id: Id) {
    GrantsOf(s.grants, id) + |InFlight(s.taking, id)| + (if id in s.durable then 1 else 0) <= s.audits[id]
  }

  lemma OneMoreTake(taking: map<(Pid, Thread), Take>, k: (Pid, Thread), take: Take, id: Id)
    requires k !in taking
    ensures |InFlight(taking[k := take], id)| == |InFlight(taking, id)| + if take.id == id then 1 else 0
  {
    if take.id == id {
      assert InFlight(taking[k := take], id) == InFlight(taking, id) + {k};
    } else {
      assert InFlight(taking[k := take], id) == InFlight(taking, id);
    }
  }

  lemma FewerTakes(a: map<(Pid, Thread), Take>, b: map<(Pid, Thread), Take>, id: Id)
    requires a.Keys <= b.Keys && forall k | k in a :: a[k] == b[k]
    ensures |InFlight(a, id)| <= |InFlight(b, id)|
  {
    assert InFlight(b, id) == InFlight(a, id) + (InFlight(b, id) - InFlight(a, id));
  }

  lemma TookConserves(s: Sys, p: Pid, t: Thread, take: Take, id: Id)
    requires Conserved(s, id) && (p, t) !in s.taking
    ensures Conserved(Took(s, p, t, take), id)
  {
    OneMoreTake(s.taking, (p, t), take, id);
  }

  lemma DoneConserves(policy: Policy, s: Sys, p: Pid, t: Thread, id: Id)
    requires Conserved(s, id) && p in s.procs && (p, t) in s.taking
    ensures Conserved(Done(policy, s, p, t), id)
  {
    var take := s.taking[(p, t)];
    var rest := s.taking - {(p, t)};
    assert rest[(p, t) := take] == s.taking;
    OneMoreTake(rest, (p, t), take, id);
    if take.id in s.procs[p].gate {
      OneMoreGrant(s.grants, Grant(take.id, s.procs[p].gate[take.id], take.now, s.procs[p].killed), id);
    }
  }

  lemma StepConserves(policy: Policy, s: Sys, step: Step, id: Id)
    requires Conserved(s, id)
    ensures Conserved(Next(policy, s, step), id)
  {
    if Enabled(policy, s, step) {
      match step
      case Crash(p) => FewerTakes(Next(policy, s, step).taking, s.taking, id);
      case Resolve(p, t, i, approved, now) => TookConserves(s, p, t, Take(i, ModeOf(policy, s.procs[p], i, approved, now), now), id);
      case SweepOne(p, t, i, now) => TookConserves(s, p, t, Take(i, ToExpire, now), id);
      case KillOne(p, t, i, now) => TookConserves(s, p, t, Take(i, ToKill, now), id);
      case Finish(p, t) => DoneConserves(policy, s, p, t, id);
      case _ =>
    }
  }

  lemma {:induction false} RunConserves(policy: Policy, s: Sys, steps: seq<Step>, id: Id)
    requires Conserved(s, id)
    ensures Conserved(Run(policy, s, steps), id)
    decreases |steps|
  {
    if steps != [] {
      StepConserves(policy, s, steps[0], id);
      RunConserves(policy, Next(policy, s, steps[0]), steps[1..], id);
    }
  }

  /** Across processes, threads, restarts and crashes, an id is granted at most as often
      as it was audited: once, when callers audit each new request once. */
  lemma GrantedAtMostOncePerAudit(policy: Policy, steps: seq<Step>, id: Id)
    ensures var s := Run(policy, START, steps); GrantsOf(s.grants, id) <= s.audits[id]
  {
    RunConserves(policy, START, steps, id);
  }

  // ---- what a grant means, when each id is audited once ----

  ghost predicate Once(s: Sys) {
    forall id | id in s.audits :: s.audits[id] <= 1
  }

  ghost predicate Known(s: Sys, id: Id) {
    id in s.asked && id in s.audits && id in s.auditedAt
  }

  /** An unaudited item is held only where it was requested; one that is also stored has
      a known request time wherever it is held. */
  ghost predicate GateOk(s: Sys, p: Proc, pid: Pid, id: Id)
    requires id in p.gate
  {
    && id in s.asked && p.gate[id] == s.asked[id].call
    && (id !in s.audits ==> pid == s.asked[id].creator)
    && (id in s.durable ==> id in p.requestedAt)
  }

  ghost predicate TimesOk(s: Sys, p: Proc) {
    forall id | id in p.requestedAt :: id in s.audits && id in s.auditedAt && p.requestedAt[id] == s.auditedAt[id]
  }

  ghost predicate ProcOk(s: Sys, p: Proc, pid: Pid) {
    TimesOk(s, p) && forall id | id in p.gate :: GateOk(s, p, pid, id)
  }

  ghost predicate RowOk(s: Sys, id: Id)
    requires id in s.durable
  {
    Known(s, id) && s.durable[id] == Row(s.asked[id].call, s.auditedAt[id])
  }

  ghost predicate TakeOk(policy: Policy, s: Sys, pid: Pid, take: Take) {
    && pid in s.procs && Known(s, take.id)
    && (take.mode.Decide? ==>
          !s.procs[pid].killed
          && (take.id in s.procs[pid].gate ==> !IsExpired(policy, s.auditedAt[take.id], take.now)))
  }

  /** The call asked for, within its time limit, with the kill switch off. */
  ghost predicate GrantOk(policy: Policy, s: Sys, g: Grant) {
    && Known(s, g.id) && g.call == s.asked[g.id].call && !g.killed
    && !IsExpired(policy, s.auditedAt[g.id], g.checkedAt)
  }

  ghost predicate Inv(policy: Policy, s: Sys) {
    && (forall pid | pid in s.procs :: ProcOk(s, s.procs[pid], pid))
    && (forall id | id in s.durable :: RowOk(s, id))
    && (forall k | k in s.taking :: TakeOk(policy, s, k.0, s.taking[k]))
    && (forall g | g in s.grants :: GrantOk(policy, s, g))
  }

  /** Steps of one process that ask or audit nothing. */
  lemma ProcStep(policy: Policy, s: Sys, t: Sys, pid: Pid)
    requires Inv(policy, s) && pid in t.procs && ProcOk(t, t.procs[pid], pid)
    requires t.asked == s.asked && t.audits == s.audits && t.auditedAt == s.auditedAt
    requires t.durable.Keys <= s.durable.Keys && forall id | id in t.durable :: t.durable[id] == s.durable[id]
    requires t.procs.Keys <= s.procs.Keys + {pid} && forall q | q in t.procs && q != pid :: t.procs[q] == s.procs[q]
    requires forall k | k in t.taking :: k.0 in t.procs && TakeOk(policy, t, k.0, t.taking[k])
    requires forall g | g in t.grants && g !in s.grants :: GrantOk(policy, t, g)
    ensures Inv(policy, t)
  {
    forall q | q in t.procs ensures ProcOk(t, t.procs[q], q) {
      if q != pid { assert ProcOk(s, s.procs[q], q); }
    }
    forall g | g in t.grants ensures GrantOk(policy, t, g) {
      if g in s.grants { assert GrantOk(policy, s, g); }
    }
    forall id | id in t.durable ensures RowOk(t, id) { assert RowOk(s, id); }
  }

  lemma TookKeeps(policy: Policy, s: Sys, p: Pid, t: Thread, take: Take)
    requires Inv(policy, s) && p in s.procs && (p, t) !in s.taking
    requires take.mode.Decide? ==> !s.procs[p].killed && !KnownExpired(policy, s.procs[p], take.id, take.now)
    ensures Inv(policy, Took(s, p, t, take))
  {
    var n := Took(s, p, t, take);
    if take.id in s.durable {
      assert ProcOk(s, s.procs[p], p) && RowOk(s, take.id);
      if take.id in s.procs[p].gate { assert GateOk(s, s.procs[p], p, take.id); }
      forall id | id in s.procs[p].gate ensures GateOk(n, s.procs[p], p, id) { assert GateOk(s, s.procs[p], p, id); }
      forall k | k in n.taking ensures k.0 in n.procs && TakeOk(policy, n, k.0, n.taking[k]) {
        if k != (p, t) { assert TakeOk(policy, s, k.0, s.taking[k]); }
      }
      ProcStep(policy, s, n, p);
    }
  }

  lemma DoneKeeps(policy: Policy, s: Sys, p: Pid, t: Thread)
    requires Inv(policy, s) && p in s.procs && (p, t) in s.taking
    ensures Inv(policy, Done(policy, s, p, t))
  {
    var n := Done(policy, s, p, t);
    var take := s.taking[(p, t)];
    assert TakeOk(policy, s, p, take) && ProcOk(s, s.procs[p], p);
    if take.id in s.procs[p].gate { assert GateOk(s, s.procs[p], p, take.id); }
    forall id | id in n.procs[p].gate ensures GateOk(n, n.procs[p], p, id) { assert GateOk(s, s.procs[p], p, id); }
    forall k | k in n.taking ensures k.0 in n.procs && TakeOk(policy, n, k.0, n.taking[k]) {
      assert TakeOk(policy, s, k.0, s.taking[k]);
    }
    ProcStep(policy, s, n, p);
  }

  lemma ReloadKeeps(policy: Policy, s: Sys, p: Pid, memory: Proc, now: int)
    requires Inv(policy, s) && LockFree(s.taking, p)
    requires if p in s.procs then memory == s.procs[p] else memory == FRESH
    ensures Inv(policy, Reload(policy, s, p, memory, now))
  {
    var n := Reload(policy, s, p, memory, now);
    var live := Alive(policy, s.durable, now);
    forall id | id in live ensures RowOk(s, id) && live[id] == s.durable[id] { }
    assert ProcOk(s, memory, p);
    forall id | id in n.procs[p].gate ensures GateOk(n, n.procs[p], p, id) {
      if id in memory.gate { assert GateOk(s, memory, p, id); } else { assert RowOk(s, id); }
    }
    forall k | k in n.taking ensures k.0 in n.procs && TakeOk(policy, n, k.0, n.taking[k]) {
      assert TakeOk(policy, s, k.0, s.taking[k]);
    }
    ProcStep(policy, s, n, p);
  }

  lemma CrashKeeps(policy: Policy, s: Sys, p: Pid)
    requires Inv(policy, s) && p in s.procs
    ensures Inv(policy, Next(policy, s, Crash(p)))
  {
    var n := Next(policy, s, Crash(p));
    forall q | q in n.procs ensures ProcOk(n, n.procs[q], q) { assert ProcOk(s, s.procs[q], q); }
    forall k | k in n.taking ensures TakeOk(policy, n, k.0, n.taking[k]) { assert TakeOk(policy, s, k.0, s.taking[k]); }
    forall g | g in n.grants ensures GrantOk(policy, n, g) { assert GrantOk(policy, s, g); }
    forall id | id in n.durable ensures RowOk(n, id) { assert RowOk(s, id); }
  }

  /** The switch and the history change nothing else, and no decision is in flight. */
  lemma FlagsKeep(policy: Policy, s: Sys, p: Pid, memory: Proc)
    requires Inv(policy, s) && p in s.procs && LockFree(s.taking, p)
    requires memory.gate == s.procs[p].gate && memory.requestedAt == s.procs[p].requestedAt
    ensures Inv(policy, s.(procs := s.procs[p := memory]))
  {
    var n := s.(procs := s.procs[p := memory]);
    assert ProcOk(s, s.procs[p], p);
    forall id | id in memory.gate ensures GateOk(n, memory, p, id) { assert GateOk(s, s.procs[p], p, id); }
    forall k | k in n.taking ensures k.0 in n.procs && TakeOk(policy, n, k.0, n.taking[k]) {
      assert TakeOk(policy, s, k.0, s.taking[k]);
    }
    ProcStep(policy, s, n, p);
  }

  lemma RequestKeeps(policy: Policy, s: Sys, p: Pid, id: Id, call: Call)
    requires Inv(policy, s) && p in s.procs && id !in s.asked
    ensures Inv(policy, Next(policy, s, Request(p, id, call)))
  {
    var n := Next(policy, s, Request(p, id, call));
    forall i | i in s.durable ensures i != id && RowOk(n, i) { assert RowOk(s, i); }
    forall q | q in n.procs ensures ProcOk(n, n.procs[q], q) {
      assert ProcOk(s, s.procs[q], q);
      forall i | i in n.procs[q].gate ensures GateOk(n, n.procs[q], q, i) {
        if i in s.procs[q].gate { assert GateOk(s, s.procs[q], q, i); }
      }
      assert TimesOk(n, n.procs[q]);
    }
    forall k | k in n.taking ensures TakeOk(policy, n, k.0, n.taking[k]) { assert TakeOk(policy, s, k.0, s.taking[k]); }
    forall g | g in n.grants ensures GrantOk(policy, n, g) { assert GrantOk(policy, s, g); }
  }

  lemma AuditedProc(s: Sys, p: Pid, id: Id, ts: int, q: Pid)
    requires p in s.procs && q in s.procs && ProcOk(s, s.procs[q], q) && id !in s.audits
    requires id in s.procs[p].gate ==> GateOk(s, s.procs[p], p, id)
    requires id !in s.durable
    ensures ProcOk(Audited(s, p, id, ts), Audited(s, p, id, ts).procs[q], q)
  {
    var n := Audited(s, p, id, ts);
    forall i | i in n.procs[q].gate ensures GateOk(n, n.procs[q], q, i) {
      assert GateOk(s, s.procs[q], q, i);
    }
    assert TimesOk(n, n.procs[q]);
  }

  lemma AuditKeeps(policy: Policy, s: Sys, p: Pid, id: Id, ts: int)
    requires Inv(policy, s) && p in s.procs && Once(Audited(s, p, id, ts))
    ensures Inv(policy, Audited(s, p, id, ts))
  {
    var n := Audited(s, p, id, ts);
    assert id in n.audits && n.audits[id] == s.audits[id] + 1;
    assert id !in s.audits;
    forall i | i in s.durable ensures i != id { assert RowOk(s, i); }
    assert ProcOk(s, s.procs[p], p);
    if id in s.procs[p].gate { assert GateOk(s, s.procs[p], p, id); }
    forall q | q in n.procs ensures ProcOk(n, n.procs[q], q) { AuditedProc(s, p, id, ts, q); }
    forall i | i in n.durable ensures RowOk(n, i) {
      if i != id { assert RowOk(s, i); }
    }
    forall k | k in n.taking ensures TakeOk(policy, n, k.0, n.taking[k]) { assert TakeOk(policy, s, k.0, s.taking[k]); }
    forall g | g in n.grants ensures GrantOk(policy, n, g) { assert GrantOk(policy, s, g); }
  }

  lemma StartKeeps(policy: Policy, s: Sys, p: Pid, now: int)
    requires Inv(policy, s) && Enabled(policy, s, Start(p, now))
    ensures Inv(policy, Next(policy, s, Start(p, now)))
  {
    assert forall k | k in s.taking :: TakeOk(policy, s, k.0, s.taking[k]);
    ReloadKeeps(policy, s, p, FRESH, now);
  }

  lemma StepKeepsInv(policy: Policy, s: Sys, step: Step)
    requires Inv(policy, s) && Once(Next(policy, s, step))
    ensures Inv(policy, Next(policy, s, step))
  {
    if Enabled(policy, s, step) {
      match step
      case Start(p, now) => StartKeeps(policy, s, p, now);
      case Crash(p) => CrashKeeps(policy, s, p);
      case Rebind(p, now) => ReloadKeeps(policy, s, p, s.procs[p], now);
      case Request(p, id, call) => RequestKeeps(policy, s, p, id, call);
      case Audit(p, id, ts) => AuditKeeps(policy, s, p, id, ts);
      case Resolve(p, t, id, approved, now) => TookKeeps(policy, s, p, t, Take(id, ModeOf(policy, s.procs[p], id, approved, now), now));
      case SweepOne(p, t, id, now) => TookKeeps(policy, s, p, t, Take(id, ToExpire, now));
      case KillOne(p, t, id, now) => TookKeeps(policy, s, p, t, Take(id, ToKill, now));
      case Finish(p, t) => DoneKeeps(policy, s, p, t);
      case Engage(p) => FlagsKeep(policy, s, p, s.procs[p].(killed := true));
      case Release(p) => FlagsKeep(policy, s, p, s.procs[p].(killed := false));
      case ClearHistory(p) => FlagsKeep(policy, s, p, s.procs[p].(history := [], decided := []));
    }
  }

  lemma AuditsGrow(policy: Policy, s: Sys, step: Step)
    ensures s.audits <= Next(policy, s, step).audits
  {
  }

  lemma {:induction false} OnceThroughout(policy: Policy, s: Sys, steps: seq<Step>)
    requires Once(Run(policy, s, steps))
    ensures Once(s)
    decreases |steps|
  {
    if steps != [] {
      OnceThroughout(policy, Next(policy, s, steps[0]), steps[1..]);
      AuditsGrow(policy, s, steps[0]);
      var n := Next(policy, s, steps[0]);
      forall id | id in s.audits ensures s.audits[id] <= 1 { assert id in n.audits && s.audits[id] <= n.audits[id]; }
    }
  }

  lemma {:induction false} RunKeepsInv(policy: Policy, s: Sys, steps: seq<Step>)
    requires Inv(policy, s) && Once(Run(policy, s, steps))
    ensures Inv(policy, Run(policy, s, steps))
    decreases |steps|
  {
    if steps != [] {
      var n := Next(policy, s, steps[0]);
      OnceThroughout(policy, n, steps[1..]);
      StepKeepsInv(policy, s, steps[0]);
      RunKeepsInv(policy, n, steps[1..]);
    }
  }

  /** When every id is audited at most once, each grant is the only one of its id, for the
      call that was requested, checked within the time limit and with the kill switch off. */
  lemma GrantsAreSound(policy: Policy, steps: seq<Step>, i: nat)
    requires Once(Run(policy, START, steps)) && i < |Run(policy, START, steps).grants|
    ensures var s := Run(policy, START, steps);
            && GrantOk(policy, s, s.grants[i]) && GrantsOf(s.grants, s.grants[i].id) == 1
            && var g := s.grants[i];
            && g.id in s.asked && g.call == s.asked[g.id].call && !g.killed
            && g.id in s.auditedAt && (policy.enabled ==> g.checkedAt - s.auditedAt[g.id] <= policy.ttl)
  {
    var s := Run(policy, START, steps);
    RunKeepsInv(policy, START, steps);
    assert s.grants[i] in s.grants;
    GrantedAtMostOncePerAudit(policy, steps, s.grants[i].id);
    CountsItself(s.grants, i);
  }

  lemma {:induction false} CountsItself(grants: seq<Grant>, i: nat)
    requires i < |grants|
    ensures GrantsOf(grants, grants[i].id) >= 1
    decreases |grants|
  {
    if i < |grants| - 1 {
      CountsItself(grants[..|grants| - 1], i);
    }
  }

  // ---- the condition is needed ----

  lemma RunCons(policy: Policy, s: Sys, step: Step, rest: seq<Step>)
    ensures Run(policy, s, [step] + rest) == Run(policy, Next(policy, s, step), rest)
  {
    assert ([step] + rest)[1..] == rest;
  }

  /** A process holds a stored item and nothing keeps it from approving it. */
  ghost predicate Approvable(policy: Policy, s: Sys, p: Pid, id: Id, now: int) {
    && p in s.procs && id in s.durable && id in s.procs[p].gate && s.taking == map[]
    && !s.procs[p].killed && !KnownExpired(policy, s.procs[p], id, now)
  }

  function Approval(s: Sys, p: Pid, id: Id, now: int): Sys {
    Took(s, p, 0, Take(id, Decide(true), now))
  }

  lemma ApprovalSteps(policy: Policy, s: Sys, p: Pid, id: Id, now: int)
    requires Approvable(policy, s, p, id, now)
    ensures Next(policy, s, Resolve(p, 0, id, true, now)) == Approval(s, p, id, now)
    ensures (p, 0) in Approval(s, p, id, now).taking
    ensures Next(policy, Approval(s, p, id, now), Finish(p, 0)) == Done(policy, Approval(s, p, id, now), p, 0)
  {
  }

  lemma ApprovalGrants(policy: Policy, s: Sys, p: Pid, id: Id, now: int)
    requires Approvable(policy, s, p, id, now)
    ensures (p, 0) in Approval(s, p, id, now).taking
    ensures var n := Done(policy, Approval(s, p, id, now), p, 0);
            && n.procs.Keys == s.procs.Keys && n.taking == map[] && n.durable == s.durable - {id} && n.audits == s.audits
            && (forall q | q in s.procs && q != p :: n.procs[q] == s.procs[q])
            && GrantsOf(n.grants, id) == GrantsOf(s.grants, id) + 1
  {
    var n := Done(policy, Approval(s, p, id, now), p, 0);
    assert n.durable == s.durable - {id};
    OneMoreGrant(s.grants, Grant(id, s.procs[p].gate[id], now, false), id);
  }

  /** A stored row that a process holds with a fresh request time is granted by it. */
  lemma Approves(policy: Policy, s: Sys, p: Pid, id: Id, now: int) returns (n: Sys)
    requires Approvable(policy, s, p, id, now)
    ensures Run(policy, s, [Resolve(p, 0, id, true, now), Finish(p, 0)]) == n
    ensures n.procs.Keys == s.procs.Keys && n.taking == map[] && n.durable == s.durable - {id} && n.audits == s.audits
    ensures forall q | q in s.procs && q != p :: n.procs[q] == s.procs[q]
    ensures GrantsOf(n.grants, id) == GrantsOf(s.grants, id) + 1
  {
    ApprovalSteps(policy, s, p, id, now);
    ApprovalGrants(policy, s, p, id, now);
    n := Done(policy, Approval(s, p, id, now), p, 0);
    RunPair(policy, s, Resolve(p, 0, id, true, now), Finish(p, 0));
  }

  lemma RunPair(policy: Policy, s: Sys, a: Step, b: Step)
    ensures Run(policy, s, [a, b]) == Next(policy, Next(policy, s, a), b)
  {
    assert [a, b] == [a] + ([b] + []);
    RunCons(policy, s, a, [b] + []);
    RunCons(policy, Next(policy, s, a), b, []);
  }

  /** Two processes hold a stored item. Once one has approved it, a second audit by the
      other lets it be approved again. */
  lemma SecondAuditGrantsAgain(policy: Policy, s: Sys, p: Pid, q: Pid, id: Id, now: int)
    requires Approvable(policy, s, p, id, now)
    requires q in s.procs && p != q && id in s.procs[q].gate && !s.procs[q].killed && !IsExpired(policy, now, now)
    ensures exists steps :: GrantsOf(Run(policy, s, steps).grants, id) == GrantsOf(s.grants, id) + 2
  {
    var first := [Resolve(p, 0, id, true, now), Finish(p, 0)];
    var again := [Resolve(q, 0, id, true, now), Finish(q, 0)];
    var a := Approves(policy, s, p, id, now);
    var b := Audits(policy, a, q, id, now);
    var c := Approves(policy, b, q, id, now);
    RunJoin(policy, s, first, [Audit(q, id, now)] + again);
    RunCons(policy, a, Audit(q, id, now), again);
  }

  lemma Audits(policy: Policy, s: Sys, q: Pid, id: Id, now: int) returns (n: Sys)
    requires q in s.procs && id in s.procs[q].gate && !s.procs[q].killed && !IsExpired(policy, now, now)
    requires s.taking == map[] && id !in s.durable
    ensures n == Next(policy, s, Audit(q, id, now)) && n.grants == s.grants && Approvable(policy, n, q, id, now)
    ensures n.audits[id] == s.audits[id] + 1 && n.taking == map[] && n.procs.Keys == s.procs.Keys
    ensures forall p | p in s.procs && p != q :: n.procs[p] == s.procs[p]
  {
    n := Audited(s, q, id, now);
  }

  lemma {:induction false} RunJoin(policy: Policy, s: Sys, a: seq<Step>, b: seq<Step>)
    ensures Run(policy, s, a + b) == Run(policy, Run(policy, s, a), b)
    decreases |a|
  {
    if a == [] {
      assert a + b == b;
    } else {
      assert (a + b)[1..] == a[1..] + b;
      RunJoin(policy, Next(policy, s, a[0]), a[1..], b);
    }
  }

  // ---- and its bound is attained ----

  ghost predicate Reachable(policy: Policy, s: Sys) {
    exists steps :: Run(policy, START, steps) == s
  }

  lemma Reach(policy: Policy, s: Sys, steps: seq<Step>)
    requires Reachable(policy, s)
    ensures Reachable(policy, Run(policy, s, steps))
  {
    var before :| Run(policy, START, before) == s;
    RunJoin(policy, START, before, steps);
  }

  lemma ReachOne(policy: Policy, s: Sys, step: Step)
    requires Reachable(policy, s)
    ensures Reachable(policy, Next(policy, s, step))
  {
    assert [step] == [step] + [];
    RunCons(policy, s, step, []);
    Reach(policy, s, [step]);
  }

  /** Process `p` holds the item, requested at time 0. */
  ghost predicate Holds(s: Sys, p: Pid, id: Id) {
    p in s.procs && id in s.procs[p].gate && !s.procs[p].killed && (id in s.procs[p].requestedAt ==> s.procs[p].requestedAt[id] == 0)
  }

  lemma Requested(policy: Policy, id: Id, call: Call) returns (s: Sys)
    requires !IsExpired(policy, 0, 0)
    ensures Reachable(policy, s) && Holds(s, 0, id) && s.taking == map[] && s.grants == [] && s.audits == multiset{id}
    ensures id in s.durable && s.durable[id].requestedAt == 0 && forall p :: p in s.procs <==> p == 0
  {
    assert Run(policy, START, []) == START;
    ReachOne(policy, START, Start(0, 0));
    var a := Next(policy, START, Start(0, 0));
    ReachOne(policy, a, Request(0, id, call));
    var b := Next(policy, a, Request(0, id, call));
    ReachOne(policy, b, Audit(0, id, 0));
    s := Next(policy, b, Audit(0, id, 0));
  }

  lemma StartsHolding(policy: Policy, s: Sys, p: Pid, id: Id)
    requires p !in s.procs && id in s.durable && s.durable[id].requestedAt == 0 && !IsExpired(policy, 0, 0)
    ensures var t := Next(policy, s, Start(p, 0));
            && Holds(t, p, id) && t.procs.Keys == s.procs.Keys + {p} && (forall q | q in s.procs :: t.procs[q] == s.procs[q])
            && id in t.durable && t.durable[id] == s.durable[id]
            && t.taking == s.taking && t.grants == s.grants && t.audits == s.audits
  {
  }

  ghost predicate HeldBelow(s: Sys, n: nat, id: Id) {
    forall p :: (p in s.procs <==> 0 <= p < n) && (p in s.procs ==> Holds(s, p, id))
  }

  lemma OneMoreHolds(s: Sys, t: Sys, n: nat, id: Id)
    requires HeldBelow(s, n, id) && t.procs.Keys == s.procs.Keys + {n} && Holds(t, n, id)
    requires id in t.durable && (forall q | q in s.procs :: t.procs[q] == s.procs[q])
    ensures HeldBelow(t, n + 1, id)
  {
    forall p ensures (p in t.procs <==> 0 <= p < n + 1) && (p in t.procs ==> Holds(t, p, id)) {
      if p in s.procs { assert Holds(s, p, id) && p in t.procs.Keys; }
      assert p in t.procs <==> p in t.procs.Keys;
    }
  }

  /** One process requests and audits; the others start up and reload the stored row. */
  lemma {:induction false} HeldByAll(policy: Policy, id: Id, call: Call, n: nat) returns (s: Sys)
    requires !IsExpired(policy, 0, 0) && n >= 1
    ensures Reachable(policy, s) && s.taking == map[] && s.grants == [] && s.audits == multiset{id}
    ensures id in s.durable && s.durable[id].requestedAt == 0
    ensures HeldBelow(s, n, id)
  {
    if n == 1 {
      s := Requested(policy, id, call);
    } else {
      var before := HeldByAll(policy, id, call, n - 1);
      StartsHolding(policy, before, n - 1, id);
      ReachOne(policy, before, Start(n - 1, 0));
      s := Next(policy, before, Start(n - 1, 0));
      OneMoreHolds(before, s, n - 1, id);
    }
  }

  /** The stored row is approved by `p` and audited again by the next holder, in turn. */
  lemma {:induction false} ApprovedInTurn(policy: Policy, s: Sys, id: Id, p: Pid, n: nat) returns (t: Sys)
    requires Reachable(policy, s) && s.taking == map[] && id in s.durable && p < n && !IsExpired(policy, 0, 0)
    requires forall q | p <= q < n :: Holds(s, q, id)
    ensures Reachable(policy, t)
    ensures GrantsOf(t.grants, id) == GrantsOf(s.grants, id) + (n - p)
    ensures t.audits[id] == s.audits[id] + (n - p - 1)
    decreases n - p
  {
    assert Holds(s, p, id);
    var a := Approves(policy, s, p, id, 0);
    Reach(policy, s, [Resolve(p, 0, id, true, 0), Finish(p, 0)]);
    if p + 1 == n {
      t := a;
    } else {
      assert Holds(s, p + 1, id);
      var b := Audits(policy, a, p + 1, id, 0);
      ReachOne(policy, a, Audit(p + 1, id, 0));
      forall q | p + 1 <= q < n ensures Holds(b, q, id) { assert Holds(s, q, id); }
      t := ApprovedInTurn(policy, b, id, p + 1, n);
    }
  }

  /** Unless every request is expired on arrival, for any number of audits some run from
      the empty system grants the id once for each: two audits, two approvals. */
  lemma GrantBoundAttained(policy: Policy, id: Id, call: Call, n: nat)
    requires !IsExpired(policy, 0, 0) && n >= 1
    ensures exists steps :: var s := Run(policy, START, steps); s.audits[id] == n && GrantsOf(s.grants, id) == n
  {
    var s := HeldByAll(policy, id, call, n);
    forall q | 0 <= q < n ensures Holds(s, q, id) { assert HeldBelow(s, n, id) && q in s.procs; }
    var t := ApprovedInTurn(policy, s, id, 0, n);
    var steps :| Run(policy, START, steps) == t;
  }

  // ---- the bounded history ----

  ghost predicate HistoriesOk(policy: Policy, s: Sys) {
    forall p | p in s.procs :: s.procs[p].history == Trim(s.procs[p].decided, policy.historyMax)
  }

  lemma TrimAgain(h: seq<Rec>, r: Rec, max: nat)
    ensures Trim(Trim(h, max) + [r], max) == Trim(h + [r], max)
  {
  }

  lemma StepKeepsHistories(policy: Policy, s: Sys, step: Step)
    requires HistoriesOk(policy, s)
    ensures HistoriesOk(policy, Next(policy, s, step))
  {
    if Enabled(policy, s, step) && step.Finish? {
      var take := s.taking[(step.p, step.t)];
      TrimAgain(s.procs[step.p].decided, Rec(take.id, OutcomeOf(take.mode)), policy.historyMax);
    }
  }

  /** Each process's history is the last `history_max` of the decisions it has made
      since it started or was cleared. */
  lemma {:induction false} HistoryIsLatest(policy: Policy, s: Sys, steps: seq<Step>)
    requires HistoriesOk(policy, s)
    ensures HistoriesOk(policy, Run(policy, s, steps))
    decreases |steps|
  {
    if steps != [] {
      StepKeepsHistories(policy, s, steps[0]);
      HistoryIsLatest(policy, Next(policy, s, steps[0]), steps[1..]);
    }
  }
}
