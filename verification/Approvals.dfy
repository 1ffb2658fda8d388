/** Pending approvals: several processes' memories over one durable table, with a crash
    possible between taking a row and acting on it. */
module Approvals {

  type Id = string
  type Pid = nat
  type Thread = nat

  datatype Call = Call(tool: string, args: string, reason: string, kind: string)

  datatype Outcome = Approved | Rejected | Expired | Killed

  datatype Rec = Rec(id: Id, outcome: Outcome)

  /** `historyMax` is at least one, whatever was configured. */
  datatype Policy = Policy(ttl: int, enabled: bool, historyMax: nat)

  datatype Row = Row(call: Call, requestedAt: int)

  /** One process's memory; `decided` is every decision since it started or cleared. */
  datatype Proc = Proc(gate: map<Id, Call>, requestedAt: map<Id, int>, killed: bool, history: seq<Rec>, decided: seq<Rec>)

  const FRESH := Proc(map[], map[], false, [], [])

  datatype Mode = Decide(approved: bool) | ToExpire | ToKill

  /** A durable row already consumed, whose effect on memory is still to come. */
  datatype Take = Take(id: Id, mode: Mode, now: int)

  /** What a caller was told it may execute. */
  datatype Grant = Grant(id: Id, call: Call, checkedAt: int, killed: bool)

  datatype Asked = Asked(call: Call, creator: Pid)

  datatype Sys = Sys(
    procs: map<Pid, Proc>, durable: map<Id, Row>, taking: map<(Pid, Thread), Take>,
    grants: seq<Grant>, asked: map<Id, Asked>, audits: multiset<Id>, auditedAt: map<Id, int>)

  datatype Step =
    | Start(p: Pid, now: int)
    | Crash(p: Pid)
    | Rebind(p: Pid, now: int)
    | Request(p: Pid, id: Id, call: Call)
    | Audit(p: Pid, id: Id, ts: int)
    | Resolve(p: Pid, t: Thread, id: Id, approved: bool, now: int)
    | SweepOne(p: Pid, t: Thread, id: Id, now: int)
    | KillOne(p: Pid, t: Thread, id: Id, now: int)
    | Finish(p: Pid, t: Thread)
    | Engage(p: Pid)
    | Release(p: Pid)
    | ClearHistory(p: Pid)

  const START := Sys(map[], map[], map[], [], map[], multiset{}, map[])

  // ---- one process ----

  predicate IsExpired(policy: Policy, requestedAt: int, now: int) {
    policy.enabled && now - requestedAt > policy.ttl
  }

  predicate KnownExpired(policy: Policy, p: Proc, id: Id, now: int) {
    id in p.requestedAt && IsExpired(policy, p.requestedAt[id], now)
  }

  function Trim(h: seq<Rec>, max: nat): seq<Rec> {
    var keep := if max == 0 then 1 else max;
    if |h| > keep then h[|h| - keep..] else h
  }

  /** The kill switch comes first, then the time limit, then the decision asked for. */
  function ModeOf(policy: Policy, p: Proc, id: Id, approved: bool, now: int): Mode {
    if p.killed then ToKill else if KnownExpired(policy, p, id, now) then ToExpire else Decide(approved)
  }

  function OutcomeOf(mode: Mode): Outcome {
    match mode
    case Decide(approved) => if approved then Approved else Rejected
    case ToExpire => Expired
    case ToKill => Killed
  }

  /** The gate gives the item up, and the decision is written to the bounded history; an
      item the gate does not hold is refused. */
  function Finished(policy: Policy, p: Proc, take: Take): Proc {
    if take.id !in p.gate then p
    else
      var r := Rec(take.id, OutcomeOf(take.mode));
      p.(gate := p.gate - {take.id}, requestedAt := p.requestedAt - {take.id},
         history := Trim(p.history + [r], policy.historyMax), decided := p.decided + [r])
  }

  /** Durable rows that are still alive at `now`. */
  function Alive(policy: Policy, durable: map<Id, Row>, now: int): map<Id, Row> {
    map id | id in durable && !IsExpired(policy, durable[id].requestedAt, now) :: durable[id]
  }

  /** Reloading forgets every request time and relearns those of the live rows; an item
      the gate already holds is kept. */
  function Reloaded(p: Proc, live: map<Id, Row>): Proc {
    p.(gate := map id | id in p.gate.Keys + live.Keys :: if id in p.gate then p.gate[id] else live[id].call,
       requestedAt := map id | id in live :: live[id].requestedAt)
  }

  // ---- the system ----

  /** A decision holds its process's lock until it is finished. */
  predicate LockFree(taking: map<(Pid, Thread), Take>, p: Pid) {
    forall k | k in taking && k.0 == p :: !taking[k].mode.Decide?
  }

  function Took(s: Sys, p: Pid, t: Thread, take: Take): Sys {
    if take.id !in s.durable then s
    else s.(durable := s.durable - {take.id}, taking := s.taking[(p, t) := take])
  }

  function Done(policy: Policy, s: Sys, p: Pid, t: Thread): Sys
    requires p in s.procs && (p, t) in s.taking
  {
    var take := s.taking[(p, t)];
    var held := take.id in s.procs[p].gate;
    s.(procs := s.procs[p := Finished(policy, s.procs[p], take)],
       durable := if held then s.durable - {take.id} else s.durable,
       taking := s.taking - {(p, t)},
       grants := if held && take.mode == Decide(true)
                 then s.grants + [Grant(take.id, s.procs[p].gate[take.id], take.now, s.procs[p].killed)] else s.grants)
  }

  function Reload(policy: Policy, s: Sys, p: Pid, memory: Proc, now: int): Sys {
    var live := Alive(policy, s.durable, now);
    s.(procs := s.procs[p := Reloaded(memory, live)], durable := live)
  }

  /** Request times are noted before the gate is asked; only an item it holds is stored,
      and a stored row's time is never extended. */
  function Audited(s: Sys, p: Pid, id: Id, ts: int): Sys
    requires p in s.procs
  {
    var proc := s.procs[p];
    s.(procs := s.procs[p := proc.(requestedAt := proc.requestedAt[id := ts])],
       durable := if id in proc.gate && id !in s.durable then s.durable[id := Row(proc.gate[id], ts)] else s.durable,
       audits := s.audits + multiset{id}, auditedAt := s.auditedAt[id := ts])
  }

  predicate Enabled(policy: Policy, s: Sys, step: Step) {
    match step
    case Start(p, _) => p !in s.procs
    case Crash(p) => p in s.procs
    case Rebind(p, _) => p in s.procs && LockFree(s.taking, p)
    case Request(p, id, _) => p in s.procs && id !in s.asked
    case Audit(p, _, _) => p in s.procs && LockFree(s.taking, p)
    case Resolve(p, t, _, _, _) => p in s.procs && (p, t) !in s.taking && LockFree(s.taking, p)
    case SweepOne(p, t, id, now) => p in s.procs && (p, t) !in s.taking && KnownExpired(policy, s.procs[p], id, now)
    case KillOne(p, t, _, _) => p in s.procs && (p, t) !in s.taking
    case Finish(p, t) => p in s.procs && (p, t) in s.taking
    case Engage(p) => p in s.procs && LockFree(s.taking, p)
    case Release(p) => p in s.procs && LockFree(s.taking, p)
    case ClearHistory(p) => p in s.procs && LockFree(s.taking, p)
  }

  function Next(policy: Policy, s: Sys, step: Step): Sys {
    if !Enabled(policy, s, step) then s
    else
      match step
      case Start(p, now) => Reload(policy, s, p, FRESH, now)
      case Crash(p) => s.(procs := s.procs - {p}, taking := map k | k in s.taking && k.0 != p :: s.taking[k])
      case Rebind(p, now) => Reload(policy, s, p, s.procs[p], now)
      case Request(p, id, call) =>
        s.(procs := s.procs[p := s.procs[p].(gate := s.procs[p].gate[id := call])], asked := s.asked[id := Asked(call, p)])
      case Audit(p, id, ts) => Audited(s, p, id, ts)
      case Resolve(p, t, id, approved, now) => Took(s, p, t, Take(id, ModeOf(policy, s.procs[p], id, approved, now), now))
      case SweepOne(p, t, id, now) => Took(s, p, t, Take(id, ToExpire, now))
      case KillOne(p, t, id, now) => Took(s, p, t, Take(id, ToKill, now))
      case Finish(p, t) => Done(policy, s, p, t)
      case Engage(p) => s.(procs := s.procs[p := s.procs[p].(killed := true)])
      case Release(p) => s.(procs := s.procs[p := s.procs[p].(killed := false)])
      case ClearHistory(p) => s.(procs := s.procs[p := s.procs[p].(history := [], decided := [])])
  }

  function Run(policy: Policy, s: Sys, steps: seq<Step>): Sys
    decreases |steps|
  {
    if steps == [] then s else Run(policy, Next(policy, s, steps[0]), steps[1..])
  }
}
