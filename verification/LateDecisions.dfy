/** Approval decisions as they commit: the waiting rows are read, then each is completed or
    failed by a transaction of its own, and a failing one looks at nothing again. */
module LateDecisions {
  import opened Wrappers
  import opened Tasks
  import opened TaskBudgets

  type Pid = nat

  /** One decision under way: the rows it read as waiting and has not yet finished. */
  datatype Decision = Decision(approved: bool, ids: set<TaskId>)

  datatype Sys = Sys(board: Board, deciding: map<Pid, Decision>)

  const START := Sys(EMPTY, map[])

  datatype Step =
    | Others(op: Op)
    | Read(pid: Pid, approval: string, approved: bool)
    | Finish(pid: Pid, id: TaskId, now: int)
    | Crash(pid: Pid)

  function Finished(b: Board, approved: bool, id: TaskId, now: int): Board {
    if approved then Next(b, Complete(id, None, now)) else FailRow(b, id, now)
  }

  function SysNext(s: Sys, step: Step): Sys {
    match step
    case Others(op) => if op.Resolve? then s else s.(board := Next(s.board, op))
    case Read(pid, approval, approved) =>
      s.(deciding := s.deciding[pid := Decision(approved, AwaitingOn(s.board.tasks, approval))])
    case Finish(pid, id, now) =>
      if pid in s.deciding && id in s.deciding[pid].ids then
        var d := s.deciding[pid];
        Sys(Finished(s.board, d.approved, id, now), s.deciding[pid := d.(ids := d.ids - {id})])
      else s
    case Crash(pid) => s.(deciding := s.deciding - {pid})
  }

  function SysRun(s: Sys, steps: seq<Step>): Sys
    decreases |steps|
  {
    if steps == [] then s else SysRun(SysNext(s, steps[0]), steps[1..])
  }

  // ---- undisturbed ----

  function FinishAll(pid: Pid, order: seq<TaskId>, now: int): seq<Step> {
    if order == [] then [] else [Finish(pid, order[0], now)] + FinishAll(pid, order[1..], now)
  }

  function Listed(order: seq<TaskId>): set<TaskId> {
    set id | id in order
  }

  /** The rows of `ids`, all waiting, are finished one way; nothing else changed. */
  ghost predicate AllFinished(b: Board, c: Board, ids: set<TaskId>, status: Status, now: int) {
    && c.tasks.Keys == b.tasks.Keys && c.nextId == b.nextId && c.pickups == b.pickups
    && forall id | id in b.tasks ::
         c.tasks[id] == if id in ids then b.tasks[id].(status := status, updatedTs := now) else b.tasks[id]
  }

  lemma FinishesOne(b: Board, approved: bool, id: TaskId, now: int)
    requires id in b.tasks && b.tasks[id].status.AwaitingApproval?
    ensures AllFinished(b, Finished(b, approved, id, now), {id}, if approved then Done else Failed, now)
  {
  }

  lemma {:induction false} FinishesAll(s: Sys, pid: Pid, order: seq<TaskId>, now: int)
    requires pid in s.deciding && s.deciding[pid].ids == Listed(order)
    requires forall i, j | 0 <= i < j < |order| :: order[i] != order[j]
    requires forall id | id in order :: id in s.board.tasks && s.board.tasks[id].status.AwaitingApproval?
    ensures AllFinished(s.board, SysRun(s, FinishAll(pid, order, now)).board, Listed(order),
                        if s.deciding[pid].approved then Done else Failed, now)
    decreases |order|
  {
    if order != [] {
      var id, rest := order[0], order[1..];
      var next := SysNext(s, Finish(pid, id, now));
      assert id in order && forall x | x in rest :: x in order && x != id;
      FinishesOne(s.board, s.deciding[pid].approved, id, now);
      assert Listed(order) - {id} == Listed(rest) && Listed(order) == {id} + Listed(rest);
      FinishesAll(next, pid, rest, now);
      assert FinishAll(pid, order, now)[1..] == FinishAll(pid, rest, now);
    }
  }

  /** A decision nobody interrupts is the board's one-step resolution of that approval. */
  lemma UndisturbedDecision(s: Sys, pid: Pid, approval: string, approved: bool, order: seq<TaskId>, now: int)
    requires Listed(order) == AwaitingOn(s.board.tasks, approval) && forall i, j | 0 <= i < j < |order| :: order[i] != order[j]
    ensures SysRun(s, [Read(pid, approval, approved)] + FinishAll(pid, order, now)).board == Next(s.board, Resolve(approval, approved, now))
  {
    var next := SysNext(s, Read(pid, approval, approved));
    forall id | id in order ensures id in s.board.tasks && s.board.tasks[id].status.AwaitingApproval? { assert id in Listed(order); }
    FinishesAll(next, pid, order, now);
    RunCons(s, Read(pid, approval, approved), FinishAll(pid, order, now));
    ResolvesAll(s.board, approval, approved, now);
    FinishedAlike(s.board, SysRun(next, FinishAll(pid, order, now)).board, Next(s.board, Resolve(approval, approved, now)),
                  Listed(order), if approved then Done else Failed, now);
  }

  lemma RunCons(s: Sys, step: Step, rest: seq<Step>)
    ensures SysRun(s, [step] + rest) == SysRun(SysNext(s, step), rest)
  {
    assert ([step] + rest)[1..] == rest;
  }

  lemma ResolvesAll(b: Board, approval: string, approved: bool, now: int)
    ensures AllFinished(b, Next(b, Resolve(approval, approved, now)), AwaitingOn(b.tasks, approval), if approved then Done else Failed, now)
  {
  }

  lemma FinishedAlike(b: Board, c: Board, d: Board, ids: set<TaskId>, status: Status, now: int)
    requires AllFinished(b, c, ids, status, now) && AllFinished(b, d, ids, status, now)
    ensures c == d
  {
    assert c.tasks == d.tasks;
  }

  // ---- counting ----

  /** The late rejection of a row that has died since it was read. */
  predicate Revives(s: Sys, step: Step, id: TaskId) {
    && step.Finish? && step.id == id && step.pid in s.deciding && id in s.deciding[step.pid].ids
    && !s.deciding[step.pid].approved && id in s.board.tasks && s.board.tasks[id].status.Dead?
  }

  predicate WinsHere(s: Sys, step: Step, id: TaskId) {
    step.Others? && WinsClaim(s.board, step.op, id)
  }

  function Revivals(s: Sys, steps: seq<Step>, id: TaskId): nat
    decreases |steps|
  {
    if steps == [] then 0
    else (if Revives(s, steps[0], id) then 1 else 0) + Revivals(SysNext(s, steps[0]), steps[1..], id)
  }

  function Wins(s: Sys, steps: seq<Step>, id: TaskId): nat
    decreases |steps|
  {
    if steps == [] then 0
    else (if WinsHere(s, steps[0], id) then 1 else 0) + Wins(SysNext(s, steps[0]), steps[1..], id)
  }

  // ---- what a row keeps, however often it is revived ----

  ghost predicate Budgeted(t: Task, revived: nat) {
    && t.maxAttempts >= 1
    && t.rateLimits <= t.attempts <= t.maxAttempts + t.rateLimits
    && t.attempts <= t.maxAttempts + (MAX_DEFERRALS - 1) + revived
    && t.rateLimits <= (if t.status.Dead? then MAX_DEFERRALS else MAX_DEFERRALS - 1) + revived
    && (t.status.Running? ==> t.rateLimits < t.attempts)
  }

  lemma EffectKeepsBudget(id: TaskId, t: Task, op: Op, revived: nat)
    requires Budgeted(t, revived)
    ensures Effect(id, t, op).Some? ==> Budgeted(Effect(id, t, op).value, revived)
  {
  }

  lemma FailingKeepsBudget(t: Task, revived: nat, now: int)
    requires Budgeted(t, revived)
    ensures Budgeted(Set(t, Failed, now), revived + if t.status.Dead? then 1 else 0)
  {
  }

  /** The row is gone, or is what it was with so many more claims won, within its budget. */
  ghost predicate Follows(b: Board, c: Board, id: TaskId, won: nat, revived: nat) {
    && id < c.nextId
    && (id in c.tasks ==> id in b.tasks)
    && (id in c.tasks ==> c.tasks[id].maxAttempts == b.tasks[id].maxAttempts && c.tasks[id].attempts == b.tasks[id].attempts + won)
    && (id in c.tasks ==> Budgeted(c.tasks[id], revived))
    && (id !in c.tasks ==> won == 0)
  }

  lemma OpOnRow(b: Board, op: Op, id: TaskId, revived: nat)
    requires id < b.nextId && (id in b.tasks ==> Budgeted(b.tasks[id], revived))
    ensures Follows(b, Next(b, op), id, if WinsClaim(b, op, id) then 1 else 0, revived)
  {
    NextOnRow(b, op, id);
    if id in b.tasks {
      EffectKeepsBudget(id, b.tasks[id], op, revived);
      EffectOnAttempts(id, b.tasks[id], op);
    }
  }

  lemma StepOnRow(s: Sys, step: Step, id: TaskId, revived: nat)
    requires id < s.board.nextId && (id in s.board.tasks ==> Budgeted(s.board.tasks[id], revived))
    ensures Follows(s.board, SysNext(s, step).board, id, if WinsHere(s, step, id) then 1 else 0,
                    revived + if Revives(s, step, id) then 1 else 0)
  {
    match step
    case Others(op) => OpOnRow(s.board, op, id, revived);
    case Finish(pid, i, now) =>
      if pid in s.deciding && i in s.deciding[pid].ids {
        if s.deciding[pid].approved {
          OpOnRow(s.board, Complete(i, None, now), id, revived);
        } else if i == id && id in s.board.tasks {
          FailingKeepsBudget(s.board.tasks[id], revived, now);
        }
      }
    case _ =>
  }

  lemma {:induction false} NoWinsOnceGone(s: Sys, steps: seq<Step>, id: TaskId)
    requires id < s.board.nextId && id !in s.board.tasks
    ensures Wins(s, steps, id) == 0
    decreases |steps|
  {
    if steps != [] {
      StepOnRow(s, steps[0], id, 0);
      NoWinsOnceGone(SysNext(s, steps[0]), steps[1..], id);
    }
  }

  /** However decisions interleave with everything else, a task is claimed at most
      `maxAttempts + 4` times and once more for each time a late rejection revived it. */
  lemma {:induction false} ClaimsWithRevivals(s: Sys, steps: seq<Step>, id: TaskId, revived: nat)
    requires id in s.board.tasks && id < s.board.nextId && Budgeted(s.board.tasks[id], revived)
    ensures s.board.tasks[id].attempts + Wins(s, steps, id)
         <= s.board.tasks[id].maxAttempts + (MAX_DEFERRALS - 1) + revived + Revivals(s, steps, id)
    decreases |steps|
  {
    if steps != [] {
      var next := SysNext(s, steps[0]);
      StepOnRow(s, steps[0], id, revived);
      if id in next.board.tasks {
        ClaimsWithRevivals(next, steps[1..], id, revived + if Revives(s, steps[0], id) then 1 else 0);
      } else {
        NoWinsOnceGone(next, steps[1..], id);
      }
    }
  }

  // ---- a single attempt cannot be revived ----

  /** Out of attempts, and neither running nor waiting to. */
  predicate Spent(t: Task) {
    Exhausted(t) && !t.status.Pending? && !t.status.Running?
  }

  predicate SpentOrGone(b: Board, id: TaskId) {
    id < b.nextId && (id in b.tasks ==> Spent(b.tasks[id]))
  }

  lemma OpKeepsSpent(b: Board, op: Op, id: TaskId)
    requires SpentOrGone(b, id)
    ensures SpentOrGone(Next(b, op), id) && !WinsClaim(b, op, id)
  {
    NextOnRow(b, op, id);
  }

  lemma StepKeepsSpent(s: Sys, step: Step, id: TaskId)
    requires SpentOrGone(s.board, id)
    ensures SpentOrGone(SysNext(s, step).board, id) && !WinsHere(s, step, id)
  {
    match step
    case Others(op) => OpKeepsSpent(s.board, op, id);
    case Finish(pid, i, now) => OpKeepsSpent(s.board, Complete(i, None, now), id);
    case _ =>
  }

  lemma {:induction false} SpentWinsNothing(s: Sys, steps: seq<Step>, id: TaskId)
    requires SpentOrGone(s.board, id)
    ensures Wins(s, steps, id) == 0
    decreases |steps|
  {
    if steps != [] {
      StepKeepsSpent(s, steps[0], id);
      SpentWinsNothing(SysNext(s, steps[0]), steps[1..], id);
    }
  }

  ghost predicate Decided(s: Sys, id: TaskId) {
    exists pid | pid in s.deciding :: id in s.deciding[pid].ids
  }

  /** A single-attempt row waits on an approval with its attempt spent, and whatever read it
      then will only ever find it spent. */
  ghost predicate SingleAttempt(s: Sys, id: TaskId) {
    && id in s.board.tasks && id < s.board.nextId
    && var t := s.board.tasks[id];
    && t.maxAttempts == 1 && Budgeted(t, 0)
    && (t.status.AwaitingApproval? ==> Spent(t))
    && (Decided(s, id) ==> Spent(t))
  }

  lemma OpKeepsSingle(s: Sys, op: Op, id: TaskId)
    requires SingleAttempt(s, id) && !Spent(s.board.tasks[id]) && id in Next(s.board, op).tasks
    ensures SingleAttempt(s.(board := Next(s.board, op)), id)
  {
    OpOnRow(s.board, op, id, 0);
    NextOnRow(s.board, op, id);
    assert Decided(s.(board := Next(s.board, op)), id) ==> Decided(s, id);
  }

  lemma StepKeepsSingle(s: Sys, step: Step, id: TaskId)
    requires SingleAttempt(s, id) && !Spent(s.board.tasks[id]) && id in SysNext(s, step).board.tasks
    ensures SingleAttempt(SysNext(s, step), id) && !Revives(s, step, id)
  {
    assert !Decided(s, id);
    match step
    case Others(op) => if !op.Resolve? { OpKeepsSingle(s, op, id); }
    case Read(pid, approval, approved) =>
      assert id !in AwaitingOn(s.board.tasks, approval);
      assert !Decided(SysNext(s, step), id);
    case Finish(pid, i, now) =>
      if pid in s.deciding && i in s.deciding[pid].ids {
        if s.deciding[pid].approved { OpKeepsSingle(s, Complete(i, None, now), id); }
        assert !Decided(SysNext(s, step), id);
      }
    case Crash(pid) => assert !Decided(SysNext(s, step), id);
  }

  /** A task with one attempt keeps its bound however decisions come late. */
  lemma {:induction false} OneAttemptBounded(s: Sys, steps: seq<Step>, id: TaskId)
    requires SingleAttempt(s, id)
    ensures s.board.tasks[id].attempts + Wins(s, steps, id) <= MAX_DEFERRALS
    decreases |steps|
  {
    if Spent(s.board.tasks[id]) {
      SpentWinsNothing(s, steps, id);
    } else if steps != [] {
      var next := SysNext(s, steps[0]);
      StepOnRow(s, steps[0], id, 0);
      if id in next.board.tasks {
        StepKeepsSingle(s, steps[0], id);
        OneAttemptBounded(next, steps[1..], id);
      } else {
        NoWinsOnceGone(next, steps[1..], id);
      }
    }
  }

  // ---- with more attempts there is no bound ----

  /** The run's first step puts the first row on the board, with so many attempts. */
  predicate Begins(steps: seq<Step>, m: nat) {
    && steps != []
    && var b := SysNext(START, steps[0]).board;
    1 in b.tasks && b.tasks[1].maxAttempts == m
  }

  /** A run that begins so gets here with so many claims won and revivals of row 1. */
  ghost predicate Reachable(s: Sys, m: nat, won: nat, revived: nat) {
    exists steps :: Begins(steps, m) && SysRun(START, steps) == s && Wins(START, steps, 1) == won && Revivals(START, steps, 1) == revived
  }

  lemma {:induction false} RunThen(s: Sys, steps: seq<Step>, step: Step)
    ensures SysRun(s, steps + [step]) == SysNext(SysRun(s, steps), step)
    ensures Wins(s, steps + [step], 1) == Wins(s, steps, 1) + if WinsHere(SysRun(s, steps), step, 1) then 1 else 0
    ensures Revivals(s, steps + [step], 1) == Revivals(s, steps, 1) + if Revives(SysRun(s, steps), step, 1) then 1 else 0
    decreases |steps|
  {
    if steps == [] {
      assert steps + [step] == [step];
      assert [step][1..] == [];
      assert SysRun(SysNext(s, step), []) == SysNext(s, step);
      assert Wins(SysNext(s, step), [], 1) == 0 && Revivals(SysNext(s, step), [], 1) == 0;
    } else {
      assert (steps + [step])[1..] == steps[1..] + [step];
      RunThen(SysNext(s, steps[0]), steps[1..], step);
    }
  }

  lemma RunOfOne(step: Step)
    requires !WinsHere(START, step, 1) && !Revives(START, step, 1)
    ensures SysRun(START, [step]) == SysNext(START, step) && Wins(START, [step], 1) == 0 && Revivals(START, [step], 1) == 0
  {
    assert [step][1..] == [];
    assert SysRun(SysNext(START, step), []) == SysNext(START, step);
    assert Wins(SysNext(START, step), [], 1) == 0 && Revivals(SysNext(START, step), [], 1) == 0;
  }

  lemma Goes(s: Sys, m: nat, won: nat, revived: nat, step: Step) returns (t: Sys)
    requires Reachable(s, m, won, revived)
    ensures t == SysNext(s, step)
    ensures Reachable(t, m, won + if WinsHere(s, step, 1) then 1 else 0, revived + if Revives(s, step, 1) then 1 else 0)
  {
    t := SysNext(s, step);
    var steps :| Begins(steps, m) && SysRun(START, steps) == s && Wins(START, steps, 1) == won && Revivals(START, steps, 1) == revived;
    RunThen(START, steps, step);
    assert (steps + [step])[0] == steps[0];
    assert Begins(steps + [step], m);
  }

  /** Row 1 stands like this, and decisions `from` to `upTo` have yet to reject it. */
  ghost predicate Stands(s: Sys, m: nat, status: Status, attempts: nat, rateLimits: nat, from: nat, upTo: nat) {
    && 1 in s.board.tasks && s.board.nextId == 2
    && var t := s.board.tasks[1];
    && t.maxAttempts == m && t.status == status && t.attempts == attempts && t.rateLimits == rateLimits
    && (status.AwaitingApproval? ==> t.approval == Some("a"))
    && forall p | from <= p <= upTo :: p in s.deciding && s.deciding[p] == Decision(false, {1})
  }

  lemma Acts(s: Sys, m: nat, won: nat, revived: nat, op: Op) returns (t: Sys)
    requires Reachable(s, m, won, revived) && !op.Resolve? && !(op.Enqueue? || op.EnqueueMany? || op.PickUp?)
    requires 1 in s.board.tasks && Effect(1, s.board.tasks[1], op).Some?
    ensures Reachable(t, m, won + if WinsClaim(s.board, op, 1) then 1 else 0, revived)
    ensures t.deciding == s.deciding && t.board == Next(s.board, op) && t.board.nextId == s.board.nextId
    ensures 1 in t.board.tasks && t.board.tasks[1] == Effect(1, s.board.tasks[1], op).value
  {
    t := Goes(s, m, won, revived, Others(op));
  }

  /** Claimed and deferred: back in the queue, or dead at the fifth deferral. */
  lemma ClaimedAndDeferred(s: Sys, m: nat, won: nat, revived: nat, a: nat, r: nat, from: nat, upTo: nat) returns (t: Sys)
    requires Reachable(s, m, won, revived) && Stands(s, m, Pending, a, r, from, upTo) && r <= a < m + r
    ensures Reachable(t, m, won + 1, revived)
    ensures Stands(t, m, if r + 1 >= MAX_DEFERRALS then Dead else Pending, a + 1, r + 1, from, upTo)
  {
    var mid := Acts(s, m, won, revived, Claim(1, 0));
    t := Acts(mid, m, won + 1, revived, Defer(1, a + 1, None, 0));
  }

  lemma {:induction false} Defers(s: Sys, m: nat, won: nat, revived: nat, a: nat, r: nat, upTo: nat) returns (t: Sys)
    requires Reachable(s, m, won, revived) && Stands(s, m, Pending, a, r, 1, upTo) && r <= a < m + r && r < MAX_DEFERRALS
    ensures Reachable(t, m, won + MAX_DEFERRALS - r, revived)
    ensures Stands(t, m, Dead, a + MAX_DEFERRALS - r, MAX_DEFERRALS, 1, upTo)
    decreases MAX_DEFERRALS - r
  {
    t := ClaimedAndDeferred(s, m, won, revived, a, r, 1, upTo);
    if r + 1 < MAX_DEFERRALS { t := Defers(t, m, won + 1, revived, a + 1, r + 1, upTo); }
  }

  /** The operator retries what a late rejection made of a dead row. */
  lemma RevivedAndRetried(s: Sys, m: nat, won: nat, revived: nat, a: nat, r: nat, p: nat, upTo: nat) returns (t: Sys)
    requires Reachable(s, m, won, revived) && Stands(s, m, Dead, a, r, p, upTo) && r <= a < m + r && p <= upTo
    ensures Reachable(t, m, won, revived + 1) && Stands(t, m, Pending, a, r, p + 1, upTo)
  {
    var mid := Goes(s, m, won, revived, Finish(p, 1, 0));
    t := Acts(mid, m, won, revived + 1, Retry(1, 0));
  }

  /** Each late rejection but the last is answered by one more claim and deferral. */
  lemma {:induction false} RevivedAgain(s: Sys, m: nat, won: nat, i: nat, upTo: nat) returns (t: Sys)
    requires Reachable(s, m, won, i) && Stands(s, m, Dead, 6 + i, 5 + i, i + 1, upTo) && i < upTo && m >= 2
    ensures Reachable(t, m, won + upTo - i - 1, upTo) && Stands(t, m, Pending, 5 + upTo, 4 + upTo, upTo + 1, upTo)
    decreases upTo - i
  {
    t := RevivedAndRetried(s, m, won, i, 6 + i, 5 + i, i + 1, upTo);
    if i + 1 < upTo {
      t := ClaimedAndDeferred(t, m, won, i + 1, 6 + i, 5 + i, i + 2, upTo);
      t := RevivedAgain(t, m, won + 1, i + 1, upTo);
    }
  }

  /** The attempts left are claimed and fail. */
  lemma {:induction false} AttemptsLeft(s: Sys, m: nat, won: nat, revived: nat, a: nat, r: nat, n: nat) returns (t: Sys)
    requires Reachable(s, m, won, revived) && Stands(s, m, Pending, a, r, 1, 0) && r <= a && a + n == m + r
    ensures Reachable(t, m, won + n, revived)
    decreases n
  {
    t := s;
    if n > 0 {
      var mid := Acts(s, m, won, revived, Claim(1, 0));
      t := Acts(mid, m, won + 1, revived, RetryOrDead(1, None, None, 0));
      if n > 1 { t := AttemptsLeft(t, m, won + 1, revived, a + 1, r, n - 1); }
    }
  }

  lemma ReadStands(s: Sys, m: nat, n: nat)
    requires AwaitingOn(s.board.tasks, "a") == {1}
    requires if n == 0 then Stands(s, m, AwaitingApproval, 1, 0, 1, 0) else Stands(s, m, AwaitingApproval, 1, 0, 0, n - 1)
    ensures var t := SysNext(s, Read(n, "a", false)); Stands(t, m, AwaitingApproval, 1, 0, 0, n) && t.board == s.board
  {
  }

  lemma {:induction false} Reads(s: Sys, m: nat, n: nat) returns (t: Sys)
    requires Reachable(s, m, 1, 0) && Stands(s, m, AwaitingApproval, 1, 0, 1, 0)
    requires AwaitingOn(s.board.tasks, "a") == {1}
    ensures Reachable(t, m, 1, 0) && Stands(t, m, AwaitingApproval, 1, 0, 0, n) && t.board == s.board
    decreases n
  {
    var before := s;
    if n > 0 { before := Reads(s, m, n - 1); }
    ReadStands(before, m, n);
    t := Goes(before, m, 1, 0, Read(n, "a", false));
  }

  lemma OnlyRow(b: Board, op: Op)
    requires b.tasks.Keys == {1} && !(op.Enqueue? || op.EnqueueMany? || op.PickUp?) && Effect(1, b.tasks[1], op).Some?
    ensures Next(b, op).tasks == map[1 := Effect(1, b.tasks[1], op).value]
  {
  }

  lemma Created(m: nat) returns (s: Sys)
    requires m >= 1
    ensures Reachable(s, m, 0, 0) && Stands(s, m, Pending, 0, 0, 1, 0) && s.board.tasks.Keys == {1}
  {
    var first := Others(Enqueue(Entry(Other("tool"), Plain("manual"), NoKey, m, 0), false, 0));
    s := SysNext(START, first);
    RunOfOne(first);
    assert Begins([first], m);
  }

  /** The only row waits for approval. */
  lemma Asks(m: nat) returns (s: Sys)
    requires m >= 1
    ensures Reachable(s, m, 1, 0) && Stands(s, m, AwaitingApproval, 1, 0, 1, 0) && AwaitingOn(s.board.tasks, "a") == {1}
  {
    s := Created(m);
    OnlyRow(s.board, Claim(1, 0));
    s := Acts(s, m, 0, 0, Claim(1, 0));
    OnlyRow(s.board, AwaitApproval(1, "a", None, 0));
    s := Acts(s, m, 1, 0, AwaitApproval(1, "a", None, 0));
  }

  lemma RejectedAndRetried(s: Sys, m: nat, upTo: nat) returns (t: Sys)
    requires Reachable(s, m, 1, 0) && Stands(s, m, AwaitingApproval, 1, 0, 0, upTo) && m >= 2
    ensures Reachable(t, m, 1, 0) && Stands(t, m, Pending, 1, 0, 1, upTo)
  {
    var mid := Goes(s, m, 1, 0, Finish(0, 1, 0));
    t := Acts(mid, m, 1, 0, Retry(1, 0));
  }

  /** One of the decisions rejects the waiting row at once and the operator retries it. */
  lemma AskedAndRejected(m: nat, n: nat) returns (s: Sys)
    requires m >= 2
    ensures Reachable(s, m, 1, 0) && Stands(s, m, Pending, 1, 0, 1, n)
  {
    s := Asks(m);
    s := Reads(s, m, n);
    s := RejectedAndRetried(s, m, n);
  }

  /** For any number of late rejections, some run has them revive the task each time and
      claims it once more for each. */
  lemma RevivalBoundAttained(m: nat, n: nat) returns (s: Sys)
    requires m >= 2 && n >= 1
    ensures Reachable(s, m, m + (MAX_DEFERRALS - 1) + n, n)
  {
    s := AskedAndRejected(m, n);
    s := Defers(s, m, 1, 0, 1, 0, n);
    s := RevivedAgain(s, m, 6, 0, n);
    s := AttemptsLeft(s, m, 5 + n, n, 5 + n, 4 + n, m - 1);
  }

  /** So `maxAttempts + 4` bounds the claims of a task in every run exactly when it has a
      single attempt. */
  lemma BoundHoldsIff(m: nat)
    requires m >= 1
    ensures (forall steps | Begins(steps, m) :: Wins(START, steps, 1) <= m + (MAX_DEFERRALS - 1)) <==> m == 1
  {
    if m == 1 {
      forall steps | Begins(steps, m) ensures Wins(START, steps, 1) <= MAX_DEFERRALS {
        var next := SysNext(START, steps[0]);
        FirstIsFresh(steps[0]);
        OneAttemptBounded(next, steps[1..], 1);
      }
    } else {
      var s := RevivalBoundAttained(m, 1);
      var steps :| Begins(steps, m) && SysRun(START, steps) == s && Wins(START, steps, 1) == m + MAX_DEFERRALS;
    }
  }

  lemma FirstIsFresh(step: Step)
    requires 1 in SysNext(START, step).board.tasks && SysNext(START, step).board.tasks[1].maxAttempts == 1
    ensures SingleAttempt(SysNext(START, step), 1) && SysNext(START, step).board.tasks[1].attempts == 0 && !WinsHere(START, step, 1)
  {
    if step.op.EnqueueMany? { FirstOfBatch(step.op.entries, step.op.now); }
  }

  lemma FirstOfBatch(entries: seq<Entry>, now: int)
    requires InsertAll(EMPTY, entries, now).Some? && entries != []
    ensures var b := InsertAll(EMPTY, entries, now).value;
            1 in b.tasks && b.tasks[1] == NewTask(entries[0], now) && 1 < b.nextId
  {
    BatchKeepsRows(Insert(EMPTY, NewTask(entries[0], now)), entries[1..], now, 1);
  }
}
