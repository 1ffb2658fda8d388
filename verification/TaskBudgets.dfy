/** Fencing tokens and the three interacting retry budgets, over every run of the board. */
module TaskBudgets {
  import opened Wrappers
  import opened Tasks

  ghost predicate RowInv(t: Task) {
    && t.maxAttempts >= 1
    && t.rateLimits <= t.attempts <= t.maxAttempts + t.rateLimits
    && t.attempts <= t.maxAttempts + (MAX_DEFERRALS - 1)
    && t.rateLimits <= MAX_DEFERRALS && t.stalls <= 2
    && (!t.status.Dead? ==> t.rateLimits < MAX_DEFERRALS && t.stalls <= 1)
    && (t.status.Running? ==> t.rateLimits < t.attempts)
  }

  ghost predicate Inv(b: Board) {
    && (forall id | id in b.tasks :: id < b.nextId && RowInv(b.tasks[id]))
  }

  lemma EffectKeepsRow(id: TaskId, t: Task, op: Op)
    requires RowInv(t)
    ensures Effect(id, t, op).Some? ==> RowInv(Effect(id, t, op).value)
  {
  }

  lemma {:induction false} BatchKeepsInv(b: Board, entries: seq<Entry>, now: int)
    requires Inv(b)
    ensures InsertAll(b, entries, now).Some? ==> Inv(InsertAll(b, entries, now).value)
    decreases |entries|
  {
    if entries != [] && Admissible(entries[0], false) {
      BatchKeepsInv(Insert(b, NewTask(entries[0], now)), entries[1..], now);
    }
  }

  lemma NextKeepsInv(b: Board, op: Op)
    requires Inv(b)
    ensures Inv(Next(b, op))
  {
    if op.EnqueueMany? {
      BatchKeepsInv(b, op.entries, op.now);
    } else {
      forall id | id in b.tasks ensures Effect(id, b.tasks[id], op).Some? ==> RowInv(Effect(id, b.tasks[id], op).value) {
        EffectKeepsRow(id, b.tasks[id], op);
      }
    }
  }

  lemma {:induction false} RunKeepsInv(b: Board, ops: seq<Op>)
    requires Inv(b)
    ensures Inv(Run(b, ops))
    decreases |ops|
  {
    if ops != [] {
      NextKeepsInv(b, ops[0]);
      RunKeepsInv(Next(b, ops[0]), ops[1..]);
    }
  }

  // ---- rows that exist keep their identity; deleted ids stay gone ----

  lemma {:induction false} BatchKeepsRows(b: Board, entries: seq<Entry>, now: int, id: TaskId)
    requires id < b.nextId && InsertAll(b, entries, now).Some?
    ensures var a := InsertAll(b, entries, now).value;
            id < a.nextId && (id in a.tasks <==> id in b.tasks) && (id in b.tasks ==> a.tasks[id] == b.tasks[id])
            && a.pickups == b.pickups
    decreases |entries|
  {
    if entries != [] { BatchKeepsRows(Insert(b, NewTask(entries[0], now)), entries[1..], now, id); }
  }

  /** An existing or deleted id sees exactly the row effect of each operation. */
  lemma NextOnRow(b: Board, op: Op, id: TaskId)
    requires id < b.nextId
    ensures var a := Next(b, op);
            && id < a.nextId
            && (id in a.tasks <==> id in b.tasks && Effect(id, b.tasks[id], op).Some?)
            && (id in a.tasks ==> a.tasks[id] == Effect(id, b.tasks[id], op).value)
  {
    if op.EnqueueMany? && InsertAll(b, op.entries, op.now).Some? { BatchKeepsRows(b, op.entries, op.now, id); }
  }

  // ---- the claim bound ----

  predicate WinsClaim(b: Board, op: Op, id: TaskId) {
    op.Claim? && op.id == id && id in b.tasks && b.tasks[id].status.Pending? && !Exhausted(b.tasks[id])
  }

  function ClaimsWon(b: Board, ops: seq<Op>, id: TaskId): nat
    decreases |ops|
  {
    if ops == [] then 0
    else (if WinsClaim(b, ops[0], id) then 1 else 0) + ClaimsWon(Next(b, ops[0]), ops[1..], id)
  }

  lemma {:induction false} NoClaimsOnceGone(b: Board, ops: seq<Op>, id: TaskId)
    requires id < b.nextId && id !in b.tasks
    ensures ClaimsWon(b, ops, id) == 0
    decreases |ops|
  {
    if ops != [] {
      NextOnRow(b, ops[0], id);
      NoClaimsOnceGone(Next(b, ops[0]), ops[1..], id);
    }
  }

  lemma EffectOnAttempts(id: TaskId, t: Task, op: Op)
    ensures Effect(id, t, op).Some? ==>
              var a := Effect(id, t, op).value;
              && a.maxAttempts == t.maxAttempts && a.kind == t.kind && a.key == t.key
              && a.attempts == t.attempts + if op.Claim? && op.id == id && t.status.Pending? && !Exhausted(t) then 1 else 0
  {
  }

  /** From any reachable board on, in any interleaving of claims, retries, deferrals,
      stall recoveries, approvals and operator actions, a task is claimed at most
      `maxAttempts + 4` times, counting the claims already made. */
  lemma {:induction false} ClaimsBounded(b: Board, ops: seq<Op>, id: TaskId)
    requires Inv(b) && id in b.tasks
    ensures b.tasks[id].attempts + ClaimsWon(b, ops, id) <= b.tasks[id].maxAttempts + (MAX_DEFERRALS - 1)
    decreases |ops|
  {
    if ops != [] {
      var a := Next(b, ops[0]);
      NextKeepsInv(b, ops[0]);
      NextOnRow(b, ops[0], id);
      EffectOnAttempts(id, b.tasks[id], ops[0]);
      if id in a.tasks { ClaimsBounded(a, ops[1..], id); } else { NoClaimsOnceGone(a, ops[1..], id); }
    }
  }

  // ---- the bound is exact ----

  /** Four rate-limited claims, then `m` failing ones. */
  function WorstRun(id: TaskId, deferrals: nat, m: nat): seq<Op>
    requires deferrals < MAX_DEFERRALS
  {
    if deferrals > 0 then [Claim(id, 0), Defer(id, MAX_DEFERRALS - deferrals, None, 0)] + WorstRun(id, deferrals - 1, m)
    else if m > 0 then [Claim(id, 0), RetryOrDead(id, None, None, 0)] + WorstRun(id, 0, m - 1)
    else []
  }

  lemma {:induction false} WorstRunWins(b: Board, id: TaskId, deferrals: nat, m: nat)
    requires id in b.tasks && b.tasks[id].status.Pending? && m >= 1 && deferrals < MAX_DEFERRALS
    requires b.tasks[id].rateLimits == MAX_DEFERRALS - 1 - deferrals
    requires b.tasks[id].attempts == b.tasks[id].rateLimits + (b.tasks[id].maxAttempts - m)
    requires deferrals > 0 ==> b.tasks[id].maxAttempts == m
    requires id < b.nextId && m <= b.tasks[id].maxAttempts
    ensures ClaimsWon(b, WorstRun(id, deferrals, m), id) == deferrals + m
    decreases deferrals, m
  {
    var run := WorstRun(id, deferrals, m);
    var rest := if deferrals > 0 then WorstRun(id, deferrals - 1, m) else WorstRun(id, 0, m - 1);
    var one := Next(b, run[0]);
    var two := Next(one, run[1]);
    NextOnRow(b, run[0], id);
    NextOnRow(one, run[1], id);
    assert run[1..][1..] == rest;
    assert ClaimsWon(b, run, id) == 1 + ClaimsWon(one, run[1..], id);
    assert ClaimsWon(one, run[1..], id) == ClaimsWon(two, rest, id);
    if deferrals > 0 {
      WorstRunWins(two, id, deferrals - 1, m);
    } else if m > 1 {
      WorstRunWins(two, id, 0, m - 1);
    } else {
      assert rest == [];
    }
  }

  predicate EnqueuesFirst(ops: seq<Op>, m: nat) {
    |ops| > 0 && 1 in Next(EMPTY, ops[0]).tasks && Next(EMPTY, ops[0]).tasks[1].maxAttempts == m
  }

  /** Every budget has a run that spends it in full, so no smaller bound holds. */
  lemma ClaimBoundAttained(m: nat)
    requires m >= 1
    ensures exists ops :: EnqueuesFirst(ops, m) && ClaimsWon(EMPTY, ops, 1) == m + (MAX_DEFERRALS - 1)
  {
    var first := Enqueue(Entry(Other("tool"), Plain("manual"), NoKey, m, 0), false, 0);
    var b := Next(EMPTY, first);
    var ops := [first] + WorstRun(1, MAX_DEFERRALS - 1, m);
    WorstRunWins(b, 1, MAX_DEFERRALS - 1, m);
    assert ops[1..] == WorstRun(1, MAX_DEFERRALS - 1, m);
    assert EnqueuesFirst(ops, m) && ClaimsWon(EMPTY, ops, 1) == ClaimsWon(b, ops[1..], 1);
  }

  // ---- fencing ----

  /** The claim with token `k` is over: superseded, ended, or its row deleted. */
  ghost predicate Superseded(b: Board, id: TaskId, k: nat) {
    && id < b.nextId
    && (id in b.tasks ==>
          var t := b.tasks[id];
          t.attempts > k || (t.attempts == k && !t.status.Running? && !t.status.AwaitingApproval?))
  }

  predicate FencedBy(op: Op, id: TaskId, k: nat) {
    || ((op.Complete? || op.AwaitApproval? || op.FailIfRunning? || op.RetryOrDead?) && op.id == id && op.fence == Some(k))
    || ((op.Defer? || op.Stall? || op.CancelRunning? || op.Touch?) && op.id == id && op.attempt == k)
  }

  lemma {:induction false} StaysSuperseded(b: Board, ops: seq<Op>, id: TaskId, k: nat)
    requires Superseded(b, id, k)
    ensures Superseded(Run(b, ops), id, k)
    decreases |ops|
  {
    if ops != [] {
      NextOnRow(b, ops[0], id);
      if id in b.tasks { EffectKeepsSuperseded(id, b.tasks[id], ops[0], k); }
      StaysSuperseded(Next(b, ops[0]), ops[1..], id, k);
    }
  }

  lemma EffectKeepsSuperseded(id: TaskId, t: Task, op: Op, k: nat)
    requires t.attempts > k || (t.attempts == k && !t.status.Running? && !t.status.AwaitingApproval?)
    ensures Effect(id, t, op).Some? ==>
              var a := Effect(id, t, op).value;
              a.attempts > k || (a.attempts == k && !a.status.Running? && !a.status.AwaitingApproval?)
  {
  }

  /** Once the claim holding token `k` is over, then after any further run no operation
      fenced with `k` changes the board, and no later claim is handed `k` again. */
  lemma LateTokensAreInert(b: Board, ops: seq<Op>, id: TaskId, k: nat, op: Op)
    requires Superseded(b, id, k)
    ensures FencedBy(op, id, k) ==> Next(Run(b, ops), op) == Run(b, ops)
    ensures WinsClaim(Run(b, ops), op, id) ==> Next(Run(b, ops), op).tasks[id].attempts > k
  {
    StaysSuperseded(b, ops, id, k);
    if FencedBy(op, id, k) { FencedIsInert(Run(b, ops), id, k, op); }
  }

  lemma FencedIsInert(b: Board, id: TaskId, k: nat, op: Op)
    requires Superseded(b, id, k) && FencedBy(op, id, k)
    ensures Next(b, op) == b
  {
    forall i | i in b.tasks ensures Effect(i, b.tasks[i], op) == Some(b.tasks[i]) {}
    assert Next(b, op).tasks == b.tasks;
  }
}
