/** GitHub issues on the board: one pickup and one claim per issue, ever, and a hard cap
    on how many are in flight. */
module IssueWork {
  import opened Sums
  import opened Tasks
  import opened TaskBudgets

  /** A rate-limit deferral that would put a running issue back in the queue. */
  predicate DefersIssue(b: Board, op: Op) {
    && op.Defer? && op.id in b.tasks
    && b.tasks[op.id].kind.IssueWork? && b.tasks[op.id].status.Running? && b.tasks[op.id].attempts == op.attempt
  }

  /** The heartbeat never defers issue work: it is one-shot. */
  predicate OneShot(b: Board, op: Op) {
    !DefersIssue(b, op)
  }

  predicate OneShotRun(b: Board, ops: seq<Op>)
    decreases |ops|
  {
    ops == [] || (OneShot(b, ops[0]) && OneShotRun(Next(b, ops[0]), ops[1..]))
  }

  predicate IssueRow(t: Task) {
    && t.maxAttempts == 1 && t.rateLimits == 0 && t.attempts <= 1
    && (t.attempts == 0 ==> t.status.Pending? || t.status.Cancelled?)
    && (t.attempts == 1 ==> !t.status.Pending?)
  }

  ghost predicate PickedRow(b: Board, k: string)
    requires k in b.pickups
  {
    var id := b.pickups[k];
    id < b.nextId && (id in b.tasks ==> b.tasks[id].kind.IssueWork? && b.tasks[id].key == IssueKey(k))
  }

  /** Every issue row is some pickup's, found by its key. */
  ghost predicate OwnedRow(b: Board, id: TaskId)
    requires id in b.tasks
  {
    b.tasks[id].kind.IssueWork? ==>
      IssueRow(b.tasks[id]) && exists k :: b.tasks[id].key == IssueKey(k) && k in b.pickups && b.pickups[k] == id
  }

  ghost predicate IssueInv(b: Board) {
    && (forall id | id in b.tasks :: id < b.nextId)
    && (forall k | k in b.pickups :: PickedRow(b, k))
    && (forall id | id in b.tasks :: OwnedRow(b, id))
  }

  lemma EffectKeepsIssueRow(b: Board, id: TaskId, op: Op)
    requires id in b.tasks && b.tasks[id].kind.IssueWork? && IssueRow(b.tasks[id]) && OneShot(b, op)
    ensures Effect(id, b.tasks[id], op).Some? ==>
              var a := Effect(id, b.tasks[id], op).value;
              IssueRow(a) && (IsActive(a) ==> IsActive(b.tasks[id]))
  {
  }

  lemma PlainInsert(b: Board, e: Entry, now: int)
    requires IssueInv(b) && !e.kind.IssueWork?
    ensures IssueInv(Insert(b, NewTask(e, now)))
  {
    var a := Insert(b, NewTask(e, now));
    forall k | k in a.pickups ensures PickedRow(a, k) { assert PickedRow(b, k); }
    forall id | id in a.tasks ensures OwnedRow(a, id) { if id in b.tasks { assert OwnedRow(b, id); } }
  }

  lemma {:induction false} BatchKeepsIssues(b: Board, entries: seq<Entry>, now: int)
    requires IssueInv(b)
    ensures InsertAll(b, entries, now).Some? ==> IssueInv(InsertAll(b, entries, now).value)
    decreases |entries|
  {
    if entries != [] && Admissible(entries[0], false) {
      PlainInsert(b, entries[0], now);
      BatchKeepsIssues(Insert(b, NewTask(entries[0], now)), entries[1..], now);
    }
  }

  lemma PickUpKeepsIssues(b: Board, issue: string, cap: nat, now: int)
    requires IssueInv(b)
    ensures IssueInv(Next(b, PickUp(issue, cap, now)))
  {
    var a := Next(b, PickUp(issue, cap, now));
    if MayPickUp(b, issue, cap) {
      forall k | k in a.pickups ensures PickedRow(a, k) { if k != issue { assert PickedRow(b, k); } }
      forall id | id in a.tasks ensures OwnedRow(a, id) {
        if id in b.tasks { assert OwnedRow(b, id); } else { assert a.pickups[issue] == id; }
      }
    }
  }

  lemma RowOpKeepsIssues(b: Board, op: Op)
    requires IssueInv(b) && OneShot(b, op) && !(op.Enqueue? || op.EnqueueMany? || op.PickUp?)
    ensures IssueInv(Next(b, op))
  {
    var a := Next(b, op);
    forall k | k in a.pickups ensures PickedRow(a, k) {
      assert PickedRow(b, k);
      NextOnRow(b, op, b.pickups[k]);
      if b.pickups[k] in b.tasks { EffectOnAttempts(b.pickups[k], b.tasks[b.pickups[k]], op); }
    }
    forall id | id in a.tasks ensures OwnedRow(a, id) {
      assert OwnedRow(b, id);
      NextOnRow(b, op, id);
      EffectOnAttempts(id, b.tasks[id], op);
      if b.tasks[id].kind.IssueWork? { EffectKeepsIssueRow(b, id, op); }
    }
  }

  lemma NextKeepsIssues(b: Board, op: Op)
    requires IssueInv(b) && OneShot(b, op)
    ensures IssueInv(Next(b, op))
  {
    match op
    case Enqueue(entry, padded, now) => if Admissible(entry, padded) { PlainInsert(b, entry, now); }
    case EnqueueMany(entries, now) => BatchKeepsIssues(b, entries, now);
    case PickUp(issue, cap, now) => PickUpKeepsIssues(b, issue, cap, now);
    case _ => RowOpKeepsIssues(b, op);
  }

  // ---- at most once ----

  function PickUpsWon(b: Board, ops: seq<Op>, issue: string): nat
    decreases |ops|
  {
    if ops == [] then 0
    else (if ops[0].PickUp? && ops[0].issue == issue && MayPickUp(b, issue, ops[0].cap) then 1 else 0)
         + PickUpsWon(Next(b, ops[0]), ops[1..], issue)
  }

  /** Claims won on any issue-work row carrying this issue's key. */
  function IssueClaims(b: Board, ops: seq<Op>, issue: string): nat
    decreases |ops|
  {
    if ops == [] then 0
    else (if ops[0].Claim? && ops[0].id in b.tasks && b.tasks[ops[0].id].kind.IssueWork?
             && b.tasks[ops[0].id].key == IssueKey(issue) && WinsClaim(b, ops[0], ops[0].id) then 1 else 0)
         + IssueClaims(Next(b, ops[0]), ops[1..], issue)
  }

  /** 1 once the issue's one claim has been used, or its row deleted. */
  function ClaimSpent(b: Board, issue: string): nat {
    if issue !in b.pickups then 0
    else if b.pickups[issue] in b.tasks then b.tasks[b.pickups[issue]].attempts
    else 1
  }

  lemma PickupsGrow(b: Board, op: Op, issue: string)
    requires IssueInv(b)
    ensures issue in b.pickups ==> issue in Next(b, op).pickups && Next(b, op).pickups[issue] == b.pickups[issue]
    ensures issue in Next(b, op).pickups ==>
              (issue in b.pickups || (op.PickUp? && op.issue == issue && MayPickUp(b, issue, op.cap)))
  {
    if op.EnqueueMany? { BatchKeepsPickups(b, op.entries, op.now); }
  }

  lemma {:induction false} BatchKeepsPickups(b: Board, entries: seq<Entry>, now: int)
    ensures InsertAll(b, entries, now).Some? ==> InsertAll(b, entries, now).value.pickups == b.pickups
    decreases |entries|
  {
    if entries != [] { BatchKeepsPickups(Insert(b, NewTask(entries[0], now)), entries[1..], now); }
  }

  lemma {:induction false} PickedUpAtMostOnce(b: Board, ops: seq<Op>, issue: string)
    requires IssueInv(b) && OneShotRun(b, ops)
    ensures PickUpsWon(b, ops, issue) <= if issue in b.pickups then 0 else 1
    decreases |ops|
  {
    if ops != [] {
      NextKeepsIssues(b, ops[0]);
      PickupsGrow(b, ops[0], issue);
      PickedUpAtMostOnce(Next(b, ops[0]), ops[1..], issue);
    }
  }

  lemma KeyFindsPickup(b: Board, id: TaskId, issue: string)
    requires IssueInv(b) && id in b.tasks && b.tasks[id].kind.IssueWork? && b.tasks[id].key == IssueKey(issue)
    ensures issue in b.pickups && b.pickups[issue] == id && IssueRow(b.tasks[id])
  {
    assert OwnedRow(b, id);
  }

  lemma SpentBounded(b: Board, issue: string)
    requires IssueInv(b)
    ensures ClaimSpent(b, issue) <= 1
  {
    if issue in b.pickups && b.pickups[issue] in b.tasks {
      assert PickedRow(b, issue);
      assert OwnedRow(b, b.pickups[issue]);
    }
  }

  lemma StepSpends(b: Board, op: Op, issue: string)
    requires IssueInv(b) && OneShot(b, op)
    ensures ClaimSpent(Next(b, op), issue) >= ClaimSpent(b, issue) + IssueClaims(b, [op], issue)
  {
    PickupsGrow(b, op, issue);
    assert IssueClaims(Next(b, op), [op][1..], issue) == 0;
    if issue in b.pickups {
      var id := b.pickups[issue];
      assert PickedRow(b, issue);
      NextOnRow(b, op, id);
      if id in b.tasks {
        EffectOnAttempts(id, b.tasks[id], op);
        SpentBounded(b, issue);
      }
    }
    if op.Claim? && op.id in b.tasks && b.tasks[op.id].kind.IssueWork? && b.tasks[op.id].key == IssueKey(issue) {
      KeyFindsPickup(b, op.id, issue);
    }
  }

  lemma {:induction false} ClaimedAtMostOnce(b: Board, ops: seq<Op>, issue: string)
    requires IssueInv(b) && OneShotRun(b, ops)
    ensures ClaimSpent(b, issue) + IssueClaims(b, ops, issue) <= 1
    decreases |ops|
  {
    if ops == [] {
      SpentBounded(b, issue);
    } else {
      NextKeepsIssues(b, ops[0]);
      StepSpends(b, ops[0], issue);
      assert IssueClaims(Next(b, ops[0]), [ops[0]][1..], issue) == 0;
      ClaimedAtMostOnce(Next(b, ops[0]), ops[1..], issue);
    }
  }

  /** Through purges, restarts and operator retries alike, starting from an empty board:
      one pickup and one claim per issue. */
  lemma OncePerIssue(ops: seq<Op>, issue: string)
    requires OneShotRun(EMPTY, ops)
    ensures PickUpsWon(EMPTY, ops, issue) <= 1 && IssueClaims(EMPTY, ops, issue) <= 1
  {
    PickedUpAtMostOnce(EMPTY, ops, issue);
    ClaimedAtMostOnce(EMPTY, ops, issue);
  }

  /** And the deferral is the only way to a second claim: it always opens one. */
  lemma DeferralOpensSecondClaim(b: Board, op: Op, later: int, issue: string)
    requires IssueInv(b) && DefersIssue(b, op) && b.tasks[op.id].key == IssueKey(issue)
    ensures ClaimSpent(b, issue) == 1 && IssueClaims(b, [op, Claim(op.id, later)], issue) == 1
  {
    KeyFindsPickup(b, op.id, issue);
    var mid := Next(b, op);
    var again := Claim(op.id, later);
    assert [op, again][1..] == [again];
    assert IssueClaims(Next(mid, again), [again][1..], issue) == 0;
    assert mid.tasks[op.id] == Deferred(b.tasks[op.id], op.delay, op.now);
  }

  // ---- the in-flight cap ----

  predicate CapWithin(op: Op, cap: nat) {
    op.PickUp? ==> op.cap <= cap
  }

  lemma InFlightStep(b: Board, op: Op, k: string)
    requires IssueInv(b) && OneShot(b, op)
    requires k in InFlight(Next(b, op))
    ensures k in InFlight(b) || (op.PickUp? && op.issue == k && MayPickUp(b, k, op.cap))
  {
    PickupsGrow(b, op, k);
    if k in b.pickups {
      var id := b.pickups[k];
      assert PickedRow(b, k);
      NextOnRow(b, op, id);
      assert OwnedRow(b, id);
      EffectKeepsIssueRow(b, id, op);
    }
  }

  lemma StepKeepsCap(b: Board, op: Op, cap: nat)
    requires IssueInv(b) && OneShot(b, op) && CapWithin(op, cap) && |InFlight(b)| <= cap
    ensures |InFlight(Next(b, op))| <= cap
  {
    var before, after := InFlight(b), InFlight(Next(b, op));
    forall k | k in after ensures k in before || (op.PickUp? && op.issue == k && MayPickUp(b, k, op.cap)) {
      InFlightStep(b, op, k);
    }
    if op.PickUp? && MayPickUp(b, op.issue, op.cap) {
      SubsetSize(after, before + {op.issue});
    } else {
      SubsetSize(after, before);
    }
  }

  /** However pickups are interleaved with everything else, the number of issues pending,
      running or awaiting approval never passes the largest cap any pickup used. */
  lemma {:induction false} InFlightCapped(b: Board, ops: seq<Op>, cap: nat)
    requires IssueInv(b) && OneShotRun(b, ops) && |InFlight(b)| <= cap
    requires forall op | op in ops :: CapWithin(op, cap)
    ensures |InFlight(Run(b, ops))| <= cap
    decreases |ops|
  {
    if ops != [] {
      NextKeepsIssues(b, ops[0]);
      StepKeepsCap(b, ops[0], cap);
      InFlightCapped(Next(b, ops[0]), ops[1..], cap);
    }
  }
}
