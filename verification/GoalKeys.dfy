/** A plan's rows go onto the board as one batch when none of their keys is taken. */
module GoalKeys {
  import opened Tasks
  import opened GoalPlans

  ghost predicate OneClaimant(agents: map<nat, Agent>, p: nat, q: nat)
    requires p in agents && q in agents
  {
    p != q && agents[p].Claimed? && agents[q].Claimed? ==>
      (agents[p].goal, agents[p].generation) != (agents[q].goal, agents[q].generation)
  }

  // ---- enqueueing ----

  ghost predicate PlanRow(t: Task, goal: GoalId, n: nat) {
    && t.key.GoalKey? && t.key.goal == goal && t.key.generation == n && t.source == Staged(goal) && t.status.Pending?
    && t.kind == Other("tool") && t.maxAttempts == 3 && t.attempts == 0 && t.scheduledFor == 0
  }

  /** `c` is `b` with `count` new staged rows of one plan. */
  ghost predicate Grown(b: Board, c: Board, goal: GoalId, n: nat, count: nat) {
    && c.nextId == b.nextId + count
    && b.tasks.Keys <= c.tasks.Keys
    && (forall id | id in b.tasks :: c.tasks[id] == b.tasks[id])
    && (forall id | id in c.tasks && id !in b.tasks :: b.nextId <= id < c.nextId && PlanRow(c.tasks[id], goal, n))
    && (forall id | b.nextId <= id < c.nextId :: id in c.tasks)
  }

  lemma GrownByOne(b: Board, goal: GoalId, n: nat, index: nat, now: int)
    requires forall id | id in b.tasks :: id < b.nextId
    ensures Grown(b, Insert(b, NewTask(PlanEntry(goal, n, index), now)), goal, n, 1)
  {
  }

  lemma GrownTwice(b: Board, c: Board, d: Board, goal: GoalId, n: nat, count: nat)
    requires Grown(b, c, goal, n, 1) && Grown(c, d, goal, n, count)
    ensures Grown(b, d, goal, n, count + 1)
  {
    forall id | id in d.tasks && id !in b.tasks ensures b.nextId <= id < d.nextId && PlanRow(d.tasks[id], goal, n) {
      if id in c.tasks { assert PlanRow(c.tasks[id], goal, n); }
    }
  }

  lemma EntriesTail(goal: GoalId, n: nat, first: nat, count: nat)
    requires count > 0
    ensures PlanEntries(goal, n, first, count)[1..] == PlanEntries(goal, n, first + 1, count - 1)
  {
    var a := PlanEntries(goal, n, first, count)[1..];
    var b := PlanEntries(goal, n, first + 1, count - 1);
    forall i | 0 <= i < |b| ensures a[i] == b[i] {
      assert first + (i + 1) == first + 1 + i;
    }
  }

  /** When no row has a key of the plan, the batch goes in whole. */
  lemma {:induction false} BatchGoesIn(b: Board, goal: GoalId, n: nat, first: nat, count: nat, now: int)
    requires forall id | id in b.tasks :: id < b.nextId
    requires forall id, i | id in b.tasks && first <= i :: b.tasks[id].key != GoalKey(goal, n, i)
    ensures var r := InsertAll(b, PlanEntries(goal, n, first, count), now);
            r.Some? && Grown(b, r.value, goal, n, count)
    decreases count
  {
    if count > 0 {
      var c := Insert(b, NewTask(PlanEntry(goal, n, first), now));
      GrownByOne(b, goal, n, first, now);
      EntriesTail(goal, n, first, count);
      assert PlanEntries(goal, n, first, count)[0] == PlanEntry(goal, n, first);
      BatchGoesIn(c, goal, n, first + 1, count - 1, now);
      GrownTwice(b, c, InsertAll(c, PlanEntries(goal, n, first + 1, count - 1), now).value, goal, n, count - 1);
    }
  }
}
