/** What one undisturbed pass achieves, from any state a run can leave behind. */
module GoalRecovery {
  import opened Wrappers
  import opened Sums
  import opened Tasks
  import opened Goals
  import opened GoalPlans
  import opened GoalKeys
  import opened GoalSafety
  import opened GoalLinking

  lemma RunCons(s: Sys, step: Step, rest: seq<Step>)
    ensures SysRun(s, [step] + rest) == SysRun(SysNext(s, step), rest)
  {
    assert ([step] + rest)[1..] == rest;
  }

  lemma RunFour(s: Sys, a: Step, b: Step, c: Step, d: Step)
    ensures SysRun(s, [a, b, c, d]) == SysNext(SysNext(SysNext(SysNext(s, a), b), c), d)
  {
    assert [a, b, c, d] == [a] + ([b] + ([c] + ([d] + [])));
    RunCons(s, a, [b] + ([c] + ([d] + [])));
    RunCons(SysNext(s, a), b, [c] + ([d] + []));
    RunCons(SysNext(SysNext(s, a), b), c, [d] + []);
    RunCons(SysNext(SysNext(SysNext(s, a), b), c), d, []);
  }

  /** Every row of `ids` that still waits is dispatchable under the goal. */
  ghost predicate NoneLeftHidden(b: Board, ids: set<TaskId>, goal: GoalId) {
    forall id | id in ids && id in b.tasks && b.tasks[id].status.Pending? :: b.tasks[id].source == Live(goal)
  }

  lemma LinkedGoesLive(s: Sys, pid: nat, now: int)
    requires Inv(s) && pid in s.agents && s.agents[pid].Linked?
    ensures var a := s.agents[pid];
            NoneLeftHidden(SysNext(s, ActivatePlan(pid, now)).board, a.ids, a.goal)
  {
    var a := s.agents[pid];
    assert AgentOk(s.ledger, s.history, a);
    assert PlanOk(s.ledger, s.board, (a.goal, a.generation), s.history[(a.goal, a.generation)]);
  }

  lemma SeeThenSearch(s: Sys, pid: nat, goal: GoalId, machine: string)
    requires pid !in s.agents && goal in s.ledger.goals && s.ledger.goals[goal].owner == machine
    requires s.ledger.goals[goal].status.Executing? || s.ledger.goals[goal].status.Planning?
    ensures var g := s.ledger.goals[goal];
            var found := Found(goal, g.generation, g.status.Executing?, SearchIds(s.board, goal, g.generation));
            SysNext(SysNext(s, See(pid, goal, machine)), Search(pid)) == s.(agents := s.agents[pid := found])
  {
    var g := s.ledger.goals[goal];
    var mid := SysNext(s, See(pid, goal, machine));
    assert mid == s.(agents := s.agents[pid := Saw(goal, g.generation, g.status.Executing?)]);
    assert mid.agents[pid := Found(goal, g.generation, g.status.Executing?, SearchIds(s.board, goal, g.generation))]
        == s.agents[pid := Found(goal, g.generation, g.status.Executing?, SearchIds(s.board, goal, g.generation))];
  }

  lemma SettledLinks(s: Sys, pid: nat, now: int, a: Agent)
    requires pid in s.agents && s.agents[pid] == a && a.Found? && !a.running && a.ids != {}
    requires Enabled(s.ledger, BeginExecution(a.goal, a.ids, Some(a.generation)))
    ensures var t := SysNext(s, Settle(pid, now));
            && t.history == s.history && t.board == s.board
            && t.agents == s.agents[pid := Linked(a.goal, a.generation, a.ids, false)]
            && t.ledger == GoalNext(s.ledger, BeginExecution(a.goal, a.ids, Some(a.generation)))
  {
  }

  lemma SettlesByLinking(s: Sys, pid: nat, now: int)
    requires Inv(s) && pid in s.agents && s.agents[pid].Found? && !s.agents[pid].running
    requires var a := s.agents[pid];
             && (a.goal, a.generation) in s.history && a.ids == s.history[(a.goal, a.generation)]
             && a.goal in s.ledger.goals && s.ledger.goals[a.goal].status.Planning?
             && s.ledger.goals[a.goal].generation == a.generation
    ensures var a := s.agents[pid];
            var t := SysNext(s, Settle(pid, now));
            && Inv(t) && t.history == s.history
            && t.agents == s.agents[pid := Linked(a.goal, a.generation, a.ids, false)]
            && t.ledger == GoalNext(s.ledger, BeginExecution(a.goal, a.ids, Some(a.generation)))
            && LinksOf(t.ledger, a.goal, a.generation) == a.ids
  {
    var a := s.agents[pid];
    assert PlanOk(s.ledger, s.board, (a.goal, a.generation), a.ids);
    SettledLinks(s, pid, now, a);
    LinkKeepsInv(s, a.goal, a.generation, a.ids);
    SwapAgent(s.(ledger := SysNext(s, Settle(pid, now)).ledger), pid, Linked(a.goal, a.generation, a.ids, false));
  }

  /** A plan staged by a planner that died is finished by one reconciliation pass: the
      goal executes, its links are the whole batch, and no waiting row stays hidden. */
  lemma ReconcileFinishes(s: Sys, pid: nat, goal: GoalId, machine: string, now: int)
    requires Inv(s) && pid !in s.agents
    requires goal in s.ledger.goals && s.ledger.goals[goal].owner == machine && s.ledger.goals[goal].status.Planning?
    requires var n := s.ledger.goals[goal].generation; (goal, n) in s.history && SearchFits(s.board, goal, n)
    ensures var n := s.ledger.goals[goal].generation;
            var t := SysRun(s, [See(pid, goal, machine), Search(pid), Settle(pid, now), ActivatePlan(pid, now)]);
            && goal in t.ledger.goals && t.ledger.goals[goal].status.Executing? && t.ledger.goals[goal].generation == n
            && LinksOf(t.ledger, goal, n) == s.history[(goal, n)]
            && NoneLeftHidden(t.board, s.history[(goal, n)], goal)
  {
    var n := s.ledger.goals[goal].generation;
    RunFour(s, See(pid, goal, machine), Search(pid), Settle(pid, now), ActivatePlan(pid, now));
    SeeThenSearch(s, pid, goal, machine);
    assert GoalOk(s.ledger, s.history, goal);
    SearchFindsAllIff(s, goal, n);
    var found := s.(agents := s.agents[pid := Found(goal, n, false, s.history[(goal, n)])]);
    SwapAgent(s, pid, Found(goal, n, false, s.history[(goal, n)]));
    SettlesByLinking(found, pid, now);
    var linked := SysNext(found, Settle(pid, now));
    LinkedGoesLive(linked, pid, now);
    LastStep(linked, pid, now);
  }

  lemma LastStep(s: Sys, pid: nat, now: int)
    requires pid in s.agents && s.agents[pid].Linked?
    ensures SysNext(s, ActivatePlan(pid, now)).ledger == s.ledger
  {
  }

  lemma RunThree(s: Sys, a: Step, b: Step, c: Step)
    ensures SysRun(s, [a, b, c]) == SysNext(SysNext(SysNext(s, a), b), c)
  {
    assert [a, b, c] == [a] + ([b] + ([c] + []));
    RunCons(s, a, [b] + ([c] + []));
    RunCons(SysNext(s, a), b, [c] + []);
    RunCons(SysNext(SysNext(s, a), b), c, []);
  }

  lemma HiddenAreFound(s: Sys, goal: GoalId, n: nat)
    requires Inv(s) && HasLinks(s.ledger, s.history, (goal, n)) && SearchFits(s.board, goal, n)
    ensures forall id | id in s.history[(goal, n)] && id in s.board.tasks && s.board.tasks[id].source.Staged? ::
              id in SearchIds(s.board, goal, n)
  {
    assert PlanOk(s.ledger, s.board, (goal, n), s.history[(goal, n)]);
  }

  lemma SettlesByActivating(s: Sys, pid: nat, now: int)
    requires Inv(s) && pid in s.agents && s.agents[pid].Found? && s.agents[pid].running
    requires var a := s.agents[pid];
             && HasLinks(s.ledger, s.history, (a.goal, a.generation))
             && forall id | id in s.history[(a.goal, a.generation)] && id in s.board.tasks && s.board.tasks[id].source.Staged? :: id in a.ids
    ensures var a := s.agents[pid];
            var t := SysNext(s, Settle(pid, now));
            && t.ledger == s.ledger && t.history == s.history
            && NoneLeftHidden(t.board, s.history[(a.goal, a.generation)], a.goal)
  {
    var a := s.agents[pid];
    assert PlanOk(s.ledger, s.board, (a.goal, a.generation), s.history[(a.goal, a.generation)]);
  }

  /** A planner that died between linking and activating is finished the same way. */
  lemma ReconcileActivates(s: Sys, pid: nat, goal: GoalId, machine: string, now: int)
    requires Inv(s) && pid !in s.agents
    requires goal in s.ledger.goals && s.ledger.goals[goal].owner == machine && s.ledger.goals[goal].status.Executing?
    requires SearchFits(s.board, goal, s.ledger.goals[goal].generation)
    ensures var n := s.ledger.goals[goal].generation;
            var t := SysRun(s, [See(pid, goal, machine), Search(pid), Settle(pid, now)]);
            && t.ledger == s.ledger && t.history == s.history && HasLinks(s.ledger, s.history, (goal, n))
            && NoneLeftHidden(t.board, s.history[(goal, n)], goal)
  {
    var n := s.ledger.goals[goal].generation;
    RunThree(s, See(pid, goal, machine), Search(pid), Settle(pid, now));
    SeeThenSearch(s, pid, goal, machine);
    assert GoalOk(s.ledger, s.history, goal);
    SettlesWhatItFinds(s, pid, goal, n, now);
  }

  lemma SettlesWhatItFinds(s: Sys, pid: nat, goal: GoalId, n: nat, now: int)
    requires Inv(s) && HasLinks(s.ledger, s.history, (goal, n)) && SearchFits(s.board, goal, n)
    ensures var found := s.(agents := s.agents[pid := Found(goal, n, true, SearchIds(s.board, goal, n))]);
            var t := SysNext(found, Settle(pid, now));
            t.ledger == s.ledger && t.history == s.history && NoneLeftHidden(t.board, s.history[(goal, n)], goal)
  {
    HiddenAreFound(s, goal, n);
    if SearchIds(s.board, goal, n) != {} { SearchIsWithin(s, goal, n); }
    SwapAgent(s, pid, Found(goal, n, true, SearchIds(s.board, goal, n)));
    SettlesByActivating(s.(agents := s.agents[pid := Found(goal, n, true, SearchIds(s.board, goal, n))]), pid, now);
  }

  /** So once part of a batch is linked and the goal executes, the next pass whose search
      fits dispatches every waiting row, the unlinked ones too. */
  lemma PartLinkedIsExposed(s: Sys, pid: nat, goal: GoalId, machine: string, now: int, id: TaskId)
    requires Inv(s) && pid !in s.agents
    requires goal in s.ledger.goals && s.ledger.goals[goal].owner == machine && s.ledger.goals[goal].status.Executing?
    requires var plan := (goal, s.ledger.goals[goal].generation);
             && SearchFits(s.board, goal, plan.1) && PartLinked(s, plan)
             && id in s.history[plan] && id !in LinksOf(s.ledger, goal, plan.1) && Waiting(s.board, id)
    ensures var t := SysRun(s, [See(pid, goal, machine), Search(pid), Settle(pid, now)]);
            && id in t.board.tasks && t.board.tasks[id].source == Live(goal) && t.board.tasks[id].status.Pending?
            && forall n :: (goal, n, id) !in t.ledger.links
  {
    var plan := (goal, s.ledger.goals[goal].generation);
    ReconcileActivates(s, pid, goal, machine, now);
    StillPending(s, pid, goal, machine, now, id);
    OnePlanPerRow(s, plan, id);
  }

  lemma StillPending(s: Sys, pid: nat, goal: GoalId, machine: string, now: int, id: TaskId)
    requires pid !in s.agents && Waiting(s.board, id)
    requires goal in s.ledger.goals && s.ledger.goals[goal].owner == machine && s.ledger.goals[goal].status.Executing?
    ensures var t := SysRun(s, [See(pid, goal, machine), Search(pid), Settle(pid, now)]);
            id in t.board.tasks && t.board.tasks[id].status.Pending?
  {
    RunThree(s, See(pid, goal, machine), Search(pid), Settle(pid, now));
    SeeThenSearch(s, pid, goal, machine);
    SettlingLeavesPending(SysNext(SysNext(s, See(pid, goal, machine)), Search(pid)), pid, now, id);
  }

  lemma SettlingLeavesPending(s: Sys, pid: nat, now: int, id: TaskId)
    requires Waiting(s.board, id)
    ensures var t := SysNext(s, Settle(pid, now)); id in t.board.tasks && t.board.tasks[id].status.Pending?
  {
  }

  lemma OnePlanPerRow(s: Sys, plan: Plan, id: TaskId)
    requires Inv(s) && plan in s.history && id in s.history[plan] && id in s.board.tasks
    requires id !in LinksOf(s.ledger, plan.0, plan.1)
    ensures forall n :: (plan.0, n, id) !in s.ledger.links
  {
    assert PlanOk(s.ledger, s.board, plan, s.history[plan]);
    assert (plan.0, plan.1, id) !in s.ledger.links;
    forall k | k in s.ledger.links && k.2 == id ensures k.1 == plan.1 { LinkedUnderItsKey(s, k); }
  }

  lemma LinkedUnderItsKey(s: Sys, k: Link)
    requires Inv(s) && k in s.ledger.links && k.2 in s.board.tasks
    ensures BatchRow(s.board.tasks[k.2], (k.0, k.1))
  {
    assert k.2 in LinksOf(s.ledger, k.0, k.1);
    assert PlanOk(s.ledger, s.board, (k.0, k.1), s.history[(k.0, k.1)]);
  }

  /** A claim that left no rows is never retried: the goal is blocked for its owner. */
  lemma ReconcileBlocks(s: Sys, pid: nat, goal: GoalId, machine: string, now: int)
    requires Inv(s) && pid !in s.agents
    requires goal in s.ledger.goals && s.ledger.goals[goal].owner == machine && s.ledger.goals[goal].status.Planning?
    requires (goal, s.ledger.goals[goal].generation) !in s.history
    ensures var t := SysRun(s, [See(pid, goal, machine), Search(pid), Settle(pid, now)]);
            && goal in t.ledger.goals && t.ledger.goals[goal].status.Blocked?
            && t.board == s.board && t.ledger.links == s.ledger.links
  {
    var n := s.ledger.goals[goal].generation;
    RunThree(s, See(pid, goal, machine), Search(pid), Settle(pid, now));
    SeeThenSearch(s, pid, goal, machine);
    NoRowsToFind(s, goal, n);
  }

  lemma NoRowsToFind(s: Sys, goal: GoalId, n: nat)
    requires Inv(s) && (goal, n) !in s.history
    ensures SearchIds(s.board, goal, n) == {}
  {
    forall id | id in StagedFor(s.board, goal) ensures !OfGeneration(s.board.tasks[id], n) {
      assert RowOk(s.board, s.history, id);
    }
  }

  // ---- an undisturbed planner ----

  lemma BatchOf(b: Board, c: Board, goal: GoalId, n: nat, count: nat)
    requires Grown(b, c, goal, n, count) && forall id | id in b.tasks :: id < b.nextId
    ensures |c.tasks.Keys - b.tasks.Keys| == count
  {
    var ids := c.tasks.Keys - b.tasks.Keys;
    var raw: set<nat> := set id | id in ids :: id as nat;
    assert raw == ids;
    forall id: nat ensures id in raw <==> b.nextId <= id < b.nextId + count {
      if b.nextId <= id < b.nextId + count { assert (id as TaskId) in c.tasks; }
    }
    RangeSize(raw, b.nextId, b.nextId + count);
  }

  /** Planning that nothing interrupts ends with the goal executing and exactly the new
      batch linked and dispatchable. */
  lemma UndisturbedPlanGoesLive(s: Sys, pid: nat, goal: GoalId, machine: string, count: nat, now: int)
    requires Inv(s) && pid !in s.agents && 1 <= count <= MAX_PLAN
    requires Enabled(s.ledger, ClaimPlanning(goal, machine))
    ensures var t := SysRun(s, [ClaimPlan(pid, goal, machine), EnqueuePlan(pid, count, now), LinkPlan(pid), ActivatePlan(pid, now)]);
            var batch := t.board.tasks.Keys - s.board.tasks.Keys;
            && goal in t.ledger.goals && t.ledger.goals[goal].status.Executing? && |batch| == count
            && LinksOf(t.ledger, goal, t.ledger.goals[goal].generation) == batch && pid !in t.agents
            && forall id | id in batch ::
                 var row := t.board.tasks[id];
                 && row.source == Live(goal) && row.status.Pending? && row.kind == Other("tool")
                 && row.maxAttempts == 3 && row.attempts == 0 && row.scheduledFor == 0
  {
    RunFour(s, ClaimPlan(pid, goal, machine), EnqueuePlan(pid, count, now), LinkPlan(pid), ActivatePlan(pid, now));
    var a := ClaimsPlan(s, pid, goal, machine);
    var b := Stages(a, pid, count, now);
    LinksAndActivates(b, pid, now);
    assert b.board.tasks.Keys - s.board.tasks.Keys == b.agents[pid].ids;
  }

  predicate ExposedRow(t: Task, goal: GoalId) {
    && t.source == Live(goal) && t.status.Pending? && t.kind == Other("tool")
    && t.maxAttempts == 3 && t.attempts == 0 && t.scheduledFor == 0
  }

  lemma ClaimsPlan(s: Sys, pid: nat, goal: GoalId, machine: string) returns (t: Sys)
    requires Inv(s) && pid !in s.agents && Enabled(s.ledger, ClaimPlanning(goal, machine))
    ensures t == SysNext(s, ClaimPlan(pid, goal, machine)) && Inv(t) && t.board == s.board && pid in t.agents
    ensures var n := s.ledger.goals[goal].generation + 1;
            && t.agents[pid] == Claimed(goal, n)
            && goal in t.ledger.goals && t.ledger.goals[goal].status.Planning? && t.ledger.goals[goal].generation == n
  {
    t := SysNext(s, ClaimPlan(pid, goal, machine));
    ClaimKeepsInv(s, pid, goal, machine);
  }

  lemma Stages(s: Sys, pid: nat, count: nat, now: int) returns (t: Sys)
    requires Inv(s) && pid in s.agents && s.agents[pid].Claimed? && 1 <= count <= MAX_PLAN
    ensures t == SysNext(s, EnqueuePlan(pid, count, now)) && Inv(t) && t.ledger == s.ledger && pid in t.agents
    ensures var a := s.agents[pid];
            var ids := t.board.tasks.Keys - s.board.tasks.Keys;
            && t.agents[pid] == Enqueued(a.goal, a.generation, ids) && |ids| == count && ids <= t.board.tasks.Keys
            && forall id | id in ids :: PlanRow(t.board.tasks[id], a.goal, a.generation)
  {
    t := SysNext(s, EnqueuePlan(pid, count, now));
    var a := s.agents[pid];
    EnqueueGoesIn(s, pid, count, now);
    EnqueueKeepsInv(s, pid, count, now);
    assert forall id | id in s.board.tasks :: RowOk(s.board, s.history, id);
    BatchOf(s.board, t.board, a.goal, a.generation, count);
  }

  lemma LinksAndActivates(s: Sys, pid: nat, now: int)
    requires Inv(s) && pid in s.agents && s.agents[pid].Enqueued?
    requires var a := s.agents[pid];
             && a.goal in s.ledger.goals && s.ledger.goals[a.goal].status.Planning? && s.ledger.goals[a.goal].generation == a.generation
             && a.ids <= s.board.tasks.Keys && forall id | id in a.ids :: PlanRow(s.board.tasks[id], a.goal, a.generation)
    ensures var a := s.agents[pid];
            var t := SysNext(SysNext(s, LinkPlan(pid)), ActivatePlan(pid, now));
            && a.goal in t.ledger.goals && t.ledger.goals[a.goal].status.Executing? && t.ledger.goals[a.goal].generation == a.generation
            && LinksOf(t.ledger, a.goal, a.generation) == a.ids && t.board.tasks.Keys == s.board.tasks.Keys
            && pid !in t.agents && forall id | id in a.ids :: ExposedRow(t.board.tasks[id], a.goal)
  {
    var a := s.agents[pid];
    assert AgentOk(s.ledger, s.history, a);
    assert PlanOk(s.ledger, s.board, (a.goal, a.generation), a.ids);
    LinkKeepsInv(s, a.goal, a.generation, a.ids);
    var mid := SysNext(s, LinkPlan(pid));
    assert mid.ledger == GoalNext(s.ledger, BeginExecution(a.goal, a.ids, Some(a.generation)));
    assert mid.board == s.board && mid.agents[pid] == Linked(a.goal, a.generation, a.ids, true);
    LastStep(mid, pid, now);
    ActivatedRows(mid, pid, now);
  }

  lemma ActivatedRows(s: Sys, pid: nat, now: int)
    requires pid in s.agents && s.agents[pid].Linked? && s.agents[pid].ids <= s.board.tasks.Keys
    requires forall id | id in s.agents[pid].ids :: PlanRow(s.board.tasks[id], s.agents[pid].goal, s.agents[pid].generation)
    ensures var a := s.agents[pid];
            var c := SysNext(s, ActivatePlan(pid, now)).board;
            && c.tasks.Keys == s.board.tasks.Keys
            && forall id | id in a.ids :: ExposedRow(c.tasks[id], a.goal)
  {
  }
}
