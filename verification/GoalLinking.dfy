/** Link before activate, over every run: exactly when it holds, and what fails when it
    does not. */
module GoalLinking {
  import opened Wrappers
  import opened Tasks
  import opened Goals
  import opened GoalPlans
  import opened GoalKeys
  import opened GoalSafety

  // ---- how links and batches change ----

  lemma OthersKeepLinks(s: Sys, step: Step)
    requires !step.LinkPlan? && !Links(s, step)
    ensures SysNext(s, step).ledger.links == s.ledger.links
  {
  }

  lemma HistoryGrows(s: Sys, step: Step, plan: Plan)
    requires Inv(s) && plan in s.history
    ensures plan in SysNext(s, step).history && SysNext(s, step).history[plan] == s.history[plan]
  {
    if step.EnqueuePlan? && step.pid in s.agents { assert AgentOk(s.ledger, s.history, s.agents[step.pid]); }
  }

  /** A new batch starts unlinked. */
  lemma NewPlansUnlinked(s: Sys, step: Step, plan: Plan)
    requires Inv(s) && plan !in s.history
    ensures LinksOf(SysNext(s, step).ledger, plan.0, plan.1) == {}
  {
    StepKeepsInv(s, step);
    NothingLinkedYet(s, plan);
    if plan !in SysNext(s, step).history {
      NothingLinkedYet(SysNext(s, step), plan);
    } else {
      EnqueueIsNew(s, step, plan);
      SameLinks(s.ledger, SysNext(s, step).ledger);
    }
  }

  lemma EnqueueIsNew(s: Sys, step: Step, plan: Plan)
    requires plan !in s.history && plan in SysNext(s, step).history
    ensures SysNext(s, step).ledger == s.ledger
  {
  }

  /** What one step can add to a plan's links: nothing, unless it linked nothing so far;
      then a planner adds the whole batch, and a reconciliation what it found. */
  ghost predicate Linking(s: Sys, step: Step, plan: Plan)
    requires plan in s.history
  {
    && LinksOf(s.ledger, plan.0, plan.1) == {}
    && var after := LinksOf(SysNext(s, step).ledger, plan.0, plan.1);
    && after != {} && after <= s.history[plan]
    && (if Links(s, step)
        then var a := s.agents[step.pid]; plan == (a.goal, a.generation) && after == a.ids
        else after == s.history[plan])
  }

  lemma PlannerLinks(s: Sys, step: Step, plan: Plan)
    requires Inv(s) && plan in s.history && step.LinkPlan?
    ensures LinksOf(SysNext(s, step).ledger, plan.0, plan.1) == LinksOf(s.ledger, plan.0, plan.1) || Linking(s, step, plan)
  {
    if step.pid in s.agents && s.agents[step.pid].Enqueued? {
      var a := s.agents[step.pid];
      assert AgentOk(s.ledger, s.history, a);
      if Enabled(s.ledger, BeginExecution(a.goal, a.ids, Some(a.generation))) {
        FirstLinks(s, a.goal, a.generation, a.ids);
      }
    }
  }

  lemma ReconciliationLinks(s: Sys, step: Step)
    requires Inv(s) && Links(s, step)
    ensures var a := s.agents[step.pid];
            a.ids != {} && (a.goal, a.generation) in s.history && Linking(s, step, (a.goal, a.generation))
  {
    var a := s.agents[step.pid];
    assert AgentOk(s.ledger, s.history, a);
    FirstLinks(s, a.goal, a.generation, a.ids);
  }

  lemma ReconciliationSpares(s: Sys, step: Step, plan: Plan)
    requires Inv(s) && Links(s, step)
    ensures var a := s.agents[step.pid];
            plan != (a.goal, a.generation) ==> LinksOf(SysNext(s, step).ledger, plan.0, plan.1) == LinksOf(s.ledger, plan.0, plan.1)
  {
    var a := s.agents[step.pid];
    assert AgentOk(s.ledger, s.history, a);
    FirstLinks(s, a.goal, a.generation, a.ids);
  }

  lemma LinksChange(s: Sys, step: Step, plan: Plan)
    requires Inv(s) && plan in s.history
    ensures LinksOf(SysNext(s, step).ledger, plan.0, plan.1) == LinksOf(s.ledger, plan.0, plan.1) || Linking(s, step, plan)
  {
    if step.LinkPlan? {
      PlannerLinks(s, step, plan);
    } else if Links(s, step) {
      ReconciliationLinks(s, step);
      ReconciliationSpares(s, step, plan);
    } else {
      OthersKeepLinks(s, step);
      SameLinks(s.ledger, SysNext(s, step).ledger);
    }
  }

  // ---- the whole batch or nothing ----

  ghost predicate PlanWhole(s: Sys, plan: Plan)
    requires plan in s.history
  {
    LinksOf(s.ledger, plan.0, plan.1) == {} || LinksOf(s.ledger, plan.0, plan.1) == s.history[plan]
  }

  /** What each plan has linked is nothing, or exactly the batch one enqueue committed. */
  ghost predicate Whole(s: Sys) {
    forall plan | plan in s.history :: PlanWhole(s, plan)
  }

  /** Some rows of the plan's batch are linked and some are not. */
  ghost predicate PartLinked(s: Sys, plan: Plan) {
    && plan in s.history
    && LinksOf(s.ledger, plan.0, plan.1) != {} && LinksOf(s.ledger, plan.0, plan.1) < s.history[plan]
  }

  /** A find is the whole batch exactly when it holds every staged row of the plan. */
  lemma FoundAllIff(s: Sys, a: Agent)
    requires Inv(s) && a.Found? && (a.goal, a.generation) in s.history && a.ids <= s.history[(a.goal, a.generation)]
    requires LinksOf(s.ledger, a.goal, a.generation) == {}
    ensures FoundAll(s.board, a) <==> a.ids == s.history[(a.goal, a.generation)]
  {
    var batch := s.history[(a.goal, a.generation)];
    assert PlanOk(s.ledger, s.board, (a.goal, a.generation), batch);
    forall id | id in StagedFor(s.board, a.goal) && OfGeneration(s.board.tasks[id], a.generation) ensures id in batch {
      assert RowOk(s.board, s.history, id);
    }
    assert forall id | id in batch :: id in StagedFor(s.board, a.goal) && OfGeneration(s.board.tasks[id], a.generation);
  }

  lemma LinkedIsWholeIfFit(s: Sys, step: Step, plan: Plan)
    requires Inv(s) && plan in s.history && PlanWhole(s, plan) && LinkFits(s, step)
    requires plan in SysNext(s, step).history && SysNext(s, step).history[plan] == s.history[plan]
    ensures PlanWhole(SysNext(s, step), plan)
  {
    LinksChange(s, step, plan);
    if Links(s, step) && Linking(s, step, plan) { FoundAllIff(s, s.agents[step.pid]); }
  }

  lemma StepKeepsWhole(s: Sys, step: Step)
    requires Inv(s) && Whole(s) && LinkFits(s, step)
    ensures Whole(SysNext(s, step))
  {
    var t := SysNext(s, step);
    forall plan | plan in t.history ensures PlanWhole(t, plan) {
      if plan in s.history {
        HistoryGrows(s, step, plan);
        LinkedIsWholeIfFit(s, step, plan);
      } else {
        NewPlansUnlinked(s, step, plan);
      }
    }
  }

  lemma PartialFindLinksPart(s: Sys, step: Step)
    requires Inv(s) && !LinkFits(s, step)
    ensures var a := s.agents[step.pid]; PartLinked(SysNext(s, step), (a.goal, a.generation))
  {
    var a := s.agents[step.pid];
    ReconciliationLinks(s, step);
    HistoryGrows(s, step, (a.goal, a.generation));
    FoundAllIff(s, a);
  }

  lemma StepKeepsPart(s: Sys, step: Step, plan: Plan)
    requires Inv(s) && PartLinked(s, plan)
    ensures PartLinked(SysNext(s, step), plan)
    ensures LinksOf(SysNext(s, step).ledger, plan.0, plan.1) == LinksOf(s.ledger, plan.0, plan.1)
  {
    HistoryGrows(s, step, plan);
    LinksChange(s, step, plan);
  }

  lemma {:induction false} RunKeepsPart(s: Sys, steps: seq<Step>, plan: Plan)
    requires Inv(s) && PartLinked(s, plan)
    ensures PartLinked(SysRun(s, steps), plan)
    ensures LinksOf(SysRun(s, steps).ledger, plan.0, plan.1) == LinksOf(s.ledger, plan.0, plan.1)
    decreases |steps|
  {
    if steps != [] {
      StepKeepsPart(s, steps[0], plan);
      StepKeepsInv(s, steps[0]);
      RunKeepsPart(SysNext(s, steps[0]), steps[1..], plan);
    }
  }

  /** From any state of a run: a reconciliation that links a partial find leaves the same
      proper part of the batch linked after every further run. */
  lemma PartialLinkIsForever(s: Sys, step: Step, after: seq<Step>)
    requires Inv(s) && !LinkFits(s, step)
    ensures var a := s.agents[step.pid];
            && PartLinked(SysRun(SysNext(s, step), after), (a.goal, a.generation))
            && LinksOf(SysRun(SysNext(s, step), after).ledger, a.goal, a.generation) == a.ids
  {
    var a := s.agents[step.pid];
    PartialFindLinksPart(s, step);
    ReconciliationLinks(s, step);
    StepKeepsInv(s, step);
    RunKeepsPart(SysNext(s, step), after, (a.goal, a.generation));
  }

  lemma {:induction false} RunWholeIff(s: Sys, steps: seq<Step>)
    requires Inv(s) && Whole(s)
    ensures Whole(SysRun(s, steps)) <==> LinksFit(s, steps)
    decreases |steps|
  {
    if steps != [] {
      var t := SysNext(s, steps[0]);
      StepKeepsInv(s, steps[0]);
      if LinkFits(s, steps[0]) {
        StepKeepsWhole(s, steps[0]);
        RunWholeIff(t, steps[1..]);
      } else {
        var a := s.agents[steps[0].pid];
        PartialLinkIsForever(s, steps[0], steps[1..]);
        PartIsNotWhole(SysRun(t, steps[1..]), (a.goal, a.generation));
      }
    }
  }

  lemma PartIsNotWhole(s: Sys, plan: Plan)
    requires PartLinked(s, plan)
    ensures !Whole(s)
  {
    assert !PlanWhole(s, plan);
  }

  /** With any number of heartbeats and a crash between any two commits: at the end of a
      run each plan has linked nothing or its whole batch, exactly when no reconciliation
      in it linked a partial find. */
  lemma LinkedIsWholeBatchIff(steps: seq<Step>)
    ensures Whole(SysRun(START, steps)) <==> LinksFit(START, steps)
  {
    RunWholeIff(START, steps);
  }

  lemma LinkedIsWholeBatch(steps: seq<Step>, goal: GoalId, n: nat)
    requires LinksFit(START, steps)
    ensures var s := SysRun(START, steps);
            || LinksOf(s.ledger, goal, n) == {}
            || ((goal, n) in s.history && LinksOf(s.ledger, goal, n) == s.history[(goal, n)])
  {
    RunKeepsInv(START, steps);
    RunWholeIff(START, steps);
    var s := SysRun(START, steps);
    if (goal, n) in s.history { assert PlanWhole(s, (goal, n)); } else { NothingLinkedYet(s, (goal, n)); }
  }

  // ---- what searches have to show ----

  /** Whoever may still link a find holds the whole batch. */
  ghost predicate FindWhole(s: Sys, a: Agent) {
    a.Found? && a.ids != {} && Current(s.ledger, a.goal, a.generation) ==>
      (a.goal, a.generation) in s.history && a.ids == s.history[(a.goal, a.generation)]
  }

  ghost predicate FindsWhole(s: Sys) {
    forall p | p in s.agents :: FindWhole(s, s.agents[p])
  }

  lemma ClaimsMakeNewPlansCurrent(s: Sys, step: Step, plan: Plan)
    requires Inv(s) && plan in s.history && step.ClaimPlan? && Current(SysNext(s, step).ledger, plan.0, plan.1)
    ensures Current(s.ledger, plan.0, plan.1)
  {
    assert PlanOk(s.ledger, s.board, plan, s.history[plan]);
  }

  lemma OnlyClaimsMakeCurrent(s: Sys, step: Step, goal: GoalId, n: nat)
    requires !step.ClaimPlan? && Current(SysNext(s, step).ledger, goal, n)
    ensures Current(s.ledger, goal, n)
  {
    if step.Evaluate? && step.goal in s.ledger.goals { JudgingSettles(s.ledger, s.board, step.goal); }
    if step.Transition? && Claimless(step.act) { SettlesByOne(s.ledger, step.act); }
  }

  lemma CurrentWasCurrent(s: Sys, step: Step, plan: Plan)
    requires Inv(s) && plan in s.history && Current(SysNext(s, step).ledger, plan.0, plan.1)
    ensures Current(s.ledger, plan.0, plan.1)
  {
    if step.ClaimPlan? { ClaimsMakeNewPlansCurrent(s, step, plan); } else { OnlyClaimsMakeCurrent(s, step, plan.0, plan.1); }
  }

  /** A find that some step left alone, or that this search just made. */
  lemma FindComesFrom(s: Sys, step: Step, p: nat)
    requires p in SysNext(s, step).agents && SysNext(s, step).agents[p].Found?
    ensures (p in s.agents && s.agents[p] == SysNext(s, step).agents[p])
         || (step == Search(p) && p in s.agents && s.agents[p].Saw? && SysNext(s, step).ledger == s.ledger
             && var a := s.agents[p];
             SysNext(s, step).agents[p] == Found(a.goal, a.generation, a.running, SearchIds(s.board, a.goal, a.generation)))
  {
  }

  lemma SearchFindsWhole(s: Sys, step: Step, p: nat)
    requires Inv(s) && SearchOk(s, step) && step == Search(p) && p in s.agents && s.agents[p].Saw?
    ensures p in SysNext(s, step).agents && FindWhole(SysNext(s, step), SysNext(s, step).agents[p])
  {
    var a := s.agents[p];
    if SearchIds(s.board, a.goal, a.generation) != {} && Current(s.ledger, a.goal, a.generation) {
      SearchIsWithin(s, a.goal, a.generation);
      assert GoalOk(s.ledger, s.history, a.goal);
      SearchFindsAllIff(s, a.goal, a.generation);
    }
  }

  lemma StepKeepsFinds(s: Sys, step: Step)
    requires Inv(s) && FindsWhole(s) && SearchOk(s, step)
    ensures FindsWhole(SysNext(s, step))
  {
    var t := SysNext(s, step);
    forall p | p in t.agents ensures FindWhole(t, t.agents[p]) {
      if t.agents[p].Found? {
        FindComesFrom(s, step, p);
        if p in s.agents && s.agents[p] == t.agents[p] {
          FindStays(s, step, t.agents[p]);
        } else {
          SearchFindsWhole(s, step, p);
        }
      }
    }
  }

  lemma FindStays(s: Sys, step: Step, a: Agent)
    requires Inv(s) && a.Found? && AgentOk(s.ledger, s.history, a) && FindWhole(s, a)
    ensures FindWhole(SysNext(s, step), a)
  {
    var plan := (a.goal, a.generation);
    if a.ids != {} && Current(SysNext(s, step).ledger, a.goal, a.generation) {
      CurrentWasCurrent(s, step, plan);
      HistoryGrows(s, step, plan);
    }
  }

  /** A run's reconciliations link no partial find when each search that found some of a
      plan still being made was shown all its staged rows by the 100-row limit. */
  lemma {:induction false} SearchesOkMeansLinksFit(s: Sys, steps: seq<Step>)
    requires Inv(s) && FindsWhole(s) && SearchesOk(s, steps)
    ensures LinksFit(s, steps)
    decreases |steps|
  {
    if steps != [] {
      FindsWholeMeansFits(s, steps[0]);
      StepKeepsInv(s, steps[0]);
      StepKeepsFinds(s, steps[0]);
      SearchesOkMeansLinksFit(SysNext(s, steps[0]), steps[1..]);
    }
  }

  lemma FindsWholeMeansFits(s: Sys, step: Step)
    requires Inv(s) && FindsWhole(s)
    ensures LinkFits(s, step)
  {
    if Links(s, step) {
      var a := s.agents[step.pid];
      assert FindWhole(s, a);
      assert AgentOk(s.ledger, s.history, a);
      assert GoalOk(s.ledger, s.history, a.goal);
      FoundAllIff(s, a);
    }
  }

  lemma ShortFind(s: Sys, goal: GoalId, n: nat)
    requires Inv(s) && Current(s.ledger, goal, n) && SearchIds(s.board, goal, n) != {} && !SearchFits(s.board, goal, n)
    ensures !FoundAll(s.board, Found(goal, n, false, SearchIds(s.board, goal, n)))
    ensures Enabled(s.ledger, BeginExecution(goal, SearchIds(s.board, goal, n), Some(n)))
  {
    SearchIsWithin(s, goal, n);
    assert GoalOk(s.ledger, s.history, goal);
    SearchFindsAllIff(s, goal, n);
    FoundAllIff(s, Found(goal, n, false, SearchIds(s.board, goal, n)));
  }

  lemma SearchStep(s: Sys, pid: nat)
    requires pid in s.agents && s.agents[pid].Saw?
    ensures var a := s.agents[pid];
            SysNext(s, Search(pid))
            == s.(agents := s.agents[pid := Found(a.goal, a.generation, a.running, SearchIds(s.board, a.goal, a.generation))])
  {
  }

  lemma ShortSearchMisfits(s: Sys, pid: nat, now: int)
    requires Inv(s) && !SearchOk(s, Search(pid))
    ensures var a := s.agents[pid];
            var t := SysNext(s, Search(pid));
            && Inv(t) && !LinkFits(t, Settle(pid, now)) && pid in t.agents
            && t.agents[pid] == Found(a.goal, a.generation, a.running, SearchIds(s.board, a.goal, a.generation))
  {
    var a := s.agents[pid];
    assert AgentOk(s.ledger, s.history, a);
    SearchKeepsInv(s, pid);
    CurrentNotRunning(s, a);
    ShortFind(s, a.goal, a.generation);
    SearchStep(s, pid);
    PartialFindMisfits(SysNext(s, Search(pid)), pid, now);
  }

  lemma PartialFindMisfits(t: Sys, pid: nat, now: int)
    requires pid in t.agents && t.agents[pid].Found? && !t.agents[pid].running
    requires var a := t.agents[pid]; Enabled(t.ledger, BeginExecution(a.goal, a.ids, Some(a.generation))) && !FoundAll(t.board, a)
    ensures !LinkFits(t, Settle(pid, now))
  {
  }

  /** And each of those is needed: from any state, a search that finds some but not all of
      a plan still being made, settled next, links a proper part of it for good. */
  lemma ShortSearchLinksPart(s: Sys, pid: nat, now: int, after: seq<Step>)
    requires Inv(s) && !SearchOk(s, Search(pid))
    ensures var a := s.agents[pid];
            PartLinked(SysRun(SysNext(SysNext(s, Search(pid)), Settle(pid, now)), after), (a.goal, a.generation))
  {
    ShortSearchMisfits(s, pid, now);
    PartialLinkIsForever(SysNext(s, Search(pid)), Settle(pid, now), after);
  }

  lemma CurrentNotRunning(s: Sys, a: Agent)
    requires Inv(s) && a.Saw? && AgentOk(s.ledger, s.history, a) && Current(s.ledger, a.goal, a.generation)
    ensures !a.running
  {
    assert GoalOk(s.ledger, s.history, a.goal);
  }

  // ---- dispatchable means linked ----

  ghost predicate RowLinked(l: Ledger, t: Task, id: TaskId) {
    t.source.Live? ==> t.key.GoalKey? && (t.source.goal, t.key.generation, id) in l.links
  }

  /** Every row dispatchable under a goal is one the ledger links to that goal. */
  ghost predicate LiveLinked(l: Ledger, b: Board) {
    forall id | id in b.tasks :: RowLinked(l, b.tasks[id], id)
  }

  lemma WholeMeansLiveLinked(s: Sys)
    requires Inv(s) && Whole(s)
    ensures LiveLinked(s.ledger, s.board)
  {
    forall id | id in s.board.tasks ensures RowLinked(s.ledger, s.board.tasks[id], id) {
      assert RowOk(s.board, s.history, id);
      var t := s.board.tasks[id];
      if t.source.Live? {
        var plan := (t.key.goal, t.key.generation);
        assert PlanOk(s.ledger, s.board, plan, s.history[plan]) && PlanWhole(s, plan);
        assert id in LinksOf(s.ledger, plan.0, plan.1);
      }
    }
  }

  /** At the end of a run that links no partial find, a row is dispatchable under a goal
      only if the ledger links it to that goal. */
  lemma DispatchableMeansLinked(steps: seq<Step>, id: TaskId, goal: GoalId)
    requires LinksFit(START, steps)
    requires var s := SysRun(START, steps); id in s.board.tasks && s.board.tasks[id].source == Live(goal)
    ensures var s := SysRun(START, steps);
            && s.board.tasks[id].key.GoalKey?
            && (goal, s.board.tasks[id].key.generation, id) in s.ledger.links
  {
    var s := SysRun(START, steps);
    RunKeepsInv(START, steps);
    RunWholeIff(START, steps);
    WholeMeansLiveLinked(s);
    assert RowLinked(s.ledger, s.board.tasks[id], id);
  }

  lemma LinksOnlyGrow(s: Sys, step: Step)
    ensures s.ledger.links <= SysNext(s, step).ledger.links
  {
    if !step.LinkPlan? && !Links(s, step) { OthersKeepLinks(s, step); }
  }

  lemma QuietKeepsLive(l: Ledger, b: Board, c: Board)
    requires LiveLinked(l, b) && Quiet(b, c)
    ensures LiveLinked(l, c)
  {
    forall id | id in c.tasks ensures RowLinked(l, c.tasks[id], id) {
      if id in b.tasks { assert RowLinked(l, b.tasks[id], id); }
    }
  }

  lemma BoardStepKeepsLive(s: Sys, op: Op)
    requires Inv(s) && Foreign(s.board, op) && LiveLinked(s.ledger, s.board)
    ensures LiveLinked(s.ledger, Next(s.board, op))
  {
    assert forall id | id in s.board.tasks :: RowOk(s.board, s.history, id);
    ForeignIsQuiet(s.board, op);
    QuietKeepsLive(s.ledger, s.board, Next(s.board, op));
  }

  lemma EnqueueKeepsLive(s: Sys, pid: nat, count: nat, now: int)
    requires Inv(s) && LiveLinked(s.ledger, s.board) && pid in s.agents && s.agents[pid].Claimed?
    ensures LiveLinked(s.ledger, AfterEnqueue(s, pid, count, now).board)
  {
    EnqueueGoesIn(s, pid, count, now);
    var c := AfterEnqueue(s, pid, count, now).board;
    forall id | id in c.tasks ensures RowLinked(s.ledger, c.tasks[id], id) {
      if id in s.board.tasks {
        assert RowLinked(s.ledger, s.board.tasks[id], id);
      } else {
        assert PlanRow(c.tasks[id], s.agents[pid].goal, s.agents[pid].generation);
      }
    }
  }

  /** Activating rows of a plan keeps the promise exactly when those that wait are linked. */
  lemma ActivationLiveIff(s: Sys, plan: Plan, ids: set<TaskId>, now: int)
    requires Inv(s) && LiveLinked(s.ledger, s.board) && plan in s.history && ids <= s.history[plan]
    ensures LiveLinked(s.ledger, Next(s.board, Activate(ids, plan.0, now)))
       <==> forall id | id in ids && Waiting(s.board, id) :: (plan.0, plan.1, id) in s.ledger.links
  {
    var c := Next(s.board, Activate(ids, plan.0, now));
    assert PlanOk(s.ledger, s.board, plan, s.history[plan]);
    forall id | id in s.board.tasks
      ensures RowLinked(s.ledger, c.tasks[id], id) <==> (id in ids && Waiting(s.board, id) ==> (plan.0, plan.1, id) in s.ledger.links)
    {
      assert RowLinked(s.ledger, s.board.tasks[id], id);
    }
  }

  lemma PlannerActivates(s: Sys, pid: nat, now: int)
    requires Inv(s) && LiveLinked(s.ledger, s.board) && pid in s.agents && s.agents[pid].Linked?
    ensures LiveLinked(s.ledger, Next(s.board, Activate(s.agents[pid].ids, s.agents[pid].goal, now)))
  {
    var a := s.agents[pid];
    var plan := (a.goal, a.generation);
    assert AgentOk(s.ledger, s.history, a);
    assert PlanOk(s.ledger, s.board, plan, s.history[plan]);
    forall id | id in a.ids ensures (plan.0, plan.1, id) in s.ledger.links { assert id in LinksOf(s.ledger, plan.0, plan.1); }
    ActivationLiveIff(s, plan, a.ids, now);
  }

  lemma ReconciliationActivates(s: Sys, pid: nat, now: int)
    requires Inv(s) && LiveLinked(s.ledger, s.board) && pid in s.agents && s.agents[pid].Found? && s.agents[pid].running
    ensures LiveLinked(s.ledger, Settled(s, pid, now).board) <==> !Exposes(s, Settle(pid, now))
  {
    var a := s.agents[pid];
    assert AgentOk(s.ledger, s.history, a);
    ActivationLiveIff(s, (a.goal, a.generation), a.ids, now);
  }

  lemma MoreLinksStayLive(l: Ledger, m: Ledger, b: Board)
    requires LiveLinked(l, b) && l.links <= m.links
    ensures LiveLinked(m, b)
  {
    forall id | id in b.tasks ensures RowLinked(m, b.tasks[id], id) { assert RowLinked(l, b.tasks[id], id); }
  }

  /** Steps that change the ledger or a heartbeat's memory, but no row. */
  lemma BoardUntouched(s: Sys, step: Step)
    requires !step.EnqueuePlan? && !step.ActivatePlan? && !step.UndoOne? && !step.Others?
    requires step.Settle? && step.pid in s.agents && s.agents[step.pid].Found? ==> !s.agents[step.pid].running
    ensures SysNext(s, step).board == s.board
  {
  }

  lemma BoardMoved(s: Sys, step: Step)
    requires step.EnqueuePlan? || step.ActivatePlan? || step.UndoOne? || step.Others?
          || (step.Settle? && step.pid in s.agents && s.agents[step.pid].Found? && s.agents[step.pid].running)
    ensures SysNext(s, step).ledger == s.ledger
  {
  }

  /** One step keeps every dispatchable row linked, exactly when it is not a
      reconciliation that activates a row the ledger does not link. */
  lemma StepLiveIff(s: Sys, step: Step)
    requires Inv(s) && LiveLinked(s.ledger, s.board)
    ensures LiveLinked(SysNext(s, step).ledger, SysNext(s, step).board) <==> !Exposes(s, step)
  {
    match step
    case EnqueuePlan(pid, count, now) =>
      if SysNext(s, step) != s { EnqueueKeepsLive(s, pid, count, now); }
    case ActivatePlan(pid, now) =>
      BoardMoved(s, step);
      if SysNext(s, step) != s { PlannerActivates(s, pid, now); }
    case UndoOne(pid, id, now) =>
      if SysNext(s, step) != s { BoardStepKeepsLive(s, Op.Cancel(id, now)); }
    case Others(op) =>
      if SysNext(s, step) != s { BoardStepKeepsLive(s, op); }
    case Settle(pid, now) => SettleLiveIff(s, pid, now);
    case _ => UntouchedStaysLive(s, step);
  }

  lemma SettleLiveIff(s: Sys, pid: nat, now: int)
    requires Inv(s) && LiveLinked(s.ledger, s.board)
    ensures var t := SysNext(s, Settle(pid, now)); LiveLinked(t.ledger, t.board) <==> !Exposes(s, Settle(pid, now))
  {
    if pid in s.agents && s.agents[pid].Found? && s.agents[pid].running {
      BoardMoved(s, Settle(pid, now));
      ReconciliationActivates(s, pid, now);
    } else {
      UntouchedStaysLive(s, Settle(pid, now));
    }
  }

  lemma UntouchedStaysLive(s: Sys, step: Step)
    requires Inv(s) && LiveLinked(s.ledger, s.board)
    requires !step.EnqueuePlan? && !step.ActivatePlan? && !step.UndoOne? && !step.Others?
    requires step.Settle? && step.pid in s.agents && s.agents[step.pid].Found? ==> !s.agents[step.pid].running
    ensures LiveLinked(SysNext(s, step).ledger, SysNext(s, step).board)
  {
    BoardUntouched(s, step);
    LinksOnlyGrow(s, step);
    MoreLinksStayLive(s.ledger, SysNext(s, step).ledger, s.board);
  }

  /** At every point of the run, its start and end included. */
  ghost predicate AlwaysLiveLinked(s: Sys, steps: seq<Step>)
    decreases |steps|
  {
    LiveLinked(s.ledger, s.board) && (steps == [] || AlwaysLiveLinked(SysNext(s, steps[0]), steps[1..]))
  }

  lemma {:induction false} RunLiveIff(s: Sys, steps: seq<Step>)
    requires Inv(s) && LiveLinked(s.ledger, s.board)
    ensures AlwaysLiveLinked(s, steps) <==> NeverExposes(s, steps)
    decreases |steps|
  {
    if steps != [] {
      var t := SysNext(s, steps[0]);
      StepKeepsInv(s, steps[0]);
      StepLiveIff(s, steps[0]);
      if !Exposes(s, steps[0]) {
        RunLiveIff(t, steps[1..]);
      } else {
        NotLiveNotAlways(t, steps[1..]);
      }
    }
  }

  lemma NotLiveNotAlways(s: Sys, steps: seq<Step>)
    requires !LiveLinked(s.ledger, s.board)
    ensures !AlwaysLiveLinked(s, steps)
  {
  }

  /** Throughout a run every dispatchable row is linked, exactly when no reconciliation
      activates a row the ledger does not link; a run that links no partial find has none. */
  lemma DispatchableMeansLinkedIff(steps: seq<Step>)
    ensures AlwaysLiveLinked(START, steps) <==> NeverExposes(START, steps)
    ensures LinksFit(START, steps) ==> NeverExposes(START, steps)
  {
    RunLiveIff(START, steps);
    if LinksFit(START, steps) { FitNeverExposes(START, steps); }
  }

  lemma {:induction false} FitNeverExposes(s: Sys, steps: seq<Step>)
    requires Inv(s) && Whole(s) && LinksFit(s, steps)
    ensures NeverExposes(s, steps)
    decreases |steps|
  {
    if steps != [] {
      var t := SysNext(s, steps[0]);
      WholeMeansLiveLinked(s);
      StepKeepsInv(s, steps[0]);
      StepKeepsWhole(s, steps[0]);
      WholeMeansLiveLinked(t);
      StepLiveIff(s, steps[0]);
      FitNeverExposes(t, steps[1..]);
    }
  }

  // ---- completion ----

  /** On every run: evaluation, as one step, completes a goal only when the tasks linked to
      its current plan are some, and all done. */
  lemma CompletedMeansLinkedDone(steps: seq<Step>, goal: GoalId, machine: string)
    requires var s := SysRun(START, steps);
             && goal in s.ledger.goals && !s.ledger.goals[goal].status.Completed?
             && SysNext(s, Evaluate(goal, machine)).ledger.goals[goal].status.Completed?
    ensures var s := SysRun(START, steps);
            var plan := (goal, s.ledger.goals[goal].generation);
            var linked := LinksOf(s.ledger, plan.0, plan.1);
            && plan in s.history && linked != {} && linked <= s.history[plan]
            && forall id | id in linked :: id in s.board.tasks && s.board.tasks[id].status.Done?
  {
    RunKeepsInv(START, steps);
    var s := SysRun(START, steps);
    assert SysNext(s, Evaluate(goal, machine)) != s;
    JudgedCompleted(s.ledger, s.board, goal);
    assert GoalOk(s.ledger, s.history, goal);
    assert PlanOk(s.ledger, s.board, (goal, s.ledger.goals[goal].generation), s.history[(goal, s.ledger.goals[goal].generation)]);
  }

  /** And they are the whole batch when the run linked no partial find. */
  lemma CompletedMeansAllDone(steps: seq<Step>, goal: GoalId, machine: string)
    requires LinksFit(START, steps)
    requires var s := SysRun(START, steps);
             && goal in s.ledger.goals && !s.ledger.goals[goal].status.Completed?
             && SysNext(s, Evaluate(goal, machine)).ledger.goals[goal].status.Completed?
    ensures var s := SysRun(START, steps);
            var plan := (goal, s.ledger.goals[goal].generation);
            && plan in s.history && s.history[plan] != {}
            && forall id | id in s.history[plan] :: id in s.board.tasks && s.board.tasks[id].status.Done?
  {
    CompletedMeansLinkedDone(steps, goal, machine);
    RunWholeIff(START, steps);
    var s := SysRun(START, steps);
    assert PlanWhole(s, (goal, s.ledger.goals[goal].generation));
  }

  lemma JudgedCompleted(l: Ledger, b: Board, goal: GoalId)
    requires goal in l.goals && !l.goals[goal].status.Completed? && Judged(l, b, goal).goals[goal].status.Completed?
    ensures l.goals[goal].status.Executing? || l.goals[goal].status.Evaluating?
    ensures var ids := LinksOf(l, goal, l.goals[goal].generation);
            ids != {} && forall id | id in ids :: id in b.tasks && b.tasks[id].status.Done?
  {
  }
}
