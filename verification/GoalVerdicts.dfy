/** Evaluation as it commits: the goal is read, its tasks are looked up one by one, and two
    transactions follow, with anything at all done by others in between. */
module GoalVerdicts {
  import opened Wrappers
  import opened Tasks
  import TB = TaskBudgets
  import opened Goals
  import opened GoalPlans
  import opened GoalSafety
  import opened GoalLinking

  // ---- what a run does to the goal ledger ----

  function JudgingActs(l: Ledger, b: Board, goal: GoalId): seq<GoalOp>
    requires goal in l.goals
  {
    var ids := LinksOf(l, goal, l.goals[goal].generation);
    if ids == {} || !(ids <= b.tasks.Keys) then [Block(goal)]
    else if forall id | id in ids :: b.tasks[id].status.Done? then [BeginEvaluation(goal), CompleteGoal(goal)]
    else if exists id | id in ids :: IsActive(b.tasks[id]) then []
    else if exists id | id in ids :: b.tasks[id].status.Cancelled? then [Block(goal)]
    else [BeginEvaluation(goal), RequestReplan(goal)]
  }

  /** The ledger's own transactions behind one step. */
  function LedgerActs(s: Sys, step: Step): seq<GoalOp> {
    match step
    case ClaimPlan(pid, goal, machine) => if pid !in s.agents then [ClaimPlanning(goal, machine)] else []
    case LinkPlan(pid) =>
      if pid in s.agents && s.agents[pid].Enqueued?
      then var a := s.agents[pid]; [BeginExecution(a.goal, a.ids, Some(a.generation))] else []
    case Settle(pid, _) =>
      if pid in s.agents && s.agents[pid].Found? && !s.agents[pid].running then
        var a := s.agents[pid];
        if a.ids == {} then [Block(a.goal)] else [BeginExecution(a.goal, a.ids, Some(a.generation))]
      else []
    case Transition(act) => if Claimless(act) then [act] else []
    case Evaluate(goal, machine) =>
      if goal in s.ledger.goals && s.ledger.goals[goal].status.Executing? && s.ledger.goals[goal].owner == machine
      then JudgingActs(s.ledger, s.board, goal)
      else []
    case _ => []
  }

  function Acts(s: Sys, steps: seq<Step>): seq<GoalOp>
    decreases |steps|
  {
    if steps == [] then [] else LedgerActs(s, steps[0]) + Acts(SysNext(s, steps[0]), steps[1..])
  }

  lemma RunOfOne(l: Ledger, a: GoalOp)
    ensures GoalRun(l, [a]) == GoalNext(l, a)
  {
    assert [a][1..] == [];
  }

  lemma JudgingIsActs(l: Ledger, b: Board, goal: GoalId)
    requires goal in l.goals
    ensures Judged(l, b, goal) == GoalRun(l, JudgingActs(l, b, goal))
  {
    var acts := JudgingActs(l, b, goal);
    if |acts| == 1 { RunOfOne(l, acts[0]); } else if |acts| == 2 { RunOfTwo(l, acts[0], acts[1]); }
  }

  lemma StepIsActs(s: Sys, step: Step)
    ensures SysNext(s, step).ledger == GoalRun(s.ledger, LedgerActs(s, step))
  {
    if step.Evaluate? {
      if step.goal in s.ledger.goals { JudgingIsActs(s.ledger, s.board, step.goal); }
    } else if LedgerActs(s, step) != [] {
      RunOfOne(s.ledger, LedgerActs(s, step)[0]);
    }
  }

  /** Seen from the goal ledger, a run of the whole system is a run of its transactions. */
  lemma {:induction false} RunIsActs(s: Sys, steps: seq<Step>)
    ensures SysRun(s, steps).ledger == GoalRun(s.ledger, Acts(s, steps))
    decreases |steps|
  {
    if steps != [] {
      StepIsActs(s, steps[0]);
      RunFrom(s.ledger, LedgerActs(s, steps[0]), Acts(SysNext(s, steps[0]), steps[1..]));
      RunIsActs(SysNext(s, steps[0]), steps[1..]);
    }
  }

  lemma {:induction false} ActsThen(s: Sys, steps: seq<Step>, step: Step)
    ensures Acts(s, steps + [step]) == Acts(s, steps) + LedgerActs(SysRun(s, steps), step)
    decreases |steps|
  {
    if steps == [] {
      assert steps + [step] == [step];
      assert Acts(SysNext(s, step), [step][1..]) == [];
    } else {
      assert (steps + [step])[1..] == steps[1..] + [step];
      ActsThen(SysNext(s, steps[0]), steps[1..], step);
    }
  }

  function PlansClaimed(s: Sys, steps: seq<Step>, goal: GoalId): nat {
    Claims(s.ledger, Acts(s, steps), goal)
  }

  // ---- where the verdict lands ----

  function Completed(s: Sys, goal: GoalId): Sys {
    SysNext(s, Transition(CompleteGoal(goal)))
  }

  lemma CompletionIsOneUpdate(s: Sys, goal: GoalId)
    ensures Completed(s, goal) == s.(ledger := GoalNext(s.ledger, CompleteGoal(goal)))
  {
  }

  /** The goal is read executing; whatever any heartbeats, operators, workers and crashes do
      until it is completed, the completion is of the plan that was read, its links still
      those read, exactly when no plan of the goal was claimed meanwhile. */
  lemma CompletionLandsIff(s: Sys, between: seq<Step>, goal: GoalId)
    requires goal in s.ledger.goals && s.ledger.goals[goal].status.Executing?
    requires var t := SysRun(s, between); goal in t.ledger.goals && t.ledger.goals[goal].status.Evaluating?
    ensures var n, u := s.ledger.goals[goal].generation, Completed(SysRun(s, between), goal);
            && goal in u.ledger.goals && u.ledger.goals[goal].status.Completed?
            && (u.ledger.goals[goal].generation == n <==> PlansClaimed(s, between, goal) == 0)
            && (PlansClaimed(s, between, goal) == 0 ==> LinksOf(u.ledger, goal, n) == LinksOf(s.ledger, goal, n))
  {
    RunIsActs(s, between);
    CompletionIsOneUpdate(SysRun(s, between), goal);
    VerdictLandsIff(s.ledger, Acts(s, between), goal, CompleteGoal(goal));
  }

  // ---- what it says of the tasks ----

  predicate DoneOrGone(b: Board, id: TaskId) {
    id < b.nextId && (id in b.tasks ==> b.tasks[id].status.Done?)
  }

  lemma OpKeepsDone(b: Board, op: Op, id: TaskId)
    requires DoneOrGone(b, id)
    ensures DoneOrGone(Next(b, op), id)
  {
    TB.NextOnRow(b, op, id);
  }

  lemma EnqueueKeepsDone(s: Sys, pid: nat, count: nat, now: int, id: TaskId)
    requires pid in s.agents && s.agents[pid].Claimed? && DoneOrGone(s.board, id)
    ensures DoneOrGone(AfterEnqueue(s, pid, count, now).board, id)
  {
    var a := s.agents[pid];
    var entries := PlanEntries(a.goal, a.generation, 1, count);
    if InsertAll(s.board, entries, now).Some? { TB.BatchKeepsRows(s.board, entries, now, id); }
  }

  /** The board's own transaction behind a step other than an enqueue, if there is one. */
  lemma OtherBoards(s: Sys, step: Step) returns (op: Op)
    requires !step.EnqueuePlan?
    ensures SysNext(s, step).board == s.board || SysNext(s, step).board == Next(s.board, op)
  {
    op := match step
          case ActivatePlan(pid, now) =>
            if pid in s.agents && s.agents[pid].Linked? then Activate(s.agents[pid].ids, s.agents[pid].goal, now) else PurgeDone(0)
          case Settle(pid, now) =>
            if pid in s.agents && s.agents[pid].Found? then Activate(s.agents[pid].ids, s.agents[pid].goal, now) else PurgeDone(0)
          case UndoOne(_, id, now) => Cancel(id, now)
          case Others(o) => o
          case _ => PurgeDone(0);
  }

  lemma StepKeepsDone(s: Sys, step: Step, id: TaskId)
    requires DoneOrGone(s.board, id)
    ensures DoneOrGone(SysNext(s, step).board, id)
  {
    if step.EnqueuePlan? {
      if step.pid in s.agents && s.agents[step.pid].Claimed? { EnqueueKeepsDone(s, step.pid, step.count, step.now, id); }
    } else {
      var op := OtherBoards(s, step);
      OpKeepsDone(s.board, op, id);
    }
  }

  /** At some point along the run the task was looked up and found done. */
  predicate SeenDone(s: Sys, steps: seq<Step>, id: TaskId)
    decreases |steps|
  {
    || (id in s.board.tasks && s.board.tasks[id].status.Done?)
    || (steps != [] && SeenDone(SysNext(s, steps[0]), steps[1..], id))
  }

  lemma {:induction false} RunKeepsDone(s: Sys, steps: seq<Step>, id: TaskId)
    requires DoneOrGone(s.board, id)
    ensures DoneOrGone(SysRun(s, steps).board, id)
    decreases |steps|
  {
    if steps != [] {
      StepKeepsDone(s, steps[0], id);
      RunKeepsDone(SysNext(s, steps[0]), steps[1..], id);
    }
  }

  lemma {:induction false} SeenDoneStays(s: Sys, steps: seq<Step>, id: TaskId)
    requires Inv(s) && SeenDone(s, steps, id)
    ensures DoneOrGone(SysRun(s, steps).board, id)
    decreases |steps|
  {
    if id in s.board.tasks && s.board.tasks[id].status.Done? {
      assert RowOk(s.board, s.history, id);
      RunKeepsDone(s, steps, id);
    } else {
      StepKeepsInv(s, steps[0]);
      SeenDoneStays(SysNext(s, steps[0]), steps[1..], id);
    }
  }

  /** Read executing, each linked task seen done since, not overtaken, and about to complete. */
  predicate Vetted(s: Sys, between: seq<Step>, goal: GoalId) {
    && goal in s.ledger.goals && s.ledger.goals[goal].status.Executing?
    && (forall id | id in LinksOf(s.ledger, goal, s.ledger.goals[goal].generation) :: SeenDone(s, between, id))
    && PlansClaimed(s, between, goal) == 0
    && var t := SysRun(s, between);
    goal in t.ledger.goals && t.ledger.goals[goal].status.Evaluating?
  }

  lemma LinkedAreDone(s: Sys, between: seq<Step>, goal: GoalId, n: nat)
    requires Inv(s) && forall id | id in LinksOf(s.ledger, goal, n) :: SeenDone(s, between, id)
    ensures forall id | id in LinksOf(s.ledger, goal, n) :: DoneOrGone(SysRun(s, between).board, id)
  {
    forall id | id in LinksOf(s.ledger, goal, n) ensures DoneOrGone(SysRun(s, between).board, id) {
      SeenDoneStays(s, between, id);
    }
  }

  lemma VettedCompletion(s: Sys, between: seq<Step>, goal: GoalId)
    requires Inv(s) && Vetted(s, between, goal)
    ensures var n, u := s.ledger.goals[goal].generation, Completed(SysRun(s, between), goal);
            && goal in u.ledger.goals && u.ledger.goals[goal].status.Completed? && u.ledger.goals[goal].generation == n
            && LinksOf(u.ledger, goal, n) == LinksOf(s.ledger, goal, n)
            && forall id | id in LinksOf(s.ledger, goal, n) :: DoneOrGone(u.board, id)
  {
    CompletionLandsIff(s, between, goal);
    CompletionIsOneUpdate(SysRun(s, between), goal);
    LinkedAreDone(s, between, goal, s.ledger.goals[goal].generation);
  }

  lemma ExecutingIsLinked(s: Sys, goal: GoalId)
    requires Inv(s) && goal in s.ledger.goals && s.ledger.goals[goal].status.Executing?
    ensures var plan := (goal, s.ledger.goals[goal].generation);
            plan in s.history && LinksOf(s.ledger, plan.0, plan.1) != {} && LinksOf(s.ledger, plan.0, plan.1) <= s.history[plan]
  {
    assert GoalOk(s.ledger, s.history, goal);
    assert PlanOk(s.ledger, s.board, (goal, s.ledger.goals[goal].generation), s.history[(goal, s.ledger.goals[goal].generation)]);
  }

  /** A goal completed by an evaluation that read it in a reachable system, saw each task it
      linked done at some point since, and was not overtaken by a planning claim, is completed
      under the plan that was read, and every row of that plan's links, which are its whole
      batch unless a partial find was linked, is done or was purged since. */
  lemma CompletedMeansSeenDone(steps: seq<Step>, between: seq<Step>, goal: GoalId)
    requires Vetted(SysRun(START, steps), between, goal)
    ensures var s := SysRun(START, steps);
            var n, u := s.ledger.goals[goal].generation, Completed(SysRun(s, between), goal);
            && goal in u.ledger.goals && u.ledger.goals[goal].status.Completed? && u.ledger.goals[goal].generation == n
            && (goal, n) in s.history
            && var linked := LinksOf(u.ledger, goal, n);
            && linked != {} && linked <= s.history[(goal, n)]
            && (LinksFit(START, steps) ==> linked == s.history[(goal, n)])
            && forall id | id in linked :: DoneOrGone(u.board, id)
  {
    RunKeepsInv(START, steps);
    var s := SysRun(START, steps);
    VettedCompletion(s, between, goal);
    ExecutingIsLinked(s, goal);
    if LinksFit(START, steps) { LinkedIsWholeBatch(steps, goal, s.ledger.goals[goal].generation); }
  }
}
