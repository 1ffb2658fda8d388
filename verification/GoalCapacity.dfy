/** How much an operator may ask of one goal before its staged rows outgrow what a
    reconciliation search is shown. */
module GoalCapacity {
  import opened Sums
  import opened Tasks
  import opened Goals
  import opened GoalPlans
  import opened GoalSafety
  import opened GoalLinking
  import opened GoalVerdicts

  /** Each plan stages at most three rows and a search shows a hundred, so thirty-three
      plans fit: the first, the replans, and one for each of these. */
  const FREE_RESUMES := SEARCH_LIMIT / MAX_PLAN - 1 - DEFAULT_REPLANS

  // ---- rows per plan ----

  ghost predicate Small(history: map<Plan, set<TaskId>>, plan: Plan)
    requires plan in history
  {
    1 <= plan.1 && |history[plan]| <= MAX_PLAN
  }

  ghost predicate Numbered(s: Sys) {
    && (forall plan | plan in s.history :: Small(s.history, plan))
    && (forall p | p in s.agents && s.agents[p].Claimed? :: 1 <= s.agents[p].generation)
  }

  lemma BatchIsSmall(s: Sys, pid: nat, count: nat, now: int)
    requires Inv(s) && pid in s.agents && s.agents[pid].Claimed?
    ensures var t := AfterEnqueue(s, pid, count, now);
            var plan := (s.agents[pid].goal, s.agents[pid].generation);
            plan in t.history && |t.history[plan]| == count && t.history == s.history[plan := t.history[plan]]
  {
    EnqueueGoesIn(s, pid, count, now);
    var a := s.agents[pid];
    var c := InsertAll(s.board, PlanEntries(a.goal, a.generation, 1, count), now).value;
    forall id | id in s.board.tasks ensures id < s.board.nextId { assert RowOk(s.board, s.history, id); }
    RangeSize(c.tasks.Keys - s.board.tasks.Keys, s.board.nextId, c.nextId);
  }

  lemma OthersKeepHistory(s: Sys, step: Step)
    requires !(step.EnqueuePlan? && step.pid in s.agents && s.agents[step.pid].Claimed? && 1 <= step.count <= MAX_PLAN)
    ensures SysNext(s, step).history == s.history
  {
  }

  lemma StepKeepsSmall(s: Sys, step: Step, plan: Plan)
    requires Inv(s) && Numbered(s) && plan in SysNext(s, step).history
    ensures Small(SysNext(s, step).history, plan)
  {
    if step.EnqueuePlan? && step.pid in s.agents && s.agents[step.pid].Claimed? && 1 <= step.count <= MAX_PLAN {
      BatchIsSmall(s, step.pid, step.count, step.now);
      if plan != (s.agents[step.pid].goal, s.agents[step.pid].generation) { assert Small(s.history, plan); }
    } else {
      OthersKeepHistory(s, step);
      assert Small(s.history, plan);
    }
  }

  lemma StepKeepsClaimed(s: Sys, step: Step, p: nat)
    requires Numbered(s) && p in SysNext(s, step).agents && SysNext(s, step).agents[p].Claimed?
    ensures 1 <= SysNext(s, step).agents[p].generation
  {
  }

  lemma StepKeepsNumbers(s: Sys, step: Step)
    requires Inv(s) && Numbered(s)
    ensures Numbered(SysNext(s, step))
  {
    var t := SysNext(s, step);
    forall plan | plan in t.history ensures Small(t.history, plan) { StepKeepsSmall(s, step, plan); }
    forall p | p in t.agents && t.agents[p].Claimed? ensures 1 <= t.agents[p].generation { StepKeepsClaimed(s, step, p); }
  }

  /** All rows the first `n` plans of a goal ever had. */
  function Batches(history: map<Plan, set<TaskId>>, goal: GoalId, n: nat): set<TaskId> {
    if n == 0 then {}
    else Batches(history, goal, n - 1) + if (goal, n) in history then history[(goal, n)] else {}
  }

  lemma {:induction false} BatchesSize(history: map<Plan, set<TaskId>>, goal: GoalId, n: nat)
    requires forall plan | plan in history :: Small(history, plan)
    ensures |Batches(history, goal, n)| <= MAX_PLAN * n
    decreases n
  {
    if n > 0 {
      BatchesSize(history, goal, n - 1);
      if (goal, n) in history { assert Small(history, (goal, n)); }
    }
  }

  lemma {:induction false} BatchIsAmong(history: map<Plan, set<TaskId>>, goal: GoalId, k: nat, n: nat)
    requires (goal, k) in history && 1 <= k <= n
    ensures history[(goal, k)] <= Batches(history, goal, n)
    decreases n
  {
    if k < n { BatchIsAmong(history, goal, k, n - 1); }
  }

  lemma StagedRow(s: Sys, goal: GoalId, id: TaskId)
    requires Inv(s) && Numbered(s) && id in StagedFor(s.board, goal)
    ensures goal in s.ledger.goals && id in Batches(s.history, goal, s.ledger.goals[goal].generation)
  {
    assert RowOk(s.board, s.history, id);
    var plan := (goal, s.board.tasks[id].key.generation);
    assert Small(s.history, plan);
    assert PlanOk(s.ledger, s.board, plan, s.history[plan]);
    BatchIsAmong(s.history, goal, plan.1, s.ledger.goals[goal].generation);
  }

  lemma StagedWithin(s: Sys, goal: GoalId)
    requires Inv(s) && Numbered(s)
    ensures |StagedFor(s.board, goal)| <= if goal in s.ledger.goals then MAX_PLAN * s.ledger.goals[goal].generation else 0
  {
    var ids := StagedFor(s.board, goal);
    var n := if goal in s.ledger.goals then s.ledger.goals[goal].generation else 0;
    forall id | id in ids ensures goal in s.ledger.goals && id in Batches(s.history, goal, n) { StagedRow(s, goal, id); }
    BatchesSize(s.history, goal, n);
    SubsetSize(ids, Batches(s.history, goal, n));
  }

  lemma FewRowsFit(b: Board, goal: GoalId, n: nat)
    requires |StagedFor(b, goal)| <= SEARCH_LIMIT
    ensures SearchFits(b, goal, n)
  {
    var ids := StagedFor(b, goal);
    forall id | id in ids ensures id in Newest(ids) {
      SubsetSize((set j | j in ids && j > id), ids - {id});
    }
  }

  // ---- plans per goal ----

  /** What is left of the run can be paid for: no goal will have had more than its free
      resumes, and the plans made so far leave room for those to come. */
  ghost predicate Affordable(s: Sys, ops: seq<GoalOp>) {
    forall goal: GoalId ::
      && Resumes(s.ledger, ops, goal) <= FREE_RESUMES
      && (goal in s.ledger.goals ==>
            var g := s.ledger.goals[goal];
            && g.replans <= g.maxReplans == DEFAULT_REPLANS
            && PlansDue(g) <= 1 + g.replans + FREE_RESUMES - Resumes(s.ledger, ops, goal))
  }

  lemma {:induction false} CreatedIsFresh(l: Ledger, ops: seq<GoalOp>, id: GoalId)
    requires id !in l.goals && id in GoalRun(l, ops).goals
    ensures var g := GoalRun(l, ops).goals[id];
            g.replans <= g.maxReplans == DEFAULT_REPLANS && PlansDue(g) <= 1 + g.replans + Resumes(l, ops, id)
    decreases |ops|
  {
    var next := GoalNext(l, ops[0]);
    if id in next.goals { PlansArePaidFor(next, ops[1..], id, 0); } else { CreatedIsFresh(next, ops[1..], id); }
  }

  /** The resumes of one goal in a run from the empty system. */
  function ResumesIn(steps: seq<Step>, goal: GoalId): nat {
    Resumes(NO_GOALS, Acts(START, steps), goal)
  }

  lemma StepAffords(s: Sys, step: Step, rest: seq<GoalOp>)
    requires Affordable(s, LedgerActs(s, step) + rest)
    ensures Affordable(SysNext(s, step), rest)
  {
    var acts := LedgerActs(s, step);
    StepIsActs(s, step);
    forall goal: GoalId ensures
      && Resumes(SysNext(s, step).ledger, rest, goal) <= FREE_RESUMES
      && (goal in SysNext(s, step).ledger.goals ==>
            var g := SysNext(s, step).ledger.goals[goal];
            && g.replans <= g.maxReplans == DEFAULT_REPLANS
            && PlansDue(g) <= 1 + g.replans + FREE_RESUMES - Resumes(SysNext(s, step).ledger, rest, goal))
    {
      ResumesConcat(s.ledger, acts, rest, goal);
      if goal in s.ledger.goals {
        PlansArePaidFor(s.ledger, acts, goal, FREE_RESUMES - Resumes(s.ledger, acts + rest, goal));
      } else if goal in GoalRun(s.ledger, acts).goals {
        CreatedIsFresh(s.ledger, acts, goal);
      }
    }
  }

  // ---- every search sees everything ----

  lemma AffordableFits(s: Sys, step: Step, ops: seq<GoalOp>)
    requires Inv(s) && Numbered(s) && Affordable(s, ops)
    ensures SearchOk(s, step)
  {
    if step.Search? && step.pid in s.agents && s.agents[step.pid].Saw? {
      var a := s.agents[step.pid];
      assert Resumes(s.ledger, ops, a.goal) <= FREE_RESUMES;
      StagedWithin(s, a.goal);
      FewRowsFit(s.board, a.goal, a.generation);
    }
  }

  lemma {:induction false} AffordableRun(s: Sys, steps: seq<Step>)
    requires Inv(s) && Numbered(s) && Affordable(s, Acts(s, steps))
    ensures SearchesOk(s, steps)
    decreases |steps|
  {
    if steps != [] {
      AffordableFits(s, steps[0], Acts(s, steps));
      StepKeepsInv(s, steps[0]);
      StepKeepsNumbers(s, steps[0]);
      StepAffords(s, steps[0], Acts(SysNext(s, steps[0]), steps[1..]));
      AffordableRun(SysNext(s, steps[0]), steps[1..]);
    }
  }

  /** While no goal is resumed more than thirty times, whatever else happens: every search
      shows all there is, every plan links nothing or its whole batch, and what is
      dispatchable under a goal is linked to it. */
  lemma FewResumesLinkWhole(steps: seq<Step>)
    requires forall goal: GoalId :: ResumesIn(steps, goal) <= FREE_RESUMES
    ensures SearchesOk(START, steps) && LinksFit(START, steps)
    ensures Whole(SysRun(START, steps)) && AlwaysLiveLinked(START, steps)
  {
    forall goal: GoalId ensures Resumes(START.ledger, Acts(START, steps), goal) <= FREE_RESUMES {
      assert ResumesIn(steps, goal) <= FREE_RESUMES;
    }
    AffordableRun(START, steps);
    SearchesOkMeansLinksFit(START, steps);
    LinkedIsWholeBatchIff(steps);
    DispatchableMeansLinkedIff(steps);
  }

  // ---- building runs ----

  /** Some run from the empty system gets here and resumes goal 0 so often. */
  ghost predicate Reachable(s: Sys, resumes: nat) {
    exists steps :: SysRun(START, steps) == s && ResumesIn(steps, 0) == resumes
  }

  lemma ReachableIsSound(s: Sys, r: nat)
    requires Reachable(s, r)
    ensures Inv(s)
  {
    var steps :| SysRun(START, steps) == s;
    RunKeepsInv(START, steps);
  }

  function Resuming(s: Sys, step: Step): nat {
    Resumes(s.ledger, LedgerActs(s, step), 0)
  }

  lemma Reach(s: Sys, r: nat, step: Step) returns (t: Sys)
    requires Reachable(s, r)
    ensures t == SysNext(s, step) && Reachable(t, r + Resuming(s, step))
  {
    t := SysNext(s, step);
    var steps :| SysRun(START, steps) == s && ResumesIn(steps, 0) == r;
    RunThen(START, steps, step);
    ActsThen(START, steps, step);
    RunIsActs(START, steps);
    ResumesConcat(NO_GOALS, Acts(START, steps), LedgerActs(s, step), 0);
    assert ResumesIn(steps + [step], 0) == r + Resuming(s, step);
  }

  lemma Goes(s: Sys, r: nat, step: Step) returns (t: Sys)
    requires Reachable(s, r) && !step.Transition? && !step.Evaluate?
    ensures t == SysNext(s, step) && Reachable(t, r)
  {
    t := Reach(s, r, step);
    var acts := LedgerActs(s, step);
    if acts != [] { ResumesOne(s.ledger, acts[0], 0); }
  }

  lemma Transacts(s: Sys, r: nat, act: GoalOp) returns (t: Sys)
    requires Reachable(s, r) && Claimless(act)
    ensures t == s.(ledger := GoalNext(s.ledger, act))
    ensures Reachable(t, r + if act == Resume(0) && Enabled(s.ledger, act) then 1 else 0)
  {
    t := Reach(s, r, Transition(act));
    ResumesOne(s.ledger, act, 0);
  }
}
