/** A goal's whole life, undisturbed: created, planned, worked off and completed. */
module GoalLife {
  import opened Wrappers
  import opened Tasks
  import opened Goals
  import opened GoalPlans
  import opened GoalSafety
  import opened GoalRecovery

  /** An evaluation completes its executing goal exactly when the goal's current plan has rows
      linked and every one of them is known to be done. */
  lemma EvaluateCompletesIff(s: Sys, goal: GoalId, machine: string)
    requires goal in s.ledger.goals && s.ledger.goals[goal].status == Executing && s.ledger.goals[goal].owner == machine
    ensures var ids := LinksOf(s.ledger, goal, s.ledger.goals[goal].generation);
            var t := SysNext(s, Evaluate(goal, machine));
            && goal in t.ledger.goals
            && (t.ledger.goals[goal].status == Completed
                <==> ids != {} && forall id | id in ids :: id in s.board.tasks && s.board.tasks[id].status == Done)
  {
  }

  lemma EvaluateKeepsGeneration(s: Sys, goal: GoalId, machine: string)
    requires goal in s.ledger.goals
    ensures var t := SysNext(s, Evaluate(goal, machine));
            goal in t.ledger.goals && t.ledger.goals[goal].generation == s.ledger.goals[goal].generation
  {
  }

  // ---- working off ----

  function Work(id: TaskId, now: int): seq<Step> {
    [Others(Claim(id, now)), Others(Complete(id, Some(1), now))]
  }

  function WorkAll(order: seq<TaskId>, now: int): seq<Step> {
    if order == [] then [] else Work(order[0], now) + WorkAll(order[1..], now)
  }

  predicate Fresh(t: Task) {
    t.status == Pending && t.source.Live? && t.attempts == 0 && t.maxAttempts >= 1
  }

  /** `id` is done; every other row, and the ledger, are as they were. */
  ghost predicate OneDone(s: Sys, t: Sys, id: TaskId) {
    && t.ledger == s.ledger && t.history == s.history && t.agents == s.agents && t.board.tasks.Keys == s.board.tasks.Keys
    && id in s.board.tasks && t.board.tasks[id].status == Done
    && forall x | x in s.board.tasks && x != id :: t.board.tasks[x] == s.board.tasks[x]
  }

  lemma ClaimsFresh(b: Board, id: TaskId, now: int)
    requires id in b.tasks && Fresh(b.tasks[id])
    ensures Foreign(b, Claim(id, now))
    ensures Next(b, Claim(id, now)).tasks == b.tasks[id := b.tasks[id].(status := Running, updatedTs := now, attempts := 1)]
  {
    assert Next(b, Claim(id, now)).tasks.Keys == b.tasks.Keys;
  }

  lemma CompletesFirst(b: Board, id: TaskId, now: int)
    requires id in b.tasks && b.tasks[id].status == Running && b.tasks[id].attempts == 1
    ensures Next(b, Complete(id, Some(1), now)).tasks == b.tasks[id := b.tasks[id].(status := Done, updatedTs := now)]
  {
    assert Next(b, Complete(id, Some(1), now)).tasks.Keys == b.tasks.Keys;
  }

  lemma {:induction false} RunJoin(s: Sys, a: seq<Step>, b: seq<Step>)
    ensures SysRun(s, a + b) == SysRun(SysRun(s, a), b)
    decreases |a|
  {
    if a == [] {
      assert a + b == b;
    } else {
      assert (a + b)[1..] == a[1..] + b;
      RunJoin(SysNext(s, a[0]), a[1..], b);
    }
  }

  lemma RunTwo(s: Sys, a: Step, b: Step)
    ensures SysRun(s, [a, b]) == SysNext(SysNext(s, a), b)
  {
    assert [a, b] == [a] + ([b] + []);
    RunCons(s, a, [b] + []);
    RunCons(SysNext(s, a), b, []);
  }

  lemma OthersOnBoard(s: Sys, op: Op)
    requires Foreign(s.board, op)
    ensures SysNext(s, Others(op)) == s.(board := Next(s.board, op))
  {
  }

  lemma WorkedOff(s: Sys, id: TaskId, now: int)
    requires id in s.board.tasks && Fresh(s.board.tasks[id])
    ensures OneDone(s, SysRun(s, Work(id, now)), id)
  {
    var claim, complete := Claim(id, now), Complete(id, Some(1), now);
    RunTwo(s, Others(claim), Others(complete));
    ClaimsFresh(s.board, id, now);
    OthersOnBoard(s, claim);
    var mid := Next(s.board, claim);
    CompletesFirst(mid, id, now);
    OthersOnBoard(s.(board := mid), complete);
  }

  lemma {:induction false} AllWorkedOff(s: Sys, order: seq<TaskId>, now: int)
    requires forall i, j | 0 <= i < j < |order| :: order[i] != order[j]
    requires forall id | id in order :: id in s.board.tasks && Fresh(s.board.tasks[id])
    ensures var t := SysRun(s, WorkAll(order, now));
            && t.ledger == s.ledger && t.board.tasks.Keys == s.board.tasks.Keys
            && (forall id | id in order :: t.board.tasks[id].status == Done)
            && forall id | id in s.board.tasks && id !in order :: t.board.tasks[id] == s.board.tasks[id]
    decreases |order|
  {
    if order != [] {
      var id, rest := order[0], order[1..];
      var mid := SysRun(s, Work(id, now));
      assert id in order && forall x | x in rest :: x in order && x != id;
      WorkedOff(s, id, now);
      AllWorkedOff(mid, rest, now);
      RunJoin(s, Work(id, now), WorkAll(rest, now));
      forall x | x in order ensures x == id || x in rest {}
    }
  }

  // ---- a life ----

  function Planned(pid: nat, goal: GoalId, machine: string, count: nat, now: int): seq<Step> {
    [ClaimPlan(pid, goal, machine), EnqueuePlan(pid, count, now), LinkPlan(pid), ActivatePlan(pid, now)]
  }

  /** `goal` is executing on `machine`, and what its plan has linked are fresh rows, at least one. */
  ghost predicate Ready(t: Sys, goal: GoalId, machine: string) {
    && goal in t.ledger.goals && t.ledger.goals[goal].status == Executing && t.ledger.goals[goal].owner == machine
    && var ids := LinksOf(t.ledger, goal, t.ledger.goals[goal].generation);
    && ids != {} && forall id | id in ids :: id in t.board.tasks && Fresh(t.board.tasks[id])
  }

  lemma PlannedIsReady(s: Sys, pid: nat, goal: GoalId, machine: string, count: nat, now: int)
    requires Inv(s) && pid !in s.agents && 1 <= count <= MAX_PLAN && Enabled(s.ledger, ClaimPlanning(goal, machine))
    ensures Ready(SysRun(s, Planned(pid, goal, machine, count, now)), goal, machine)
  {
    UndisturbedPlanGoesLive(s, pid, goal, machine, count, now);
    PlannedGeneration(s, pid, goal, machine, count, now);
  }

  lemma ReadyCompletes(live: Sys, goal: GoalId, machine: string, now: int) returns (order: seq<TaskId>)
    requires Ready(live, goal, machine)
    ensures var t := SysNext(SysRun(live, WorkAll(order, now)), Evaluate(goal, machine));
            && goal in t.ledger.goals && t.ledger.goals[goal].status == Completed
            && t.ledger.goals[goal].generation == live.ledger.goals[goal].generation
  {
    var ids := LinksOf(live.ledger, goal, live.ledger.goals[goal].generation);
    order := InSomeOrder(ids);
    AllWorkedOff(live, order, now);
    var done := SysRun(live, WorkAll(order, now));
    EvaluateCompletesIff(done, goal, machine);
    EvaluateKeepsGeneration(done, goal, machine);
  }

  /** From any state a run can leave, a goal that may be planned is completed by one heartbeat
      that plans it, workers that claim and complete what it exposed, and an evaluation. */
  lemma PlannedGoalCompletes(s: Sys, pid: nat, goal: GoalId, machine: string, count: nat, now: int) returns (order: seq<TaskId>)
    requires Inv(s) && pid !in s.agents && 1 <= count <= MAX_PLAN && Enabled(s.ledger, ClaimPlanning(goal, machine))
    ensures var t := SysRun(s, Planned(pid, goal, machine, count, now) + WorkAll(order, now) + [Evaluate(goal, machine)]);
            && goal in t.ledger.goals && t.ledger.goals[goal].status == Completed
            && t.ledger.goals[goal].generation == s.ledger.goals[goal].generation + 1
  {
    var planned := Planned(pid, goal, machine, count, now);
    PlannedIsReady(s, pid, goal, machine, count, now);
    PlannedGeneration(s, pid, goal, machine, count, now);
    order := ReadyCompletes(SysRun(s, planned), goal, machine, now);
    RunJoin(s, planned, WorkAll(order, now));
    RunThen(s, planned + WorkAll(order, now), Evaluate(goal, machine));
  }

  lemma PlannedGeneration(s: Sys, pid: nat, goal: GoalId, machine: string, count: nat, now: int)
    requires Inv(s) && pid !in s.agents && 1 <= count <= MAX_PLAN && Enabled(s.ledger, ClaimPlanning(goal, machine))
    ensures var t := SysRun(s, Planned(pid, goal, machine, count, now));
            goal in t.ledger.goals && t.ledger.goals[goal].owner == machine
            && t.ledger.goals[goal].generation == s.ledger.goals[goal].generation + 1
  {
    RunFour(s, ClaimPlan(pid, goal, machine), EnqueuePlan(pid, count, now), LinkPlan(pid), ActivatePlan(pid, now));
    var a := ClaimOwns(s, pid, goal, machine);
    var b := KeepsOwner(a, EnqueuePlan(pid, count, now), goal);
    var c := KeepsOwner(b, LinkPlan(pid), goal);
    var d := KeepsOwner(c, ActivatePlan(pid, now), goal);
  }

  lemma ClaimOwns(s: Sys, pid: nat, goal: GoalId, machine: string) returns (t: Sys)
    requires pid !in s.agents && Enabled(s.ledger, ClaimPlanning(goal, machine))
    ensures t == SysNext(s, ClaimPlan(pid, goal, machine))
    ensures goal in t.ledger.goals && t.ledger.goals[goal].owner == machine
            && t.ledger.goals[goal].generation == s.ledger.goals[goal].generation + 1
  {
    t := SysNext(s, ClaimPlan(pid, goal, machine));
  }

  lemma KeepsOwner(s: Sys, step: Step, goal: GoalId) returns (t: Sys)
    requires step.EnqueuePlan? || step.LinkPlan? || step.ActivatePlan?
    requires goal in s.ledger.goals
    ensures t == SysNext(s, step)
    ensures goal in t.ledger.goals && t.ledger.goals[goal].owner == s.ledger.goals[goal].owner
            && t.ledger.goals[goal].generation == s.ledger.goals[goal].generation
  {
    t := SysNext(s, step);
  }

  lemma {:induction false} InSomeOrder(ids: set<TaskId>) returns (order: seq<TaskId>)
    ensures forall id :: id in order <==> id in ids
    ensures forall i, j | 0 <= i < j < |order| :: order[i] != order[j]
    decreases |ids|
  {
    if ids == {} {
      order := [];
    } else {
      var id :| id in ids;
      var rest := InSomeOrder(ids - {id});
      order := [id] + rest;
    }
  }
}
