/** The free resumes are as many as there can be: a run from the empty system with one more
    in which a plan is linked in part, and one of its unlinked rows then becomes
    dispatchable. */
module SearchLimit {
  import opened Wrappers
  import opened Sums
  import opened Tasks
  import opened Goals
  import opened GoalPlans
  import opened GoalKeys
  import opened GoalSafety
  import opened GoalLinking
  import opened GoalCapacity

  const LATE := 33
  const PLAN := 34
  const TOTAL := 102

  lemma ClaimsPlan(s: Sys, r: nat, pid: nat) returns (t: Sys)
    requires Reachable(s, r) && pid !in s.agents && Enabled(s.ledger, ClaimPlanning(0, "m"))
    ensures Reachable(t, r) && t.ledger == GoalNext(s.ledger, ClaimPlanning(0, "m"))
    ensures t.board == s.board && t.agents == s.agents[pid := Claimed(0, s.ledger.goals[0].generation + 1)]
  {
    t := Goes(s, r, ClaimPlan(pid, 0, "m"));
  }

  /** Enqueues a three-task plan and dies before linking it. */
  lemma EnqueuesAndDies(s: Sys, r: nat, pid: nat) returns (t: Sys)
    requires Reachable(s, r) && pid in s.agents && s.agents[pid].Claimed?
    ensures Reachable(t, r) && t.ledger == s.ledger && t.agents == Without(s.agents, pid)
    ensures Grown(s.board, t.board, s.agents[pid].goal, s.agents[pid].generation, 3)
  {
    ReachableGrows(s, r, pid);
    var mid := Goes(s, r, EnqueuePlan(pid, 3, 0));
    t := Dies(mid, r, pid);
  }

  lemma ReachableGrows(s: Sys, r: nat, pid: nat)
    requires Reachable(s, r) && pid in s.agents && s.agents[pid].Claimed?
    ensures var t := SysNext(s, EnqueuePlan(pid, 3, 0));
            && t.ledger == s.ledger && Without(t.agents, pid) == Without(s.agents, pid)
            && Grown(s.board, t.board, s.agents[pid].goal, s.agents[pid].generation, 3)
  {
    ReachableIsSound(s, r);
    EnqueueGoesIn(s, pid, 3, 0);
  }

  lemma Dies(s: Sys, r: nat, pid: nat) returns (t: Sys)
    requires Reachable(s, r)
    ensures Reachable(t, r) && t.ledger == s.ledger && t.board == s.board && t.agents == Without(s.agents, pid)
  {
    t := Goes(s, r, Crash(pid));
  }

  lemma Finds(s: Sys, r: nat, pid: nat) returns (t: Sys)
    requires Reachable(s, r) && pid !in s.agents && 0 in s.ledger.goals && s.ledger.goals[0].owner == "m"
    requires s.ledger.goals[0].status.Executing? || s.ledger.goals[0].status.Planning?
    ensures var g := s.ledger.goals[0];
            && Reachable(t, r)
            && t == s.(agents := s.agents[pid := Found(0, g.generation, g.status.Executing?, SearchIds(s.board, 0, g.generation))])
  {
    var mid := Sees(s, r, pid);
    SearchStep(mid, pid);
    t := Goes(mid, r, Search(pid));
    MapTwice(s.agents, pid, mid.agents[pid], t.agents[pid]);
  }

  lemma MapTwice(agents: map<nat, Agent>, pid: nat, a: Agent, b: Agent)
    ensures agents[pid := a][pid := b] == agents[pid := b]
  {
  }

  lemma Sees(s: Sys, r: nat, pid: nat) returns (t: Sys)
    requires Reachable(s, r) && pid !in s.agents && 0 in s.ledger.goals && s.ledger.goals[0].owner == "m"
    requires s.ledger.goals[0].status.Executing? || s.ledger.goals[0].status.Planning?
    ensures var g := s.ledger.goals[0];
            Reachable(t, r) && t == s.(agents := s.agents[pid := Saw(0, g.generation, g.status.Executing?)])
  {
    t := Goes(s, r, See(pid, 0, "m"));
  }

  lemma Settles(s: Sys, r: nat, pid: nat) returns (t: Sys)
    requires Reachable(s, r) && pid in s.agents && s.agents[pid].Found?
    ensures Reachable(t, r) && t == Settled(s, pid, 0)
  {
    t := Goes(s, r, Settle(pid, 0));
  }

  lemma Activates(s: Sys, r: nat, pid: nat) returns (t: Sys)
    requires Reachable(s, r) && pid in s.agents && s.agents[pid].Linked? && !s.agents[pid].planner
    ensures Reachable(t, r) && t.ledger == s.ledger && t.agents == Without(s.agents, pid)
    ensures t.board == Next(s.board, Activate(s.agents[pid].ids, s.agents[pid].goal, 0))
  {
    t := Goes(s, r, ActivatePlan(pid, 0));
  }

  function OneGoal(status: GoalStatus, generation: nat, replans: nat): map<GoalId, Goal> {
    map[0 := Goal(status, generation, replans, DEFAULT_REPLANS, "m")]
  }

  /** Replans first, then resumes. */
  function Replans(plans: nat): nat {
    if plans <= DEFAULT_REPLANS then plans else DEFAULT_REPLANS
  }

  function ResumesFor(plans: nat): nat {
    plans - Replans(plans)
  }

  /** The goal after so many plans, waiting for the next. */
  function Due(plans: nat): map<GoalId, Goal> {
    OneGoal(if 1 <= plans <= DEFAULT_REPLANS then Replanning else Open, plans, Replans(plans))
  }

  ghost predicate Waiting(agents: map<nat, Agent>, from: nat, upTo: nat) {
    forall p :: (p in agents <==> from <= p < upTo) && (p in agents ==> agents[p] == Claimed(0, p + 1))
  }

  lemma OneMoreWaits(agents: map<nat, Agent>, k: nat)
    requires Waiting(agents, 0, k)
    ensures k !in agents && Waiting(agents[k := Claimed(0, k + 1)], 0, k + 1)
  {
  }

  lemma OneFewerWaits(agents: map<nat, Agent>, i: nat)
    requires i < LATE && Waiting(agents, i, LATE)
    ensures Waiting(Without(agents, i), i + 1, LATE)
  {
  }

  lemma ClaimedOnce(s: Sys, r: nat, k: nat) returns (t: Sys)
    requires Reachable(s, r) && k !in s.agents && s.ledger == Ledger(Due(k), {})
    ensures Reachable(t, r) && t.board == s.board && t.agents == s.agents[k := Claimed(0, k + 1)]
    ensures t.ledger == Ledger(OneGoal(Planning, k + 1, Replans(k)), {})
  {
    ClaimsOneGoal(k);
    t := ClaimsPlan(s, r, k);
  }

  lemma ClaimsOneGoal(k: nat)
    ensures Enabled(Ledger(Due(k), {}), ClaimPlanning(0, "m"))
    ensures GoalNext(Ledger(Due(k), {}), ClaimPlanning(0, "m")) == Ledger(OneGoal(Planning, k + 1, Replans(k)), {})
  {
  }

  lemma PlanReplaced(s: Sys, r: nat, n: nat, replans: nat) returns (t: Sys)
    requires Reachable(s, r) && s.ledger == Ledger(OneGoal(Planning, n, replans), {}) && replans < DEFAULT_REPLANS
    ensures Reachable(t, r) && t.board == s.board && t.agents == s.agents
    ensures t.ledger == Ledger(OneGoal(Replanning, n, replans + 1), {})
  {
    t := Transacts(s, r, RequestReplan(0));
    ReplansOneGoal(n, replans);
  }

  lemma ReplansOneGoal(n: nat, replans: nat)
    requires replans < DEFAULT_REPLANS
    ensures GoalNext(Ledger(OneGoal(Planning, n, replans), {}), RequestReplan(0)) == Ledger(OneGoal(Replanning, n, replans + 1), {})
  {
  }

  lemma BlockedAndResumed(s: Sys, r: nat, n: nat, replans: nat) returns (t: Sys)
    requires Reachable(s, r) && s.ledger == Ledger(OneGoal(Planning, n, replans), {})
    ensures Reachable(t, r + 1) && t.board == s.board && t.agents == s.agents
    ensures t.ledger == Ledger(OneGoal(Open, n, replans), {})
  {
    var mid := Transacts(s, r, Block(0));
    UpdatesOneGoal(Planning, n, replans, Block(0));
    t := Transacts(mid, r, Resume(0));
    UpdatesOneGoal(Blocked, n, replans, Resume(0));
  }

  lemma UpdatesOneGoal(status: GoalStatus, n: nat, replans: nat, act: GoalOp)
    requires (act == Block(0) && Unfinished(status)) || (act == Resume(0) && status.Blocked?)
    ensures var l := Ledger(OneGoal(status, n, replans), {});
            Enabled(l, act) && GoalNext(l, act) == Ledger(OneGoal(if act.Block? then Blocked else Open, n, replans), {})
  {
  }

  lemma DueNext(k: nat)
    ensures k < DEFAULT_REPLANS ==> ResumesFor(k + 1) == ResumesFor(k) && Due(k + 1) == OneGoal(Replanning, k + 1, Replans(k) + 1)
    ensures k >= DEFAULT_REPLANS ==> ResumesFor(k + 1) == ResumesFor(k) + 1 && Due(k + 1) == OneGoal(Open, k + 1, Replans(k))
  {
  }

  lemma PlanGivenUp(s: Sys, r: nat, k: nat) returns (t: Sys)
    requires Reachable(s, r) && s.ledger == Ledger(OneGoal(Planning, k + 1, Replans(k)), {})
    ensures Reachable(t, r + if k < DEFAULT_REPLANS then 0 else 1) && t.board == s.board && t.agents == s.agents
    ensures t.ledger == Ledger(Due(k + 1), {})
  {
    DueNext(k);
    if k < DEFAULT_REPLANS { t := PlanReplaced(s, r, k + 1, Replans(k)); } else { t := BlockedAndResumed(s, r, k + 1, Replans(k)); }
  }

  /** One plan more is claimed by a heartbeat that stays silent, and given up. */
  lemma OneMorePlan(s: Sys, k: nat) returns (t: Sys)
    requires Reachable(s, ResumesFor(k)) && k !in s.agents && s.ledger == Ledger(Due(k), {})
    ensures Reachable(t, ResumesFor(k + 1)) && t.board == s.board && t.agents == s.agents[k := Claimed(0, k + 1)]
    ensures t.ledger == Ledger(Due(k + 1), {})
  {
    DueNext(k);
    var mid := ClaimedOnce(s, ResumesFor(k), k);
    t := PlanGivenUp(mid, ResumesFor(k), k);
  }

  lemma Created() returns (s: Sys)
    ensures Reachable(s, 0) && s.agents == map[] && s.board == EMPTY && s.ledger == Ledger(Due(0), {})
  {
    assert SysRun(START, []) == START && ResumesIn([], 0) == 0;
    s := Transacts(START, 0, CreateGoal(0, "m"));
  }

  lemma {:induction false} LateClaims(k: nat) returns (s: Sys)
    ensures Reachable(s, ResumesFor(k)) && Waiting(s.agents, 0, k)
    ensures s.ledger == Ledger(Due(k), {}) && s.board == EMPTY
  {
    if k == 0 {
      s := Created();
    } else {
      var a := LateClaims(k - 1);
      OneMoreWaits(a.agents, k - 1);
      s := OneMorePlan(a, k - 1);
    }
  }

  /** Rows 1 to 3 belong to the current plan, the later ones to superseded plans. */
  ghost predicate Filled(b: Board, total: nat) {
    && b.nextId == total + 1
    && (forall id :: id in b.tasks <==> 1 <= id <= total)
    && (forall id | id in b.tasks ::
          && b.tasks[id].source == Staged(0) && b.tasks[id].status.Pending?
          && b.tasks[id].key.GoalKey? && (b.tasks[id].key.generation == PLAN <==> id <= 3))
  }

  lemma FilledByEnqueue(b: Board, c: Board, n: nat, total: nat)
    requires Grown(b, c, 0, n, 3)
    requires if b == EMPTY then n == PLAN && total == 0 else n != PLAN && total >= 3 && Filled(b, total)
    ensures Filled(c, total + 3)
  {
    forall id | id in c.tasks && id !in b.tasks ensures PlanRow(c.tasks[id], 0, n) {
    }
  }

  lemma PlannerDies() returns (s: Sys)
    ensures Reachable(s, FREE_RESUMES + 1) && Waiting(s.agents, 0, LATE)
    ensures s.ledger == Ledger(OneGoal(Planning, PLAN, DEFAULT_REPLANS), {}) && Filled(s.board, 3)
  {
    var a := LateClaims(LATE);
    var b := ClaimedOnce(a, FREE_RESUMES + 1, LATE);
    s := EnqueuesAndDies(b, FREE_RESUMES + 1, LATE);
    FilledByEnqueue(b.board, s.board, PLAN, 0);
  }

  /** Each silent heartbeat wakes and enqueues its superseded plan. */
  lemma {:induction false} LateArrivals(i: nat) returns (s: Sys)
    requires i <= LATE
    ensures Reachable(s, FREE_RESUMES + 1) && Waiting(s.agents, i, LATE)
    ensures s.ledger == Ledger(OneGoal(Planning, PLAN, DEFAULT_REPLANS), {}) && Filled(s.board, 3 + 3 * i)
  {
    if i == 0 {
      s := PlannerDies();
    } else {
      var a := LateArrivals(i - 1);
      s := EnqueuesAndDies(a, FREE_RESUMES + 1, i - 1);
      FilledByEnqueue(a.board, s.board, i, 3 * i);
      OneFewerWaits(a.agents, i - 1);
    }
  }

  lemma SearchSeesOnly(b: Board, row: TaskId)
    requires 1 <= row <= 3
    requires forall id :: id in StagedFor(b, 0) <==> 1 <= id <= TOTAL && (id == 3 ==> row == 3)
    requires row == TOTAL - SEARCH_LIMIT + 1 || row == TOTAL - SEARCH_LIMIT
    requires forall id | id in StagedFor(b, 0) :: OfGeneration(b.tasks[id], PLAN) <==> id <= 3
    ensures SearchIds(b, 0, PLAN) == {row}
  {
    var ids := StagedFor(b, 0);
    forall id | id in ids && id <= 3 ensures id in Newest(ids) <==> id == row {
      var newer := set j | j in ids && j > id;
      NewerThan(ids, row, id, newer);
      assert id in Newest(ids) <==> |newer| < SEARCH_LIMIT;
    }
  }

  lemma NewerThan(ids: set<TaskId>, row: TaskId, id: TaskId, newer: set<TaskId>)
    requires 2 <= row <= 3 && id in ids && id <= 3
    requires forall i: TaskId :: i in ids <==> 1 <= i <= TOTAL && (i == 3 ==> row == 3)
    requires forall i: TaskId :: i in newer <==> i in ids && i > id
    ensures |newer| == TOTAL - id - if row == 3 then 0 else 1
  {
    if row == 3 {
      RangeSize(newer, id + 1, TOTAL + 1);
    } else {
      RangeSize(newer + {3}, id + 1, TOTAL + 1);
      assert 3 !in newer;
    }
  }

  /** Only row 3 has been activated yet. */
  ghost predicate HalfActive(b: Board) {
    && (forall id :: id in b.tasks <==> 1 <= id <= TOTAL)
    && (forall id | id in b.tasks ::
          && b.tasks[id].source == (if id == 3 then Live(0) else Staged(0)) && b.tasks[id].status.Pending?
          && b.tasks[id].key.GoalKey? && (b.tasks[id].key.generation == PLAN <==> id <= 3))
  }

  /** Reconciliation finds, links and activates one row of the three. */
  lemma FirstPass() returns (s: Sys)
    ensures Reachable(s, FREE_RESUMES + 1) && 50 !in s.agents && HalfActive(s.board)
    ensures s.ledger == Ledger(OneGoal(Executing, PLAN, DEFAULT_REPLANS), {(0, PLAN, 3)})
  {
    var a := LateArrivals(LATE);
    SearchSeesOnly(a.board, 3);
    var b := Finds(a, FREE_RESUMES + 1, 50);
    var c := Settles(b, FREE_RESUMES + 1, 50);
    OneLink(a.ledger);
    s := Activates(c, FREE_RESUMES + 1, 50);
    ActivatesRow3(a.board);
  }

  lemma OneLink(l: Ledger)
    requires l == Ledger(OneGoal(Planning, PLAN, DEFAULT_REPLANS), {})
    ensures Enabled(l, BeginExecution(0, {3}, Some(PLAN)))
    ensures GoalNext(l, BeginExecution(0, {3}, Some(PLAN))) == Ledger(OneGoal(Executing, PLAN, DEFAULT_REPLANS), {(0, PLAN, 3)})
  {
    assert NewLinks(0, PLAN, {3}) == {(0, PLAN, 3)};
  }

  lemma ActivatesRow3(b: Board)
    requires Filled(b, TOTAL)
    ensures HalfActive(Next(b, Activate({3}, 0, 0)))
  {
  }

  /** So one resume more than the free ones is too many. */
  lemma OneResumeTooMany() returns (steps: seq<Step>)
    ensures ResumesIn(steps, 0) == FREE_RESUMES + 1 && !Whole(SysRun(START, steps)) && !LinksFit(START, steps)
  {
    var s := FirstPass();
    steps :| SysRun(START, steps) == s && ResumesIn(steps, 0) == FREE_RESUMES + 1;
    ReachableIsSound(s, FREE_RESUMES + 1);
    PartOfThree(s);
    LinkedIsWholeBatchIff(steps);
  }

  lemma PartOfThree(s: Sys)
    requires Inv(s) && HalfActive(s.board) && s.ledger.links == {(0, PLAN, 3)}
    ensures !Whole(s)
  {
    assert RowOk(s.board, s.history, 1);
    OnlyRow3(s.ledger);
    assert !PlanWhole(s, (0, PLAN));
  }

  lemma OnlyRow3(l: Ledger)
    requires l.links == {(0, PLAN, 3)}
    ensures LinksOf(l, 0, PLAN) == {3}
  {
    assert (0, PLAN, 3) in l.links;
  }

  /** And its next pass makes an unlinked row of the same batch dispatchable. */
  lemma UnlinkedRowBecomesDispatchable() returns (s: Sys)
    ensures Reachable(s, FREE_RESUMES + 1)
    ensures s.ledger.links == {(0, PLAN, 3)}
    ensures 2 in s.board.tasks && s.board.tasks[2].source == Live(0) && s.board.tasks[2].status.Pending?
    ensures 1 in s.board.tasks && s.board.tasks[1].source == Staged(0) && OfGeneration(s.board.tasks[1], PLAN)
  {
    var a := FirstPass();
    SearchSeesOnly(a.board, 2);
    var b := Finds(a, FREE_RESUMES + 1, 50);
    s := Settles(b, FREE_RESUMES + 1, 50);
  }
}
