/** Plan, stage, link, activate: the two-table protocol several heartbeats run over the
    goal ledger and the task board, with a crash possible between any two commits. */
module GoalPlans {
  import opened Wrappers
  import opened Tasks
  import opened Goals

  const SEARCH_LIMIT := 100
  const MAX_PLAN := 3

  /** Where one heartbeat is in its planning or reconciliation; `running` is the status
      it read: executing, or else planning. */
  datatype Agent =
    | Claimed(goal: GoalId, generation: nat)
    | Enqueued(goal: GoalId, generation: nat, ids: set<TaskId>)
    | Linked(goal: GoalId, generation: nat, ids: set<TaskId>, planner: bool)
    | Undoing(ids: set<TaskId>)
    | Saw(goal: GoalId, generation: nat, running: bool)
    | Found(goal: GoalId, generation: nat, running: bool, ids: set<TaskId>)

  type Plan = (GoalId, nat)

  /** The two tables, the live heartbeats, and for every plan the batch it enqueued. */
  datatype Sys = Sys(ledger: Ledger, board: Board, agents: map<nat, Agent>, history: map<Plan, set<TaskId>>)

  datatype Step =
    | ClaimPlan(pid: nat, goal: GoalId, machine: string)
    | EnqueuePlan(pid: nat, count: nat, now: int)
    | LinkPlan(pid: nat)
    | ActivatePlan(pid: nat, now: int)
    | UndoOne(pid: nat, id: TaskId, now: int)
    | See(pid: nat, goal: GoalId, machine: string)
    | Search(pid: nat)
    | Settle(pid: nat, now: int)
    | Crash(pid: nat)
    | Others(op: Op)
    | Transition(act: GoalOp)
    | Evaluate(goal: GoalId, machine: string)

  // ---- the pieces ----

  function PlanEntry(goal: GoalId, generation: nat, index: nat): Entry {
    Entry(Other("tool"), Staged(goal), GoalKey(goal, generation, index), 3, 0)
  }

  function PlanEntries(goal: GoalId, generation: nat, first: nat, count: nat): seq<Entry> {
    seq(count, i requires 0 <= i < count => PlanEntry(goal, generation, first + i))
  }

  function StagedFor(b: Board, goal: GoalId): set<TaskId> {
    set id | id in b.tasks && b.tasks[id].source == Staged(goal)
  }

  /** The rows a search by source returns: at most the newest 100. */
  function Newest(ids: set<TaskId>): set<TaskId> {
    set id | id in ids && |set j | j in ids && j > id| < SEARCH_LIMIT
  }

  predicate OfGeneration(t: Task, generation: nat) {
    t.key.GoalKey? && t.key.generation == generation
  }

  function SearchIds(b: Board, goal: GoalId, generation: nat): set<TaskId> {
    set id | id in Newest(StagedFor(b, goal)) && OfGeneration(b.tasks[id], generation)
  }

  /** The search sees every staged row of this plan. */
  predicate SearchFits(b: Board, goal: GoalId, generation: nat) {
    forall id | id in StagedFor(b, goal) && OfGeneration(b.tasks[id], generation) :: id in Newest(StagedFor(b, goal))
  }

  /** What other producers and workers do: they never write goal sources or keys, and
      claim only what is due, which excludes staged rows. */
  predicate Foreign(b: Board, op: Op) {
    match op
    case Enqueue(entry, _, _) => entry.source.Plain? && !entry.key.GoalKey?
    case EnqueueMany(entries, _) => forall e | e in entries :: e.source.Plain? && !e.key.GoalKey?
    case Activate(_, _, _) => false
    case Claim(id, _) => id in b.tasks ==> !b.tasks[id].source.Staged?
    case _ => true
  }

  /** Transactions on the goal ledger alone: an operator's, a planner's failure, and each
      of the two that an evaluation commits one after the other. */
  predicate Claimless(op: GoalOp) {
    !op.ClaimPlanning? && !op.BeginExecution?
  }

  /** One evaluation of one executing goal, from its tasks' recorded states only. */
  function Judged(l: Ledger, b: Board, goal: GoalId): Ledger
    requires goal in l.goals
  {
    var ids := LinksOf(l, goal, l.goals[goal].generation);
    if ids == {} || !(ids <= b.tasks.Keys) then GoalNext(l, Block(goal))
    else if forall id | id in ids :: b.tasks[id].status.Done?
    then GoalNext(GoalNext(l, BeginEvaluation(goal)), CompleteGoal(goal))
    else if exists id | id in ids :: IsActive(b.tasks[id]) then l
    else if exists id | id in ids :: b.tasks[id].status.Cancelled? then GoalNext(l, Block(goal))
    else GoalNext(GoalNext(l, BeginEvaluation(goal)), RequestReplan(goal))
  }

  /** Hidden, and not yet claimed or cancelled. */
  predicate Waiting(b: Board, id: TaskId) {
    id in b.tasks && b.tasks[id].status.Pending? && b.tasks[id].source.Staged?
  }

  predicate ActivatesAll(b: Board, ids: set<TaskId>) {
    forall id | id in ids :: Waiting(b, id)
  }

  function Without(agents: map<nat, Agent>, pid: nat): map<nat, Agent> {
    agents - {pid}
  }

  // ---- one committed transaction ----

  function SysNext(s: Sys, step: Step): Sys {
    match step
    case ClaimPlan(pid, goal, machine) =>
      if pid !in s.agents && Enabled(s.ledger, ClaimPlanning(goal, machine))
      then s.(ledger := GoalNext(s.ledger, ClaimPlanning(goal, machine)),
              agents := s.agents[pid := Claimed(goal, s.ledger.goals[goal].generation + 1)])
      else s
    case EnqueuePlan(pid, count, now) =>
      if pid in s.agents && s.agents[pid].Claimed? && 1 <= count <= MAX_PLAN then AfterEnqueue(s, pid, count, now) else s
    case LinkPlan(pid) =>
      if pid in s.agents && s.agents[pid].Enqueued? then
        var a := s.agents[pid];
        var op := BeginExecution(a.goal, a.ids, Some(a.generation));
        s.(ledger := GoalNext(s.ledger, op),
           agents := s.agents[pid := if Enabled(s.ledger, op) then Linked(a.goal, a.generation, a.ids, true) else Undoing(a.ids)])
      else s
    case ActivatePlan(pid, now) =>
      if pid in s.agents && s.agents[pid].Linked? then
        var a := s.agents[pid];
        s.(board := Next(s.board, Activate(a.ids, a.goal, now)),
           agents := if a.planner && !ActivatesAll(s.board, a.ids) then s.agents[pid := Undoing(a.ids)] else Without(s.agents, pid))
      else s
    case UndoOne(pid, id, now) =>
      if pid in s.agents && s.agents[pid].Undoing? && id in s.agents[pid].ids
      then s.(board := Next(s.board, Cancel(id, now)), agents := s.agents[pid := Undoing(s.agents[pid].ids - {id})])
      else s
    case See(pid, goal, machine) =>
      if pid !in s.agents && goal in s.ledger.goals && s.ledger.goals[goal].owner == machine
         && (s.ledger.goals[goal].status.Executing? || s.ledger.goals[goal].status.Planning?)
      then s.(agents := s.agents[pid := Saw(goal, s.ledger.goals[goal].generation, s.ledger.goals[goal].status.Executing?)])
      else s
    case Search(pid) =>
      if pid in s.agents && s.agents[pid].Saw? then
        var a := s.agents[pid];
        s.(agents := s.agents[pid := Found(a.goal, a.generation, a.running, SearchIds(s.board, a.goal, a.generation))])
      else s
    case Settle(pid, now) =>
      if pid in s.agents && s.agents[pid].Found? then Settled(s, pid, now) else s
    case Crash(pid) => s.(agents := Without(s.agents, pid))
    case Others(op) => if Foreign(s.board, op) then s.(board := Next(s.board, op)) else s
    case Transition(act) => if Claimless(act) then s.(ledger := GoalNext(s.ledger, act)) else s
    case Evaluate(goal, machine) =>
      if goal in s.ledger.goals && s.ledger.goals[goal].status.Executing? && s.ledger.goals[goal].owner == machine
      then s.(ledger := Judged(s.ledger, s.board, goal))
      else s
  }

  function AfterEnqueue(s: Sys, pid: nat, count: nat, now: int): Sys
    requires pid in s.agents && s.agents[pid].Claimed?
  {
    var a := s.agents[pid];
    match InsertAll(s.board, PlanEntries(a.goal, a.generation, 1, count), now)
    case None => s.(agents := Without(s.agents, pid))
    case Some(board) =>
      var ids := board.tasks.Keys - s.board.tasks.Keys;
      Sys(s.ledger, board, s.agents[pid := Enqueued(a.goal, a.generation, ids)], s.history[(a.goal, a.generation) := ids])
  }

  /** An executing goal's staged rows are activated; a planning goal's are linked first,
      and a planning goal with none is blocked. */
  function Settled(s: Sys, pid: nat, now: int): Sys
    requires pid in s.agents && s.agents[pid].Found?
  {
    var a := s.agents[pid];
    if a.running then
      s.(board := if a.ids == {} then s.board else Next(s.board, Activate(a.ids, a.goal, now)), agents := Without(s.agents, pid))
    else if a.ids == {} then
      s.(ledger := GoalNext(s.ledger, Block(a.goal)), agents := Without(s.agents, pid))
    else
      var op := BeginExecution(a.goal, a.ids, Some(a.generation));
      if Enabled(s.ledger, op)
      then s.(ledger := GoalNext(s.ledger, op), agents := s.agents[pid := Linked(a.goal, a.generation, a.ids, false)])
      else s.(agents := Without(s.agents, pid))
  }

  function SysRun(s: Sys, steps: seq<Step>): Sys
    decreases |steps|
  {
    if steps == [] then s else SysRun(SysNext(s, steps[0]), steps[1..])
  }

  lemma {:induction false} RunThen(s: Sys, steps: seq<Step>, step: Step)
    ensures SysRun(s, steps + [step]) == SysNext(SysRun(s, steps), step)
    decreases |steps|
  {
    if steps == [] {
      assert steps + [step] == [step];
      assert [step][1..] == [];
    } else {
      assert (steps + [step])[1..] == steps[1..] + [step];
      RunThen(SysNext(s, steps[0]), steps[1..], step);
    }
  }

  const START := Sys(NO_GOALS, EMPTY, map[], map[])

  // ---- when reconciliation links the whole plan ----

  /** A reconciliation about to link what it found. */
  predicate Links(s: Sys, step: Step) {
    && step.Settle? && step.pid in s.agents
    && var a := s.agents[step.pid];
    && a.Found? && !a.running && Enabled(s.ledger, BeginExecution(a.goal, a.ids, Some(a.generation)))
  }

  /** It found every staged row of its plan. */
  predicate FoundAll(b: Board, a: Agent)
    requires a.Found?
  {
    forall id | id in StagedFor(b, a.goal) && OfGeneration(b.tasks[id], a.generation) :: id in a.ids
  }

  predicate LinkFits(s: Sys, step: Step) {
    Links(s, step) ==> FoundAll(s.board, s.agents[step.pid])
  }

  /** No reconciliation along the run links a partial find. */
  predicate LinksFit(s: Sys, steps: seq<Step>)
    decreases |steps|
  {
    steps == [] || (LinkFits(s, steps[0]) && LinksFit(SysNext(s, steps[0]), steps[1..]))
  }

  /** The goal is still planning this generation, so what is found may yet be linked. */
  predicate Current(l: Ledger, goal: GoalId, generation: nat) {
    goal in l.goals && l.goals[goal].status.Planning? && l.goals[goal].generation == generation
  }

  /** A search that finds some of a plan still being made finds all of it; no other
      search matters. */
  predicate SearchOk(s: Sys, step: Step) {
    step.Search? && step.pid in s.agents && s.agents[step.pid].Saw? ==>
      var a := s.agents[step.pid];
      Current(s.ledger, a.goal, a.generation) && SearchIds(s.board, a.goal, a.generation) != {} ==>
        SearchFits(s.board, a.goal, a.generation)
  }

  predicate SearchesOk(s: Sys, steps: seq<Step>)
    decreases |steps|
  {
    steps == [] || (SearchOk(s, steps[0]) && SearchesOk(SysNext(s, steps[0]), steps[1..]))
  }

  /** A reconciliation about to make a waiting row dispatchable that the ledger does not link. */
  predicate Exposes(s: Sys, step: Step) {
    && step.Settle? && step.pid in s.agents
    && var a := s.agents[step.pid];
    && a.Found? && a.running
    && exists id | id in a.ids && Waiting(s.board, id) :: (a.goal, a.generation, id) !in s.ledger.links
  }

  predicate NeverExposes(s: Sys, steps: seq<Step>)
    decreases |steps|
  {
    steps == [] || (!Exposes(s, steps[0]) && NeverExposes(SysNext(s, steps[0]), steps[1..]))
  }
}
