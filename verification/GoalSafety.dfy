/** What every commit and every crash keeps, at any search limit. */
module GoalSafety {
  import opened Wrappers
  import opened Tasks
  import opened Goals
  import opened GoalPlans
  import opened GoalKeys

  predicate SourceOf(t: Task, goal: GoalId) {
    t.source == Staged(goal) || t.source == Live(goal)
  }

  predicate BatchRow(t: Task, plan: Plan) {
    t.key.GoalKey? && (t.key.goal, t.key.generation) == plan && SourceOf(t, plan.0)
  }

  /** A plan links rows of its own batch only; while it links none, every row is staged. */
  ghost predicate PlanOk(l: Ledger, b: Board, plan: Plan, ids: set<TaskId>) {
    && ids != {}
    && plan.0 in l.goals && plan.1 <= l.goals[plan.0].generation
    && (forall id | id in ids :: id < b.nextId && (id in b.tasks ==> BatchRow(b.tasks[id], plan)))
    && LinksOf(l, plan.0, plan.1) <= ids
    && (LinksOf(l, plan.0, plan.1) == {} ==> forall id | id in ids :: id in b.tasks && b.tasks[id].source.Staged?)
  }

  /** A goal-sourced or goal-keyed row belongs to the batch its key names; a staged row
      has never been claimed. */
  ghost predicate RowOk(b: Board, history: map<Plan, set<TaskId>>, id: TaskId)
    requires id in b.tasks
  {
    var t := b.tasks[id];
    && id < b.nextId
    && (t.key.GoalKey? || !t.source.Plain? ==>
          t.key.GoalKey? && (t.key.goal, t.key.generation) in history && id in history[(t.key.goal, t.key.generation)]
          && SourceOf(t, t.key.goal))
    && (t.source.Staged? ==> t.status.Pending? || t.status.Cancelled?)
  }

  ghost predicate HasLinks(l: Ledger, history: map<Plan, set<TaskId>>, plan: Plan) {
    plan in history && LinksOf(l, plan.0, plan.1) != {}
  }

  ghost predicate GoalOk(l: Ledger, history: map<Plan, set<TaskId>>, goal: GoalId)
    requires goal in l.goals
  {
    var g := l.goals[goal];
    && (g.status.Planning? ==> LinksOf(l, goal, g.generation) == {})
    && (g.status.Executing? || g.status.Evaluating? ==> HasLinks(l, history, (goal, g.generation)))
  }

  ghost predicate AgentOk(l: Ledger, history: map<Plan, set<TaskId>>, a: Agent) {
    match a
    case Claimed(g, n) => g in l.goals && n <= l.goals[g].generation && (g, n) !in history
    case Enqueued(g, n, ids) => (g, n) in history && ids == history[(g, n)]
    case Linked(g, n, ids, _) => HasLinks(l, history, (g, n)) && ids <= LinksOf(l, g, n)
    case Undoing(_) => true
    case Saw(g, n, running) => g in l.goals && n <= l.goals[g].generation && (running ==> HasLinks(l, history, (g, n)))
    case Found(g, n, running, ids) =>
      && (ids != {} ==> (g, n) in history && ids <= history[(g, n)])
      && (running ==> HasLinks(l, history, (g, n)))
  }

  ghost predicate Inv(s: Sys) {
    && (forall plan | plan in s.history :: PlanOk(s.ledger, s.board, plan, s.history[plan]))
    && (forall id | id in s.board.tasks :: RowOk(s.board, s.history, id))
    && (forall k | k in s.ledger.links :: (k.0, k.1) in s.history)
    && (forall g | g in s.ledger.goals :: GoalOk(s.ledger, s.history, g))
    && (forall p | p in s.agents :: AgentOk(s.ledger, s.history, s.agents[p]))
    && (forall p, q | p in s.agents && q in s.agents :: OneClaimant(s.agents, p, q))
  }

  // ---- board-only steps ----

  /** What happens to a board while goal rows keep their key and source. */
  ghost predicate Quiet(b: Board, c: Board) {
    && b.nextId <= c.nextId
    && (forall id | id in c.tasks && id in b.tasks ::
          c.tasks[id].key == b.tasks[id].key && c.tasks[id].source == b.tasks[id].source)
    && (forall id | id in c.tasks && id !in b.tasks ::
          b.nextId <= id < c.nextId && !c.tasks[id].key.GoalKey? && c.tasks[id].source.Plain?)
    && (forall id | id in c.tasks && c.tasks[id].source.Staged? :: c.tasks[id].status.Pending? || c.tasks[id].status.Cancelled?)
    && (forall id | id in b.tasks && b.tasks[id].source.Staged? :: id in c.tasks)
  }

  lemma QuietKeepsPlan(l: Ledger, b: Board, c: Board, plan: Plan, ids: set<TaskId>)
    requires PlanOk(l, b, plan, ids) && Quiet(b, c)
    ensures PlanOk(l, c, plan, ids)
  {
  }

  lemma QuietKeepsInv(s: Sys, c: Board)
    requires Inv(s) && Quiet(s.board, c)
    ensures Inv(s.(board := c))
  {
    forall plan | plan in s.history ensures PlanOk(s.ledger, c, plan, s.history[plan]) {
      QuietKeepsPlan(s.ledger, s.board, c, plan, s.history[plan]);
    }
    forall id | id in c.tasks ensures RowOk(c, s.history, id) {
      if id in s.board.tasks { assert RowOk(s.board, s.history, id); }
    }
  }

  lemma ForeignRow(b: Board, op: Op, id: TaskId)
    requires id in b.tasks && Foreign(b, op)
    requires b.tasks[id].source.Staged? ==> b.tasks[id].status.Pending? || b.tasks[id].status.Cancelled?
    ensures var e := Effect(id, b.tasks[id], op);
            && (e.Some? ==> e.value.key == b.tasks[id].key && e.value.source == b.tasks[id].source)
            && (b.tasks[id].source.Staged? ==> e.Some? && (e.value.status.Pending? || e.value.status.Cancelled?))
  {
  }

  lemma {:induction false} ForeignBatch(b: Board, entries: seq<Entry>, now: int)
    requires forall e | e in entries :: e.source.Plain? && !e.key.GoalKey?
    requires forall id | id in b.tasks :: id < b.nextId
    requires forall id | id in b.tasks && b.tasks[id].source.Staged? :: b.tasks[id].status.Pending? || b.tasks[id].status.Cancelled?
    ensures InsertAll(b, entries, now).Some? ==> Quiet(b, InsertAll(b, entries, now).value)
    decreases |entries|
  {
    if entries != [] {
      assert entries[0] in entries;
      var c := Insert(b, NewTask(entries[0], now));
      assert forall e | e in entries[1..] :: e in entries;
      ForeignBatch(c, entries[1..], now);
      if InsertAll(c, entries[1..], now).Some? {
        var d := InsertAll(c, entries[1..], now).value;
        assert b.nextId in c.tasks;
        assert c.tasks[b.nextId].source.Plain?;
      }
    }
  }

  lemma ForeignIsQuiet(b: Board, op: Op)
    requires Foreign(b, op)
    requires forall id | id in b.tasks :: id < b.nextId
    requires forall id | id in b.tasks && b.tasks[id].source.Staged? :: b.tasks[id].status.Pending? || b.tasks[id].status.Cancelled?
    ensures Quiet(b, Next(b, op))
  {
    if op.EnqueueMany? {
      ForeignBatch(b, op.entries, op.now);
    } else {
      forall id | id in b.tasks
        ensures var e := Effect(id, b.tasks[id], op);
                && (e.Some? ==> e.value.key == b.tasks[id].key && e.value.source == b.tasks[id].source)
                && (b.tasks[id].source.Staged? ==> e.Some? && (e.value.status.Pending? || e.value.status.Cancelled?))
      {
        ForeignRow(b, op, id);
      }
    }
  }

  // ---- ledger-only steps ----

  /** A ledger step that neither claims a plan nor links one. */
  ghost predicate Settles(l: Ledger, m: Ledger) {
    && m.links == l.links
    && l.goals.Keys <= m.goals.Keys
    && (forall g | g in l.goals :: m.goals[g].generation == l.goals[g].generation)
    && (forall g | g in m.goals :: m.goals[g].status.Planning? ==> g in l.goals && l.goals[g].status.Planning?)
    && (forall g | g in m.goals && (m.goals[g].status.Executing? || m.goals[g].status.Evaluating?) ::
          g in l.goals && (l.goals[g].status.Executing? || l.goals[g].status.Evaluating?))
  }

  lemma SettlesByOne(l: Ledger, op: GoalOp)
    requires !op.ClaimPlanning? && !op.BeginExecution?
    ensures Settles(l, GoalNext(l, op))
  {
  }

  lemma SettlesInTwo(l: Ledger, a: GoalOp, b: GoalOp)
    requires !a.ClaimPlanning? && !a.BeginExecution? && !b.ClaimPlanning? && !b.BeginExecution?
    ensures Settles(l, GoalNext(GoalNext(l, a), b))
  {
    var m := GoalNext(l, a);
    SettlesByOne(l, a);
    SettlesByOne(m, b);
  }

  lemma SameLinks(l: Ledger, m: Ledger)
    requires l.links == m.links
    ensures forall g, n :: LinksOf(l, g, n) == LinksOf(m, g, n)
  {
  }

  lemma AgentStays(l: Ledger, m: Ledger, history: map<Plan, set<TaskId>>, a: Agent)
    requires AgentOk(l, history, a)
    requires m.links == l.links && l.goals.Keys <= m.goals.Keys
    requires forall g | g in l.goals :: l.goals[g].generation <= m.goals[g].generation
    ensures AgentOk(m, history, a)
  {
    SameLinks(l, m);
  }

  lemma SettlingKeepsInv(s: Sys, m: Ledger)
    requires Inv(s) && Settles(s.ledger, m)
    ensures Inv(s.(ledger := m))
  {
    SameLinks(s.ledger, m);
    forall plan | plan in s.history ensures PlanOk(m, s.board, plan, s.history[plan]) {
      assert PlanOk(s.ledger, s.board, plan, s.history[plan]);
    }
    forall g | g in m.goals ensures GoalOk(m, s.history, g) {
      if g in s.ledger.goals { assert GoalOk(s.ledger, s.history, g); }
    }
    forall p | p in s.agents ensures AgentOk(m, s.history, s.agents[p]) {
      AgentStays(s.ledger, m, s.history, s.agents[p]);
    }
  }

  lemma JudgingSettles(l: Ledger, b: Board, goal: GoalId)
    requires goal in l.goals
    ensures Settles(l, Judged(l, b, goal))
  {
    SettlesByOne(l, Block(goal));
    SettlesInTwo(l, BeginEvaluation(goal), CompleteGoal(goal));
    SettlesInTwo(l, BeginEvaluation(goal), RequestReplan(goal));
  }

  // ---- steps of one heartbeat's own memory ----

  lemma SwapAgent(s: Sys, pid: nat, a: Agent)
    requires Inv(s) && AgentOk(s.ledger, s.history, a)
    requires a.Claimed? ==> forall p | p in s.agents && s.agents[p].Claimed? ::
                              (s.agents[p].goal, s.agents[p].generation) != (a.goal, a.generation)
    ensures Inv(s.(agents := s.agents[pid := a]))
  {
    var agents := s.agents[pid := a];
    forall p, q | p in agents && q in agents ensures OneClaimant(agents, p, q) {
      if p != pid && q != pid { assert OneClaimant(s.agents, p, q); }
    }
  }

  lemma DropAgent(s: Sys, pid: nat)
    requires Inv(s)
    ensures Inv(s.(agents := Without(s.agents, pid)))
  {
    var agents := Without(s.agents, pid);
    forall p, q | p in agents && q in agents ensures OneClaimant(agents, p, q) {
      assert OneClaimant(s.agents, p, q);
    }
  }

  // ---- claiming ----

  lemma NothingLinkedAhead(s: Sys, goal: GoalId, n: nat)
    requires Inv(s) && goal in s.ledger.goals && s.ledger.goals[goal].generation < n
    ensures (goal, n) !in s.history && LinksOf(s.ledger, goal, n) == {}
  {
    forall plan | plan in s.history ensures plan.0 in s.ledger.goals && plan.1 <= s.ledger.goals[plan.0].generation {
      assert PlanOk(s.ledger, s.board, plan, s.history[plan]);
    }
  }

  lemma ClaimKeepsInv(s: Sys, pid: nat, goal: GoalId, machine: string)
    requires Inv(s) && Enabled(s.ledger, ClaimPlanning(goal, machine))
    ensures Inv(s.(ledger := GoalNext(s.ledger, ClaimPlanning(goal, machine)),
                   agents := s.agents[pid := Claimed(goal, s.ledger.goals[goal].generation + 1)]))
  {
    var m := GoalNext(s.ledger, ClaimPlanning(goal, machine));
    var n := s.ledger.goals[goal].generation + 1;
    NothingLinkedAhead(s, goal, n);
    SameLinks(s.ledger, m);
    var t := s.(ledger := m);
    forall plan | plan in s.history ensures PlanOk(m, s.board, plan, s.history[plan]) {
      assert PlanOk(s.ledger, s.board, plan, s.history[plan]);
    }
    forall g | g in m.goals ensures GoalOk(m, s.history, g) {
      assert GoalOk(s.ledger, s.history, g);
    }
    forall p | p in s.agents ensures AgentOk(m, s.history, s.agents[p]) {
      AgentStays(s.ledger, m, s.history, s.agents[p]);
    }
    assert Inv(t);
    forall p | p in s.agents && s.agents[p].Claimed?
      ensures (s.agents[p].goal, s.agents[p].generation) != (goal, n)
    {
      assert AgentOk(s.ledger, s.history, s.agents[p]);
    }
    SwapAgent(t, pid, Claimed(goal, n));
  }

  // ---- linking ----

  ghost predicate SameElsewhere(l: Ledger, m: Ledger, goal: GoalId, n: nat) {
    forall g: GoalId, k: nat | (g, k) != (goal, n) :: LinksOf(m, g, k) == LinksOf(l, g, k)
  }

  lemma LinksAfter(l: Ledger, m: Ledger, goal: GoalId, n: nat, ids: set<TaskId>)
    requires m.links == l.links + NewLinks(goal, n, ids)
    requires LinksOf(l, goal, n) == {}
    ensures LinksOf(m, goal, n) == ids
    ensures SameElsewhere(l, m, goal, n)
  {
    LinksAdded(l, goal, n, ids);
    SameLinks(l.(links := m.links), m);
    forall g: GoalId, k: nat | (g, k) != (goal, n) ensures LinksOf(m, g, k) == LinksOf(l, g, k) {
      forall t | t in LinksOf(m, g, k) ensures t in LinksOf(l, g, k) { assert (g, k, t) in m.links; }
      forall t | t in LinksOf(l, g, k) ensures t in LinksOf(m, g, k) { assert (g, k, t) in l.links; }
    }
  }

  lemma LinkedStays(l: Ledger, m: Ledger, history: map<Plan, set<TaskId>>, goal: GoalId, n: nat, plan: Plan)
    requires LinksOf(m, goal, n) != {} && SameElsewhere(l, m, goal, n)
    requires HasLinks(l, history, plan)
    ensures HasLinks(m, history, plan)
  {
  }

  lemma AgentAfterLink(l: Ledger, m: Ledger, history: map<Plan, set<TaskId>>, goal: GoalId, n: nat, a: Agent)
    requires LinksOf(l, goal, n) == {} && LinksOf(m, goal, n) != {} && SameElsewhere(l, m, goal, n)
    requires m.goals.Keys == l.goals.Keys && forall g | g in l.goals :: l.goals[g].generation == m.goals[g].generation
    requires AgentOk(l, history, a)
    ensures AgentOk(m, history, a)
  {
    if !a.Undoing? && HasLinks(l, history, (a.goal, a.generation)) {
      LinkedStays(l, m, history, goal, n, (a.goal, a.generation));
    }
  }

  lemma GoalAfterLink(l: Ledger, m: Ledger, history: map<Plan, set<TaskId>>, goal: GoalId, n: nat, g: GoalId)
    requires (goal, n) in history && LinksOf(m, goal, n) != {} && SameElsewhere(l, m, goal, n)
    requires goal in l.goals && l.goals[goal].generation == n
    requires m.goals == l.goals[goal := l.goals[goal].(status := Executing)]
    requires g in l.goals && GoalOk(l, history, g)
    ensures GoalOk(m, history, g)
  {
    if g != goal && HasLinks(l, history, (g, l.goals[g].generation)) {
      LinkedStays(l, m, history, goal, n, (g, l.goals[g].generation));
    }
  }

  /** Whoever moves a goal from planning to execution links what it holds of the batch,
      and nothing was linked before. */
  /** A planning goal's plan has nothing linked, so what begins execution is all it links. */
  lemma FirstLinks(s: Sys, goal: GoalId, n: nat, ids: set<TaskId>)
    requires Inv(s) && Enabled(s.ledger, BeginExecution(goal, ids, Some(n)))
    ensures var m := GoalNext(s.ledger, BeginExecution(goal, ids, Some(n)));
            LinksOf(s.ledger, goal, n) == {} && LinksOf(m, goal, n) == ids && SameElsewhere(s.ledger, m, goal, n)
  {
    assert GoalOk(s.ledger, s.history, goal);
    LinksAfter(s.ledger, GoalNext(s.ledger, BeginExecution(goal, ids, Some(n))), goal, n, ids);
  }

  lemma LinkKeepsInv(s: Sys, goal: GoalId, n: nat, ids: set<TaskId>)
    requires Inv(s) && (goal, n) in s.history && ids <= s.history[(goal, n)]
    requires Enabled(s.ledger, BeginExecution(goal, ids, Some(n)))
    ensures var m := GoalNext(s.ledger, BeginExecution(goal, ids, Some(n)));
            && Inv(s.(ledger := m)) && LinksOf(s.ledger, goal, n) == {} && LinksOf(m, goal, n) == ids
            && SameElsewhere(s.ledger, m, goal, n)
  {
    var m := GoalNext(s.ledger, BeginExecution(goal, ids, Some(n)));
    FirstLinks(s, goal, n, ids);
    forall plan | plan in s.history ensures PlanOk(m, s.board, plan, s.history[plan]) {
      assert PlanOk(s.ledger, s.board, plan, s.history[plan]);
    }
    forall g | g in m.goals ensures GoalOk(m, s.history, g) {
      GoalAfterLink(s.ledger, m, s.history, goal, n, g);
    }
    forall p | p in s.agents ensures AgentOk(m, s.history, s.agents[p]) {
      AgentAfterLink(s.ledger, m, s.history, goal, n, s.agents[p]);
    }
    LinksWithin(s, m, goal, n, ids);
  }

  lemma LinksWithin(s: Sys, m: Ledger, goal: GoalId, n: nat, ids: set<TaskId>)
    requires forall k | k in s.ledger.links :: (k.0, k.1) in s.history
    requires (goal, n) in s.history && m.links == s.ledger.links + NewLinks(goal, n, ids)
    ensures forall k | k in m.links :: (k.0, k.1) in s.history
  {
  }

  // ---- enqueueing ----

  /** The keys of a claimed plan are new, so its batch is never refused. */
  lemma EnqueueGoesIn(s: Sys, pid: nat, count: nat, now: int)
    requires Inv(s) && pid in s.agents && s.agents[pid].Claimed?
    ensures var a := s.agents[pid];
            var r := InsertAll(s.board, PlanEntries(a.goal, a.generation, 1, count), now);
            r.Some? && Grown(s.board, r.value, a.goal, a.generation, count)
  {
    var a := s.agents[pid];
    assert AgentOk(s.ledger, s.history, a);
    forall id, i: nat | id in s.board.tasks && 1 <= i
      ensures s.board.tasks[id].key != GoalKey(a.goal, a.generation, i)
    {
      assert RowOk(s.board, s.history, id);
    }
    assert forall id | id in s.board.tasks :: RowOk(s.board, s.history, id);
    BatchGoesIn(s.board, a.goal, a.generation, 1, count, now);
  }

  lemma PlanAfterEnqueue(l: Ledger, b: Board, c: Board, goal: GoalId, n: nat, count: nat, plan: Plan, ids: set<TaskId>)
    requires PlanOk(l, b, plan, ids) && Grown(b, c, goal, n, count)
    ensures PlanOk(l, c, plan, ids)
  {
  }

  lemma NewPlanOk(l: Ledger, b: Board, c: Board, goal: GoalId, n: nat, count: nat)
    requires Grown(b, c, goal, n, count) && count > 0
    requires forall id | id in b.tasks :: id < b.nextId
    requires goal in l.goals && n <= l.goals[goal].generation && LinksOf(l, goal, n) == {}
    ensures PlanOk(l, c, (goal, n), c.tasks.Keys - b.tasks.Keys)
  {
    var ids := c.tasks.Keys - b.tasks.Keys;
    assert b.nextId in ids;
  }

  lemma RowAfterEnqueue(b: Board, c: Board, history: map<Plan, set<TaskId>>, goal: GoalId, n: nat, count: nat, id: TaskId)
    requires Grown(b, c, goal, n, count) && (goal, n) !in history
    requires forall j | j in b.tasks :: RowOk(b, history, j)
    requires id in c.tasks
    ensures RowOk(c, history[(goal, n) := c.tasks.Keys - b.tasks.Keys], id)
  {
    if id in b.tasks {
      assert RowOk(b, history, id);
    } else {
      assert PlanRow(c.tasks[id], goal, n);
    }
  }

  lemma AgentAfterEnqueue(l: Ledger, history: map<Plan, set<TaskId>>, plan: Plan, ids: set<TaskId>, a: Agent)
    requires AgentOk(l, history, a) && plan !in history
    requires a.Claimed? ==> (a.goal, a.generation) != plan
    ensures AgentOk(l, history[plan := ids], a)
  {
  }

  lemma GoalAfterEnqueue(l: Ledger, history: map<Plan, set<TaskId>>, plan: Plan, ids: set<TaskId>, goal: GoalId)
    requires goal in l.goals && GoalOk(l, history, goal) && plan !in history
    ensures GoalOk(l, history[plan := ids], goal)
  {
  }

  lemma NothingLinkedYet(s: Sys, plan: Plan)
    requires Inv(s) && plan !in s.history
    ensures LinksOf(s.ledger, plan.0, plan.1) == {}
  {
    assert forall k | k in s.ledger.links :: (k.0, k.1) != plan;
  }

  /** Every part of the invariant that does not mention the heartbeats. */
  lemma TablesAfterEnqueue(s: Sys, goal: GoalId, n: nat, c: Board, count: nat)
    requires Inv(s) && count > 0 && Grown(s.board, c, goal, n, count) && (goal, n) !in s.history
    requires goal in s.ledger.goals && n <= s.ledger.goals[goal].generation
    ensures var history := s.history[(goal, n) := c.tasks.Keys - s.board.tasks.Keys];
            && (forall plan | plan in history :: PlanOk(s.ledger, c, plan, history[plan]))
            && (forall id | id in c.tasks :: RowOk(c, history, id))
            && (forall g | g in s.ledger.goals :: GoalOk(s.ledger, history, g))
  {
    var ids := c.tasks.Keys - s.board.tasks.Keys;
    var history := s.history[(goal, n) := ids];
    assert forall id | id in s.board.tasks :: RowOk(s.board, s.history, id);
    NothingLinkedYet(s, (goal, n));
    NewPlanOk(s.ledger, s.board, c, goal, n, count);
    forall plan | plan in s.history ensures PlanOk(s.ledger, c, plan, s.history[plan]) {
      PlanAfterEnqueue(s.ledger, s.board, c, goal, n, count, plan, s.history[plan]);
    }
    forall id | id in c.tasks ensures RowOk(c, history, id) {
      RowAfterEnqueue(s.board, c, s.history, goal, n, count, id);
    }
    forall g | g in s.ledger.goals ensures GoalOk(s.ledger, history, g) {
      GoalAfterEnqueue(s.ledger, s.history, (goal, n), ids, g);
    }
  }

  lemma EnqueueKeepsInv(s: Sys, pid: nat, count: nat, now: int)
    requires Inv(s) && pid in s.agents && s.agents[pid].Claimed? && count > 0
    ensures Inv(AfterEnqueue(s, pid, count, now))
  {
    var a := s.agents[pid];
    EnqueueGoesIn(s, pid, count, now);
    var c := InsertAll(s.board, PlanEntries(a.goal, a.generation, 1, count), now).value;
    var ids := c.tasks.Keys - s.board.tasks.Keys;
    var history := s.history[(a.goal, a.generation) := ids];
    var agents := s.agents[pid := Enqueued(a.goal, a.generation, ids)];
    assert AgentOk(s.ledger, s.history, a);
    TablesAfterEnqueue(s, a.goal, a.generation, c, count);
    forall p | p in agents ensures AgentOk(s.ledger, history, agents[p]) {
      if p != pid {
        assert OneClaimant(s.agents, p, pid);
        AgentAfterEnqueue(s.ledger, s.history, (a.goal, a.generation), ids, s.agents[p]);
      }
    }
    forall p, q | p in agents && q in agents ensures OneClaimant(agents, p, q) {
      if p != pid && q != pid { assert OneClaimant(s.agents, p, q); }
    }
  }

  // ---- activation ----

  lemma PlanAfterActivation(l: Ledger, b: Board, linked: Plan, whole: set<TaskId>, ids: set<TaskId>, now: int, plan: Plan, batch: set<TaskId>)
    requires PlanOk(l, b, linked, whole) && PlanOk(l, b, plan, batch) && (plan == linked ==> batch == whole)
    requires ids <= whole && LinksOf(l, linked.0, linked.1) != {}
    ensures PlanOk(l, Next(b, Activate(ids, linked.0, now)), plan, batch)
  {
  }

  lemma RowAfterActivation(b: Board, history: map<Plan, set<TaskId>>, linked: Plan, ids: set<TaskId>, now: int, id: TaskId)
    requires id in b.tasks && RowOk(b, history, id)
    requires id in ids ==> BatchRow(b.tasks[id], linked)
    ensures var c := Next(b, Activate(ids, linked.0, now)); id in c.tasks && RowOk(c, history, id)
  {
  }

  lemma ActivationKeepsInv(s: Sys, linked: Plan, ids: set<TaskId>, now: int)
    requires Inv(s) && HasLinks(s.ledger, s.history, linked) && ids <= s.history[linked]
    ensures Inv(s.(board := Next(s.board, Activate(ids, linked.0, now))))
  {
    var c := Next(s.board, Activate(ids, linked.0, now));
    assert PlanOk(s.ledger, s.board, linked, s.history[linked]);
    forall plan | plan in s.history ensures PlanOk(s.ledger, c, plan, s.history[plan]) {
      assert PlanOk(s.ledger, s.board, plan, s.history[plan]);
      PlanAfterActivation(s.ledger, s.board, linked, s.history[linked], ids, now, plan, s.history[plan]);
    }
    forall id | id in c.tasks ensures RowOk(c, s.history, id) {
      RowAfterActivation(s.board, s.history, linked, ids, now, id);
    }
  }

  // ---- searching ----

  lemma SearchIsWithin(s: Sys, goal: GoalId, n: nat)
    requires Inv(s) && SearchIds(s.board, goal, n) != {}
    ensures (goal, n) in s.history && SearchIds(s.board, goal, n) <= s.history[(goal, n)]
  {
    forall id | id in SearchIds(s.board, goal, n) ensures (goal, n) in s.history && id in s.history[(goal, n)] {
      assert RowOk(s.board, s.history, id);
    }
  }

  /** Exactly when the search limit shows every staged row of an unlinked plan does
      reconciliation find, and so link, the whole batch. */
  lemma SearchFindsAllIff(s: Sys, goal: GoalId, n: nat)
    requires Inv(s) && (goal, n) in s.history && LinksOf(s.ledger, goal, n) == {}
    ensures SearchIds(s.board, goal, n) == s.history[(goal, n)] <==> SearchFits(s.board, goal, n)
  {
    var batch := s.history[(goal, n)];
    assert PlanOk(s.ledger, s.board, (goal, n), batch);
    if SearchIds(s.board, goal, n) != {} { SearchIsWithin(s, goal, n); }
    forall id | id in StagedFor(s.board, goal) && OfGeneration(s.board.tasks[id], n) ensures id in batch {
      assert RowOk(s.board, s.history, id);
    }
    assert forall id | id in batch :: id in StagedFor(s.board, goal) && OfGeneration(s.board.tasks[id], n);
  }

  lemma SearchKeepsInv(s: Sys, pid: nat)
    requires Inv(s) && pid in s.agents && s.agents[pid].Saw?
    ensures Inv(SysNext(s, Search(pid)))
  {
    var a := s.agents[pid];
    assert AgentOk(s.ledger, s.history, a);
    if SearchIds(s.board, a.goal, a.generation) != {} { SearchIsWithin(s, a.goal, a.generation); }
    SwapAgent(s, pid, Found(a.goal, a.generation, a.running, SearchIds(s.board, a.goal, a.generation)));
  }

  // ---- every step ----

  lemma LinkStep(s: Sys, pid: nat)
    requires Inv(s) && pid in s.agents && s.agents[pid].Enqueued?
    ensures Inv(SysNext(s, LinkPlan(pid)))
  {
    var a := s.agents[pid];
    var op := BeginExecution(a.goal, a.ids, Some(a.generation));
    assert AgentOk(s.ledger, s.history, a);
    if Enabled(s.ledger, op) {
      LinkKeepsInv(s, a.goal, a.generation, a.ids);
      SwapAgent(s.(ledger := GoalNext(s.ledger, op)), pid, Linked(a.goal, a.generation, a.ids, true));
    } else {
      SwapAgent(s, pid, Undoing(a.ids));
    }
  }

  lemma ActivateStep(s: Sys, pid: nat, now: int)
    requires Inv(s) && pid in s.agents && s.agents[pid].Linked?
    ensures Inv(SysNext(s, ActivatePlan(pid, now)))
  {
    var a := s.agents[pid];
    assert AgentOk(s.ledger, s.history, a);
    assert PlanOk(s.ledger, s.board, (a.goal, a.generation), s.history[(a.goal, a.generation)]);
    ActivationKeepsInv(s, (a.goal, a.generation), a.ids, now);
    var t := s.(board := Next(s.board, Activate(a.ids, a.goal, now)));
    SwapAgent(t, pid, Undoing(a.ids));
    DropAgent(t, pid);
  }

  lemma SettleStep(s: Sys, pid: nat, now: int)
    requires Inv(s) && pid in s.agents && s.agents[pid].Found?
    ensures Inv(Settled(s, pid, now))
  {
    var a := s.agents[pid];
    assert AgentOk(s.ledger, s.history, a);
    if a.running {
      if a.ids == {} {
        DropAgent(s, pid);
      } else {
        ActivationKeepsInv(s, (a.goal, a.generation), a.ids, now);
        DropAgent(s.(board := Next(s.board, Activate(a.ids, a.goal, now))), pid);
      }
    } else if a.ids == {} {
      SettlesByOne(s.ledger, Block(a.goal));
      SettlingKeepsInv(s, GoalNext(s.ledger, Block(a.goal)));
      DropAgent(s.(ledger := GoalNext(s.ledger, Block(a.goal))), pid);
    } else {
      SettleByLinking(s, pid, a);
    }
  }

  lemma SettleByLinking(s: Sys, pid: nat, a: Agent)
    requires Inv(s) && pid in s.agents && s.agents[pid] == a && a.Found? && !a.running && a.ids != {}
    ensures Inv(Settled(s, pid, 0))
  {
    var op := BeginExecution(a.goal, a.ids, Some(a.generation));
    assert AgentOk(s.ledger, s.history, a);
    DropAgent(s, pid);
    if Enabled(s.ledger, op) {
      LinkKeepsInv(s, a.goal, a.generation, a.ids);
      SwapAgent(s.(ledger := GoalNext(s.ledger, op)), pid, Linked(a.goal, a.generation, a.ids, false));
    }
  }

  lemma BoardStep(s: Sys, op: Op)
    requires Inv(s) && Foreign(s.board, op)
    ensures Inv(s.(board := Next(s.board, op)))
  {
    assert forall id | id in s.board.tasks :: RowOk(s.board, s.history, id);
    ForeignIsQuiet(s.board, op);
    QuietKeepsInv(s, Next(s.board, op));
  }

  lemma SeeStep(s: Sys, pid: nat, goal: GoalId, machine: string)
    requires Inv(s)
    ensures Inv(SysNext(s, See(pid, goal, machine)))
  {
    if SysNext(s, See(pid, goal, machine)) != s {
      var g := s.ledger.goals[goal];
      assert GoalOk(s.ledger, s.history, goal);
      SwapAgent(s, pid, Saw(goal, g.generation, g.status.Executing?));
    }
  }

  lemma UndoStep(s: Sys, pid: nat, id: TaskId, now: int)
    requires Inv(s) && pid in s.agents && s.agents[pid].Undoing? && id in s.agents[pid].ids
    ensures Inv(SysNext(s, UndoOne(pid, id, now)))
  {
    BoardStep(s, Op.Cancel(id, now));
    SwapAgent(s.(board := Next(s.board, Op.Cancel(id, now))), pid, Undoing(s.agents[pid].ids - {id}));
  }

  lemma TransitionStep(s: Sys, act: GoalOp)
    requires Inv(s) && Claimless(act)
    ensures Inv(s.(ledger := GoalNext(s.ledger, act)))
  {
    SettlesByOne(s.ledger, act);
    SettlingKeepsInv(s, GoalNext(s.ledger, act));
  }

  lemma EvaluateStep(s: Sys, goal: GoalId)
    requires Inv(s) && goal in s.ledger.goals
    ensures Inv(s.(ledger := Judged(s.ledger, s.board, goal)))
  {
    JudgingSettles(s.ledger, s.board, goal);
    SettlingKeepsInv(s, Judged(s.ledger, s.board, goal));
  }

  /** Each commit and each crash keeps the invariant. */
  lemma StepKeepsInv(s: Sys, step: Step)
    requires Inv(s)
    ensures Inv(SysNext(s, step))
  {
    if SysNext(s, step) != s {
      match step
      case ClaimPlan(pid, goal, machine) => ClaimKeepsInv(s, pid, goal, machine);
      case EnqueuePlan(pid, count, now) => EnqueueKeepsInv(s, pid, count, now);
      case LinkPlan(pid) => LinkStep(s, pid);
      case ActivatePlan(pid, now) => ActivateStep(s, pid, now);
      case UndoOne(pid, id, now) => UndoStep(s, pid, id, now);
      case See(pid, goal, machine) => SeeStep(s, pid, goal, machine);
      case Search(pid) => SearchKeepsInv(s, pid);
      case Settle(pid, now) => SettleStep(s, pid, now);
      case Crash(pid) => DropAgent(s, pid);
      case Others(op) => BoardStep(s, op);
      case Transition(act) => TransitionStep(s, act);
      case Evaluate(goal, machine) => EvaluateStep(s, goal);
    }
  }

  lemma {:induction false} RunKeepsInv(s: Sys, steps: seq<Step>)
    requires Inv(s)
    ensures Inv(SysRun(s, steps))
    decreases |steps|
  {
    if steps != [] {
      StepKeepsInv(s, steps[0]);
      RunKeepsInv(SysNext(s, steps[0]), steps[1..]);
    }
  }

  /** On every run, at any search limit, a planner that holds a claim gets its whole batch
      in: none of its idempotency keys is taken. */
  lemma KeysNeverCollide(steps: seq<Step>, pid: nat, count: nat, now: int)
    requires pid in SysRun(START, steps).agents && SysRun(START, steps).agents[pid].Claimed?
    ensures var s := SysRun(START, steps);
            var a := s.agents[pid];
            var r := InsertAll(s.board, PlanEntries(a.goal, a.generation, 1, count), now);
            r.Some? && Grown(s.board, r.value, a.goal, a.generation, count)
  {
    RunKeepsInv(START, steps);
    EnqueueGoesIn(SysRun(START, steps), pid, count, now);
  }
}
