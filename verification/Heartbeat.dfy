/** What one heartbeat judges of the goals it lists, run without interruption: whether this
    machine has work in hand, and how its executing goals stand. */
module Heartbeat {
  import Ordering
  import opened Tasks
  import opened Goals
  import opened GoalPlans
  import GL = GoalLedger
  import TB = TaskBoard

  const LIST_LIMIT := 50

  // ---- work in hand ----

  const LIVE: set<GoalStatus> := {Planning, Executing, Evaluating}

  lemma LiveMeans(s: GoalStatus)
    ensures s in LIVE <==> s == Planning || s == Executing || s == Evaluating
  {
  }

  ghost predicate Owns(goals: map<GoalId, Goal>, machine: string, g: GoalId) {
    g in goals && goals[g].status in LIVE && goals[g].owner == machine
  }

  /** Fewer live goals, of all machines together, are older than this one than a page holds. */
  ghost predicate Shown(goals: map<GoalId, Goal>, created: map<GoalId, int>, g: GoalId)
    requires goals.Keys == created.Keys && g in goals
  {
    |Ordering.Ahead(GL.InStatus(goals, created, LIVE), Ordering.Key(created[g], g))| < LIST_LIMIT
  }

  lemma ShownIff(goals: map<GoalId, Goal>, created: map<GoalId, int>, g: GoalId)
    requires goals.Keys == created.Keys && g in goals && goals[g].status in LIVE
    ensures Shown(goals, created, g) <==> g in GL.Ids(GL.Listed(GL.InStatus(goals, created, LIVE), LIST_LIMIT))
  {
    var keys := GL.InStatus(goals, created, LIVE);
    var k := Ordering.Key(created[g], g);
    var listed := GL.Listed(keys, LIST_LIMIT);
    GL.ListedIff(keys, k, LIST_LIMIT);
    if k in listed {
      var i :| 0 <= i < |listed| && listed[i] == k;
      assert GL.Ids(listed)[i] == g;
    }
    if g in GL.Ids(listed) {
      var i :| 0 <= i < |listed| && GL.Ids(listed)[i] == g;
      assert listed[i] in Ordering.Sorted(keys);
      assert listed[i] == k;
    }
  }

  /** The guard before a second goal is planned looks at the oldest live goals of all
      machines, so it sees this machine's work exactly when some of it is among them. */
  method HasExecutingGoal(ledger: GL.GoalLedger) returns (busy: bool)
    requires ledger.Valid()
    ensures busy <==> exists g | Owns(ledger.goals, ledger.machine, g) :: Shown(ledger.goals, ledger.created, g)
  {
    var ids := ledger.List(LIVE, LIST_LIMIT);
    GL.ListedOnce(ledger.goals, ledger.created, LIVE, LIST_LIMIT);
    forall g | g in ledger.goals && ledger.goals[g].status in LIVE
      ensures Shown(ledger.goals, ledger.created, g) <==> g in ids
    {
      ShownIff(ledger.goals, ledger.created, g);
    }
    busy := exists i | 0 <= i < |ids| :: ledger.goals[ids[i]].owner == ledger.machine;
    if busy {
      var i :| 0 <= i < |ids| && ledger.goals[ids[i]].owner == ledger.machine;
      assert ids[i] in ids && Owns(ledger.goals, ledger.machine, ids[i]);
    }
  }

  // ---- evaluation ----

  function Verdict(l: Ledger, b: Board, goal: GoalId): Goal
    requires goal in l.goals
  {
    var after := Judged(l, b, goal);
    if goal in after.goals then after.goals[goal] else l.goals[goal]
  }

  /** The ledger with verdicts recorded for the goals in `seen`. */
  function Evaluated(l: Ledger, b: Board, seen: set<GoalId>): map<GoalId, Goal> {
    map g | g in l.goals :: if g in seen then Verdict(l, b, g) else l.goals[g]
  }

  /** Goals in `seen` whose verdict has this status. */
  function Ended(l: Ledger, b: Board, seen: set<GoalId>, status: GoalStatus): set<GoalId> {
    set g | g in seen && g in l.goals && Verdict(l, b, g).status == status
  }

  lemma EndedAdds(l: Ledger, b: Board, seen: set<GoalId>, goal: GoalId, status: GoalStatus)
    requires goal in l.goals && goal !in seen
    ensures Ended(l, b, seen + {goal}, status) == Ended(l, b, seen, status) + if Verdict(l, b, goal).status == status then {goal} else {}
    ensures goal !in Ended(l, b, seen, status)
  {
  }

  lemma EndedOne(l: Ledger, b: Board, seen: set<GoalId>, goal: GoalId, status: GoalStatus)
    requires goal in l.goals && goal !in seen
    ensures |Ended(l, b, seen + {goal}, status)|
         == |Ended(l, b, seen, status)| + if Verdict(l, b, goal).status == status then 1 else 0
  {
    EndedAdds(l, b, seen, goal, status);
  }

  lemma JudgedAlone(l: Ledger, b: Board, goal: GoalId)
    requires goal in l.goals
    ensures Judged(l, b, goal) == Ledger(l.goals[goal := Verdict(l, b, goal)], l.links)
  {
  }

  lemma SameVerdict(l: Ledger, m: Ledger, b: Board, goal: GoalId)
    requires goal in l.goals && goal in m.goals && l.goals[goal] == m.goals[goal] && l.links == m.links
    ensures Verdict(m, b, goal) == Verdict(l, b, goal)
  {
    assert LinksOf(l, goal, l.goals[goal].generation) == LinksOf(m, goal, l.goals[goal].generation);
  }

  ghost predicate AllKnown(l: Ledger, b: Board, goal: GoalId)
    requires goal in l.goals
  {
    var ids := LinksOf(l, goal, l.goals[goal].generation);
    ids != {} && ids <= b.tasks.Keys
  }

  ghost predicate SomeTask(l: Ledger, b: Board, goal: GoalId, statuses: set<Status>)
    requires goal in l.goals
  {
    exists id | id in LinksOf(l, goal, l.goals[goal].generation) && id in b.tasks :: b.tasks[id].status in statuses
  }

  /** When each verdict falls, over the recorded states of the current plan's tasks. */
  lemma VerdictMeans(l: Ledger, b: Board, goal: GoalId)
    requires goal in l.goals && l.goals[goal].status.Executing?
    ensures var g := l.goals[goal];
            var live := SomeTask(l, b, goal, {Pending, Running, AwaitingApproval});
            var cancelled := SomeTask(l, b, goal, {Cancelled});
            var failed := SomeTask(l, b, goal, {Failed, Dead});
            match Verdict(l, b, goal).status
            case Completed => AllKnown(l, b, goal) && !live && !cancelled && !failed
            case Executing => AllKnown(l, b, goal) && live
            case Replanning => AllKnown(l, b, goal) && !live && !cancelled && failed && g.replans < g.maxReplans
            case Blocked =>
              !AllKnown(l, b, goal) || (!live && (cancelled || (failed && g.replans >= g.maxReplans)))
            case _ => false
  {
  }

  /** One executing goal, judged from its tasks' recorded states. */
  method EvaluateOne(ledger: GL.GoalLedger, board: TB.TaskBoard, goal: GoalId) returns (became: GoalStatus)
    requires goal in ledger.goals && ledger.goals[goal].status.Executing?
    modifies ledger`goals
    ensures ledger.Current() == Judged(old(ledger.Current()), board.Current(), goal)
    ensures became == Verdict(old(ledger.Current()), board.Current(), goal).status
  {
    became := Executing;
    var ids := ledger.TaskReferences(goal);
    if ids == {} || !(ids <= board.tasks.Keys) {
      var _ := ledger.Block(goal);
      return Blocked;
    }
    if forall id | id in ids :: board.tasks[id].status.Done? {
      var began := ledger.BeginEvaluation(goal);
      var completed := ledger.Complete(goal);
      return Completed;
    }
    if exists id | id in ids :: IsActive(board.tasks[id]) { return; }
    if exists id | id in ids :: board.tasks[id].status.Cancelled? {
      var _ := ledger.Block(goal);
      return Blocked;
    }
    var began := ledger.BeginEvaluation(goal);
    var moved := ledger.RequestReplan(goal);
    return moved.value;
  }

  datatype Tally = Tally(completed: nat, replanned: nat, blocked: nat)

  function Counted(t: Tally, became: GoalStatus): Tally {
    match became
    case Completed => t.(completed := t.completed + 1)
    case Replanning => t.(replanned := t.replanned + 1)
    case Blocked => t.(blocked := t.blocked + 1)
    case _ => t
  }

  predicate Tallies(t: Tally, l: Ledger, b: Board, seen: set<GoalId>) {
    && t.completed == |Ended(l, b, seen, Completed)|
    && t.replanned == |Ended(l, b, seen, Replanning)|
    && t.blocked == |Ended(l, b, seen, Blocked)|
  }

  lemma TalliesOne(t: Tally, l: Ledger, b: Board, seen: set<GoalId>, goal: GoalId)
    requires Tallies(t, l, b, seen) && goal in l.goals && goal !in seen
    ensures Tallies(Counted(t, Verdict(l, b, goal).status), l, b, seen + {goal})
  {
    EndedOne(l, b, seen, goal, Completed);
    EndedOne(l, b, seen, goal, Replanning);
    EndedOne(l, b, seen, goal, Blocked);
  }

  function Owned(goals: map<GoalId, Goal>, ids: seq<GoalId>, machine: string): set<GoalId> {
    set id | id in ids && id in goals && goals[id].owner == machine
  }

  lemma OwnedOne(goals: map<GoalId, Goal>, ids: seq<GoalId>, i: nat, machine: string)
    requires i < |ids| && ids[i] in goals
    ensures Owned(goals, ids[..i + 1], machine)
         == Owned(goals, ids[..i], machine) + if goals[ids[i]].owner == machine then {ids[i]} else {}
  {
    assert ids[..i + 1] == ids[..i] + [ids[i]];
  }

  lemma EvaluatedOne(l: Ledger, b: Board, seen: set<GoalId>, goal: GoalId)
    requires goal in l.goals && goal !in seen
    ensures Evaluated(l, b, seen + {goal}) == Evaluated(l, b, seen)[goal := Verdict(l, b, goal)]
    ensures Evaluated(l, b, seen)[goal] == l.goals[goal]
  {
  }

  ghost predicate Progress(m: Ledger, l: Ledger, b: Board, seen: set<GoalId>, t: Tally) {
    m == Ledger(Evaluated(l, b, seen), l.links) && Tallies(t, l, b, seen)
  }

  lemma NoProgressYet(l: Ledger, b: Board)
    ensures Progress(l, l, b, {}, Tally(0, 0, 0))
  {
  }

  /** One listed goal: skipped when another machine owns it. */
  method Visit(ledger: GL.GoalLedger, board: TB.TaskBoard, goal: GoalId, t: Tally, ghost l: Ledger, ghost seen: set<GoalId>)
    returns (tally: Tally, ghost more: set<GoalId>)
    requires goal in l.goals && l.goals[goal].status.Executing? && goal !in seen
    requires Progress(ledger.Current(), l, board.Current(), seen, t)
    modifies ledger`goals
    ensures more == seen + if l.goals[goal].owner == ledger.machine then {goal} else {}
    ensures Progress(ledger.Current(), l, board.Current(), more, tally)
  {
    EvaluatedOne(l, board.Current(), seen, goal);
    if ledger.goals[goal].owner != ledger.machine { return t, seen; }
    SameVerdict(l, ledger.Current(), board.Current(), goal);
    JudgedAlone(ledger.Current(), board.Current(), goal);
    TalliesOne(t, l, board.Current(), seen, goal);
    var became := EvaluateOne(ledger, board, goal);
    return Counted(t, became), seen + {goal};
  }

  method VisitAll(ledger: GL.GoalLedger, board: TB.TaskBoard, ids: seq<GoalId>, ghost l: Ledger)
    returns (tally: Tally, ghost seen: set<GoalId>)
    requires ledger.Current() == l
    requires forall i | 0 <= i < |ids| :: ids[i] in l.goals && l.goals[ids[i]].status.Executing?
    requires forall i, j | 0 <= i < j < |ids| :: ids[i] != ids[j]
    modifies ledger`goals
    ensures seen == Owned(l.goals, ids, ledger.machine)
    ensures Progress(ledger.Current(), l, board.Current(), seen, tally)
  {
    NoProgressYet(l, board.Current());
    tally, seen := Tally(0, 0, 0), {};
    var i := 0;
    while i < |ids|
      invariant 0 <= i <= |ids| && seen == Owned(l.goals, ids[..i], ledger.machine)
      invariant Progress(ledger.Current(), l, board.Current(), seen, tally)
    {
      OwnedOne(l.goals, ids, i, ledger.machine);
      assert ids[i] !in ids[..i];
      tally, seen := Visit(ledger, board, ids[i], tally, l, seen);
      i := i + 1;
    }
    assert ids[..i] == ids;
  }

  /** The 50 oldest executing goals are judged, each once, and only this machine's; the
      tally counts how they ended. */
  method EvaluateGoals(ledger: GL.GoalLedger, board: TB.TaskBoard) returns (tally: Tally, ghost seen: set<GoalId>)
    requires ledger.Valid()
    modifies ledger`goals
    ensures ledger.Valid() && ledger.links == old(ledger.links)
    ensures var listed := GL.Ids(GL.Listed(GL.InStatus(old(ledger.goals), ledger.created, {Executing}), LIST_LIMIT));
            seen == Owned(old(ledger.goals), listed, ledger.machine)
    ensures ledger.goals == Evaluated(old(ledger.Current()), board.Current(), seen)
    ensures Tallies(tally, old(ledger.Current()), board.Current(), seen)
  {
    ghost var l := ledger.Current();
    var ids := ledger.List({Executing}, LIST_LIMIT);
    GL.ListedOnce(ledger.goals, ledger.created, {Executing}, LIST_LIMIT);
    tally, seen := VisitAll(ledger, board, ids, l);
  }
}
