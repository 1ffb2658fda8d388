/** What a planner does when it loses its goal after staging its rows: it cancels them. */
module GoalUndo {
  import opened Wrappers
  import opened Tasks
  import opened Goals
  import opened GoalPlans
  import opened GoalSafety

  /** One cancellation per row, in the order given. */
  function UndoAll(pid: nat, order: seq<TaskId>, now: int): seq<Step> {
    if order == [] then [] else [UndoOne(pid, order[0], now)] + UndoAll(pid, order[1..], now)
  }

  function Listed(order: seq<TaskId>): set<TaskId> {
    set id | id in order
  }

  /** The rows of `ids` that waited to be claimed are cancelled; nothing else changed. */
  ghost predicate OnlyCancelled(b: Board, c: Board, ids: set<TaskId>, now: int) {
    && c.tasks.Keys == b.tasks.Keys && c.nextId == b.nextId && c.pickups == b.pickups
    && forall id | id in b.tasks ::
         c.tasks[id] == if id in ids && b.tasks[id].status == Pending
                        then b.tasks[id].(status := Cancelled, updatedTs := now) else b.tasks[id]
  }

  lemma OneCancelled(b: Board, id: TaskId, now: int)
    ensures OnlyCancelled(b, Next(b, Cancel(id, now)), {id}, now)
  {
  }

  lemma CancelledMore(b: Board, c: Board, d: Board, some: set<TaskId>, more: set<TaskId>, now: int)
    requires OnlyCancelled(b, c, some, now) && OnlyCancelled(c, d, more, now)
    ensures OnlyCancelled(b, d, some + more, now)
  {
  }

  lemma UndoesOne(s: Sys, pid: nat, id: TaskId, now: int)
    requires pid in s.agents && s.agents[pid].Undoing? && id in s.agents[pid].ids
    ensures var t := SysNext(s, UndoOne(pid, id, now));
            && t.board == Next(s.board, Cancel(id, now)) && t.ledger == s.ledger && t.history == s.history
            && t.agents == s.agents[pid := Undoing(s.agents[pid].ids - {id})]
  {
  }

  lemma {:induction false} UndoesAll(s: Sys, pid: nat, order: seq<TaskId>, now: int)
    requires pid in s.agents && s.agents[pid].Undoing? && s.agents[pid].ids == Listed(order)
    requires forall i, j | 0 <= i < j < |order| :: order[i] != order[j]
    ensures var t := SysRun(s, UndoAll(pid, order, now));
            && OnlyCancelled(s.board, t.board, Listed(order), now) && t.ledger == s.ledger
            && pid in t.agents && t.agents[pid] == Undoing({})
    decreases |order|
  {
    if order != [] {
      var id, rest := order[0], order[1..];
      var next := SysNext(s, UndoOne(pid, id, now));
      UndoesOne(s, pid, id, now);
      assert Listed(order) - {id} == Listed(rest) && Listed(order) == {id} + Listed(rest);
      OneCancelled(s.board, id, now);
      UndoesAll(next, pid, rest, now);
      CancelledMore(s.board, next.board, SysRun(next, UndoAll(pid, rest, now)).board, {id}, Listed(rest), now);
      assert UndoAll(pid, order, now)[1..] == UndoAll(pid, rest, now);
    }
  }

  lemma RefusedLink(s: Sys, pid: nat)
    requires pid in s.agents && s.agents[pid].Enqueued?
    requires var a := s.agents[pid]; !Enabled(s.ledger, BeginExecution(a.goal, a.ids, Some(a.generation)))
    ensures SysNext(s, LinkPlan(pid)) == s.(agents := s.agents[pid := Undoing(s.agents[pid].ids)])
  {
  }

  /** A planner whose goal was taken away or replanned before it could link its rows cancels
      every one of them that is still waiting, and leaves the ledger and every other row alone. */
  lemma LostGoalIsUndone(s: Sys, pid: nat, order: seq<TaskId>, now: int)
    requires Inv(s) && pid in s.agents && s.agents[pid].Enqueued?
    requires var a := s.agents[pid]; !Enabled(s.ledger, BeginExecution(a.goal, a.ids, Some(a.generation)))
    requires Listed(order) == s.agents[pid].ids && forall i, j | 0 <= i < j < |order| :: order[i] != order[j]
    ensures var a := s.agents[pid];
            var t := SysRun(s, [LinkPlan(pid)] + UndoAll(pid, order, now));
            && (a.goal, a.generation) in s.history && a.ids == s.history[(a.goal, a.generation)]
            && t.ledger == s.ledger && OnlyCancelled(s.board, t.board, a.ids, now)
            && (forall id | id in a.ids :: !Waiting(t.board, id))
            && pid in t.agents && t.agents[pid] == Undoing({})
  {
    assert AgentOk(s.ledger, s.history, s.agents[pid]);
    RefusedLink(s, pid);
    UndoesAll(SysNext(s, LinkPlan(pid)), pid, order, now);
    assert ([LinkPlan(pid)] + UndoAll(pid, order, now))[1..] == UndoAll(pid, order, now);
  }

  lemma RefusedActivation(s: Sys, pid: nat, now: int)
    requires pid in s.agents && s.agents[pid].Linked? && s.agents[pid].planner && !ActivatesAll(s.board, s.agents[pid].ids)
    ensures var a, t := s.agents[pid], SysNext(s, ActivatePlan(pid, now));
            && t == s.(board := t.board, agents := s.agents[pid := Undoing(a.ids)])
            && t.board == Next(s.board, Activate(a.ids, a.goal, now))
  {
  }

  lemma ActivationKeepsStatus(b: Board, ids: set<TaskId>, goal: GoalId, now: int)
    ensures var c := Next(b, Activate(ids, goal, now));
            && c.tasks.Keys == b.tasks.Keys
            && forall id | id in b.tasks ::
                 c.tasks[id].status == b.tasks[id].status && (id !in ids || !Waiting(b, id) ==> c.tasks[id] == b.tasks[id])
  {
  }

  /** And one that linked them, but found some gone or already taken when exposing them, cancels
      all that could still be claimed; no other row changes, and the ledger keeps the links. */
  lemma LostBatchIsUndone(s: Sys, pid: nat, order: seq<TaskId>, now: int)
    requires pid in s.agents && s.agents[pid].Linked? && s.agents[pid].planner && !ActivatesAll(s.board, s.agents[pid].ids)
    requires Listed(order) == s.agents[pid].ids && forall i, j | 0 <= i < j < |order| :: order[i] != order[j]
    ensures var a := s.agents[pid];
            var t := SysRun(s, [ActivatePlan(pid, now)] + UndoAll(pid, order, now));
            && t.ledger == s.ledger && t.board.tasks.Keys == s.board.tasks.Keys && pid in t.agents && t.agents[pid] == Undoing({})
            && forall id | id in s.board.tasks ::
                 if id !in a.ids then t.board.tasks[id] == s.board.tasks[id]
                 else t.board.tasks[id].status == if s.board.tasks[id].status == Pending then Cancelled else s.board.tasks[id].status
  {
    var a := s.agents[pid];
    RefusedActivation(s, pid, now);
    ActivationKeepsStatus(s.board, a.ids, a.goal, now);
    UndoesAll(SysNext(s, ActivatePlan(pid, now)), pid, order, now);
    assert ([ActivatePlan(pid, now)] + UndoAll(pid, order, now))[1..] == UndoAll(pid, order, now);
  }
}
