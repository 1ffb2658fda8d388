/** The board object: each method is one committed statement or batch of the model. */
module TaskBoard {
  import opened Wrappers
  import opened Tasks

  /** The row a single-row operation names. */
  function RowOf(op: Op): Option<TaskId> {
    match op
    case Claim(id, _) => Some(id)
    case Complete(id, _, _) => Some(id)
    case AwaitApproval(id, _, _, _) => Some(id)
    case FailIfRunning(id, _, _) => Some(id)
    case RetryOrDead(id, _, _, _) => Some(id)
    case Defer(id, _, _, _) => Some(id)
    case Stall(id, _, _, _) => Some(id)
    case Cancel(id, _) => Some(id)
    case CancelRunning(id, _, _) => Some(id)
    case Touch(id, _, _) => Some(id)
    case Retry(id, _) => Some(id)
    case _ => None
  }

  lemma OneRow(b: Board, op: Op, id: TaskId)
    requires RowOf(op) == Some(id)
    ensures Next(b, op) == if id in b.tasks then b.(tasks := b.tasks[id := Effect(id, b.tasks[id], op).value]) else b
  {
    var a := Next(b, op);
    assert forall i | i in b.tasks && i != id :: Effect(i, b.tasks[i], op) == Some(b.tasks[i]);
    assert a.tasks == if id in b.tasks then b.tasks[id := Effect(id, b.tasks[id], op).value] else b.tasks;
  }

  predicate Overdue(t: Task, after: nat, now: int) {
    t.status.Running? && t.updatedTs <= now - (if t.kind.IssueWork? && after < STALL_WINDOW then STALL_WINDOW else after)
  }

  /** Startup and live recovery alike: overdue rows stall, issue work only after a full window. */
  function Recovered(b: Board, after: nat, now: int): Board {
    b.(tasks := map id | id in b.tasks :: if Overdue(b.tasks[id], after, now) then Stalled(b.tasks[id], now) else b.tasks[id])
  }

  lemma {:induction false} RunSnoc(b: Board, ops: seq<Op>, op: Op)
    ensures Run(b, ops + [op]) == Next(Run(b, ops), op)
    decreases |ops|
  {
    if ops == [] {
      assert Run(Next(b, op), [op][1..]) == Next(b, op);
      assert [] + [op] == [op];
    } else {
      assert (ops + [op])[1..] == ops[1..] + [op];
      RunSnoc(Next(b, ops[0]), ops[1..], op);
    }
  }

  class TaskBoard {
    var tasks: map<TaskId, Task>
    var nextId: TaskId
    var pickups: map<string, TaskId>

    ghost function Current(): Board
      reads this
    {
      Board(tasks, nextId, pickups)
    }

    constructor ()
      ensures Current() == EMPTY
    {
      tasks, nextId, pickups := map[], 1, map[];
    }

    /** A duplicate key returns the existing row's id. */
    method Enqueue(entry: Entry, padded: bool, now: int) returns (id: Option<TaskId>)
      modifies this
      ensures Current() == Next(old(Current()), Op.Enqueue(entry, padded, now))
      ensures id.None? <==> !Admissible(entry, padded)
      ensures id.Some? && KeyTaken(old(tasks), entry.key) ==> id.value in old(tasks) && old(tasks)[id.value].key == entry.key
      ensures id.Some? && !KeyTaken(old(tasks), entry.key) ==> id.value == old(nextId)
    {
      if !Admissible(entry, padded) { return None; }
      if KeyTaken(tasks, entry.key) {
        var existing :| existing in tasks && tasks[existing].key == entry.key;
        return Some(existing);
      }
      tasks, nextId := tasks[nextId := NewTask(entry, now)], nextId + 1;
      return Some(nextId - 1);
    }

    /** All of a batch, under consecutive ids, or none of it. */
    method EnqueueMany(entries: seq<Entry>, now: int) returns (ids: Option<seq<TaskId>>)
      modifies this
      ensures Current() == Next(old(Current()), Op.EnqueueMany(entries, now))
      ensures ids.Some? <==> InsertAll(old(Current()), entries, now).Some?
      ensures ids.Some? ==> |ids.value| == |entries| && forall i | 0 <= i < |entries| :: ids.value[i] == old(nextId) + i
    {
      var savedTasks, savedNext := tasks, nextId;
      ghost var b := Current();
      var made: seq<TaskId> := [];
      var i := 0;
      assert entries[0..] == entries;
      while i < |entries|
        invariant 0 <= i <= |entries| && |made| == i && pickups == b.pickups
        invariant savedTasks == b.tasks && savedNext == b.nextId && nextId == savedNext + i
        invariant InsertAll(b, entries, now) == InsertAll(Current(), entries[i..], now)
        invariant forall j | 0 <= j < i :: made[j] == savedNext + j
      {
        if !Admissible(entries[i], false) || KeyTaken(tasks, entries[i].key) {
          tasks, nextId := savedTasks, savedNext;
          return None;
        }
        assert entries[i..][1..] == entries[i + 1..];
        tasks, nextId, made := tasks[nextId := NewTask(entries[i], now)], nextId + 1, made + [nextId];
        i := i + 1;
      }
      return Some(made);
    }

    method EnqueueIssueWork(issue: string, cap: nat, now: int) returns (id: Option<TaskId>)
      modifies this
      ensures Current() == Next(old(Current()), PickUp(issue, cap, now))
      ensures id == if MayPickUp(old(Current()), issue, cap) then Some(old(nextId)) else None
    {
      if issue in pickups { return None; }
      var active := set k | k in pickups && pickups[k] in tasks && IsActive(tasks[pickups[k]]);
      assert active == InFlight(Current());
      if |active| >= cap || KeyTaken(tasks, IssueKey(issue)) { return None; }
      tasks := tasks[nextId := IssueTask(issue, now)];
      pickups := pickups[issue := nextId];
      nextId := nextId + 1;
      return Some(nextId - 1);
    }

    /** True only when the whole batch was hidden and pending; a partial match is still
        exposed, and reported false. */
    method ActivateGoalBatch(ids: set<TaskId>, goal: GoalId, now: int) returns (all: bool)
      modifies this
      ensures Current() == Next(old(Current()), Activate(ids, goal, now))
      ensures all <==> ids != {} && forall id | id in ids :: id in old(tasks) && old(tasks)[id].status.Pending? && old(tasks)[id].source.Staged?
    {
      var hits := set id | id in ids && id in tasks && tasks[id].status.Pending? && tasks[id].source.Staged?;
      ghost var b := Current();
      tasks := map id | id in tasks :: if id in hits then tasks[id].(source := Live(goal), updatedTs := now) else tasks[id];
      assert tasks == Next(b, Activate(ids, goal, now)).tasks;
      return ids != {} && hits == ids;
    }

    /** The fencing token of a won claim is the row's new attempt count. */
    method ClaimAttempt(id: TaskId, now: int) returns (token: Option<nat>)
      modifies this
      ensures Current() == Next(old(Current()), Claim(id, now))
      ensures token == if id in old(tasks) && old(tasks)[id].status.Pending? && !Exhausted(old(tasks)[id])
                       then Some(old(tasks)[id].attempts + 1) else None
    {
      OneRow(Current(), Claim(id, now), id);
      if id !in tasks || !tasks[id].status.Pending? { return None; }
      if Exhausted(tasks[id]) {
        tasks := tasks[id := Set(tasks[id], Dead, now)];
        return None;
      }
      tasks := tasks[id := Set(tasks[id], Running, now).(attempts := tasks[id].attempts + 1)];
      return Some(tasks[id].attempts);
    }

    method Complete(id: TaskId, fence: Option<nat>, now: int) returns (ok: bool)
      modifies this
      ensures Current() == Next(old(Current()), Op.Complete(id, fence, now))
      ensures ok <==> (id in old(tasks) && old(tasks)[id].status in {Running, AwaitingApproval} && Fenced(old(tasks)[id], fence))
    {
      OneRow(Current(), Op.Complete(id, fence, now), id);
      ok := id in tasks && (tasks[id].status.Running? || tasks[id].status.AwaitingApproval?) && Fenced(tasks[id], fence);
      if ok { tasks := tasks[id := Set(tasks[id], Done, now)]; }
    }

    method AwaitApproval(id: TaskId, approval: string, fence: Option<nat>, now: int) returns (ok: bool)
      modifies this
      ensures Current() == Next(old(Current()), Op.AwaitApproval(id, approval, fence, now))
      ensures ok <==> (id in old(tasks) && old(tasks)[id].status.Running? && Fenced(old(tasks)[id], fence))
    {
      OneRow(Current(), Op.AwaitApproval(id, approval, fence, now), id);
      ok := id in tasks && tasks[id].status.Running? && Fenced(tasks[id], fence);
      if ok { tasks := tasks[id := Set(tasks[id], AwaitingApproval, now).(approval := Some(approval))]; }
    }

    method Fail(id: TaskId, now: int)
      modifies this
      ensures Current() == FailRow(old(Current()), id, now)
    {
      if id in tasks { tasks := tasks[id := Set(tasks[id], Failed, now)]; }
    }

    /** The waiting rows are read and then finished one by one, a rejected row without another
        look. When nobody else acts meanwhile, exactly the rows waiting on this approval are
        finished; `LateDecisions` says what happens when somebody does. */
    method ResolveApproval(approval: string, approved: bool, now: int) returns (matched: nat)
      modifies this
      ensures Current() == Next(old(Current()), Resolve(approval, approved, now))
      ensures matched == |AwaitingOn(old(tasks), approval)|
    {
      ghost var b := Current();
      var rows := AwaitingOn(tasks, approval);
      var done: set<TaskId> := {};
      while rows - done != {}
        invariant done <= rows && nextId == b.nextId && pickups == b.pickups
        invariant tasks.Keys == b.tasks.Keys
        invariant forall id | id in tasks ::
                    tasks[id] == if id in done then Set(b.tasks[id], if approved then Done else Failed, now) else b.tasks[id]
        decreases rows - done
      {
        var id :| id in rows - done;
        if approved {
          OneRow(Current(), Op.Complete(id, None, now), id);
          var ok := Complete(id, None, now);
        } else {
          Fail(id, now);
        }
        done := done + {id};
      }
      assert done == rows;
      assert tasks == Next(b, Resolve(approval, approved, now)).tasks;
      return |rows|;
    }

    method FailIfRunning(id: TaskId, fence: Option<nat>, now: int) returns (ok: bool)
      modifies this
      ensures Current() == Next(old(Current()), Op.FailIfRunning(id, fence, now))
      ensures ok <==> (id in old(tasks) && old(tasks)[id].status.Running? && Fenced(old(tasks)[id], fence))
    {
      OneRow(Current(), Op.FailIfRunning(id, fence, now), id);
      ok := id in tasks && tasks[id].status.Running? && Fenced(tasks[id], fence);
      if ok { tasks := tasks[id := Set(tasks[id], Failed, now)]; }
    }

    method RetryOrDead(id: TaskId, fence: Option<nat>, delay: Option<int>, now: int) returns (ok: bool)
      modifies this
      ensures Current() == Next(old(Current()), Op.RetryOrDead(id, fence, delay, now))
      ensures ok <==> (id in old(tasks) && old(tasks)[id].status.Running? && Fenced(old(tasks)[id], fence))
    {
      OneRow(Current(), Op.RetryOrDead(id, fence, delay, now), id);
      ok := id in tasks && tasks[id].status.Running? && Fenced(tasks[id], fence);
      if !ok { return; }
      var t, d := tasks[id], Delay(delay, 0);
      if Exhausted(t) {
        tasks := tasks[id := Set(t, Dead, now)];
      } else {
        tasks := tasks[id := Set(t, Pending, now).(scheduledFor := if d == 0 then t.scheduledFor else Later(t.scheduledFor, now + d))];
      }
    }

    method DeferRateLimited(id: TaskId, attempt: nat, delay: Option<int>, now: int) returns (ok: bool)
      modifies this
      ensures Current() == Next(old(Current()), Defer(id, attempt, delay, now))
      ensures ok <==> (id in old(tasks) && old(tasks)[id].status.Running? && old(tasks)[id].attempts == attempt)
    {
      OneRow(Current(), Defer(id, attempt, delay, now), id);
      ok := id in tasks && tasks[id].status.Running? && tasks[id].attempts == attempt;
      if ok { tasks := tasks[id := Deferred(tasks[id], delay, now)]; }
    }

    method StallOrDead(id: TaskId, attempt: nat, staleBefore: Option<int>, now: int) returns (ok: bool)
      modifies this
      ensures Current() == Next(old(Current()), Stall(id, attempt, staleBefore, now))
      ensures ok <==> (id in old(tasks) && old(tasks)[id].status.Running? && old(tasks)[id].attempts == attempt
                       && Stale(old(tasks)[id], staleBefore))
    {
      OneRow(Current(), Stall(id, attempt, staleBefore, now), id);
      if id !in tasks || !tasks[id].status.Running? || tasks[id].attempts != attempt || !Stale(tasks[id], staleBefore) {
        return false;
      }
      var becomesDead := tasks[id].stalls >= 1 || Exhausted(tasks[id]);
      tasks := tasks[id := Set(tasks[id], if becomesDead then Dead else Pending, now).(stalls := tasks[id].stalls + 1)];
      return true;
    }

    /** One visited row: it stalls, through the fenced transaction, when it is overdue. */
    method RecoverOne(id: TaskId, after: nat, now: int, ghost ops: seq<Op>, ghost b: Board)
      returns (revived: bool, ghost more: seq<Op>)
      requires id in tasks && tasks[id].status.Running? && Run(b, ops) == Current() && AllStalls(ops)
      modifies this
      ensures nextId == old(nextId) && pickups == old(pickups)
      ensures tasks == old(tasks)[id := if Overdue(old(tasks)[id], after, now) then Stalled(old(tasks)[id], now) else old(tasks)[id]]
      ensures revived == (Overdue(old(tasks)[id], after, now) && tasks[id].status.Pending?)
      ensures Run(b, more) == Current() && AllStalls(more)
    {
      more := ops;
      var cutoff := now - (if tasks[id].kind.IssueWork? && after < STALL_WINDOW then STALL_WINDOW else after);
      if tasks[id].updatedTs > cutoff { return false, ops; }
      ghost var op := Stall(id, tasks[id].attempts, Some(cutoff), now);
      RunSnoc(b, ops, op);
      OneRow(Current(), op, id);
      var ok := StallOrDead(id, tasks[id].attempts, Some(cutoff), now);
      return ok && tasks[id].status.Pending?, ops + [op];
    }

    /** The recovery loop: exactly the overdue rows stall, by fenced transactions only. */
    method RecoverStalled(after: nat, now: int) returns (recovered: nat)
      modifies this
      ensures Current() == Recovered(old(Current()), after, now)
      ensures exists ops :: Run(old(Current()), ops) == Current() && AllStalls(ops)
      ensures recovered == |Revived(old(Current()), old(tasks).Keys, after, now)|
    {
      ghost var b := Current();
      ghost var ops: seq<Op> := [];
      var todo := set id | id in tasks && tasks[id].status.Running? && tasks[id].updatedTs <= now - after;
      var seen: set<TaskId> := {};
      recovered := 0;
      assert tasks == Partly(b, {}, after, now);
      while todo - seen != {}
        invariant seen <= todo && nextId == b.nextId && pickups == b.pickups
        invariant tasks == Partly(b, seen, after, now)
        invariant Run(b, ops) == Current() && AllStalls(ops)
        invariant recovered == |Revived(b, seen, after, now)|
        decreases todo - seen
      {
        var id :| id in todo - seen;
        var revived;
        PartlyOne(b, seen, id, after, now);
        revived, ops := RecoverOne(id, after, now, ops, b);
        RevivedOne(b, seen, id, after, now);
        if revived { recovered := recovered + 1; }
        seen := seen + {id};
      }
      assert seen == todo;
      assert tasks == Recovered(b, after, now).tasks;
      RevivedAll(b, todo, after, now);
    }

    method Cancel(id: TaskId, now: int) returns (ok: bool)
      modifies this
      ensures Current() == Next(old(Current()), Op.Cancel(id, now))
      ensures ok <==> id in old(tasks) && old(tasks)[id].status.Pending?
    {
      OneRow(Current(), Op.Cancel(id, now), id);
      ok := id in tasks && tasks[id].status.Pending?;
      if ok { tasks := tasks[id := Set(tasks[id], Cancelled, now)]; }
    }

    method CancelRunning(id: TaskId, attempt: nat, now: int) returns (ok: bool)
      modifies this
      ensures Current() == Next(old(Current()), Op.CancelRunning(id, attempt, now))
      ensures ok <==> (id in old(tasks) && old(tasks)[id].status.Running? && old(tasks)[id].attempts == attempt)
    {
      OneRow(Current(), Op.CancelRunning(id, attempt, now), id);
      ok := id in tasks && tasks[id].status.Running? && tasks[id].attempts == attempt;
      if ok { tasks := tasks[id := Set(tasks[id], Cancelled, now)]; }
    }

    method Retry(id: TaskId, now: int) returns (ok: bool)
      modifies this
      ensures Current() == Next(old(Current()), Op.Retry(id, now))
      ensures ok <==> id in old(tasks) && old(tasks)[id].status.Failed? && !Exhausted(old(tasks)[id])
    {
      OneRow(Current(), Op.Retry(id, now), id);
      ok := id in tasks && tasks[id].status.Failed? && !Exhausted(tasks[id]);
      if ok { tasks := tasks[id := Set(tasks[id], Pending, now)]; }
    }
  }

  ghost predicate AllStalls(ops: seq<Op>) {
    forall op | op in ops :: op.Stall?
  }

  /** The recovery loop part-way: the rows in `seen` have been dealt with. */
  ghost function Partly(b: Board, seen: set<TaskId>, after: nat, now: int): map<TaskId, Task> {
    map id | id in b.tasks :: if id in seen && Overdue(b.tasks[id], after, now) then Stalled(b.tasks[id], now) else b.tasks[id]
  }

  /** Overdue rows among `ids` that get a second chance. */
  ghost function Revived(b: Board, ids: set<TaskId>, after: nat, now: int): set<TaskId> {
    set id | id in ids && id in b.tasks && Overdue(b.tasks[id], after, now) && Stalled(b.tasks[id], now).status.Pending?
  }

  lemma RevivedOne(b: Board, seen: set<TaskId>, id: TaskId, after: nat, now: int)
    requires id in b.tasks && id !in seen
    ensures |Revived(b, seen + {id}, after, now)|
         == |Revived(b, seen, after, now)|
            + if Overdue(b.tasks[id], after, now) && Stalled(b.tasks[id], now).status.Pending? then 1 else 0
  {
    assert Revived(b, seen + {id}, after, now) == Revived(b, seen, after, now) + Revived(b, {id}, after, now);
    if Overdue(b.tasks[id], after, now) && Stalled(b.tasks[id], now).status.Pending? {
      assert Revived(b, {id}, after, now) == {id};
    } else {
      assert Revived(b, {id}, after, now) == {};
    }
  }

  lemma RevivedAll(b: Board, todo: set<TaskId>, after: nat, now: int)
    requires todo == set id | id in b.tasks && b.tasks[id].status.Running? && b.tasks[id].updatedTs <= now - after
    ensures Revived(b, todo, after, now) == Revived(b, b.tasks.Keys, after, now)
  {
  }

  lemma PartlyOne(b: Board, seen: set<TaskId>, id: TaskId, after: nat, now: int)
    requires id in b.tasks && id !in seen
    ensures Partly(b, seen, after, now)[id] == b.tasks[id]
    ensures Partly(b, seen + {id}, after, now)
         == Partly(b, seen, after, now)[id := if Overdue(b.tasks[id], after, now) then Stalled(b.tasks[id], now) else b.tasks[id]]
  {
  }
}
