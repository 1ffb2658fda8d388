/** The goal ledger object: each method is one write transaction of the model. */
module GoalLedger {
  import opened Wrappers
  import opened Tasks
  import opened Goals
  import Ordering

  const MAX_LIST := 500

  /** Goals in any of these statuses, as the keys listings sort by. */
  function InStatus(goals: map<GoalId, Goal>, created: map<GoalId, int>, statuses: set<GoalStatus>): set<Ordering.Key>
    requires goals.Keys == created.Keys
  {
    set id | id in goals && goals[id].status in statuses :: Ordering.Key(created[id], id)
  }

  /** At least one and at most five hundred. */
  function ListLimit(limit: int): (n: nat)
    ensures 1 <= n <= 500 && (1 <= limit <= 500 ==> n == limit) && (limit < 1 ==> n == 1) && (limit > 500 ==> n == 500)
  {
    if limit < 1 then 1 else if limit > MAX_LIST then MAX_LIST else limit
  }

  function Ids(keys: seq<Ordering.Key>): (ids: seq<GoalId>)
    ensures |ids| == |keys| && forall i | 0 <= i < |ids| :: ids[i] == keys[i].id
  {
    seq(|keys|, i requires 0 <= i < |keys| => keys[i].id)
  }

  /** Oldest first, at most `limit`. */
  function Listed(keys: set<Ordering.Key>, limit: int): seq<Ordering.Key> {
    var all := Ordering.Sorted(keys);
    if |all| <= ListLimit(limit) then all else all[..ListLimit(limit)]
  }

  /** A listing shows a key exactly when too few to fill it come before. */
  lemma ListedIff(keys: set<Ordering.Key>, k: Ordering.Key, limit: int)
    requires k in keys
    ensures k in Listed(keys, limit) <==> |Ordering.Ahead(keys, k)| < ListLimit(limit)
  {
    var all := Ordering.Sorted(keys);
    assert k in all;
    var i :| 0 <= i < |all| && all[i] == k;
    Ordering.AheadIsPosition(keys, i);
    var listed := Listed(keys, limit);
    if i < ListLimit(limit) { assert listed[i] == k; }
  }

  lemma ListedOnce(goals: map<GoalId, Goal>, created: map<GoalId, int>, statuses: set<GoalStatus>, limit: int)
    requires goals.Keys == created.Keys
    ensures var ids := Ids(Listed(InStatus(goals, created, statuses), limit));
            && (forall i | 0 <= i < |ids| :: ids[i] in goals && goals[ids[i]].status in statuses)
            && (forall i, j | 0 <= i < j < |ids| :: ids[i] != ids[j])
  {
    var keys := InStatus(goals, created, statuses);
    var all := Ordering.Sorted(keys);
    forall i | 0 <= i < |all| ensures all[i].id in goals && goals[all[i].id].status in statuses && all[i].ts == created[all[i].id] {
      assert all[i] in keys;
    }
  }

  predicate Claimable(goals: map<GoalId, Goal>, id: GoalId, machine: string) {
    id in goals && goals[id].owner == machine && Plannable(goals[id].status)
  }

  function Ready(goals: map<GoalId, Goal>, created: map<GoalId, int>, machine: string): set<Ordering.Key>
    requires goals.Keys == created.Keys
  {
    set id | id in goals && Claimable(goals, id, machine) :: Ordering.Key(created[id], id)
  }

  class GoalLedger {
    const machine: string
    var goals: map<GoalId, Goal>
    var links: set<Link>
    var created: map<GoalId, int>

    ghost predicate Valid()
      reads this
    {
      goals.Keys == created.Keys
    }

    ghost function Current(): Ledger
      reads this
    {
      Ledger(goals, links)
    }

    constructor (machine: string)
      ensures Valid() && Current() == NO_GOALS && this.machine == machine
    {
      this.machine := machine;
      goals, links, created := map[], {}, map[];
    }

    /** Refused without a machine identity or with a blank summary; `id` is a new uuid. */
    method Create(id: GoalId, blank: bool, now: int) returns (ok: bool)
      requires Valid() && id !in goals
      modifies this
      ensures Valid() && (ok <==> machine != "" && !blank)
      ensures Current() == if ok then GoalNext(old(Current()), CreateGoal(id, machine)) else old(Current())
      ensures created == if ok then old(created)[id := now] else old(created)
    {
      if machine == "" || blank { return false; }
      goals, created := goals[id := Goal(Open, 0, 0, DEFAULT_REPLANS, machine)], created[id := now];
      return true;
    }

    method List(statuses: set<GoalStatus>, limit: int) returns (ids: seq<GoalId>)
      requires Valid()
      ensures ids == Ids(Listed(InStatus(goals, created, statuses), limit))
    {
      ids := Ids(Listed(InStatus(goals, created, statuses), limit));
    }

    /** Claims the named goal, or this machine's oldest plannable one. */
    method ClaimPlanning(which: Option<GoalId>) returns (won: Option<GoalId>)
      requires Valid()
      modifies this`goals
      ensures Valid()
      ensures won.None? ==> Current() == old(Current())
      ensures won.Some? ==> (Enabled(old(Current()), GoalOp.ClaimPlanning(won.value, machine))
                             && Current() == GoalNext(old(Current()), GoalOp.ClaimPlanning(won.value, machine)))
      ensures which.Some? ==> (won == if machine != "" && Claimable(old(goals), which.value, machine) then which else None)
      ensures which.None? ==> (won.None? <==> machine == "" || Ready(old(goals), created, machine) == {})
      ensures which.None? && won.Some? ==> won.value == Ordering.First(Ready(old(goals), created, machine)).id
    {
      if machine == "" { return None; }
      var id;
      if which.Some? {
        id := which.value;
      } else {
        var ready := Ready(goals, created, machine);
        if ready == {} { return None; }
        id := Ordering.First(ready).id;
      }
      if id !in goals || goals[id].owner != machine || !Plannable(goals[id].status) { return None; }
      goals := goals[id := goals[id].(status := Planning, generation := goals[id].generation + 1)];
      return Some(id);
    }

    /** Links one row after another, then moves the goal; an empty batch is an error. */
    method BeginExecution(id: GoalId, ids: set<TaskId>, expected: Option<nat>) returns (ok: bool)
      modifies this`goals, this`links
      ensures goals.Keys == old(goals.Keys)
      ensures Current() == GoalNext(old(Current()), GoalOp.BeginExecution(id, ids, expected))
      ensures ok <==> Enabled(old(Current()), GoalOp.BeginExecution(id, ids, expected))
    {
      if ids == {} || id !in goals || !goals[id].status.Planning? { return false; }
      var generation := goals[id].generation;
      if expected.Some? && generation != expected.value { return false; }
      var done: set<TaskId> := {};
      while ids - done != {}
        invariant done <= ids && goals == old(goals)
        invariant links == old(links) + NewLinks(id, generation, done)
        decreases ids - done
      {
        var t :| t in ids - done;
        MoreLinks(id, generation, done, t);
        links, done := links + {(id, generation, t)}, done + {t};
      }
      assert forall t | t in ids :: t !in ids - done;
      assert done == ids;
      goals := goals[id := goals[id].(status := Executing)];
      return true;
    }

    /** The guarded status update every simple transition uses. */
    method Transition(id: GoalId, from: set<GoalStatus>, to: GoalStatus) returns (ok: bool)
      modifies this`goals
      ensures ok <==> id in old(goals) && old(goals)[id].status in from
      ensures goals == if ok then old(goals)[id := old(goals)[id].(status := to)] else old(goals)
    {
      if id !in goals || goals[id].status !in from { return false; }
      goals := goals[id := goals[id].(status := to)];
      return true;
    }

    method BeginEvaluation(id: GoalId) returns (ok: bool)
      modifies this`goals
      ensures Current() == GoalNext(old(Current()), GoalOp.BeginEvaluation(id)) && (ok <==> Enabled(old(Current()), GoalOp.BeginEvaluation(id)))
    {
      ok := Transition(id, {Executing}, Evaluating);
    }

    method Complete(id: GoalId) returns (ok: bool)
      modifies this`goals
      ensures Current() == GoalNext(old(Current()), CompleteGoal(id)) && (ok <==> Enabled(old(Current()), CompleteGoal(id)))
    {
      ok := Transition(id, {Evaluating}, Completed);
    }

    method Block(id: GoalId) returns (ok: bool)
      modifies this`goals
      ensures Current() == GoalNext(old(Current()), GoalOp.Block(id)) && (ok <==> Enabled(old(Current()), GoalOp.Block(id)))
    {
      ok := Transition(id, {Open, Planning, Executing, Evaluating, Replanning}, Blocked);
    }

    method Cancel(id: GoalId) returns (ok: bool)
      modifies this`goals
      ensures Current() == GoalNext(old(Current()), Withdraw(id)) && (ok <==> Enabled(old(Current()), Withdraw(id)))
    {
      ok := Transition(id, {Open, Planning, Replanning}, Withdrawn);
    }

    method Resume(id: GoalId) returns (ok: bool)
      modifies this`goals
      ensures Current() == GoalNext(old(Current()), GoalOp.Resume(id)) && (ok <==> Enabled(old(Current()), GoalOp.Resume(id)))
    {
      ok := Transition(id, {Blocked, Withdrawn}, Open);
    }

    /** The goal's new status, or None when it was not in a replannable one. */
    method RequestReplan(id: GoalId) returns (status: Option<GoalStatus>)
      modifies this`goals
      ensures Current() == GoalNext(old(Current()), GoalOp.RequestReplan(id))
      ensures status.Some? <==> Enabled(old(Current()), GoalOp.RequestReplan(id))
      ensures status.Some? ==> id in goals && status.value == goals[id].status
    {
      if id !in goals || !(goals[id].status in {Planning, Executing, Evaluating}) { return None; }
      var g := goals[id];
      var exhausted := g.replans >= g.maxReplans;
      var next := if exhausted then Blocked else Replanning;
      goals := goals[id := g.(status := next, replans := g.replans + if exhausted then 0 else 1)];
      return Some(next);
    }

    method TaskReferences(id: GoalId) returns (ids: set<TaskId>)
      ensures ids == if id in goals then LinksOf(Current(), id, goals[id].generation) else {}
    {
      if id !in goals { return {}; }
      var generation := goals[id].generation;
      ids := set k | k in links && k.0 == id && k.1 == generation :: k.2;
    }
  }

  lemma MoreLinks(id: GoalId, generation: nat, done: set<TaskId>, t: TaskId)
    ensures NewLinks(id, generation, done + {t}) == NewLinks(id, generation, done) + {(id, generation, t)}
  {
  }
}
