/** A run of the goal ledger that leaves one machine's work out of its own guard's sight. */
module CrowdedGoals {
  import opened Wrappers
  import opened Tasks
  import opened Goals
  import opened Heartbeat

  /** A goal created, planned and put to execution. */
  function GoneLive(g: GoalId, machine: string): seq<GoalOp> {
    [CreateGoal(g, machine), ClaimPlanning(g, machine), BeginExecution(g, {g + 1}, Some(1))]
  }

  function Owner(g: GoalId, here: string, there: string): string {
    if g < LIST_LIMIT then there else here
  }

  /** The first `n` goals go live in turn: as many of one machine as are read, then one of another. */
  function Crowding(n: nat, here: string, there: string): seq<GoalOp> {
    if n == 0 then [] else Crowding(n - 1, here, there) + GoneLive(n - 1, Owner(n - 1, here, there))
  }

  function Crowd(n: nat, here: string, there: string): map<GoalId, Goal> {
    if n == 0 then map[]
    else Crowd(n - 1, here, there)[n - 1 := Goal(Executing, 1, 0, DEFAULT_REPLANS, Owner(n - 1, here, there))]
  }

  lemma RunOfThree(l: Ledger, a: GoalOp, b: GoalOp, c: GoalOp)
    ensures GoalRun(l, [a, b, c]) == GoalNext(GoalNext(GoalNext(l, a), b), c)
  {
    assert [a, b, c][1..] == [b, c];
    RunOfTwo(GoalNext(l, a), b, c);
  }

  lemma GoesLive(l: Ledger, g: GoalId, machine: string)
    requires g !in l.goals && machine != ""
    ensures GoalRun(l, GoneLive(g, machine)).goals == l.goals[g := Goal(Executing, 1, 0, DEFAULT_REPLANS, machine)]
  {
    RunOfThree(l, CreateGoal(g, machine), ClaimPlanning(g, machine), BeginExecution(g, {g + 1}, Some(1)));
    var a := GoalNext(l, CreateGoal(g, machine));
    var b := GoalNext(a, ClaimPlanning(g, machine));
    assert b.goals == l.goals[g := Goal(Planning, 1, 0, DEFAULT_REPLANS, machine)];
  }

  lemma {:induction false} CrowdIs(n: nat, here: string, there: string)
    ensures forall g: nat :: g in Crowd(n, here, there) <==> g < n
    ensures forall g: nat | g < n :: Crowd(n, here, there)[g] == Goal(Executing, 1, 0, DEFAULT_REPLANS, Owner(g, here, there))
    decreases n
  {
    if n > 0 { CrowdIs(n - 1, here, there); }
  }

  lemma {:induction false} CrowdingRuns(n: nat, here: string, there: string)
    requires here != "" && there != ""
    ensures GoalRun(NO_GOALS, Crowding(n, here, there)).goals == Crowd(n, here, there)
    decreases n
  {
    if n > 0 {
      CrowdingRuns(n - 1, here, there);
      CrowdIs(n - 1, here, there);
      RunFrom(NO_GOALS, Crowding(n - 1, here, there), GoneLive(n - 1, Owner(n - 1, here, there)));
      GoesLive(GoalRun(NO_GOALS, Crowding(n - 1, here, there)), n - 1, Owner(n - 1, here, there));
    }
  }

  /** When each goal was created, by a clock that counts the ledger's transactions. */
  function CreatedAt(ops: seq<GoalOp>): map<GoalId, int> {
    if ops == [] then map[]
    else
      var n := |ops| - 1;
      if ops[n].CreateGoal? then CreatedAt(ops[..n])[ops[n].id := n] else CreatedAt(ops[..n])
  }

  lemma CreatedByThree(before: seq<GoalOp>, g: GoalId, machine: string)
    ensures CreatedAt(before + GoneLive(g, machine)) == CreatedAt(before)[g := |before|]
  {
    var three := GoneLive(g, machine);
    var all := before + three;
    assert all[..|before| + 2][..|before| + 1] == all[..|before| + 1];
    assert all[..|before| + 1][..|before|] == before;
    assert CreatedAt(all[..|before| + 1]) == CreatedAt(before)[g := |before|];
    assert CreatedAt(all[..|before| + 2]) == CreatedAt(all[..|before| + 1]);
    assert |all| - 1 == |before| + 2;
  }

  lemma {:induction false} CrowdTimes(n: nat, here: string, there: string)
    ensures |Crowding(n, here, there)| == 3 * n
    ensures forall g: nat :: g in CreatedAt(Crowding(n, here, there)) <==> g < n
    ensures forall g: nat | g < n :: CreatedAt(Crowding(n, here, there))[g] == 3 * g
    decreases n
  {
    if n > 0 {
      CrowdTimes(n - 1, here, there);
      CreatedByThree(Crowding(n - 1, here, there), n - 1, Owner(n - 1, here, there));
    }
  }

  function KeysBelow(n: nat): set<Ordering.Key> {
    set i: nat | i < n :: Ordering.Key(3 * i, i)
  }

  lemma {:induction false} KeysBelowCount(n: nat)
    ensures |KeysBelow(n)| == n
    decreases n
  {
    if n > 0 {
      KeysBelowCount(n - 1);
      assert KeysBelow(n) == KeysBelow(n - 1) + {Ordering.Key(3 * (n - 1), n - 1)};
    }
  }

  lemma CrowdIsAhead(goals: map<GoalId, Goal>, created: map<GoalId, int>, last: GoalId)
    requires forall g: nat :: (g in goals <==> g <= last) && (g in created <==> g <= last)
    requires forall g: nat | g <= last :: goals[g].status.Executing? && created[g] == 3 * g
    ensures |Ordering.Ahead(GL.InStatus(goals, created, LIVE), Ordering.Key(3 * last, last))| == last
  {
    var ahead := Ordering.Ahead(GL.InStatus(goals, created, LIVE), Ordering.Key(3 * last, last));
    KeysBelowCount(last);
    forall k ensures k in ahead <==> k in KeysBelow(last) {
      if k in KeysBelow(last) { assert k.id in goals && created[k.id] == k.ts; }
    }
    assert ahead == KeysBelow(last);
  }

  /** A run from no goals at all after which this machine owns an executing goal and the
      guard does not see it. */
  lemma GuardMissesOwnGoal(here: string, there: string)
    requires here != "" && there != "" && here != there
    ensures var ops := Crowding(LIST_LIMIT + 1, here, there);
            var goals, created := GoalRun(NO_GOALS, ops).goals, CreatedAt(ops);
            && goals.Keys == created.Keys && Owns(goals, here, LIST_LIMIT)
            && forall g | Owns(goals, here, g) :: !Shown(goals, created, g)
  {
    var ops := Crowding(LIST_LIMIT + 1, here, there);
    CrowdingRuns(LIST_LIMIT + 1, here, there);
    CrowdIs(LIST_LIMIT + 1, here, there);
    CrowdTimes(LIST_LIMIT + 1, here, there);
    CrowdIsAhead(GoalRun(NO_GOALS, ops).goals, CreatedAt(ops), LIST_LIMIT);
  }
}
