/** The goal ledger: statuses, plan generations, replan budget and task links. */
module Goals {
  import opened Wrappers
  import opened Tasks

  const DEFAULT_REPLANS := 2

  datatype GoalStatus = Open | Planning | Executing | Evaluating | Replanning | Completed | Blocked | Withdrawn

  datatype Goal = Goal(status: GoalStatus, generation: nat, replans: nat, maxReplans: nat, owner: string)

  type Link = (GoalId, nat, TaskId)

  datatype Ledger = Ledger(goals: map<GoalId, Goal>, links: set<Link>)

  const NO_GOALS := Ledger(map[], {})

  datatype GoalOp =
    | CreateGoal(id: GoalId, machine: string)
    | ClaimPlanning(id: GoalId, machine: string)
    | BeginExecution(id: GoalId, ids: set<TaskId>, expected: Option<nat>)
    | BeginEvaluation(id: GoalId)
    | CompleteGoal(id: GoalId)
    | RequestReplan(id: GoalId)
    | Block(id: GoalId)
    | Withdraw(id: GoalId)
    | Resume(id: GoalId)

  predicate Plannable(s: GoalStatus) {
    s.Open? || s.Replanning?
  }

  predicate Unfinished(s: GoalStatus) {
    s.Open? || s.Planning? || s.Executing? || s.Evaluating? || s.Replanning?
  }

  /** Whether the operation's guarded update matches a row. */
  predicate Enabled(l: Ledger, op: GoalOp) {
    if op.CreateGoal? then op.id !in l.goals && op.machine != ""
    else
      && op.id in l.goals
      && var g := l.goals[op.id];
      match op
      case ClaimPlanning(_, machine) => machine != "" && g.owner == machine && Plannable(g.status)
      case BeginExecution(_, ids, expected) =>
        ids != {} && g.status.Planning? && (expected.None? || expected.value == g.generation)
      case BeginEvaluation(_) => g.status.Executing?
      case CompleteGoal(_) => g.status.Evaluating?
      case RequestReplan(_) => g.status.Planning? || g.status.Executing? || g.status.Evaluating?
      case Block(_) => Unfinished(g.status)
      case Withdraw(_) => g.status.Open? || g.status.Planning? || g.status.Replanning?
      case Resume(_) => g.status.Blocked? || g.status.Withdrawn?
      case _ => true
  }

  function Replanned(g: Goal): Goal {
    if g.replans >= g.maxReplans then g.(status := Blocked)
    else g.(status := Replanning, replans := g.replans + 1)
  }

  function GoalAfter(g: Goal, op: GoalOp): Goal {
    match op
    case ClaimPlanning(_, _) => g.(status := Planning, generation := g.generation + 1)
    case BeginExecution(_, _, _) => g.(status := Executing)
    case BeginEvaluation(_) => g.(status := Evaluating)
    case CompleteGoal(_) => g.(status := Completed)
    case RequestReplan(_) => Replanned(g)
    case Block(_) => g.(status := Blocked)
    case Withdraw(_) => g.(status := Withdrawn)
    case Resume(_) => g.(status := Open)
    case _ => g
  }

  function NewLinks(id: GoalId, generation: nat, ids: set<TaskId>): set<Link> {
    set t | t in ids :: (id, generation, t)
  }

  function GoalNext(l: Ledger, op: GoalOp): Ledger {
    if !Enabled(l, op) then l
    else if op.CreateGoal? then l.(goals := l.goals[op.id := Goal(Open, 0, 0, DEFAULT_REPLANS, op.machine)])
    else
      var g := l.goals[op.id];
      Ledger(l.goals[op.id := GoalAfter(g, op)],
             if op.BeginExecution? then l.links + NewLinks(op.id, g.generation, op.ids) else l.links)
  }

  function LinksOf(l: Ledger, id: GoalId, generation: nat): set<TaskId> {
    set k | k in l.links && k.0 == id && k.1 == generation :: k.2
  }

  // ---- counting plans ----

  function GoalRun(l: Ledger, ops: seq<GoalOp>): Ledger
    decreases |ops|
  {
    if ops == [] then l else GoalRun(GoalNext(l, ops[0]), ops[1..])
  }

  function Resumes(l: Ledger, ops: seq<GoalOp>, id: GoalId): nat
    decreases |ops|
  {
    if ops == [] then 0
    else (if ops[0].Resume? && ops[0].id == id && Enabled(l, ops[0]) then 1 else 0) + Resumes(GoalNext(l, ops[0]), ops[1..], id)
  }

  /** Plans made, plus the one this goal is waiting to have made. */
  function PlansDue(g: Goal): nat {
    g.generation + if Plannable(g.status) then 1 else 0
  }

  /** In any order of planning, replanning, blocking and operator actions: the replan
      budget holds, and every plan beyond the first is paid for by a replan or a resume. */
  lemma {:induction false} PlansArePaidFor(l: Ledger, ops: seq<GoalOp>, id: GoalId, base: nat)
    requires id in l.goals && l.goals[id].replans <= l.goals[id].maxReplans
    requires PlansDue(l.goals[id]) <= 1 + l.goals[id].replans + base
    ensures id in GoalRun(l, ops).goals
    ensures var g := GoalRun(l, ops).goals[id];
            && g.replans <= g.maxReplans == l.goals[id].maxReplans
            && PlansDue(g) <= 1 + g.replans + base + Resumes(l, ops, id)
    decreases |ops|
  {
    if ops != [] {
      var next := GoalNext(l, ops[0]);
      var won := if ops[0].Resume? && ops[0].id == id && Enabled(l, ops[0]) then 1 else 0;
      PlansArePaidFor(next, ops[1..], id, base + won);
    }
  }

  /** From creation on: at most `1 + 2 + resumes` plan generations, whatever happens. */
  lemma GenerationsBounded(l: Ledger, machine: string, id: GoalId, ops: seq<GoalOp>)
    requires Enabled(l, CreateGoal(id, machine))
    ensures var start := GoalNext(l, CreateGoal(id, machine));
            && id in GoalRun(start, ops).goals
            && GoalRun(start, ops).goals[id].replans <= DEFAULT_REPLANS
            && GoalRun(start, ops).goals[id].generation <= 1 + DEFAULT_REPLANS + Resumes(start, ops, id)
  {
    PlansArePaidFor(GoalNext(l, CreateGoal(id, machine)), ops, id, 0);
  }

  lemma RunOfTwo(l: Ledger, a: GoalOp, b: GoalOp)
    ensures GoalRun(l, [a, b]) == GoalNext(GoalNext(l, a), b)
  {
    var one := GoalNext(l, a);
    assert GoalRun(l, [a, b]) == GoalRun(one, [b]) by { assert [a, b][1..] == [b]; }
    assert GoalRun(one, [b]) == GoalRun(GoalNext(one, b), []) by { assert [b][1..] == []; }
  }

  lemma {:induction false} RunFrom(l: Ledger, a: seq<GoalOp>, b: seq<GoalOp>)
    ensures GoalRun(l, a + b) == GoalRun(GoalRun(l, a), b)
    decreases |a|
  {
    if a == [] {
      assert a + b == b;
    } else {
      assert (a + b)[1..] == a[1..] + b;
      RunFrom(GoalNext(l, a[0]), a[1..], b);
    }
  }

  lemma ResumesOne(l: Ledger, op: GoalOp, id: GoalId)
    ensures Resumes(l, [op], id) == if op == Resume(id) && Enabled(l, op) then 1 else 0
  {
    assert [op][1..] == [];
    assert Resumes(GoalNext(l, op), [], id) == 0;
  }

  lemma {:induction false} ResumesConcat(l: Ledger, a: seq<GoalOp>, b: seq<GoalOp>, id: GoalId)
    ensures Resumes(l, a + b, id) == Resumes(l, a, id) + Resumes(GoalRun(l, a), b, id)
    decreases |a|
  {
    if a == [] {
      assert a + b == b;
    } else {
      assert (a + b)[1..] == a[1..] + b;
      ResumesConcat(GoalNext(l, a[0]), a[1..], b, id);
    }
  }

  // ---- which plan a verdict lands on ----

  /** Planning claims won on this goal. */
  function Claims(l: Ledger, ops: seq<GoalOp>, id: GoalId): nat
    decreases |ops|
  {
    if ops == [] then 0
    else (if ops[0].ClaimPlanning? && ops[0].id == id && Enabled(l, ops[0]) then 1 else 0) + Claims(GoalNext(l, ops[0]), ops[1..], id)
  }

  lemma {:induction false} ClaimsCount(l: Ledger, ops: seq<GoalOp>, id: GoalId)
    requires id in l.goals
    ensures id in GoalRun(l, ops).goals
    ensures GoalRun(l, ops).goals[id].generation == l.goals[id].generation + Claims(l, ops, id)
    decreases |ops|
  {
    if ops != [] { ClaimsCount(GoalNext(l, ops[0]), ops[1..], id); }
  }

  lemma LinksOfOthers(l: Ledger, op: GoalOp, id: GoalId, n: nat)
    requires id in l.goals && (op.BeginExecution? && op.id == id ==> !l.goals[id].status.Planning?)
    ensures LinksOf(GoalNext(l, op), id, n) == LinksOf(l, id, n)
  {
    var m := GoalNext(l, op);
    forall t ensures t in LinksOf(m, id, n) <==> t in LinksOf(l, id, n) {
      assert (id, n, t) in m.links <==> (id, n, t) in l.links;
    }
  }

  lemma {:induction false} LinksStay(l: Ledger, ops: seq<GoalOp>, id: GoalId, n: nat)
    requires id in l.goals && !l.goals[id].status.Planning? && Claims(l, ops, id) == 0
    ensures LinksOf(GoalRun(l, ops), id, n) == LinksOf(l, id, n)
    decreases |ops|
  {
    if ops != [] {
      LinksOfOthers(l, ops[0], id, n);
      LinksStay(GoalNext(l, ops[0]), ops[1..], id, n);
    }
  }

  /** What an evaluation may conclude of a goal. */
  predicate IsVerdict(op: GoalOp, id: GoalId) {
    (op.CompleteGoal? || op.RequestReplan? || op.Block?) && op.id == id
  }

  /** Whatever happens between reading an executing goal and recording a verdict on it, the
      verdict lands on the plan that was read, its links still those read, exactly when
      nobody has won a planning claim on the goal in between. */
  lemma VerdictLandsIff(l: Ledger, between: seq<GoalOp>, id: GoalId, verdict: GoalOp)
    requires id in l.goals && l.goals[id].status.Executing?
    requires IsVerdict(verdict, id) && Enabled(GoalRun(l, between), verdict)
    ensures var n, after := l.goals[id].generation, GoalNext(GoalRun(l, between), verdict);
            && id in after.goals && (verdict.CompleteGoal? ==> after.goals[id].status.Completed?)
            && (after.goals[id].generation == n <==> Claims(l, between, id) == 0)
            && (Claims(l, between, id) == 0 ==> LinksOf(after, id, n) == LinksOf(l, id, n))
  {
    ClaimsCount(l, between, id);
    LinksOfOthers(GoalRun(l, between), verdict, id, l.goals[id].generation);
    if Claims(l, between, id) == 0 { LinksStay(l, between, id, l.goals[id].generation); }
  }

  /** `begin_evaluation` carries no generation. So for every executing goal there is an
      interleaving in which the verdict reached on its current plan is recorded against
      the next one, whose tasks were never looked at. */
  lemma EvaluationIsNotFenced(l: Ledger, id: GoalId, unseen: set<TaskId>)
    requires id in l.goals && l.goals[id].status.Executing? && l.goals[id].owner != ""
    requires unseen != {} && LinksOf(l, id, l.goals[id].generation + 1) == {}
    ensures var g := l.goals[id];
            var others := [Block(id), Resume(id)] + [ClaimPlanning(id, g.owner), BeginExecution(id, unseen, Some(g.generation + 1))];
            var verdict := [BeginEvaluation(id), CompleteGoal(id)];
            var after := GoalRun(GoalRun(l, others), verdict);
            && id in after.goals && after.goals[id].status.Completed?
            && after.goals[id].generation == g.generation + 1
            && LinksOf(after, id, g.generation + 1) == unseen
  {
    var g := l.goals[id];
    var b := GoalNext(GoalNext(l, Block(id)), Resume(id));
    RunOfTwo(l, Block(id), Resume(id));
    RunOfTwo(b, ClaimPlanning(id, g.owner), BeginExecution(id, unseen, Some(g.generation + 1)));
    RunFrom(l, [Block(id), Resume(id)], [ClaimPlanning(id, g.owner), BeginExecution(id, unseen, Some(g.generation + 1))]);
    var c := GoalNext(GoalNext(b, ClaimPlanning(id, g.owner)), BeginExecution(id, unseen, Some(g.generation + 1)));
    RunOfTwo(c, BeginEvaluation(id), CompleteGoal(id));
    LinksAdded(l, id, g.generation + 1, unseen);
  }

  lemma LinksAdded(l: Ledger, id: GoalId, generation: nat, ids: set<TaskId>)
    ensures LinksOf(l.(links := l.links + NewLinks(id, generation, ids)), id, generation) == LinksOf(l, id, generation) + ids
  {
    var after := l.(links := l.links + NewLinks(id, generation, ids));
    forall t | t in ids ensures t in LinksOf(after, id, generation) {
      assert (id, generation, t) in after.links;
    }
    forall t | t in LinksOf(l, id, generation) ensures t in LinksOf(after, id, generation) {
      assert (id, generation, t) in after.links;
    }
  }
}
