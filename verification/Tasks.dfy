/** The work board's tables, and what each committed statement does to each row. */
module Tasks {
  import opened Wrappers

  type TaskId = id: nat | 0 < id witness 1
  type GoalId = nat

  const MAX_DEFERRALS := 5
  const STALL_WINDOW := 300
  const MAX_DELAY := 3600
  const DEFAULT_DEFERRAL := 60

  datatype Status = Pending | Running | AwaitingApproval | Done | Failed | Dead | Cancelled

  datatype Kind = IssueWork | Other(name: string)

  /** `goal_pending:G`, `goal:G`, or any other producer's tag. */
  datatype Source = Staged(goal: GoalId) | Live(goal: GoalId) | Plain(tag: string)

  /** Idempotency keys after stripping; NoKey rows are never de-duplicated. */
  datatype Key = NoKey | GoalKey(goal: GoalId, generation: nat, index: nat) | IssueKey(issue: string) | OtherKey(text: string)

  datatype Task = Task(
    kind: Kind, source: Source, key: Key, maxAttempts: nat, status: Status, attempts: nat,
    rateLimits: nat, stalls: nat, updatedTs: int, scheduledFor: int, approval: Option<string>)

  datatype Board = Board(tasks: map<TaskId, Task>, nextId: TaskId, pickups: map<string, TaskId>)

  const EMPTY := Board(map[], 1, map[])

  datatype Entry = Entry(kind: Kind, source: Source, key: Key, maxAttempts: int, scheduledFor: int)

  datatype Op =
    | Enqueue(entry: Entry, padded: bool, now: int)
    | EnqueueMany(entries: seq<Entry>, now: int)
    | PickUp(issue: string, cap: nat, now: int)
    | Activate(ids: set<TaskId>, goal: GoalId, now: int)
    | Claim(id: TaskId, now: int)
    | Complete(id: TaskId, fence: Option<nat>, now: int)
    | AwaitApproval(id: TaskId, approval: string, fence: Option<nat>, now: int)
    | Resolve(approval: string, approved: bool, now: int)
    | FailIfRunning(id: TaskId, fence: Option<nat>, now: int)
    | RetryOrDead(id: TaskId, fence: Option<nat>, delay: Option<int>, now: int)
    | Defer(id: TaskId, attempt: nat, delay: Option<int>, now: int)
    | Stall(id: TaskId, attempt: nat, staleBefore: Option<int>, now: int)
    | Cancel(id: TaskId, now: int)
    | CancelRunning(id: TaskId, attempt: nat, now: int)
    | Touch(id: TaskId, attempt: nat, now: int)
    | Retry(id: TaskId, now: int)
    | RetryAllFailed(now: int)
    | PurgeDone(cutoff: int)
    | PurgeFailed(cutoff: int)
    | BulkCancel(kind: Option<Kind>, now: int)

  // ---- one row ----

  predicate Exhausted(t: Task) {
    t.attempts - t.rateLimits >= t.maxAttempts
  }

  predicate Fenced(t: Task, fence: Option<nat>) {
    fence.None? || t.attempts == fence.value
  }

  function Later(a: int, b: int): int {
    if a < b then b else a
  }

  /** A usable delay is positive and at most an hour; anything else is the default. */
  function Delay(delay: Option<int>, default: nat): nat {
    if delay.None? || delay.value <= 0 then default else if delay.value > MAX_DELAY then MAX_DELAY else delay.value
  }

  function Set(t: Task, status: Status, now: int): Task {
    t.(status := status, updatedTs := now)
  }

  function Claimed(t: Task, now: int): Task {
    if !t.status.Pending? then t
    else if Exhausted(t) then Set(t, Dead, now)
    else Set(t, Running, now).(attempts := t.attempts + 1)
  }

  function Retried(t: Task, delay: Option<int>, now: int): Task {
    var d := Delay(delay, 0);
    if Exhausted(t) then Set(t, Dead, now)
    else Set(t, Pending, now).(scheduledFor := if d == 0 then t.scheduledFor else Later(t.scheduledFor, now + d))
  }

  function Deferred(t: Task, delay: Option<int>, now: int): Task {
    Set(t, if t.rateLimits + 1 >= MAX_DEFERRALS then Dead else Pending, now).(
      rateLimits := t.rateLimits + 1,
      scheduledFor := Later(t.scheduledFor, now + Delay(delay, DEFAULT_DEFERRAL)))
  }

  function Stalled(t: Task, now: int): Task {
    Set(t, if t.stalls >= 1 || Exhausted(t) then Dead else Pending, now).(stalls := t.stalls + 1)
  }

  predicate Stale(t: Task, staleBefore: Option<int>) {
    staleBefore.None? || t.updatedTs <= staleBefore.value
  }

  /** What `op` makes of row `id`; None when it deletes the row. */
  function Effect(id: TaskId, t: Task, op: Op): Option<Task> {
    match op
    case Enqueue(_, _, _) => Some(t)
    case EnqueueMany(_, _) => Some(t)
    case PickUp(_, _, _) => Some(t)
    case Activate(ids, goal, now) =>
      Some(if id in ids && t.status.Pending? && t.source.Staged? then t.(source := Live(goal), updatedTs := now) else t)
    case Claim(i, now) => Some(if i == id then Claimed(t, now) else t)
    case Complete(i, fence, now) =>
      Some(if i == id && (t.status.Running? || t.status.AwaitingApproval?) && Fenced(t, fence) then Set(t, Done, now) else t)
    case AwaitApproval(i, approval, fence, now) =>
      Some(if i == id && t.status.Running? && Fenced(t, fence)
           then Set(t, AwaitingApproval, now).(approval := Some(approval)) else t)
    case Resolve(approval, approved, now) =>
      Some(if t.status.AwaitingApproval? && t.approval == Some(approval)
           then Set(t, if approved then Done else Failed, now) else t)
    case FailIfRunning(i, fence, now) =>
      Some(if i == id && t.status.Running? && Fenced(t, fence) then Set(t, Failed, now) else t)
    case RetryOrDead(i, fence, delay, now) =>
      Some(if i == id && t.status.Running? && Fenced(t, fence) then Retried(t, delay, now) else t)
    case Defer(i, attempt, delay, now) =>
      Some(if i == id && t.status.Running? && t.attempts == attempt then Deferred(t, delay, now) else t)
    case Stall(i, attempt, staleBefore, now) =>
      Some(if i == id && t.status.Running? && t.attempts == attempt && Stale(t, staleBefore) then Stalled(t, now) else t)
    case Cancel(i, now) => Some(if i == id && t.status.Pending? then Set(t, Cancelled, now) else t)
    case CancelRunning(i, attempt, now) =>
      Some(if i == id && t.status.Running? && t.attempts == attempt then Set(t, Cancelled, now) else t)
    case Touch(i, attempt, now) =>
      Some(if i == id && t.status.Running? && t.attempts == attempt then t.(updatedTs := now) else t)
    case Retry(i, now) => Some(if i == id && t.status.Failed? && !Exhausted(t) then Set(t, Pending, now) else t)
    case RetryAllFailed(now) => Some(if t.status.Failed? && !Exhausted(t) then Set(t, Pending, now) else t)
    case PurgeDone(cutoff) => if t.status.Done? && t.updatedTs <= cutoff then None else Some(t)
    case PurgeFailed(cutoff) => if t.status.Failed? && t.updatedTs <= cutoff then None else Some(t)
    case BulkCancel(kind, now) =>
      Some(if t.status.Pending? && (kind.None? || kind.value == t.kind) then Set(t, Cancelled, now) else t)
  }

  // ---- the table ----

  predicate KeyTaken(tasks: map<TaskId, Task>, key: Key) {
    !key.NoKey? && exists id | id in tasks :: tasks[id].key == key
  }

  predicate Admissible(e: Entry, padded: bool) {
    e.maxAttempts >= 1 && !e.kind.IssueWork? && (e.key.IssueKey? ==> padded)
  }

  function NewTask(e: Entry, now: int): Task {
    Task(e.kind, e.source, e.key, if e.maxAttempts < 0 then 0 else e.maxAttempts, Pending, 0, 0, 0, now, e.scheduledFor, None)
  }

  function Insert(b: Board, t: Task): Board {
    b.(tasks := b.tasks[b.nextId := t], nextId := b.nextId + 1)
  }

  /** The whole batch, or None when any entry is refused. */
  function InsertAll(b: Board, entries: seq<Entry>, now: int): Option<Board>
    decreases |entries|
  {
    if entries == [] then Some(b)
    else if !Admissible(entries[0], false) || KeyTaken(b.tasks, entries[0].key) then None
    else InsertAll(Insert(b, NewTask(entries[0], now)), entries[1..], now)
  }

  predicate IsActive(t: Task) {
    t.status.Pending? || t.status.Running? || t.status.AwaitingApproval?
  }

  function InFlight(b: Board): set<string> {
    set k | k in b.pickups && b.pickups[k] in b.tasks && IsActive(b.tasks[b.pickups[k]])
  }

  predicate MayPickUp(b: Board, issue: string, cap: nat) {
    && issue !in b.pickups
    && |InFlight(b)| < cap
    && !KeyTaken(b.tasks, IssueKey(issue))
  }

  function IssueTask(issue: string, now: int): Task {
    NewTask(Entry(IssueWork, Plain("github-issue"), IssueKey(issue), 1, 0), now)
  }

  function Inserted(b: Board, op: Op): Board {
    match op
    case Enqueue(entry, padded, now) =>
      if Admissible(entry, padded) && !KeyTaken(b.tasks, entry.key) then Insert(b, NewTask(entry, now)) else b
    case EnqueueMany(entries, now) =>
      (match InsertAll(b, entries, now) case Some(after) => after case None => b)
    case PickUp(issue, cap, now) =>
      if MayPickUp(b, issue, cap)
      then Insert(b, IssueTask(issue, now)).(pickups := b.pickups[issue := b.nextId])
      else b
    case _ => b
  }

  function Next(b: Board, op: Op): Board {
    if op.Enqueue? || op.EnqueueMany? || op.PickUp? then Inserted(b, op)
    else b.(tasks := map id | id in b.tasks && Effect(id, b.tasks[id], op).Some? :: Effect(id, b.tasks[id], op).value)
  }

  /** `fail`, which looks at no state and no token. */
  function FailRow(b: Board, id: TaskId, now: int): Board {
    if id in b.tasks then b.(tasks := b.tasks[id := Set(b.tasks[id], Failed, now)]) else b
  }

  /** The rows waiting on one approval. */
  function AwaitingOn(tasks: map<TaskId, Task>, approval: string): set<TaskId> {
    set id | id in tasks && tasks[id].status.AwaitingApproval? && tasks[id].approval == Some(approval)
  }

  function Run(b: Board, ops: seq<Op>): Board
    decreases |ops|
  {
    if ops == [] then b else Run(Next(b, ops[0]), ops[1..])
  }
}
