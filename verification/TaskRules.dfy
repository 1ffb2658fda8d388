/** What each board operation does for whoever may ask for it, in the board's own terms. */
module TaskRules {
  import opened Wrappers
  import opened Tasks

  /** The row after the operation. */
  function Row(b: Board, op: Op, id: TaskId): Task
    requires id in Next(b, op).tasks
  {
    Next(b, op).tasks[id]
  }

  // ---- how a row may move ----

  /** From being handed out to ending: the only moves between statuses there are. */
  predicate Moves(a: Status, b: Status) {
    match a
    case Pending => b in {Running, Dead, Cancelled}
    case Running => b in {AwaitingApproval, Done, Failed, Pending, Dead, Cancelled}
    case AwaitingApproval => b in {Done, Failed}
    case Failed => b == Pending
    case Done => false
    case Dead => false
    case Cancelled => false
  }

  function TimeOf(op: Op): int {
    match op
    case PurgeDone(cutoff) => cutoff
    case PurgeFailed(cutoff) => cutoff
    case _ => op.now
  }

  /** An operation moves an existing row along these moves only, stamping it; deletes only done
      or failed rows no younger than the cutoff; and never changes what the row is for. */
  lemma RowsMoveAlong(b: Board, op: Op, id: TaskId)
    requires id in b.tasks && !(op.Enqueue? || op.EnqueueMany? || op.PickUp?)
    ensures var t := b.tasks[id];
            if id !in Next(b, op).tasks
            then ((op.PurgeDone? && t.status == Done) || (op.PurgeFailed? && t.status == Failed)) && t.updatedTs <= op.cutoff
            else
              var u := Row(b, op, id);
              && (u.status != t.status ==> Moves(t.status, u.status) && u.updatedTs == TimeOf(op))
              && (u != t ==> u.updatedTs == TimeOf(op))
              && (u.kind, u.key, u.maxAttempts) == (t.kind, t.key, t.maxAttempts)
              && (u.source != t.source ==> op.Activate? && id in op.ids && t.status == Pending && t.source.Staged?)
              && t.attempts <= u.attempts && t.rateLimits <= u.rateLimits && t.stalls <= u.stalls && t.scheduledFor <= u.scheduledFor
  {
  }

  // ---- who may move it ----

  /** Unfenced, or fenced with the row's current token. */
  predicate Current(t: Task, fence: Option<nat>) {
    fence == None || fence == Some(t.attempts)
  }

  /** Whoever holds the current token of a running row, or needs none, has the last word on it. */
  lemma HolderDecides(b: Board, id: TaskId, fence: Option<nat>, approval: string, now: int)
    requires id in b.tasks && b.tasks[id].status == Running && Current(b.tasks[id], fence)
    ensures id in Next(b, Complete(id, fence, now)).tasks && Row(b, Complete(id, fence, now), id) == b.tasks[id].(status := Done, updatedTs := now)
    ensures id in Next(b, FailIfRunning(id, fence, now)).tasks
         && Row(b, FailIfRunning(id, fence, now), id) == b.tasks[id].(status := Failed, updatedTs := now)
    ensures id in Next(b, AwaitApproval(id, approval, fence, now)).tasks
         && Row(b, AwaitApproval(id, approval, fence, now), id)
            == b.tasks[id].(status := AwaitingApproval, updatedTs := now, approval := Some(approval))
  {
  }

  lemma TokenDecides(b: Board, id: TaskId, now: int)
    requires id in b.tasks && b.tasks[id].status == Running
    ensures var k := b.tasks[id].attempts;
            && id in Next(b, CancelRunning(id, k, now)).tasks
            && Row(b, CancelRunning(id, k, now), id) == b.tasks[id].(status := Cancelled, updatedTs := now)
            && id in Next(b, Touch(id, k, now)).tasks && Row(b, Touch(id, k, now), id) == b.tasks[id].(updatedTs := now)
  {
  }

  // ---- when a row may run again ----

  /** A positive delay up to an hour is kept, a longer one is an hour, and none or a useless one
      is what is usual: nothing for a retry, a minute for a deferral. */
  predicate Pauses(delay: Option<int>, usual: nat, pause: int) {
    match delay
    case None => pause == usual
    case Some(d) => if d <= 0 then pause == usual else if d <= 3600 then pause == d else pause == 3600
  }

  /** A retry by the holder hands the row out again, not before its pause is over, while it has
      attempts left; then it is dead. */
  lemma RetryMeans(b: Board, id: TaskId, fence: Option<nat>, delay: Option<int>, now: int, pause: int)
    requires id in b.tasks && b.tasks[id].status == Running && Current(b.tasks[id], fence) && Pauses(delay, 0, pause)
    ensures var t, op := b.tasks[id], RetryOrDead(id, fence, delay, now);
            && id in Next(b, op).tasks
            && var u := Row(b, op, id);
            if t.attempts - t.rateLimits < t.maxAttempts
            then && u == t.(status := Pending, updatedTs := now, scheduledFor := u.scheduledFor)
                 && u.scheduledFor >= t.scheduledFor && (pause > 0 ==> u.scheduledFor >= now + pause)
                 && u.scheduledFor in {t.scheduledFor, now + pause}
            else u == t.(status := Dead, updatedTs := now)
  {
  }

  /** A rate-limit deferral gives the attempt back and pauses the row, four times; the fifth is
      the end of it. */
  lemma DeferralMeans(b: Board, id: TaskId, delay: Option<int>, now: int, pause: int)
    requires id in b.tasks && b.tasks[id].status == Running && Pauses(delay, 60, pause)
    ensures var t, op := b.tasks[id], Defer(id, b.tasks[id].attempts, delay, now);
            && id in Next(b, op).tasks
            && var u := Row(b, op, id);
            && u == t.(status := if t.rateLimits < 4 then Pending else Dead, updatedTs := now, rateLimits := t.rateLimits + 1,
                       scheduledFor := u.scheduledFor)
            && u.scheduledFor >= t.scheduledFor && u.scheduledFor >= now + pause && u.scheduledFor in {t.scheduledFor, now + pause}
  {
  }

  /** A stalled attempt is handed out again once, if it has attempts left; a second stall, or no
      attempts left, is the end of it. An attempt heard from since is left alone. */
  lemma StallMeans(b: Board, id: TaskId, staleBefore: Option<int>, now: int)
    requires id in b.tasks && b.tasks[id].status == Running
    ensures var t, op := b.tasks[id], Stall(id, b.tasks[id].attempts, staleBefore, now);
            && id in Next(b, op).tasks
            && Row(b, op, id) ==
               if staleBefore.Some? && t.updatedTs > staleBefore.value then t
               else t.(status := if t.stalls == 0 && t.attempts - t.rateLimits < t.maxAttempts then Pending else Dead,
                       updatedTs := now, stalls := t.stalls + 1)
  {
  }

  /** An operator's retry brings back exactly the failed rows with attempts left. */
  lemma OperatorRetries(b: Board, id: TaskId, now: int)
    requires id in b.tasks
    ensures var t := b.tasks[id];
            var again := if t.status == Failed && t.attempts - t.rateLimits < t.maxAttempts
                         then t.(status := Pending, updatedTs := now) else t;
            && id in Next(b, Retry(id, now)).tasks && Row(b, Retry(id, now), id) == again
            && id in Next(b, RetryAllFailed(now)).tasks && Row(b, RetryAllFailed(now), id) == again
  {
  }

  /** A claim takes a pending row: it runs under the next token while attempts are left. */
  lemma ClaimMeans(b: Board, id: TaskId, now: int)
    requires id in b.tasks
    ensures var t := b.tasks[id];
            && id in Next(b, Claim(id, now)).tasks
            && Row(b, Claim(id, now), id) ==
               if t.status != Pending then t
               else if t.attempts - t.rateLimits < t.maxAttempts then t.(status := Running, updatedTs := now, attempts := t.attempts + 1)
               else t.(status := Dead, updatedTs := now)
  {
  }

  // ---- what goes in ----

  predicate KeyInUse(b: Board, key: Key) {
    key != NoKey && exists id | id in b.tasks :: b.tasks[id].key == key
  }

  /** A task goes in exactly when it may be tried at all, is not issue work, by kind or by key,
      and nobody has its key; it then waits, as given, under a new id. */
  lemma EnqueueMeans(b: Board, e: Entry, now: int)
    requires b.nextId !in b.tasks
    ensures var c := Next(b, Enqueue(e, false, now));
            if e.maxAttempts >= 1 && e.kind != IssueWork && !e.key.IssueKey? && !KeyInUse(b, e.key)
            then && b.nextId in c.tasks && c.tasks == b.tasks[b.nextId := c.tasks[b.nextId]]
                 && c.nextId == b.nextId + 1 && c.pickups == b.pickups
                 && var t := c.tasks[b.nextId];
                 && (t.kind, t.source, t.key, t.maxAttempts, t.scheduledFor) == (e.kind, e.source, e.key, e.maxAttempts, e.scheduledFor)
                 && (t.status, t.attempts, t.rateLimits, t.stalls, t.updatedTs, t.approval) == (Pending, 0, 0, 0, now, None)
            else c == b
  {
  }

  /** An issue is picked up exactly when it never was, no row has its key, and fewer than the cap
      of the issues picked up before are still in hand; it may be tried once. */
  lemma PickUpMeans(b: Board, issue: string, cap: nat, now: int)
    requires b.nextId !in b.tasks
    ensures var c := Next(b, PickUp(issue, cap, now));
            var inHand := set k | k in b.pickups && b.pickups[k] in b.tasks
                                  && b.tasks[b.pickups[k]].status in {Pending, Running, AwaitingApproval};
            if issue !in b.pickups && !KeyInUse(b, IssueKey(issue)) && |inHand| < cap
            then && b.nextId in c.tasks && c.tasks == b.tasks[b.nextId := c.tasks[b.nextId]] && c.nextId == b.nextId + 1
                 && c.pickups == b.pickups[issue := b.nextId]
                 && var t := c.tasks[b.nextId];
                 && (t.kind, t.key, t.maxAttempts, t.status, t.attempts, t.rateLimits, t.stalls)
                    == (IssueWork, IssueKey(issue), 1, Pending, 0, 0, 0)
                 && t.source.Plain? && t.updatedTs == now && t.scheduledFor == 0
            else c == b
  {
    var inHand := set k | k in b.pickups && b.pickups[k] in b.tasks && b.tasks[b.pickups[k]].status in {Pending, Running, AwaitingApproval};
    assert InFlight(b) == inHand;
  }

  // ---- what comes out ----

  /** Clearing away deletes exactly the done, or the failed, rows last touched by the cutoff. */
  lemma PurgeMeans(b: Board, cutoff: int, id: TaskId)
    ensures id in Next(b, PurgeDone(cutoff)).tasks <==> id in b.tasks && !(b.tasks[id].status == Done && b.tasks[id].updatedTs <= cutoff)
    ensures id in Next(b, PurgeFailed(cutoff)).tasks <==> id in b.tasks && !(b.tasks[id].status == Failed && b.tasks[id].updatedTs <= cutoff)
  {
  }

  /** Cancelling takes waiting rows only, and in bulk those of the kind named, if one is. */
  lemma CancelMeans(b: Board, id: TaskId, kind: Option<Kind>, now: int)
    requires id in b.tasks
    ensures var t := b.tasks[id];
            && id in Next(b, Cancel(id, now)).tasks && id in Next(b, BulkCancel(kind, now)).tasks
            && Row(b, Cancel(id, now), id) == (if t.status == Pending then t.(status := Cancelled, updatedTs := now) else t)
            && Row(b, BulkCancel(kind, now), id)
               == if t.status == Pending && (kind == None || kind == Some(t.kind)) then t.(status := Cancelled, updatedTs := now) else t
  {
  }

  /** A decision finishes exactly the rows waiting on that very approval. */
  lemma ResolutionMeans(b: Board, id: TaskId, approval: string, approved: bool, now: int)
    requires id in b.tasks
    ensures var t, op := b.tasks[id], Resolve(approval, approved, now);
            && id in Next(b, op).tasks
            && Row(b, op, id) == if t.status == AwaitingApproval && t.approval == Some(approval)
                                 then t.(status := if approved then Done else Failed, updatedTs := now) else t
  {
  }
}
