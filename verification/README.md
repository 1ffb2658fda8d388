# HiveOS durable autonomy protocols, verified

A Dafny model of the parts of HiveOS that keep promises over whole runs, across
crashes, restarts and several processes sharing one SQLite database, and proofs of
those promises. One command checks everything: `dafny verify dfyconfig.toml`.

## What is modelled

Each committed SQLite transaction is one atomic step. A run is any sequence of steps
by any processes; a crash is a step that loses memory and keeps the tables. Times are
integers that may move either way, identifiers are fresh, and whatever a model, tool,
worker or liveness probe answers is arbitrary.

- **Delegations.** `Delegations` holds the tables and the transition system,
  `DelegationInvariants` what every transaction keeps, `DelegationBudget` and
  `DelegationAuthority` the theorems over runs, `DelegationProfiles` what a creation
  gives and what of it any run keeps, `DelegationTerms` when each other transaction is
  accepted and exactly what it changes, `DelegationLedger` the ledger object whose
  methods are those transactions (its ancestor loop and its level-by-level revocation
  included), `Ancestry` what parent chains mean on any parent map, `DelegationTree`
  (with `TreeShapes` and `TreeSteps`) the bounded tree view, `FailedPages` the failure
  cursor.
- **Supervisor.** `Conversations` is the account of a whole conversation, turn by turn;
  `Interference` what other processes' transactions leave true; `Replies` which reply
  each frame is owed, given the ledger's answers, and `Questions` what those answers
  were given on; `WorkerSupervisor` puts an arbitrary worker in front of the ledger and
  lets other processes run any transactions between any two of the parent's.
- **Task board.** `Tasks` is the board, `TaskRules` when a row may move and how far,
  `TaskBudgets` the claim bound and the fencing, `LateDecisions` the bound when approval
  decisions commit row by row, `IssueWork` issue pickup, `TaskBoard` the object.
- **Goals.** `Goals` is the ledger's state machine and its counting theorems;
  `GoalPlans` the plan, stage, link, activate protocol over ledger and board with
  reconciliation, operators and crashes, and each evaluation transition a commit of its
  own; `GoalKeys` and `GoalSafety` what every step keeps, `GoalLinking` when linking is
  whole and dispatch safe, `GoalRecovery` what a pass repairs, `GoalUndo` what a planner
  that lost its goal takes back, `GoalLife` a whole undisturbed life, `GoalVerdicts`
  which plan a verdict lands on, `GoalCapacity` how many resumes keep every search
  complete; `SearchLimit` a run from the empty system with one more, `CrowdedGoals` one
  that hides a machine's work from its guard; `GoalLedger` and `Heartbeat` the objects.
- **Approvals.** `Approvals` is several processes' memories over one durable table, with
  threads and a crash possible after a row is consumed; `ApprovalSteps` what each step
  does; `ApprovalSafety` and `ApprovalTraces` the theorems; `ApprovalWrapper` the gate,
  the store and the wrapper objects.
- **Sessions.** `Sessions` and `SessionStore`: tables, index, links, transcripts.
- **Redaction.** `PercentHex`, `PercentDecoding`, `Redaction`, `EncodedSecrets`:
  canonical escapes, replacement, and the search under layers of encoding.
- **Turns.** `LoopGuard` and `Orchestrator`: the turn loop for arbitrary model and
  tools.

`Wrappers`, `Sums` and `Ordering` hold the shared vocabulary.

## What the proofs found

- With approvals resolved in one step, a task can be claimed `max_attempts + 4` times
  and no more: the fifth deferral kills it before another claim (`ClaimsBounded`,
  `ClaimBoundAttained`). But `resolve_approval` commits row by row and fails a rejected
  row without looking again, so a late rejection can make a dead row retryable. Each one
  that lands on a dead row adds a claim (`ClaimsWithRevivals`), and the bound then holds
  in every run exactly for tasks with one attempt (`BoundHoldsIff`), which issue work
  is.
- A reconciliation search reads the newest 100 staged rows of a goal. Every plan ends
  with nothing or its whole batch linked exactly when no reconciliation linked a find
  that missed some of its plan (`LinkedIsWholeBatchIff`), and dispatch stays within the
  links exactly when no reconciliation exposed an unlinked row
  (`DispatchableMeansLinkedIff`). A search matters only when it finds some of a plan
  still being made: then it must find all of it (`SearchesOkMeansLinksFit`), for
  otherwise the plan stays linked in part for good (`ShortSearchLinksPart`), and once it
  executes an undisturbed pass dispatches its unlinked rows (`PartLinkedIsExposed`).
  None of this can happen while no goal is resumed more than 30 times
  (`FewResumesLinkWhole`); with 31 it can (`OneResumeTooMany`,
  `UnlinkedRowBecomesDispatchable`). Idempotency keys never collide in any run.
- `begin_evaluation` and `complete` carry no generation, so a verdict can land on a
  later plan (`EvaluationIsNotFenced`). It lands on the plan that was read exactly when
  nobody won a planning claim on the goal in between (`VerdictLandsIff`,
  `CompletionLandsIff`), and then a plan completed because each of its tasks was seen
  done still has them done, or purged (`CompletedMeansSeenDone`).
- Issue work is claimed once per issue as long as no rate-limit deferral reaches it, and
  the heartbeat never defers it; a deferral always opens a second claim (`OncePerIssue`,
  `DeferralOpensSecondClaim`).
- The guard before a second goal is planned reads the 50 oldest live goals of all
  machines, so it misses this machine's work exactly when 50 or more of them are older
  than each of its own (`HasExecutingGoal`, `GuardMissesOwnGoal`).
- The ancestor check ends unless its walk stops at a running lapsed row on a parent
  cycle; there the sweep meets a row on every level (`SweepEndsIff`,
  `TwoRowCycleNeverEnds`). No reachable ledger has a cycle (`ForestHasNoCycle`).
- An id is approved at most as often as it is audited, and for any number of audits some
  run approves it that often (`GrantBoundAttained`): `audit_request` does not refuse an
  id it has already recorded. The callers audit each new request once.
- `append` commits its session before its message. A deletion in between leaves an
  orphan message, and only that does (`MessagesAlwaysBelongIff`,
  `DeletionMidAppendOrphans`).

## Model

| member | source | states |
|---|---|---|
| DelegationBudget.BranchCallsBounded | src/hive/agents/delegations.py:247-288 | Over every run, the successful model calls (likewise tool calls) of a root and all its descendants, counted on the trace, never exceed the root's branch maximum |
| DelegationBudget.BranchIsSubtree | src/hive/agents/delegations.py:213-318 | In every reachable ledger the rows charged to a root are exactly it and its descendants |
| DelegationBudget.RunSpends | src/hive/agents/delegations.py:524-550 | Calls counted on the trace equal what the branch's leases say was used: none is lost or counted twice |
| DelegationBudget.SpendingWithinBranch | src/hive/agents/delegations.py:524-550 | What the leases of a branch have used stays within its root's maximum, through reservation = sum of allowances |
| DelegationBudget.ClaimedAtMostOnce | src/hive/agents/delegations.py:378-414 | No delegation is claimed twice in any run, so it has at most one attempt and one lease |
| DelegationInvariants.AdmittedMeans | src/hive/agents/delegations.py:213-318 | What the admission checks of a creation establish: only a root has room for a child, and the child narrows tools, attempts and budget |
| DelegationInvariants.NextKeepsInv | src/hive/agents/delegations.py:192-421 | Every transaction keeps: height at most one, fan-out, concurrency per root, tools and attempts narrowing, reservation = sum of members' allowances and within the maximum, one attempt, lease use within its limits |
| DelegationInvariants.RunKeepsInv | src/hive/agents/delegations.py:192-701 | So every ledger reachable from an empty database satisfies them |
| DelegationAuthority.LossIsPermanent | src/hive/agents/delegations.py:423-471 | From a reachable ledger where a delegation is lost (ended, revoked, recorded expired, or below such a one), after any further run no claim, check, call or child creation on it or on any delegation then below it is accepted, at any time value |
| DelegationAuthority.LostMeansRefused | src/hive/agents/delegations.py:552-563 | Whatever exercises a lost delegation's authority is refused |
| DelegationAuthority.RunKeepsLost | src/hive/agents/delegations.py:736-762 | A lost delegation stays lost through any run |
| DelegationAuthority.RecordsLoss | src/hive/agents/delegations.py:716-745 | Finishing, revoking, recovery and a committed check that meets a lapsed grant, the delegation's own or that of the ancestor its walk stops at, each record the loss of the delegation concerned |
| DelegationAuthority.AncestorLapseIsLoss | src/hive/agents/delegations.py:716-734 | A check whose walk stops at a running ancestor past its deadline is refused, and leaves that ancestor and the checked delegation both lost |
| DelegationAuthority.AcceptedMeansLive | src/hive/agents/delegations.py:552-563 | An accepted check or call found the delegation and every ancestor running with an unexpired active grant, and a check then changed nothing |
| DelegationProfiles.CreateAcceptedIff | src/hive/agents/delegations.py:192-290 | In a reachable ledger a creation is admitted exactly when the role is known, the id new, and it is a root (on a machine with an identity if it may have children) or a child its parent may have: parent running on time, this process's, its role granting this one, room in depth, fan-out and every unit of the branch, and a tool in common |
| DelegationProfiles.CreateMeans | src/hive/agents/delegations.py:270-320 | And then exactly one new row is queued, with its role, capability and full share, and the parent's branch alone is charged with it |
| DelegationProfiles.RefusalMeans | src/hive/agents/delegations.py:192-268 | A refused creation names a reason that holds |
| DelegationProfiles.RunKeepsCharters | src/hive/agents/delegations.py:192-320 | Every ledger a run leaves holds each delegation to its role's profile and, for a child, to its parent: tools exactly those both allow, the lesser of the attempts, budget within both |
| DelegationProfiles.HeldToProfile | src/hive/agents/delegations.py:240-268 | So in every run no delegation holds a tool, a unit of budget or an attempt its role's profile does not give it, and a child's role is one its parent's role grants |
| DelegationTerms.CheckAcceptedIff | src/hive/agents/delegations.py:473-483 | In a reachable ledger a check accepts exactly the running attempt's own role, number and capability, on time, below a parent running on time |
| DelegationTerms.UseAcceptedIff | src/hive/agents/delegations.py:524-550 | And a use exactly when, besides, its lease is open with fewer used of that kind than its own terms allow |
| DelegationTerms.UseCounts | src/hive/agents/delegations.py:524-550 | A use adds one to its own count of its own lease, and nothing else changes |
| DelegationTerms.CheckRecords | src/hive/agents/delegations.py:716-745 | A check changes the table only when it meets a deadline passed, the attempt's own or its running parent's: that grant is expired and the usable ones directly below it are revoked |
| DelegationTerms.ClaimAcceptedIff | src/hive/agents/delegations.py:322-376 | A claim is won exactly for a queued, never claimed delegation of this machine with a usable grant and, below a parent, while this process runs the parent on time and fewer of its children run than may at once |
| DelegationTerms.ClaimStarts | src/hive/agents/delegations.py:378-421 | A won claim starts the clock, on the branch's window for a root that may have children and else on the worker's own, and opens an unused lease at the row's own limits |
| DelegationTerms.FinishMeans | src/hive/agents/delegations.py:423-456 | Finishing is for the running attempt alone; exactly its row, the usable grants below it and its open lease change |
| DelegationTerms.RevokeMeans | src/hive/agents/delegations.py:458-471 | Revoking is for the running attempt's owner; exactly its own usable grant and those below it change |
| DelegationTerms.RecoveryMeans | src/hive/agents/delegations.py:656-701 | Recovery fails exactly the running rows proven dead that other instances of this machine own, closes their leases, and changes nothing else |
| Ancestry.WalkClearIff | src/hive/agents/delegations.py:716-734 | The ancestor loop, on any parent map, answers yes exactly when the chain ends and every proper ancestor is live |
| Ancestry.SweepComplete | src/hive/agents/delegations.py:747-762 | When a level of the recursive sweep comes up empty, the levels before it are exactly the descendants |
| Ancestry.SweepEndsIff | src/hive/agents/delegations.py:747-762 | On any parent map, the sweep below a delegation comes to an empty level exactly when that delegation is on no cycle |
| DelegationLedger.ForestHasNoCycle | src/hive/agents/delegations.py:747-762 | In a forest of the ledger's shape nobody is on a parent cycle |
| DelegationLedger.TwoRowCycleNeverEnds | src/hive/agents/delegations.py:716-762 | On two running lapsed rows that are each other's parent, the walk above one stops at the other, and no level of the sweep it then starts is empty |
| DelegationLedger.Ledger.RevokeDescendants | src/hive/agents/delegations.py:747-762 | Terminates for any parent map in which the delegation is on no cycle, and takes away exactly the live grants of its descendants |
| DelegationLedger.Ledger.GrantIsActive | src/hive/agents/delegations.py:736-745 | A lapsed grant is expired with its whole subtree revoked; otherwise nothing changes |
| DelegationLedger.Ledger.AncestorsAuthorized | src/hive/agents/delegations.py:716-734 | On any parent map terminates, unless the row its walk stops at is running, lapsed and on a cycle; yes exactly when the chain is live, and then nothing changed |
| DelegationLedger.Ledger.Create | src/hive/agents/delegations.py:192-320 | Creation and the branch charge are one transaction of the model, whose acceptance, effect and refusals `CreateAcceptedIff`, `CreateMeans` and `RefusalMeans` spell out |
| DelegationLedger.Ledger.Claim | src/hive/agents/delegations.py:322-421 | A won claim issues attempt and lease; a refused one rolls back the expiry it noticed |
| DelegationLedger.Ledger.Finish | src/hive/agents/delegations.py:423-456 | Fenced by attempt; ends the row, closes its lease and revokes its descendants |
| DelegationLedger.Ledger.Revoke | src/hive/agents/delegations.py:458-471 | Only the owner of the running attempt; revokes the whole subtree |
| DelegationLedger.Ledger.AuthorizeAttempt | src/hive/agents/delegations.py:473-483 | The committed check of a presented credential |
| DelegationLedger.Ledger.ConsumeResource | src/hive/agents/delegations.py:524-550 | One use is charged exactly when the attempt is authorised and its open lease has room |
| DelegationLedger.Ledger.RecoverInterrupted | src/hive/agents/delegations.py:656-699 | Exactly the interrupted rows of dead processes fail and their leases close |
| DelegationTree.BuildTree | src/hive/agents/delegations.py:602-633 | On any parent pointers, cycles included: terminates, no repeated node, at most 16 levels and 500 nodes or fewer if asked; cut short exactly when a descendant is missing or the root is on a cycle, otherwise exactly the root and all its descendants; one is missing only for want of room or below the lowest level |
| TreeSteps.CutShortIff | src/hive/agents/delegations.py:602-633 | The builder's flag is set exactly when the root is on a cycle or some descendant is not in the tree |
| DelegationTree.Children | src/hive/agents/delegations.py:594-600 | The first children in creation order, the limit clamped to 1..500; all of them when they fit |
| FailedPages.CursorCuts | src/hive/agents/delegations.py:635-654 | The query past a row lists exactly what follows that row in the whole descending listing, timestamps that tie included |
| FailedPages.VisitFailures | src/hive/runtime.py:2261-2275 | The paging loop terminates and visits every failed row exactly once, newest first, for any page size |
| Conversations.PopIsHead | src/hive/agents/worker_supervisor.py:250-275 | Popping the first pending call of a name takes the head of that name's queue and disturbs no other name's |
| Conversations.UseKeepsOrder | src/hive/agents/worker_supervisor.py:250-275 | Per tool name, used calls followed by pending ones remain the model's calls in emission order |
| Conversations.UsesAreDistinct | src/hive/agents/worker_supervisor.py:250-275 | Since the last model turn no authorisation is used twice, when the model's call ids are distinct |
| Conversations.PendingDistinct | src/hive/agents/worker_supervisor.py:246-246 | With distinct ids the pending table is the model's list itself |
| Conversations.PendingMeans | src/hive/agents/worker_supervisor.py:246-246 | With ids repeated or not, the pending table holds for each id the last call the model made under it, and nothing else |
| Conversations.UseWasEmitted | src/hive/agents/worker_supervisor.py:246-290 | What an account of a whole conversation says of each use of any turn: the model made this call in that turn, and a later frame, before the next turn, asked for it by its name with the arguments it parses to |
| Conversations.OneUsePerFrame | src/hive/agents/worker_supervisor.py:250-290 | Over all turns, no frame leads to two uses |
| Conversations.UseIsAccounted | src/hive/agents/worker_supervisor.py:250-290 | Using up the first pending call of a name, for a frame with that name and those arguments, keeps the account of the whole conversation |
| Interference.UsedWithinLease | src/hive/agents/worker_supervisor.py:300-314 | In a reachable ledger a delegation's uses stay within its own allowance |
| Interference.OthersOnlyAdd | src/hive/agents/delegations.py:524-550 | Whatever transactions others run, a reachable ledger stays reachable and no use already counted is given back |
| Interference.BrokeredUses | src/hive/agents/delegations.py:524-550 | A granted use counts once, for its own kind only; a check or a refusal counts nothing |
| WorkerSupervisor.Supervisor.Consume | src/hive/agents/worker_supervisor.py:300-314 | Granted exactly when the ledger it met, after whatever others ran, accepts and pays; and then the ledger is one use ahead of what this parent has done |
| WorkerSupervisor.Supervisor.HandleModel | src/hive/agents/worker_supervisor.py:208-249 | A model turn gets exactly the reply owed to it; it is counted, paid for, entered as a new turn and replaces the pending calls, or leaves the account as it was |
| WorkerSupervisor.Supervisor.Authorized | src/hive/agents/worker_supervisor.py:292-298 | Yes exactly when the ledger it met, after whatever others ran, accepts the credential |
| WorkerSupervisor.Supervisor.RouteModel | src/hive/agents/worker_supervisor.py:208-235 | A model call is routed exactly when the turn is within its limit, only allowed tools are named and the ledger it met pays; it is counted either way |
| WorkerSupervisor.Supervisor.Take | src/hive/agents/worker_supervisor.py:250-282 | A pending call is taken exactly when it is the first of that name, allowed, and parses to the frame's own arguments |
| Replies.DispatchedIff | src/hive/agents/worker_supervisor.py:250-290 | What is owed to a tool frame: a dispatch exactly when the call is allowed, is the first pending of its name, has the frame's arguments, is within `max_per_tool`, and the ledger both authorises and pays |
| Replies.AnsweredIff | src/hive/agents/worker_supervisor.py:208-249 | What is owed to a model frame: the model's answer exactly when it gave one, the turn is within its limit, only allowed tools are named, and the ledger authorises and pays |
| Replies.ReleasedIff | src/hive/agents/worker_supervisor.py:162-206 | The result is released exactly for a correlated result frame and a clean exit with the attempt authorised before and after |
| WorkerSupervisor.Supervisor.Respond | src/hive/agents/worker_supervisor.py:162-206 | The reply to a frame, and what is remembered after it, are those owed to it given the verdicts of the ledgers met, each of them one the ledger passed through between the frame's arrival and the reply |
| WorkerSupervisor.Supervisor.HandleTool | src/hive/agents/worker_supervisor.py:250-290 | The reply is exactly the one owed: a dispatch uses up the first pending call of this name with the same parsed arguments, allowed, within `max_per_tool` and paid for, and is entered under the frame that asked for it; a refusal of the call taken uses it up too |
| WorkerSupervisor.Supervisor.Serve | src/hive/agents/worker_supervisor.py:162-206 | For any frames every reply, and the outcome, are exactly those owed given the verdicts of the ledgers met; in every turn the uses are that turn's calls in emission order per name, each asked for by a frame of its own with the same name and parsed arguments; dispatches and routed turns stay within the ledger allowance and the frame limit; a result is released only while still authorised |
| TaskBudgets.RunKeepsInv | src/hive/autonomy/tasks.py:295-494 | In every run: rate limits within attempts, attempts minus rate limits within the maximum, at most 5 deferrals and 2 stalls |
| TaskBudgets.ClaimsBounded | src/hive/autonomy/tasks.py:295-318 | A task is claimed at most max_attempts + 4 times in any interleaving of every board operation |
| TaskBudgets.ClaimBoundAttained | src/hive/autonomy/tasks.py:443-466 | For every budget some run claims a task exactly max_attempts + 4 times |
| LateDecisions.ClaimsWithRevivals | src/hive/autonomy/tasks.py:364-387 | With each approval decision committed as a read and then one transaction per row, a rejected row failed without another look: at most max_attempts + 4 claims, and one more for each rejection that lands on a row dead by then |
| LateDecisions.OneAttemptBounded | src/hive/autonomy/tasks.py:364-387 | A task with a single attempt keeps its bound however late decisions come |
| LateDecisions.RevivalBoundAttained | src/hive/autonomy/tasks.py:496-501 | With two attempts or more, for any number of late rejections some run claims the task once more for each |
| LateDecisions.BoundHoldsIff | src/hive/autonomy/tasks.py:364-387 | So max_attempts + 4 bounds a task's claims in every such run exactly when max_attempts is 1 |
| LateDecisions.UndisturbedDecision | src/hive/autonomy/tasks.py:364-387 | A decision nobody interrupts, committed row by row, is the one-step resolution |
| TaskBudgets.LateTokensAreInert | src/hive/autonomy/tasks.py:320-362 | Once the claim with a token is over, after any run no operation fenced with it changes the board and no claim is handed it again |
| TaskBudgets.NextOnRow | src/hive/autonomy/tasks.py:234-266 | Every operation, batches included, does to an existing row exactly its row effect; deleted ids never return |
| IssueWork.OncePerIssue | src/hive/autonomy/tasks.py:126-179 | Each issue is picked up at most once and claimed at most once, ever, through purge, recovery, retries and operator actions, when no rate-limit deferral lands on running issue work |
| IssueWork.DeferralOpensSecondClaim | src/hive/autonomy/tasks.py:443-466 | And a deferral that does land always opens a second claim |
| IssueWork.InFlightCapped | src/hive/autonomy/tasks.py:126-179 | Active pickups never pass the largest cap any pickup used |
| IssueWork.NextKeepsIssues | src/hive/autonomy/heartbeat.py:885-899 | The operations the heartbeat applies to issue work keep its rows one-shot and owned by their pickup |
| TaskBoard.TaskBoard.Enqueue | src/hive/autonomy/tasks.py:194-232 | A taken key returns the existing row; issue work and issue keys are refused |
| TaskBoard.TaskBoard.EnqueueMany | src/hive/autonomy/tasks.py:234-266 | All of a batch under consecutive ids, or none of it |
| TaskBoard.TaskBoard.EnqueueIssueWork | src/hive/autonomy/tasks.py:126-179 | Picks up exactly when the issue is new, its key free and the cap not reached |
| TaskBoard.TaskBoard.ActivateGoalBatch | src/hive/autonomy/tasks.py:268-280 | Exposes the hidden pending rows among the ids; true only when that was all of them |
| TaskBoard.TaskBoard.ClaimAttempt | src/hive/autonomy/tasks.py:295-318 | The token of a won claim is the new attempt count; an exhausted row dies instead |
| TaskBoard.TaskBoard.RetryOrDead | src/hive/autonomy/tasks.py:416-441 | Fenced retry with the delay clamped, or death when exhausted |
| TaskBoard.TaskBoard.DeferRateLimited | src/hive/autonomy/tasks.py:443-466 | Fenced deferral; the fifth kills it |
| TaskBoard.TaskBoard.StallOrDead | src/hive/autonomy/tasks.py:468-494 | Fenced stall; the second stall or exhaustion kills it |
| TaskBoard.TaskBoard.RecoverStalled | src/hive/autonomy/tasks.py:569-605 | The loop stalls exactly the overdue rows, through fenced transactions only, and counts those that live on |
| TaskBoard.TaskBoard.ResolveApproval | src/hive/autonomy/tasks.py:364-387 | The waiting rows are read and finished one by one; uninterrupted, exactly the rows waiting on this approval are finished, and their number returned |
| TaskBoard.TaskBoard.Complete | src/hive/autonomy/tasks.py:320-338 | Fenced completion of a running or waiting row |
| TaskRules.RowsMoveAlong | src/hive/autonomy/tasks.py:268-708 | Over every operation a row moves only along the board's transitions, under the operation's own time; what it is never changes and its counters never fall; it disappears only by a purge |
| TaskRules.ClaimMeans | src/hive/autonomy/tasks.py:295-318 | A claim runs a pending row under the next token while attempts less deferrals are below the maximum, and else kills it |
| TaskRules.HolderDecides | src/hive/autonomy/tasks.py:320-414 | Whoever holds the current token, or names none, may complete, fail or hand over a running row |
| TaskRules.TokenDecides | src/hive/autonomy/tasks.py:530-547 | Whoever holds the current token may cancel a running row or report it alive |
| TaskRules.RetryMeans | src/hive/autonomy/tasks.py:416-441 | A retried row with attempts left waits, and is due no earlier than before nor than now plus a delay kept up to an hour; one without dies |
| TaskRules.DeferralMeans | src/hive/autonomy/tasks.py:443-466 | A deferral gives the attempt back and pauses the row, a minute when no usable delay is named, four times; the fifth kills it |
| TaskRules.StallMeans | src/hive/autonomy/tasks.py:468-494 | A stalled attempt gets one more chance if attempts are left, unless it was heard from since |
| TaskRules.OperatorRetries | src/hive/autonomy/tasks.py:549-563 | An operator's retry, of one row or of all, brings back exactly the failed rows with attempts left |
| TaskRules.EnqueueMeans | src/hive/autonomy/tasks.py:194-232 | Exactly a valid entry whose key nobody has goes in, as one pending row with its own columns |
| TaskRules.PickUpMeans | src/hive/autonomy/tasks.py:126-179 | An issue is picked up exactly when it never was, no row has its key and fewer than the cap are in hand, as a one-attempt row |
| TaskRules.PurgeMeans | src/hive/autonomy/tasks.py:661-708 | A purge removes exactly the done, or the failed, rows no newer than its cutoff |
| TaskRules.CancelMeans | src/hive/autonomy/tasks.py:520-699 | Cancelling takes pending rows only, in bulk those of the kind named |
| TaskRules.ResolutionMeans | src/hive/autonomy/tasks.py:364-387 | A decision finishes exactly the rows waiting on that approval |
| Goals.PlansArePaidFor | src/hive/autonomy/goals.py:251-277 | In any order of operations the replan budget holds and every plan beyond the first is paid for by a replan or a resume |
| Goals.GenerationsBounded | src/hive/autonomy/goals.py:319-367 | From creation on, plan generations never exceed 1 + 2 + resumes |
| Goals.EvaluationIsNotFenced | src/hive/autonomy/goals.py:311-317 | Evaluation carries no generation: for every executing goal an interleaving completes it under a later plan nobody looked at |
| Goals.VerdictLandsIff | src/hive/autonomy/heartbeat.py:618-658 | Whatever happens between reading an executing goal and recording completion, replan or block on it, the verdict lands on the plan that was read exactly when no planning claim on the goal was won in between, and then that plan's links are those read |
| GoalVerdicts.RunIsActs | src/hive/autonomy/goals.py:251-367 | Seen from the goal ledger, every run of the whole system is a run of its transactions |
| GoalVerdicts.CompletionLandsIff | src/hive/autonomy/heartbeat.py:618-640 | The same of any run of heartbeats, operators, workers and crashes between reading a goal and its separately committed completion |
| GoalVerdicts.CompletedMeansSeenDone | src/hive/autonomy/heartbeat.py:618-640 | When an evaluation read the goal in a reachable system, saw each linked task done at some point since and was not overtaken by a planning claim, its completion is of the plan that was read, and every linked row of that plan, the whole batch if no partial find was linked, is done or was purged |
| GoalLedger.GoalLedger.ClaimPlanning | src/hive/autonomy/goals.py:251-277 | Claims the named goal, or this machine's oldest plannable one, and advances its generation |
| GoalLedger.GoalLedger.BeginExecution | src/hive/autonomy/goals.py:279-309 | Links the whole set and moves the goal, only while planning and at the expected generation |
| GoalLedger.GoalLedger.RequestReplan | src/hive/autonomy/goals.py:319-341 | Replans within the budget, else blocks |
| GoalLedger.GoalLedger.Transition | src/hive/autonomy/goals.py:386-407 | The guarded status update |
| GoalLedger.GoalLedger.TaskReferences | src/hive/autonomy/goals.py:369-384 | The rows linked to the goal's current generation |
| GoalLedger.ListedOnce | src/hive/autonomy/goals.py:231-249 | A listing holds each goal once, all in the statuses asked for |
| GoalLedger.ListedIff | src/hive/autonomy/goals.py:231-249 | A goal is listed exactly when fewer such goals than the clamped limit are older |
| GoalSafety.KeysNeverCollide | src/hive/autonomy/heartbeat.py:559-564 | On every run, at any search limit, a planner that holds a claim gets its whole batch in: none of its idempotency keys is taken |
| GoalSafety.RunKeepsInv | src/hive/autonomy/heartbeat.py:518-658 | On every run, at any search limit: what a plan has linked is part of the one batch it committed, every goal row belongs to its plan, a held claim is for a plan with no rows yet and nobody else holds it |
| GoalLinking.LinkedIsWholeBatchIff | src/hive/autonomy/heartbeat.py:559-606 | With any number of heartbeats and a crash between any two transactions, every plan has nothing or exactly its whole batch linked at the end of a run if and only if no reconciliation along it linked a find that missed a staged row of its plan |
| GoalLinking.LinkedIsWholeBatch | src/hive/autonomy/heartbeat.py:559-571 | So on such runs what a plan has linked is nothing or exactly the batch one enqueue committed |
| GoalLinking.PartialLinkIsForever | src/hive/autonomy/heartbeat.py:594-606 | From any reachable state, once a partial find is linked, after every further run that plan has exactly that part of its batch linked |
| GoalLinking.SearchesOkMeansLinksFit | src/hive/autonomy/heartbeat.py:594-600 | It is enough that each search that finds some of a plan still being made finds all of it; every other search is harmless however little it shows |
| GoalLinking.ShortSearchLinksPart | src/hive/autonomy/heartbeat.py:594-606 | And needed: from any reachable state such a search that shows only part, once settled, leaves the plan linked in part whatever happens later |
| GoalLinking.DispatchableMeansLinkedIff | src/hive/autonomy/heartbeat.py:580-592 | Throughout a run every dispatchable row under a goal is linked to it if and only if no reconciliation made a waiting row dispatchable that the ledger does not link; runs without a partial find linked are such runs |
| GoalLinking.DispatchableMeansLinked | src/hive/autonomy/heartbeat.py:518-616 | On runs without a partial find linked, a row is dispatchable under a goal only if the ledger links it to that goal |
| GoalLinking.CompletedMeansLinkedDone | src/hive/autonomy/heartbeat.py:618-640 | On every run, evaluation as one step completes a goal only when its current plan has rows linked, they are of the batch it committed, and all of them are done |
| GoalLinking.CompletedMeansAllDone | src/hive/autonomy/heartbeat.py:618-640 | On runs without a partial find linked, only when that plan's whole nonempty batch is done |
| GoalSafety.SearchFindsAllIff | src/hive/autonomy/heartbeat.py:594-600 | Reconciliation finds the whole unlinked batch exactly when every staged row of the plan is among the newest 100 staged rows of the goal |
| GoalSafety.StepKeepsInv | src/hive/autonomy/heartbeat.py:518-658 | Each commit and each crash keeps that, whatever the searches show; each of evaluation's transitions is a commit of its own |
| GoalSafety.LinkKeepsInv | src/hive/autonomy/goals.py:279-309 | Whoever moves a goal from planning to execution links the rows it holds to a plan that had none linked |
| GoalCapacity.StagedWithin | src/hive/autonomy/heartbeat.py:559-564 | In every reachable system a goal has at most three staged rows per plan made |
| GoalCapacity.FewResumesLinkWhole | src/hive/autonomy/heartbeat.py:583-606 | On every run in which no goal is resumed more than 30 times, every search shows every staged row, every plan links nothing or its whole batch, and every dispatchable row under a goal is linked to it |
| SearchLimit.OneResumeTooMany | src/hive/autonomy/heartbeat.py:583-606 | 30 is the most: a run from the empty system with 31 resumes of one goal ends with a plan linked in part |
| SearchLimit.UnlinkedRowBecomesDispatchable | src/hive/autonomy/heartbeat.py:583-606 | And that run goes on to make an unlinked row dispatchable |
| GoalRecovery.ReconcileFinishes | src/hive/autonomy/heartbeat.py:594-606 | A plan staged by a planner that died is finished by one undisturbed pass: executing, the whole batch linked, no waiting row hidden |
| GoalRecovery.ReconcileActivates | src/hive/autonomy/heartbeat.py:580-592 | One that died between linking and activating is finished too, the ledger unchanged |
| GoalRecovery.PartLinkedIsExposed | src/hive/autonomy/heartbeat.py:580-592 | From any reachable state, a plan executing with part of its batch linked gets its waiting unlinked rows dispatched by one undisturbed pass |
| GoalRecovery.ReconcileBlocks | src/hive/autonomy/heartbeat.py:607-615 | A claim that left no rows is blocked, with board and links unchanged |
| GoalRecovery.UndisturbedPlanGoesLive | src/hive/autonomy/heartbeat.py:518-572 | Uninterrupted planning ends with the goal executing, exactly the new rows linked, each of them pending, dispatchable and with its three attempts unused, and the planner gone |
| GoalUndo.LostGoalIsUndone | src/hive/autonomy/heartbeat.py:559-572 | A planner that finds its goal taken away when it links cancels its batch: from any reachable state, after one cancellation per row no row of the batch waits, those that were pending are cancelled, and every other row and the ledger are as they were |
| GoalUndo.LostBatchIsUndone | src/hive/autonomy/heartbeat.py:565-572 | The same when its batch is no longer wholly waiting as it activates it |
| GoalLife.EvaluateCompletesIff | src/hive/autonomy/heartbeat.py:618-640 | An evaluation completes its executing goal exactly when the current plan has rows linked and each is known to be done |
| GoalLife.PlannedGoalCompletes | src/hive/autonomy/heartbeat.py:518-658 | From any reachable state a goal that may be planned is completed by one undisturbed planning, workers that claim and complete what it exposed, and an evaluation |
| Heartbeat.VerdictMeans | src/hive/autonomy/heartbeat.py:618-658 | When each verdict falls, over the recorded states of the current plan's tasks |
| Heartbeat.EvaluateOne | src/hive/autonomy/heartbeat.py:627-658 | One goal's judgement as the model's step |
| Heartbeat.EvaluateGoals | src/hive/autonomy/heartbeat.py:618-658 | The loop judges each of the 50 oldest executing goals once, only this machine's, and its counters are the numbers of goals that ended each way |
| Heartbeat.HasExecutingGoal | src/hive/autonomy/heartbeat.py:495-503 | The guard before a second goal is planned sees this machine's work exactly when some live goal of its has fewer than 50 live goals, of all machines, older than it |
| CrowdedGoals.GuardMissesOwnGoal | src/hive/autonomy/heartbeat.py:495-503 | A run from no goals at all leads there: behind 50 executing goals of another machine this machine's own executing goal is not seen |
| ApprovalSafety.GrantedAtMostOncePerAudit | src/hive/core/approval_enhancements.py:264-304 | Across processes, threads, restarts and crashes an id is returned as approved at most as often as it was audited |
| ApprovalSafety.GrantsAreSound | src/hive/core/approval_enhancements.py:264-304 | When each id is audited once, each approval is the only one of its id, for the call that was requested, no longer after its audit than the limit in force, and with the kill switch off |
| ApprovalSafety.SecondAuditGrantsAgain | src/hive/core/approval_enhancements.py:178-196 | A second audit lets another process approve the same id again |
| ApprovalSafety.GrantBoundAttained | src/hive/core/approval_enhancements.py:178-304 | The bound is exact: for any n some run from the empty system audits one id n times and approves it n times, unless requests expire on arrival |
| ApprovalSafety.StepConserves | src/hive/core/approval_enhancements.py:455-468 | Each audit is spent at most once: on a stored row, a row being acted on, or an approval |
| ApprovalSafety.StepKeepsInv | src/hive/core/approval_enhancements.py:219-238 | An item both held and stored has a known request time; a decision in flight is within it and with the switch off |
| ApprovalSafety.HistoryIsLatest | src/hive/core/approval_enhancements.py:444-453 | Each process's history is always the last `history_max` of the decisions it made since it started or was cleared |
| ApprovalTraces.ApprovalsAreWarranted | src/hive/core/approval_enhancements.py:264-304 | When each id is audited once, behind each approval of a run is a request of that call under that id, an audit, and a decision to approve no later than the limit after it |
| ApprovalTraces.KillSwitchStops | src/hive/core/approval_enhancements.py:325-357 | From when its switch is engaged until it is released or the process dies, a process approves nothing, whatever is decided, audited or reloaded meanwhile |
| ApprovalSteps.TakingMeans | src/hive/core/approval_enhancements.py:264-304 | A decision takes the stored row to reject it under the switch, to expire it past the limit, and else as decided; a sweep only what is past the limit; an emergency stop to reject it |
| ApprovalSteps.FinishingMeans | src/hive/core/approval_enhancements.py:444-468 | Only an item the gate holds is given up, recorded once and, exactly when that was decided, approved; another is dropped without a trace |
| ApprovalSteps.SwitchingMeans | src/hive/core/approval_enhancements.py:325-371 | Setting and releasing the switch change the switch alone; a process lost takes with it exactly what it had under way, and the table stays |
| ApprovalSteps.LockMeans | src/hive/core/approval_enhancements.py:264-304 | Nothing but a decision under way in the same process keeps another from starting |
| ApprovalSteps.RereadingMeans | src/hive/core/approval_enhancements.py:198-238 | A start or a rebind keeps the rows in time in table and gate, under their stored times, and what else the gate held |
| ApprovalWrapper.SettledIsTwoSteps | src/hive/core/approval_enhancements.py:455-468 | Taking and recording without interruption is the model's two steps |
| ApprovalWrapper.Gate.Resolve | Core/approval_gate.py:65-70 | The gate gives an item up once |
| ApprovalWrapper.SafetyStore.RecordApproval | src/hive/core/safety_state.py:69-88 | An id already stored keeps its row and so its time limit |
| ApprovalWrapper.SafetyStore.LoadPending | src/hive/core/safety_state.py:90-110 | Deletes exactly the rows asked for longer ago than the limit in force and returns the rest |
| ApprovalWrapper.SafetyStore.ConsumeApproval | src/hive/core/safety_state.py:112-128 | Takes a row once |
| ApprovalWrapper.Enhancements.Rehydrate | src/hive/core/approval_enhancements.py:219-238 | Live rows are put back with their stored times; what the gate holds is kept |
| ApprovalWrapper.Enhancements.AuditRequest | src/hive/core/approval_enhancements.py:178-196 | The time is noted before the gate is asked; an item it does not hold fails |
| ApprovalWrapper.Enhancements.TakeAndRecord | src/hive/core/approval_enhancements.py:444-468 | The durable row goes first; only an item the gate still holds is recorded |
| ApprovalWrapper.Enhancements.ResolveWithOutcome | src/hive/core/approval_enhancements.py:264-304 | Kill switch, then time limit (expired exactly when a limit is in force and less than now minus the request time), then the decision; approval only of a stored, held item with the switch off |
| ApprovalWrapper.Enhancements.ResolveWithHistory | src/hive/core/approval_enhancements.py:248-262 | An item comes back exactly for a real approval |
| ApprovalWrapper.Enhancements.SweepExpired | src/hive/core/approval_enhancements.py:373-393 | Takes out exactly the stored items whose known request time is longer ago than the limit; a second sweep finds none |
| ApprovalWrapper.Enhancements.EngageKillSwitch | src/hive/core/approval_enhancements.py:325-357 | Sets the switch, then ends every stored item the gate holds, unless it was already on |
| Sessions.SearchIsScan | src/hive/context/session_store.py:162-172 | After any appends and deletions the full-text join returns exactly the live messages a linear scan matches, although stale index rows remain |
| Sessions.LinksAlwaysResolve | src/hive/context/session_store.py:252-279 | In every run each link refers to an existing session |
| Sessions.MessagesAlwaysBelongIff | src/hive/context/session_store.py:111-128 | In a run of any writers' transactions from an empty database each message belongs to a session at every point exactly when every insert follows an operation that makes its session, with no deletion of it since |
| Sessions.MessagesStillBelong | src/hive/context/session_store.py:111-128 | When no insert finds its session gone, each message belongs to a session at the end of the run |
| Sessions.InsertBelongsIff | src/hive/context/session_store.py:111-128 | And an insert leaves an orphan exactly when its session was deleted since it was ensured |
| Sessions.DeletionMidAppendOrphans | src/hive/context/session_store.py:111-128 | From an empty database, a deletion between the two transactions of one append leaves its message without a session |
| Sessions.LimitIsSuffix | src/hive/context/session_store.py:130-140 | A limited read is the end of the full transcript, in order; a negative limit is none |
| Sessions.AppendExtends | src/hive/context/session_store.py:111-128 | An append puts one message at the end of its own transcript and leaves the others |
| Sessions.DeleteErases | src/hive/context/session_store.py:327-339 | A deletion erases one transcript and its search hits, and no other |
| Sessions.AgedMeans | src/hive/context/session_store.py:415-427 | Ninety idle days archive a session, thirty make an active one stale, and nothing else about it changes |
| SessionStore.SessionStore.Append | src/hive/context/session_store.py:111-128 | Ensure, then insert message and index row under a new id |
| SessionStore.SessionStore.DeleteSession | src/hive/context/session_store.py:327-339 | Deletes the session with its messages and links and counts the messages |
| SessionStore.SessionStore.DeleteArchived | src/hive/context/session_store.py:367-384 | Erases exactly the archived sessions last updated before the cutoff, and counts them |
| SessionStore.SessionStore.Search | src/hive/context/session_store.py:162-185 | At most `limit` of what a scan would find, by index or, for bad syntax, by substring |
| SessionStore.SessionStore.Sweep | src/hive/context/session_store.py:415-427 | Two updates age every session as one step does; both counts are of the sessions each update changed |
| SessionStore.SessionStore.BindLink | src/hive/context/session_store.py:252-279 | Moves a subject to a session, creating it if need be |
| PercentHex.AllDoneIsCanonical | src/hive/runtime.py:204-219 | A text is canonical exactly when the two hex digits every escape ends in, however nested, are upper-case and all else is as it was |
| PercentHex.CanonicalPercentHex | src/hive/runtime.py:204-219 | The in-place loop computes the canonical form |
| PercentHex.CanonIsIdempotent | src/hive/runtime.py:204-219 | Canonicalising again changes nothing |
| PercentHex.CanonKeepsText | src/hive/runtime.py:204-219 | Length is kept and only the case of hex digits changes |
| PercentDecoding.DecodeAgrees | src/hive/runtime.py:204-219 | Texts with one canonical form decode to texts with one canonical form |
| PercentDecoding.CanonDecodesAlike | src/hive/runtime.py:204-219 | So canonicalising first never changes what a text decodes to, at any depth, but for the case of the escapes left |
| Redaction.ReplaceSecretForm | src/hive/runtime.py:222-236 | Terminates, replaces exactly the leftmost non-overlapping matches between canonical forms, and copies every other character as written |
| Redaction.LeftmostIsUnique | src/hive/runtime.py:222-236 | There is only one such list of matches |
| Redaction.MatchesAreTheForm | src/hive/runtime.py:225-232 | What is replaced differs from the form only in the case of letters |
| Redaction.ScanLayers | src/hive/runtime.py:250-263 | The loop's bound never cuts it short: it finds a fragment exactly when some layer of the unbounded chain shows one |
| Redaction.ContainsDecodedSecret | src/hive/runtime.py:239-264 | Over-limit text counts as containing a secret; otherwise exactly when some decoder's chain shows a fragment |
| Redaction.RevealsIffSomeLayer | src/hive/runtime.py:250-263 | For any decoder that never lengthens a text, and whose result is final when it keeps the length: the loop finds a fragment exactly when the text decoded some number of times shows one |
| Redaction.BothDecodersSeeEveryLayer | src/hive/runtime.py:239-264 | Both of the source's decoders are such: percent-decoding, and the one that first reads plus as space |
| EncodedSecrets.EncodedSecretIsFound | src/hive/runtime.py:239-264 | A fragment percent-encoded any number of times, anywhere in a text whose beginning has no percent sign, is found |
| EncodedSecrets.PlainTextIsSearchedOnce | src/hive/runtime.py:239-264 | Text without a percent sign is searched as it stands, and once more reading plus as space, and for nothing else |
| LoopGuard.LoopGuard.Check | src/hive/agents/loop_guard.py:30-46 | Objects exactly when the tool is over budget, else when the last calls are all the same, else on A-B-A-B |
| LoopGuard.PassedCallsAreSpread | src/hive/agents/loop_guard.py:30-46 | Among calls that passed: no tool over budget, no call repeated `max_identical` times in a row, no alternation, anywhere |
| Orchestrator.RunLoop | src/hive/agents/orchestrator.py:232-342 | For any model and tools the report is what some chain of transcripts led to, each following from the last by exactly what the model said and the tools gave: a final text with no tool calls, the guard's objection and the call after it, the iterations run out, or an exception |
| Orchestrator.TranscriptsComplete | src/hive/agents/orchestrator.py:247-322 | At the start of every turn's model call each message with tool calls is followed by exactly one answer per call, in order, and the transcript has grown |
| Orchestrator.FollowingIsPaired | src/hive/agents/orchestrator.py:258-322 | A turn turns a complete transcript into a longer complete one |
| Orchestrator.ModelSeesResults | src/hive/agents/orchestrator.py:260-322 | At each turn's model call the answer to each call of the turn before carries, under its id and name, the very text its tool returned or the note of the exception it raised |
| Orchestrator.NoticesTell | src/hive/agents/orchestrator.py:272-290 | A notice answers the call objected to and tells the three objections apart |
| Orchestrator.AnswerCalls | src/hive/agents/orchestrator.py:260-322 | Each call is answered in order with the text the tool returned, or the note of the exception it raised, at that point, up to the one the guard objects to, which is answered with its notice |
| Orchestrator.TurnIsBounded | src/hive/agents/orchestrator.py:247-342 | At most `max_iterations + 1` model calls and `max_per_tool` runs of any tool, and the tools run are the first the model asked for, in its order |

## Left out

- SQLite mechanics: lock retries, journal mode, schema migration, legacy rows and the shared connection of one process's threads; a `BEGIN IMMEDIATE … commit` is one step.
- Clocks, uuids, hashes, JSON, HMAC and keyring access: integer time, fresh ids, and the values themselves where the source compares digests.
- Event logs, summaries, run ids, payloads and error texts of delegations, tasks and goals, and record listings that only read.
- The process-liveness probe of `recover_interrupted`: the set of dead processes is a parameter, and one live ledger per process is assumed, as the source does.
- WorkerSupervisor.Supervisor.Serve: the time each question is put to the ledger is a parameter, one reading per question; the frames and the model's answers are parameters too.
- The supervisor without a ledger, its transcript messages, tool schemas, subprocess and timeouts: the model has a ledger and starts at the frame loop.
- `authorize_attempt` and `revoke` of the delegation ledger read before their first write without `BEGIN IMMEDIATE`, so another process may commit in between: each is one step.
- `enqueue` checks the issue prefix before stripping the key, `enqueue_many` after; a flag says whether the key was padded.
- GoalLinking.DispatchableMeansLinked: stated for runs in which no reconciliation links a partial find, because without a condition it is false (`SearchLimit.UnlinkedRowBecomesDispatchable`); the exact condition is in `DispatchableMeansLinkedIff`.
- GoalLinking.LinkedIsWholeBatch: stated under the same condition, which `LinkedIsWholeBatchIff` shows to be exact.
- GoalLinking.CompletedMeansAllDone: takes the completing evaluation as one step, on runs without a partial find linked; as it commits it is `GoalVerdicts.CompletedMeansSeenDone`.
- GoalLinking.CompletedMeansLinkedDone: takes the completing evaluation as one step too, for every run before it.
- IssueWork.OncePerIssue: stated for runs in which no deferral lands on running issue work, as the heartbeat never defers it, because a deferral opens a second claim (`DeferralOpensSecondClaim`).
- ApprovalSafety.GrantsAreSound: stated for runs that audit each id once, as both callers do, because a second audit allows a second approval.
- ApprovalWrapper.Enhancements.SweepExpired: says which records are appended, not their order within one sweep, and judges each item at the sweep rather than on a list another thread may have changed since.
- TaskBoard.TaskBoard.ResolveApproval: its contract is that of a call nobody interrupts; `LateDecisions` lets others act between its commits.
- TaskBudgets.ClaimsBounded: takes a resolution as one step, as every module but `LateDecisions` does; there the bound has its exact condition.
- GoalVerdicts.CompletedMeansSeenDone: takes a resolution as one step too; a rejection that comes late can fail a task after it was done.
- The planning and reconciliation passes of the heartbeat are steps of the protocol, not methods, so that other processes can act between their commits; evaluation is a method, and each of its transitions a step.
- GoalLife.PlannedGoalCompletes: one undisturbed course; goal progress under crashes is not claimed: a crash between `begin_evaluation` and `complete` leaves a goal evaluating, which nothing revisits.
- Detaching the approval wrapper from its store, event publication, batch resolution and history queries.
- `opaque_subject_id`, titles, summaries, prompts and statistics of sessions; search ranking (which of more than `limit` hits are returned is left open); link validation is a flag.
- Percent-decoding of non-ASCII bytes as UTF-8, the fragments and forms of a secret, and the generic redactor: one decoded byte is one character, and forms are any nonempty strings.
- Prompt building, compaction, event sinks, planner hints, the list of tool results handed back beside the text, and persistence around the turn loop; the wording of notices; two calls count as the same when tool and arguments are equal.
- Docker, HTTP, Telegram, GitHub and the dashboard; cron, commitments, the Kanban board, the budgeter and configuration.
