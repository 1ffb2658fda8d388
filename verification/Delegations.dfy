/** The delegation tables and, for each operation, the transaction it commits. */
module Delegations {
  import opened Wrappers
  import opened Ancestry

  datatype Status = Queued | Running | ReviewRequired | Completed | Failed | Cancelled

  type Terminal = o: Status | o != Queued && o != Running witness Failed

  datatype Grant = Issued | Active | Expired | Revoked

  datatype Unit = Turns | Calls | Seconds

  datatype Budget = Budget(turns: nat, calls: nat, seconds: nat) {
    function Of(u: Unit): nat {
      match u case Turns => turns case Calls => calls case Seconds => seconds
    }

    function Plus(b: Budget): Budget {
      Budget(turns + b.turns, calls + b.calls, seconds + b.seconds)
    }

    function Max(b: Budget): Budget {
      Budget(if turns < b.turns then b.turns else turns,
             if calls < b.calls then b.calls else calls,
             if seconds < b.seconds then b.seconds else seconds)
    }
  }

  const NOTHING := Budget(0, 0, 0)

  datatype Profile = Profile(
    maxAttempts: nat, tools: set<string>, childRoles: set<string>, maxDepth: nat,
    maxChildren: nat, worker: Budget, branch: Budget, maxActive: nat)

  type Profiles = map<string, Profile>

  /** One runtime process: its configured machine identity ("" when unset) and instance id. */
  datatype Caller = Caller(machine: string, instance: string)

  /** The columns fixed when the delegation is created. */
  datatype Terms = Terms(
    parent: Option<Id>, root: Id, role: string, depth: nat, maxDepth: nat, maxChildren: nat,
    maxAttempts: nat, target: string, tools: set<string>, worker: Budget, branchMax: Budget,
    maxActive: nat, capability: nat, createdTs: int)

  /** A delegation row: its terms, its branch's running reservation, and its lifecycle columns. */
  datatype Row = Row(
    terms: Terms, reserved: Budget, status: Status, attempts: nat, updatedTs: int,
    owner: Caller, grant: Grant, deadline: int)

  const NOBODY := Caller("", "")

  datatype LeaseState = Open | Closed(outcome: Status)

  datatype Kind = Model | Tool

  datatype Lease = Lease(state: LeaseState, modelLimit: nat, modelUsed: nat, toolLimit: nat, toolUsed: nat) {
    function Limit(k: Kind): nat { match k case Model => modelLimit case Tool => toolLimit }

    function Used(k: Kind): nat { match k case Model => modelUsed case Tool => toolUsed }

    function Spend(k: Kind): Lease {
      match k
      case Model => this.(modelUsed := modelUsed + 1)
      case Tool => this.(toolUsed := toolUsed + 1)
    }
  }

  type Rows = map<Id, Row>

  type Leases = map<(Id, nat), Lease>

  datatype State = State(rows: Rows, leases: Leases)

  const EMPTY := State(map[], map[])

  /** What a worker presents: the attempt it claims to be, and the opaque capability. */
  datatype Credential = Credential(id: Id, capability: nat, role: string, attempt: nat)

  // ---- authority ----

  function ParentsOf(rows: Rows): Parents {
    map id | id in rows :: rows[id].terms.parent
  }

  predicate GrantHolds(row: Row, now: int) {
    row.grant.Active? && row.deadline >= now
  }

  predicate GrantLapsed(row: Row, now: int) {
    row.grant.Active? && row.deadline < now
  }

  predicate IsLive(row: Row, now: int) {
    row.status.Running? && GrantHolds(row, now)
  }

  function LiveSet(rows: Rows, now: int): (live: set<Id>)
    ensures live <= ParentsOf(rows).Keys
  {
    set id | id in rows && IsLive(rows[id], now)
  }

  ghost function DescendantsOf(rows: Rows, a: Id): set<Id> {
    set d | d in rows && Descends(ParentsOf(rows), d, a)
  }

  /** Revoke every still usable grant among `victims`. */
  function Demote(rows: Rows, victims: set<Id>): Rows {
    map id | id in rows ::
      if id in victims && (rows[id].grant.Issued? || rows[id].grant.Active?) then rows[id].(grant := Revoked)
      else rows[id]
  }

  /** Record that `a`'s grant ran out, which takes its whole subtree with it. */
  ghost function Lapse(rows: Rows, a: Id): Rows
    requires a in rows
  {
    Demote(rows[a := rows[a].(grant := Expired)], DescendantsOf(rows, a))
  }

  /** The ancestor check: its answer, and the expiry it records when it meets one. */
  ghost function VetAncestors(rows: Rows, id: Id, now: int): (bool, Rows) {
    match Walk(ParentsOf(rows), LiveSet(rows, now), if id in rows then rows[id].terms.parent else None, {id})
    case Clear => (true, rows)
    case Cyclic => (false, rows)
    case StoppedAt(a) =>
      if a in rows && rows[a].status.Running? && GrantLapsed(rows[a], now) then (false, Lapse(rows, a))
      else (false, rows)
  }

  predicate Presents(rows: Rows, c: Credential) {
    && c.id in rows
    && rows[c.id].terms.role == c.role
    && rows[c.id].status.Running?
    && rows[c.id].attempts == c.attempt
    && rows[c.id].terms.capability == c.capability
  }

  ghost function VetAttempt(rows: Rows, c: Credential, now: int): (bool, Rows) {
    if !Presents(rows, c) || !rows[c.id].grant.Active? then (false, rows)
    else if GrantLapsed(rows[c.id], now) then (false, Lapse(rows, c.id))
    else VetAncestors(rows, c.id, now)
  }

  // ---- creation ----

  datatype CreateError =
    | UnknownRole | NoMachineIdentity | ParentUnavailable | ParentNotLocal | RoleNotGranted
    | DepthExhausted | ChildBudgetExhausted | RootUnavailable | NoInheritedTools
    | BranchBudgetExhausted | DuplicateId

  function Least(a: int, b: int): int {
    if a < b then a else b
  }

  /** The share of a branch one more worker gets; None when any unit is used up. */
  function Share(want: Budget, cap: Budget, reserved: Budget): Option<Budget> {
    var t := Least(want.turns, cap.turns - reserved.turns);
    var c := Least(want.calls, cap.calls - reserved.calls);
    var s := Least(want.seconds, cap.seconds - reserved.seconds);
    if t < 1 || c < 1 || s < 1 then None else Some(Budget(t, c, s))
  }

  function ChildrenOf(rows: Rows, p: Id): set<Id> {
    set c | c in rows && rows[c].terms.parent == Some(p)
  }

  function RootTerms(profile: Profile, role: string, caller: Caller, id: Id, capability: nat, now: int)
    : Result<Terms, CreateError>
  {
    if profile.maxDepth > 0 && caller.machine == "" then Failure(NoMachineIdentity)
    else Success(Terms(
      parent := None, root := id, role := role, depth := 0, maxDepth := profile.maxDepth,
      maxChildren := profile.maxChildren, maxAttempts := profile.maxAttempts,
      target := if profile.maxDepth > 0 then caller.machine else "",
      tools := profile.tools, worker := profile.worker,
      branchMax := profile.branch.Max(profile.worker), maxActive := profile.maxActive,
      capability := capability, createdTs := now))
  }

  function ChildTerms(profiles: Profiles, rows: Rows, profile: Profile, role: string, caller: Caller,
                      p: Id, capability: nat, now: int): Result<Terms, CreateError>
  {
    if caller.machine == "" then Failure(NoMachineIdentity)
    else if p !in rows || !IsLive(rows[p], now) then Failure(ParentUnavailable)
    else
      var parent := rows[p].terms;
      if parent.target != caller.machine || rows[p].owner != caller then Failure(ParentNotLocal)
      else if parent.role !in profiles then Failure(UnknownRole)
      else if role !in profiles[parent.role].childRoles then Failure(RoleNotGranted)
      else if parent.depth + 1 > parent.maxDepth then Failure(DepthExhausted)
      else if |ChildrenOf(rows, p)| >= parent.maxChildren then Failure(ChildBudgetExhausted)
      else if parent.root !in rows then Failure(RootUnavailable)
      else if parent.tools * profile.tools == {} then Failure(NoInheritedTools)
      else
        match Share(profile.worker, rows[parent.root].terms.branchMax, rows[parent.root].reserved)
        case None => Failure(BranchBudgetExhausted)
        case Some(share) => Success(Terms(
          parent := Some(p), root := parent.root, role := role, depth := parent.depth + 1,
          maxDepth := parent.maxDepth, maxChildren := 0,
          maxAttempts := Least(profile.maxAttempts, parent.maxAttempts),
          target := caller.machine, tools := parent.tools * profile.tools, worker := share,
          branchMax := NOTHING, maxActive := 0, capability := capability, createdTs := now))
  }

  function NewTerms(profiles: Profiles, rows: Rows, caller: Caller, role: string, parent: Option<Id>,
                    id: Id, capability: nat, now: int): Result<Terms, CreateError>
  {
    if role !in profiles then Failure(UnknownRole)
    else
      var terms := match parent
        case None => RootTerms(profiles[role], role, caller, id, capability, now)
        case Some(p) => ChildTerms(profiles, rows, profiles[role], role, caller, p, capability, now);
      if terms.Success? && id in rows then Failure(DuplicateId) else terms
  }

  /** A root charges its own branch with its own worker allowance. */
  function FreshRow(terms: Terms): Row {
    Row(terms, if terms.parent.None? then terms.worker else NOTHING, Queued, 0, terms.createdTs, NOBODY, Issued, 0)
  }

  /** Charge the branch and insert the row, as one transaction. */
  function Insert(rows: Rows, id: Id, terms: Terms): Rows
    requires terms.parent.Some? ==> terms.root in rows
  {
    var charged :=
      if terms.parent.None? then rows
      else rows[terms.root := rows[terms.root].(reserved := rows[terms.root].reserved.Plus(terms.worker))];
    charged[id := FreshRow(terms)]
  }

  // ---- claiming ----

  function ActiveChildren(rows: Rows, root: Id): set<Id> {
    set c | c in rows && rows[c].terms.root == root && rows[c].terms.parent.Some? && rows[c].status.Running?
  }

  ghost predicate MayClaim(s: State, caller: Caller, id: Id, now: int) {
    && id in s.rows
    && var row := s.rows[id];
    && (row.terms.target == "" || (caller.machine != "" && row.terms.target == caller.machine))
    && (row.terms.parent.Some? ==>
          var p := row.terms.parent.value;
          && p in s.rows && s.rows[p].status.Running? && s.rows[p].terms.target == caller.machine
          && s.rows[p].owner == caller)
    && ChainLive(ParentsOf(s.rows), LiveSet(s.rows, now), id)
    && (row.terms.parent.Some? ==>
          row.terms.root in s.rows && |ActiveChildren(s.rows, row.terms.root)| < s.rows[row.terms.root].terms.maxActive)
    && row.status.Queued? && row.attempts < row.terms.maxAttempts
    && (row.grant.Issued? || row.grant.Active?)
    && (id, row.attempts + 1) !in s.leases
  }

  function LeaseSeconds(row: Row): int {
    var seconds := if row.terms.parent.None? && row.terms.maxDepth > 0 then row.terms.branchMax.seconds else row.terms.worker.seconds;
    if seconds < 1 then 1 else seconds
  }

  function Claimed(s: State, caller: Caller, id: Id, now: int): State
    requires id in s.rows
  {
    var row := s.rows[id];
    State(
      s.rows[id := row.(status := Running, attempts := row.attempts + 1, updatedTs := now,
                        owner := caller, grant := Active, deadline := now + LeaseSeconds(row))],
      s.leases[(id, row.attempts + 1) := Lease(Open, row.terms.worker.turns, 0, row.terms.worker.calls, 0)])
  }

  // ---- finishing, revoking, recovering ----

  predicate Holds(rows: Rows, id: Id, attempt: nat) {
    id in rows && rows[id].status.Running? && rows[id].attempts == attempt
  }

  function Ended(row: Row, outcome: Status, now: int): Row {
    row.(status := outcome, updatedTs := now, owner := NOBODY)
  }

  function CloseLease(leases: Leases, id: Id, attempt: nat, outcome: Status): Leases {
    if (id, attempt) in leases && leases[(id, attempt)].state.Open?
    then leases[(id, attempt) := leases[(id, attempt)].(state := Closed(outcome))]
    else leases
  }

  predicate Interrupted(row: Row, caller: Caller) {
    && row.status.Running? && row.owner.machine == caller.machine
    && row.owner.instance != "" && row.owner.instance != caller.instance
  }

  /** Rows proven dead by the liveness probe, out of those it may look at. */
  function Recoverable(rows: Rows, caller: Caller, dead: set<Id>): set<Id> {
    if caller.machine == "" then {}
    else set id | id in rows && id in dead && Interrupted(rows[id], caller)
  }

  function Recovered(s: State, victims: set<Id>, now: int): State {
    State(
      map id | id in s.rows :: if id in victims then Ended(s.rows[id], Failed, now) else s.rows[id],
      map k | k in s.leases ::
        if k.0 in victims && k.0 in s.rows && k.1 == s.rows[k.0].attempts && s.leases[k].state.Open?
        then s.leases[k].(state := Closed(Failed)) else s.leases[k])
  }

  // ---- the transition system ----

  datatype Op =
    | Create(caller: Caller, role: string, parent: Option<Id>, id: Id, capability: nat, now: int)
    | Claim(caller: Caller, id: Id, now: int)
    | Finish(id: Id, attempt: nat, outcome: Terminal, now: int)
    | Revoke(caller: Caller, id: Id, attempt: nat)
    | Authorize(cred: Credential, now: int)
    | Consume(cred: Credential, kind: Kind, now: int)
    | Recover(caller: Caller, dead: set<Id>, now: int)

  ghost predicate Accepts(profiles: Profiles, s: State, op: Op) {
    match op
    case Create(caller, role, parent, id, capability, now) =>
      NewTerms(profiles, s.rows, caller, role, parent, id, capability, now).Success?
    case Claim(caller, id, now) => MayClaim(s, caller, id, now)
    case Finish(id, attempt, _, _) => Holds(s.rows, id, attempt)
    case Revoke(caller, id, attempt) => Holds(s.rows, id, attempt) && s.rows[id].owner == caller
    case Authorize(cred, now) => VetAttempt(s.rows, cred, now).0
    case Consume(cred, kind, now) =>
      VetAttempt(s.rows, cred, now).0 && HasRoom(s.leases, cred, kind)
    case Recover(_, _, _) => true
  }

  predicate HasRoom(leases: Leases, c: Credential, kind: Kind) {
    && (c.id, c.attempt) in leases
    && leases[(c.id, c.attempt)].state.Open?
    && leases[(c.id, c.attempt)].Used(kind) < leases[(c.id, c.attempt)].Limit(kind)
  }

  /** The committed effect of one operation. A refused one commits nothing, except
      that a refused check commits the expiry it met. */
  ghost function Next(profiles: Profiles, s: State, op: Op): State {
    match op
    case Create(caller, role, parent, id, capability, now) =>
      (match NewTerms(profiles, s.rows, caller, role, parent, id, capability, now)
       case Success(terms) => s.(rows := Insert(s.rows, id, terms))
       case Failure(_) => s)
    case Claim(caller, id, now) => if MayClaim(s, caller, id, now) then Claimed(s, caller, id, now) else s
    case Finish(id, attempt, outcome, now) =>
      if Holds(s.rows, id, attempt)
      then State(Demote(s.rows[id := Ended(s.rows[id], outcome, now)], DescendantsOf(s.rows, id)),
                 CloseLease(s.leases, id, attempt, outcome))
      else s
    case Revoke(caller, id, attempt) =>
      if Accepts(profiles, s, op) then s.(rows := Demote(s.rows, DescendantsOf(s.rows, id) + {id})) else s
    case Authorize(cred, now) => s.(rows := VetAttempt(s.rows, cred, now).1)
    case Consume(cred, kind, now) =>
      if Accepts(profiles, s, op)
      then s.(leases := s.leases[(cred.id, cred.attempt) := s.leases[(cred.id, cred.attempt)].Spend(kind)])
      else s.(rows := VetAttempt(s.rows, cred, now).1)
    case Recover(caller, dead, now) => Recovered(s, Recoverable(s.rows, caller, dead), now)
  }

  ghost function Run(profiles: Profiles, s: State, ops: seq<Op>): State
    decreases |ops|
  {
    if ops == [] then s else Run(profiles, Next(profiles, s, ops[0]), ops[1..])
  }
}
