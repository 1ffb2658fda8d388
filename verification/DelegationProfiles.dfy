/** Who may be created, and with what: every delegation holds to its role's profile, and a child
    to its parent as well. */
module DelegationProfiles {
  import opened Wrappers
  import opened Ancestry
  import opened Delegations
  import opened DelegationInvariants
  import opened DelegationTerms

  /** A root has what its profile says; its branch, the larger of branch and own allowance. */
  ghost predicate RootOf(p: Profile, t: Terms) {
    && t.tools == p.tools && t.worker == p.worker && t.maxAttempts == p.maxAttempts
    && t.maxDepth == p.maxDepth && t.maxChildren == p.maxChildren && t.maxActive == p.maxActive
    && (t.target != "" <==> p.maxDepth > 0)
    && forall u: Unit ::
         && p.branch.Of(u) <= t.branchMax.Of(u) && p.worker.Of(u) <= t.branchMax.Of(u)
         && t.branchMax.Of(u) in {p.branch.Of(u), p.worker.Of(u)}
  }

  /** A child has the tools that both its profile and its parent allow, no more attempts than
      either, and in each unit at least one and at most its profile's allowance. */
  ghost predicate ChildOf(p: Profile, t: Terms, parent: Terms) {
    && (forall tool :: tool in t.tools <==> tool in parent.tools && tool in p.tools)
    && t.maxAttempts <= p.maxAttempts && t.maxAttempts <= parent.maxAttempts
    && t.maxAttempts in {p.maxAttempts, parent.maxAttempts}
    && t.target == parent.target != "" && t.maxDepth == parent.maxDepth
    && forall u: Unit :: 1 <= t.worker.Of(u) <= p.worker.Of(u)
  }

  ghost predicate Chartered(profiles: Profiles, rows: Rows, id: Id)
    requires id in rows
  {
    var t := rows[id].terms;
    && t.role in profiles
    && match t.parent
       case None => RootOf(profiles[t.role], t)
       case Some(q) =>
         && q in rows && rows[q].terms.role in profiles
         && t.role in profiles[rows[q].terms.role].childRoles && ChildOf(profiles[t.role], t, rows[q].terms)
  }

  ghost predicate AllChartered(profiles: Profiles, rows: Rows) {
    forall id | id in rows :: Chartered(profiles, rows, id)
  }

  // ---- what creation grants ----

  lemma ShareBounds(want: Budget, cap: Budget, reserved: Budget)
    ensures Share(want, cap, reserved).Some? <==> forall u: Unit :: 1 <= want.Of(u) && reserved.Of(u) < cap.Of(u)
    ensures Share(want, cap, reserved).Some? ==> forall u: Unit ::
              var s := Share(want, cap, reserved).value.Of(u);
              1 <= s <= want.Of(u) && reserved.Of(u) + s <= cap.Of(u) && (s == want.Of(u) || reserved.Of(u) + s == cap.Of(u))
  {
    if Share(want, cap, reserved).Some? {
      forall u: Unit ensures 1 <= want.Of(u) && reserved.Of(u) < cap.Of(u) { AtUnit(want, cap, reserved, u); }
    } else {
      assert !(1 <= want.Of(Turns) && reserved.Of(Turns) < cap.Of(Turns)) || !(1 <= want.Of(Calls) && reserved.Of(Calls) < cap.Of(Calls))
          || !(1 <= want.Of(Seconds) && reserved.Of(Seconds) < cap.Of(Seconds));
    }
    forall u: Unit | Share(want, cap, reserved).Some?
      ensures var s := Share(want, cap, reserved).value.Of(u);
              1 <= s <= want.Of(u) && reserved.Of(u) + s <= cap.Of(u) && (s == want.Of(u) || reserved.Of(u) + s == cap.Of(u))
    {
      AtUnit(want, cap, reserved, u);
    }
  }

  lemma AtUnit(want: Budget, cap: Budget, reserved: Budget, u: Unit)
    requires Share(want, cap, reserved).Some?
    ensures var s := Share(want, cap, reserved).value.Of(u);
            1 <= s <= want.Of(u) && reserved.Of(u) + s <= cap.Of(u) && (s == want.Of(u) || reserved.Of(u) + s == cap.Of(u))
  {
    match u case Turns => case Calls => case Seconds =>
  }

  lemma RootIsChartered(profile: Profile, role: string, caller: Caller, id: Id, capability: nat, now: int)
    ensures var made := RootTerms(profile, role, caller, id, capability, now);
            && (made.Success? <==> profile.maxDepth == 0 || caller.machine != "")
            && (made.Success? ==>
                  var t := made.value;
                  && (t.role, t.parent, t.root, t.capability, t.createdTs) == (role, None, id, capability, now)
                  && t.target == (if profile.maxDepth > 0 then caller.machine else "") && RootOf(profile, t))
  {
  }

  /** The parent runs on time, is this caller's, grants the role, and has room for one more. */
  ghost predicate MayParent(profiles: Profiles, rows: Rows, role: string, caller: Caller, p: Id, now: int) {
    && role in profiles && caller.machine != "" && Unlapsed(rows, p, now)
    && var parent := rows[p].terms;
    && parent.target == caller.machine && rows[p].owner == caller
    && parent.role in profiles && role in profiles[parent.role].childRoles
    && parent.depth < parent.maxDepth && |set c | c in rows && rows[c].terms.parent == Some(p)| < parent.maxChildren
    && (exists tool :: tool in parent.tools && tool in profiles[role].tools)
    && forall u: Unit :: 1 <= profiles[role].worker.Of(u) && rows[p].reserved.Of(u) < parent.branchMax.Of(u)
  }

  /** All of its profile's allowance, or all that the branch had left. */
  ghost predicate FullShare(profile: Profile, t: Terms, root: Row) {
    forall u: Unit ::
      && root.reserved.Of(u) + t.worker.Of(u) <= root.terms.branchMax.Of(u)
      && (t.worker.Of(u) == profile.worker.Of(u) || root.reserved.Of(u) + t.worker.Of(u) == root.terms.branchMax.Of(u))
  }

  lemma SharedTool(a: set<string>, b: set<string>)
    ensures a * b != {} <==> exists tool :: tool in a && tool in b
  {
    if tool :| tool in a && tool in b { assert tool in a * b; }
    if a * b != {} { var tool :| tool in a * b; }
  }

  lemma ChildIsChartered(profiles: Profiles, rows: Rows, role: string, caller: Caller, p: Id, capability: nat, now: int)
    requires Shape(rows) && FanOut(rows) && role in profiles
    ensures var made := ChildTerms(profiles, rows, profiles[role], role, caller, p, capability, now);
            && (made.Success? <==> MayParent(profiles, rows, role, caller, p, now))
            && (made.Success? ==>
                  var t := made.value;
                  && (t.role, t.parent, t.root, t.capability, t.createdTs) == (role, Some(p), p, capability, now)
                  && p in rows && rows[p].terms.role in profiles && role in profiles[rows[p].terms.role].childRoles
                  && ChildOf(profiles[role], t, rows[p].terms) && FullShare(profiles[role], t, rows[p]))
  {
    if p in rows {
      var parent := rows[p].terms;
      assert RowShape(rows, p);
      SharedTool(parent.tools, profiles[role].tools);
      assert ChildrenOf(rows, p) == set c | c in rows && rows[c].terms.parent == Some(p);
      if |ChildrenOf(rows, p)| < parent.maxChildren { assert parent.parent.None? && parent.root == p; }
      ShareBounds(profiles[role].worker, parent.branchMax, rows[p].reserved);
    }
  }

  /** A creation is admitted exactly when the role is known, the id is new, and either it is a
      root, on a machine with an identity if it may have children, or its parent may have it. */
  lemma CreateAcceptedIff(profiles: Profiles, s: State, caller: Caller, role: string, parent: Option<Id>, id: Id,
                          capability: nat, now: int)
    requires Inv(s)
    ensures Accepts(profiles, s, Create(caller, role, parent, id, capability, now))
       <==> (&& role in profiles && id !in s.rows
             && match parent
                case None => profiles[role].maxDepth == 0 || caller.machine != ""
                case Some(p) => MayParent(profiles, s.rows, role, caller, p, now))
  {
    if role in profiles {
      match parent
      case None => RootIsChartered(profiles[role], role, caller, id, capability, now);
      case Some(p) => ChildIsChartered(profiles, s.rows, role, caller, p, capability, now);
    }
  }

  /** And then one new row is queued with its grant issued, holding to its profile; its parent's
      branch is charged with its share, and nothing else changes. */
  lemma CreateMeans(profiles: Profiles, s: State, caller: Caller, role: string, parent: Option<Id>, id: Id, capability: nat, now: int)
    requires Inv(s) && Accepts(profiles, s, Create(caller, role, parent, id, capability, now))
    ensures var t := Next(profiles, s, Create(caller, role, parent, id, capability, now));
            && t.leases == s.leases && t.rows.Keys == s.rows.Keys + {id}
            && var (row, terms) := (t.rows[id], t.rows[id].terms);
            && (row.status, row.attempts, row.grant, row.owner, row.updatedTs) == (Queued, 0, Issued, NOBODY, now)
            && (terms.role, terms.parent, terms.capability, terms.createdTs) == (role, parent, capability, now)
            && (parent.None? ==> row.reserved == terms.worker && forall d | d in s.rows :: t.rows[d] == s.rows[d])
            && (parent.Some? ==>
                  var p := parent.value;
                  && p in s.rows && FullShare(profiles[role], terms, s.rows[p])
                  && t.rows[p] == s.rows[p].(reserved := s.rows[p].reserved.Plus(terms.worker))
                  && forall d | d in s.rows && d != p :: t.rows[d] == s.rows[d])
  {
    match parent
    case None => RootIsChartered(profiles[role], role, caller, id, capability, now);
    case Some(p) => ChildIsChartered(profiles, s.rows, role, caller, p, capability, now);
    InsertMeans(s.rows, id, NewTerms(profiles, s.rows, caller, role, parent, id, capability, now).value);
    CreateIs(profiles, s, caller, role, parent, id, capability, now);
  }

  lemma InsertMeans(rows: Rows, id: Id, t: Terms)
    requires id !in rows && (t.parent.Some? ==> t.root in rows)
    ensures var after := Insert(rows, id, t);
            && after.Keys == rows.Keys + {id}
            && after[id] == Row(t, if t.parent.None? then t.worker else NOTHING, Queued, 0, t.createdTs, NOBODY, Issued, 0)
            && (t.parent.None? ==> forall d | d in rows :: after[d] == rows[d])
            && (t.parent.Some? ==>
                  && after[t.root] == rows[t.root].(reserved := rows[t.root].reserved.Plus(t.worker))
                  && forall d | d in rows && d != t.root :: after[d] == rows[d])
  {
  }

  lemma CreateIs(profiles: Profiles, s: State, caller: Caller, role: string, parent: Option<Id>, id: Id, capability: nat, now: int)
    requires NewTerms(profiles, s.rows, caller, role, parent, id, capability, now).Success?
    ensures var t := NewTerms(profiles, s.rows, caller, role, parent, id, capability, now).value;
            && id !in s.rows && (t.parent.Some? ==> t.root in s.rows)
            && Next(profiles, s, Create(caller, role, parent, id, capability, now)) == State(Insert(s.rows, id, t), s.leases)
  {
  }

  /** What each refusal says of the parent named. */
  ghost predicate Because(e: CreateError, profiles: Profiles, rows: Rows, role: string, caller: Caller, p: Id, now: int) {
    match e
    case NoMachineIdentity => caller.machine == ""
    case ParentUnavailable => !Unlapsed(rows, p, now)
    case ParentNotLocal => p in rows && (rows[p].terms.target != caller.machine || rows[p].owner != caller)
    case UnknownRole => p in rows && rows[p].terms.role !in profiles
    case RoleNotGranted => p in rows && rows[p].terms.role in profiles && role !in profiles[rows[p].terms.role].childRoles
    case DepthExhausted => p in rows && rows[p].terms.depth >= rows[p].terms.maxDepth
    case ChildBudgetExhausted =>
      p in rows && |set c | c in rows && rows[c].terms.parent == Some(p)| >= rows[p].terms.maxChildren
    case NoInheritedTools =>
      p in rows && role in profiles && !exists tool :: tool in rows[p].terms.tools && tool in profiles[role].tools
    case BranchBudgetExhausted =>
      p in rows && role in profiles
      && exists u: Unit :: profiles[role].worker.Of(u) < 1 || rows[p].reserved.Of(u) >= rows[p].terms.branchMax.Of(u)
    case _ => false
  }

  lemma ChildRefused(profiles: Profiles, rows: Rows, role: string, caller: Caller, p: Id, capability: nat, now: int)
    requires Shape(rows) && FanOut(rows) && role in profiles
    requires ChildTerms(profiles, rows, profiles[role], role, caller, p, capability, now).Failure?
    ensures Because(ChildTerms(profiles, rows, profiles[role], role, caller, p, capability, now).error, profiles, rows, role, caller, p, now)
  {
    if p in rows {
      var parent := rows[p].terms;
      assert RowShape(rows, p);
      SharedTool(parent.tools, profiles[role].tools);
      assert ChildrenOf(rows, p) == set c | c in rows && rows[c].terms.parent == Some(p);
      if |ChildrenOf(rows, p)| < parent.maxChildren { assert parent.parent.None? && parent.root == p; }
      ShareBounds(profiles[role].worker, parent.branchMax, rows[p].reserved);
    }
  }

  /** A refusal names a reason that holds. */
  lemma RefusalMeans(profiles: Profiles, s: State, caller: Caller, role: string, parent: Option<Id>, id: Id, capability: nat, now: int)
    requires Inv(s) && NewTerms(profiles, s.rows, caller, role, parent, id, capability, now).Failure?
    ensures var e := NewTerms(profiles, s.rows, caller, role, parent, id, capability, now).error;
            if role !in profiles then e == UnknownRole
            else if e == DuplicateId then id in s.rows
            else match parent
              case None => e == NoMachineIdentity && caller.machine == ""
              case Some(p) => Because(e, profiles, s.rows, role, caller, p, now)
  {
    if role in profiles && parent.Some?
       && ChildTerms(profiles, s.rows, profiles[role], role, caller, parent.value, capability, now).Failure? {
      ChildRefused(profiles, s.rows, role, caller, parent.value, capability, now);
    }
  }

  // ---- every reachable ledger ----

  lemma CharterFrame(profiles: Profiles, a: Rows, b: Rows)
    requires AllChartered(profiles, a) && SameGrid(a, b)
    ensures AllChartered(profiles, b)
  {
    forall id | id in b ensures Chartered(profiles, b, id) { assert Chartered(profiles, a, id); }
  }

  lemma InsertedCharters(profiles: Profiles, rows: Rows, after: Rows, id: Id, t: Terms)
    requires AllChartered(profiles, rows) && Inserted(rows, after, id, t) && id !in rows
    requires t.role in profiles
    requires match t.parent
             case None => RootOf(profiles[t.role], t)
             case Some(q) =>
               && q in rows && rows[q].terms.role in profiles
               && t.role in profiles[rows[q].terms.role].childRoles && ChildOf(profiles[t.role], t, rows[q].terms)
    ensures AllChartered(profiles, after)
  {
    forall d | d in after ensures Chartered(profiles, after, d) {
      if d != id { assert Chartered(profiles, rows, d); }
    }
  }

  lemma CreateKeepsCharters(profiles: Profiles, s: State, caller: Caller, role: string, parent: Option<Id>, id: Id,
                            capability: nat, now: int)
    requires Inv(s) && AllChartered(profiles, s.rows)
    requires NewTerms(profiles, s.rows, caller, role, parent, id, capability, now).Success?
    ensures var t := NewTerms(profiles, s.rows, caller, role, parent, id, capability, now).value;
            (t.parent.Some? ==> t.root in s.rows) && AllChartered(profiles, Insert(s.rows, id, t))
  {
    match parent
    case None => RootIsChartered(profiles[role], role, caller, id, capability, now);
    case Some(p) => ChildIsChartered(profiles, s.rows, role, caller, p, capability, now);
    var made := NewTerms(profiles, s.rows, caller, role, parent, id, capability, now).value;
    AdmittedMeans(profiles, s.rows, caller, role, parent, id, capability, now);
    InsertIs(s.rows, id, made);
    InsertedCharters(profiles, s.rows, Insert(s.rows, id, made), id, made);
  }

  lemma NextKeepsCharters(profiles: Profiles, s: State, op: Op)
    requires Inv(s) && AllChartered(profiles, s.rows)
    ensures AllChartered(profiles, Next(profiles, s, op).rows)
  {
    if op.Create? {
      if Accepts(profiles, s, op) {
        CreateKeepsCharters(profiles, s, op.caller, op.role, op.parent, op.id, op.capability, op.now);
      }
    } else {
      NextKeepsGrid(profiles, s, op);
      CharterFrame(profiles, s.rows, Next(profiles, s, op).rows);
    }
  }

  /** In every reachable ledger every delegation holds to its role's profile and to its parent. */
  lemma {:induction false} RunKeepsCharters(profiles: Profiles, s: State, ops: seq<Op>)
    requires Inv(s) && AllChartered(profiles, s.rows)
    ensures AllChartered(profiles, Run(profiles, s, ops).rows)
    decreases |ops|
  {
    if ops != [] {
      NextKeepsCharters(profiles, s, ops[0]);
      NextKeepsInv(profiles, s, ops[0]);
      RunKeepsCharters(profiles, Next(profiles, s, ops[0]), ops[1..]);
    }
  }

  /** So no delegation ever holds a tool, a unit of budget or an attempt its role's profile does
      not give it, nor one its parent does not have. */
  lemma HeldToProfile(profiles: Profiles, ops: seq<Op>, id: Id)
    requires id in Run(profiles, EMPTY, ops).rows
    ensures var rows := Run(profiles, EMPTY, ops).rows;
            var t := rows[id].terms;
            && t.role in profiles && t.tools <= profiles[t.role].tools && t.maxAttempts <= profiles[t.role].maxAttempts
            && (forall u: Unit :: t.worker.Of(u) <= profiles[t.role].worker.Of(u))
            && (t.parent.Some? ==>
                  var q := t.parent.value;
                  && q in rows && rows[q].terms.role in profiles && t.role in profiles[rows[q].terms.role].childRoles
                  && t.tools == rows[q].terms.tools * profiles[t.role].tools)
  {
    RunKeepsCharters(profiles, EMPTY, ops);
    assert Chartered(profiles, Run(profiles, EMPTY, ops).rows, id);
  }
}
