/** What the steps of a run say of the approvals it granted. */
module ApprovalTraces {
  import opened Approvals
  import opened ApprovalSafety

  // ---- every approval was asked for, audited and decided ----

  ghost predicate WasRequested(steps: seq<Step>, id: Id, call: Call) {
    exists p :: Request(p, id, call) in steps
  }

  ghost predicate WasAudited(steps: seq<Step>, id: Id, ts: int) {
    exists p :: Audit(p, id, ts) in steps
  }

  ghost predicate WasDecided(steps: seq<Step>, id: Id, approved: bool, now: int) {
    exists p, t :: Resolve(p, t, id, approved, now) in steps
  }

  ghost predicate Traced(s: Sys, steps: seq<Step>) {
    && (forall id | id in s.asked :: WasRequested(steps, id, s.asked[id].call))
    && (forall id | id in s.auditedAt :: WasAudited(steps, id, s.auditedAt[id]))
    && (forall k | k in s.taking && s.taking[k].mode.Decide? ::
          WasDecided(steps, s.taking[k].id, s.taking[k].mode.approved, s.taking[k].now))
    && (forall g | g in s.grants :: WasDecided(steps, g.id, true, g.checkedAt))
  }

  lemma MoreSteps(s: Sys, steps: seq<Step>, step: Step)
    requires Traced(s, steps)
    ensures Traced(s, steps + [step])
  {
    forall x | x in steps ensures x in steps + [step] {}
    forall id | id in s.asked ensures WasRequested(steps + [step], id, s.asked[id].call) {
      var p :| Request(p, id, s.asked[id].call) in steps;
      assert Request(p, id, s.asked[id].call) in steps + [step];
    }
    forall id | id in s.auditedAt ensures WasAudited(steps + [step], id, s.auditedAt[id]) {
      var p :| Audit(p, id, s.auditedAt[id]) in steps;
      assert Audit(p, id, s.auditedAt[id]) in steps + [step];
    }
    forall k | k in s.taking && s.taking[k].mode.Decide?
      ensures WasDecided(steps + [step], s.taking[k].id, s.taking[k].mode.approved, s.taking[k].now)
    {
      StillDecided(steps, step, s.taking[k].id, s.taking[k].mode.approved, s.taking[k].now);
    }
    forall g | g in s.grants ensures WasDecided(steps + [step], g.id, true, g.checkedAt) {
      StillDecided(steps, step, g.id, true, g.checkedAt);
    }
  }

  lemma StillDecided(steps: seq<Step>, step: Step, id: Id, approved: bool, now: int)
    requires WasDecided(steps, id, approved, now)
    ensures WasDecided(steps + [step], id, approved, now)
  {
    var p, t :| Resolve(p, t, id, approved, now) in steps;
    assert Resolve(p, t, id, approved, now) in steps + [step];
  }

  lemma TookIsTraced(policy: Policy, s: Sys, steps: seq<Step>, p: Pid, t: Thread, take: Take)
    requires Traced(s, steps) && (take.mode.Decide? ==> WasDecided(steps, take.id, take.mode.approved, take.now))
    ensures Traced(Took(s, p, t, take), steps)
  {
  }

  lemma DoneIsTraced(policy: Policy, s: Sys, steps: seq<Step>, p: Pid, t: Thread)
    requires Traced(s, steps) && p in s.procs && (p, t) in s.taking
    ensures Traced(Done(policy, s, p, t), steps)
  {
    var n := Done(policy, s, p, t);
    forall g | g in n.grants ensures WasDecided(steps, g.id, true, g.checkedAt) {
      if g !in s.grants { assert s.taking[(p, t)].mode == Decide(true); }
    }
  }

  lemma NextIsTraced(policy: Policy, s: Sys, steps: seq<Step>, step: Step)
    requires Traced(s, steps)
    ensures Traced(Next(policy, s, step), steps + [step])
  {
    MoreSteps(s, steps, step);
    var all := steps + [step];
    assert step in all;
    if Enabled(policy, s, step) {
      match step
      case Request(p, id, call) => assert WasRequested(all, id, call);
      case Audit(p, id, ts) => assert WasAudited(all, id, ts);
      case Resolve(p, t, id, approved, now) =>
        assert WasDecided(all, id, approved, now);
        TookIsTraced(policy, s, all, p, t, Take(id, ModeOf(policy, s.procs[p], id, approved, now), now));
      case SweepOne(p, t, id, now) => TookIsTraced(policy, s, all, p, t, Take(id, ToExpire, now));
      case KillOne(p, t, id, now) => TookIsTraced(policy, s, all, p, t, Take(id, ToKill, now));
      case Finish(p, t) => DoneIsTraced(policy, s, all, p, t);
      case _ =>
    }
  }

  lemma {:induction false} RunIsTraced(policy: Policy, steps: seq<Step>)
    ensures Traced(Run(policy, START, steps), steps)
    decreases |steps|
  {
    if steps != [] {
      var n := |steps| - 1;
      RunIsTraced(policy, steps[..n]);
      NextIsTraced(policy, Run(policy, START, steps[..n]), steps[..n], steps[n]);
      assert steps == steps[..n] + [steps[n]];
      RunThen(policy, START, steps[..n], steps[n]);
    }
  }

  lemma {:induction false} RunThen(policy: Policy, s: Sys, steps: seq<Step>, step: Step)
    ensures Run(policy, s, steps + [step]) == Next(policy, Run(policy, s, steps), step)
    decreases |steps|
  {
    if steps == [] {
      assert steps + [step] == [step];
      assert Run(policy, Next(policy, s, step), [step][1..]) == Next(policy, s, step);
    } else {
      assert (steps + [step])[1..] == steps[1..] + [step];
      RunThen(policy, Next(policy, s, steps[0]), steps[1..], step);
    }
  }

  /** When each id is audited once, each approval in a run is of a call somebody requested under
      that id and audited, and somebody approved it no later than the limit after the audit. */
  lemma ApprovalsAreWarranted(policy: Policy, steps: seq<Step>, i: nat)
    requires Once(Run(policy, START, steps)) && i < |Run(policy, START, steps).grants|
    ensures var g := Run(policy, START, steps).grants[i];
            && WasRequested(steps, g.id, g.call) && WasDecided(steps, g.id, true, g.checkedAt)
            && exists ts :: WasAudited(steps, g.id, ts) && (policy.enabled ==> g.checkedAt - ts <= policy.ttl)
  {
    var s := Run(policy, START, steps);
    var g := s.grants[i];
    GrantsAreSound(policy, steps, i);
    RunIsTraced(policy, steps);
    assert g in s.grants;
    assert WasAudited(steps, g.id, s.auditedAt[g.id]);
  }

  // ---- the kill switch ----

  /** Approvals this process returned along the run. */
  function ApprovalsBy(policy: Policy, s: Sys, steps: seq<Step>, p: Pid): nat
    decreases |steps|
  {
    if steps == [] then 0
    else
      var next := Next(policy, s, steps[0]);
      (if steps[0].Finish? && steps[0].p == p && |next.grants| > |s.grants| then 1 else 0) + ApprovalsBy(policy, next, steps[1..], p)
  }

  ghost predicate Stopped(s: Sys, p: Pid) {
    && p in s.procs && s.procs[p].killed
    && forall k | k in s.taking && k.0 == p :: !s.taking[k].mode.Decide?
  }

  lemma StaysStopped(policy: Policy, s: Sys, step: Step, p: Pid)
    requires Stopped(s, p) && step != Release(p) && step != Crash(p)
    ensures Stopped(Next(policy, s, step), p)
    ensures step.Finish? && step.p == p ==> Next(policy, s, step).grants == s.grants
  {
  }

  /** From when its kill switch is engaged until it is released or the process dies, a process
      approves nothing, whatever is decided, audited or reloaded meanwhile. */
  lemma {:induction false} StoppedApprovesNothing(policy: Policy, s: Sys, steps: seq<Step>, p: Pid)
    requires Stopped(s, p) && forall step | step in steps :: step != Release(p) && step != Crash(p)
    ensures ApprovalsBy(policy, s, steps, p) == 0
    decreases |steps|
  {
    if steps != [] {
      assert steps[0] in steps && forall step | step in steps[1..] :: step in steps;
      StaysStopped(policy, s, steps[0], p);
      StoppedApprovesNothing(policy, Next(policy, s, steps[0]), steps[1..], p);
    }
  }

  lemma KillSwitchStops(policy: Policy, s: Sys, steps: seq<Step>, p: Pid)
    requires Enabled(policy, s, Engage(p)) && forall step | step in steps :: step != Release(p) && step != Crash(p)
    ensures ApprovalsBy(policy, Next(policy, s, Engage(p)), steps, p) == 0
  {
    StoppedApprovesNothing(policy, Next(policy, s, Engage(p)), steps, p);
  }
}
