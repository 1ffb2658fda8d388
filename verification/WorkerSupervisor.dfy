/** The boundary between an arbitrary worker and the parent that owns model and tools.
    The worker may send any frames at all; the ledger is shared with other processes,
    which may run any transactions between any two of the parent's own. */
module WorkerSupervisor {
  import opened Wrappers
  import opened Conversations
  import opened Delegations
  import opened DelegationBudget
  import opened DelegationLedger
  import opened Interference
  import opened Questions
  import opened Replies

  class Supervisor {
    const ledger: Ledger
    const cred: Credential
    const allowed: set<string>
    const maxIterations: nat
    const maxPerTool: nat
    const parse: string -> Option<string>
    var pending: seq<Call>
    var modelCalls: nat
    var toolCalls: map<string, nat>
    ghost var history: History
    ghost var heard: seq<Frame>
    ghost var log: seq<Use>
    ghost var routed: nat

    /** The ledger is one its transactions lead to, and has granted everything this parent did. */
    ghost predicate Backed()
      reads this, ledger.db
    {
      && Reached(ledger.profiles, ledger.db.Current())
      && AllDispatches(log) <= UsedBy(ledger.db.Current(), cred.id, Tool)
      && routed <= UsedBy(ledger.db.Current(), cred.id, Model)
    }

    ghost predicate Bounded()
      reads this
    {
      routed <= modelCalls && routed <= maxIterations + 1 && Within(log, maxPerTool, toolCalls)
    }

    ghost function Limit(): Limits
    {
      Limits(allowed, maxIterations, maxPerTool)
    }

    ghost function Memo(): Memory
      reads this
    {
      Memory(pending, modelCalls, toolCalls)
    }

    /** The conversation so far is accounted for, turn by turn. */
    ghost predicate Ordered()
      reads this
    {
      Accounted(history, pending, log, heard, |heard|, allowed, parse)
    }

    /** The last frame heard is still to be acted on. */
    ghost predicate Hearing()
      reads this
    {
      heard != [] && Accounted(history, pending, log, heard, |heard| - 1, allowed, parse)
    }

    constructor (ledger: Ledger, cred: Credential, allowed: set<string>, maxIterations: nat, maxPerTool: nat,
                 parse: string -> Option<string>)
      requires Reached(ledger.profiles, ledger.db.Current())
      ensures Backed() && Bounded() && Ordered()
      ensures this.ledger == ledger && this.cred == cred && this.allowed == allowed && this.parse == parse
      ensures this.maxIterations == maxIterations && this.maxPerTool == maxPerTool
      ensures history == Opening && heard == [] && log == [] && routed == 0 && Memo() == Memory([], 0, map[])
    {
      this.ledger, this.cred, this.allowed := ledger, cred, allowed;
      this.maxIterations, this.maxPerTool, this.parse := maxIterations, maxPerTool, parse;
      pending, modelCalls, toolCalls := [], 0, map[];
      history, heard, log, routed := Opening, [], [], 0;
    }

    /** Any transactions of any other process. Callers may rely on nothing else. */
    method OthersRun()
      modifies ledger.db
      ensures Reaches(ledger.profiles, old(ledger.db.Current()), ledger.db.Current())
    {
      assert Run(ledger.profiles, ledger.db.Current(), []) == ledger.db.Current();
    }

    /** Yes exactly when the ledger met accepts the credential, which it then still does. */
    method Authorized(now: int) returns (ok: bool, ghost met: State)
      requires Backed()
      modifies ledger.db
      ensures Backed()
      ensures Asked(ledger.profiles, old(ledger.db.Current()), met, ledger.db.Current(), Op.Authorize(cred, now))
      ensures ok == Accepts(ledger.profiles, met, Op.Authorize(cred, now))
      ensures ok ==> Accepts(ledger.profiles, ledger.db.Current(), Op.Authorize(cred, now))
    {
      OthersRun();
      met := ledger.db.Current();
      OthersOnlyAdd(ledger.profiles, old(ledger.db.Current()), met, cred.id);
      ReachedIsSound(ledger.profiles, met);
      ok := ledger.AuthorizeAttempt(cred, now);
      BrokeredUses(ledger.profiles, met, Op.Authorize(cred, now));
      if ok { GrantedMeansPresented(met.rows, cred, now); }
    }

    /** Yes exactly when the ledger met accepts and pays, and then it is one use ahead of what
        this parent has done. */
    method Consume(kind: Kind, now: int) returns (ok: bool, ghost met: State)
      requires Backed()
      modifies ledger.db
      ensures Backed()
      ensures Asked(ledger.profiles, old(ledger.db.Current()), met, ledger.db.Current(), Op.Consume(cred, kind, now))
      ensures ok == Accepts(ledger.profiles, met, Op.Consume(cred, kind, now))
      ensures ok && kind.Tool? ==> AllDispatches(log) < UsedBy(ledger.db.Current(), cred.id, Tool)
      ensures ok && kind.Model? ==> routed < UsedBy(ledger.db.Current(), cred.id, Model)
    {
      OthersRun();
      met := ledger.db.Current();
      OthersOnlyAdd(ledger.profiles, old(ledger.db.Current()), met, cred.id);
      ReachedIsSound(ledger.profiles, met);
      ok := ledger.ConsumeResource(cred, kind, now);
      BrokeredUses(ledger.profiles, met, Op.Consume(cred, kind, now));
    }

    /** A model call is counted, paid for and checked before it is routed. */
    method RouteModel(tools: Option<seq<string>>, now: int) returns (ok: bool, ghost met: State)
      requires Backed() && Bounded()
      modifies this`modelCalls, this`routed, ledger.db
      ensures Backed() && Bounded()
      ensures modelCalls == old(modelCalls) + 1 && routed == old(routed) + if ok then 1 else 0
      ensures if old(modelCalls) <= maxIterations
              then Asked(ledger.profiles, old(ledger.db.Current()), met, ledger.db.Current(), Op.Consume(cred, Model, now))
              else met == ledger.db.Current() == old(ledger.db.Current())
      ensures ok <==> old(modelCalls) <= maxIterations && ToolsAllowed(tools, allowed)
                      && Accepts(ledger.profiles, met, Op.Consume(cred, Model, now))
    {
      met := ledger.db.Current();
      modelCalls := modelCalls + 1;
      if modelCalls > maxIterations + 1 { return false, met; }
      ok, met := Consume(Model, now);
      if !ok { return; }
      if tools.None? || exists i | 0 <= i < |tools.value| :: tools.value[i] !in allowed { return false, met; }
      routed := routed + 1;
    }

    ghost function Now(): nat
      requires heard != []
      reads this
    {
      |heard| - 1
    }

    method HandleModel(tools: Option<seq<string>>, completion: Option<seq<Call>>, now: int)
      returns (reply: Reply, ghost met: State)
      requires Backed() && Bounded() && Hearing() && heard[Now()] == ModelFrame(tools, completion)
      modifies this, ledger.db
      ensures Backed() && Bounded() && Ordered() && heard == old(heard) && log == old(log)
      ensures Reaches(ledger.profiles, old(ledger.db.Current()), ledger.db.Current())
      ensures Asks(old(Memo()), ModelFrame(tools, completion), Limit(), parse) ==>
                Asked(ledger.profiles, old(ledger.db.Current()), met, ledger.db.Current(), Op.Consume(cred, Model, now))
      ensures var paid := Accepts(ledger.profiles, met, Op.Consume(cred, Model, now));
              && reply == ReplyTo(old(Memo()), ModelFrame(tools, completion), true, paid, Limit(), parse)
              && Memo() == Remembers(old(Memo()), ModelFrame(tools, completion), true, paid, Limit(), parse)
      ensures history == if reply.Answered? then Turn(old(history), old(Now()), reply.calls, [], Pending(reply.calls)) else old(history)
    {
      var granted;
      granted, met := RouteModel(tools, now);
      ghost var s := ledger.db.Current();
      ModelAsked(old(ledger.db.Current()), met, s, old(modelCalls), now);
      RoutedReply(old(Memo()), tools, completion, Limit(), parse, Accepts(ledger.profiles, met, Op.Consume(cred, Model, now)), granted);
      reply := Relay(if granted then completion else None);
      assert ledger.db.Current() == s;
    }

    lemma ModelAsked(before: State, met: State, after: State, count: nat, now: int)
      requires if count <= maxIterations then Asked(ledger.profiles, before, met, after, Op.Consume(cred, Model, now))
               else met == after == before
      ensures Reaches(ledger.profiles, before, after)
    {
      if count <= maxIterations {
        AskedReaches(ledger.profiles, before, met, after, Op.Consume(cred, Model, now));
      } else {
        ReachesItself(ledger.profiles, before);
      }
    }

    /** The model's answer, if it was asked and gave one. */
    method Relay(completion: Option<seq<Call>>) returns (reply: Reply)
      requires Bounded() && Hearing()
      requires completion.Some? ==> heard[Now()].ModelFrame? && heard[Now()].completion == completion
      modifies this`pending, this`history
      ensures Bounded() && Ordered()
      ensures reply == if completion.Some? then Answered(completion.value) else Refused
      ensures pending == if completion.Some? then Pending(completion.value) else old(pending)
      ensures history == if completion.Some? then Turn(old(history), old(Now()), completion.value, [], Pending(completion.value))
                         else old(history)
    {
      if completion.Some? {
        StartTurn(completion.value);
        return Answered(completion.value);
      }
      Pass();
      return Refused;
    }

    /** A frame nothing came of. */
    lemma Pass()
      requires Hearing()
      ensures Ordered()
    {
      PassIsAccounted(history, pending, log, heard, allowed, parse);
    }

    /** The model's calls replace whatever was still pending. */
    method StartTurn(calls: seq<Call>)
      requires Hearing() && heard[Now()].ModelFrame? && heard[Now()].completion == Some(calls)
      modifies this`pending, this`history
      ensures Ordered() && pending == Pending(calls) && history == Turn(old(history), old(Now()), calls, [], Pending(calls))
    {
      TurnIsAccounted(history, pending, log, heard, calls, allowed, parse);
      history := Turn(history, Now(), calls, [], Pending(calls));
      pending := Pending(calls);
    }

    /** Uses up the first pending call of this name exactly when it is the one asked for. */
    method Take(name: string, args: Option<string>) returns (taken: Option<Call>, ghost i: nat)
      requires Bounded()
      modifies this`pending, this`toolCalls
      ensures Bounded()
      ensures taken.Some? <==> MayTake(old(pending), name, args, allowed, parse)
      ensures taken.None? ==> Memo() == old(Memo())
      ensures taken.Some? ==> Takes(old(pending), pending, i, taken.value, name, args, allowed, parse)
      ensures taken.Some? ==>
                && toolCalls == old(toolCalls)[name := Counted(old(toolCalls), name) + 1]
                && (toolCalls[name] <= maxPerTool ==> MayDispatch(log, name, maxPerTool, toolCalls))
    {
      i := 0;
      if name !in allowed || args.None? { return None, i; }
      var first := FirstNamed(pending, name);
      if first == |pending| { return None, i; }
      var call := pending[first];
      if parse(call.arguments).None? || parse(call.arguments) != args { return None, i; }
      pending := pending[..first] + pending[first + 1..];
      toolCalls := toolCalls[name := (if name in toolCalls then toolCalls[name] else 0) + 1];
      return Some(call), first;
    }

    /** The tool call is paid for when it is within its limit. */
    method PayTool(name: string, now: int) returns (ok: bool, ghost met: State)
      requires Backed() && name in toolCalls
      modifies ledger.db
      ensures Backed()
      ensures toolCalls[name] <= maxPerTool ==>
                Asked(ledger.profiles, old(ledger.db.Current()), met, ledger.db.Current(), Op.Consume(cred, Tool, now))
      ensures Reaches(ledger.profiles, old(ledger.db.Current()), ledger.db.Current())
      ensures ok <==> toolCalls[name] <= maxPerTool && Accepts(ledger.profiles, met, Op.Consume(cred, Tool, now))
      ensures ok ==> AllDispatches(log) < UsedBy(ledger.db.Current(), cred.id, Tool)
    {
      met := ledger.db.Current();
      ReachesItself(ledger.profiles, met);
      if toolCalls[name] > maxPerTool { return false, met; }
      ok, met := Consume(Tool, now);
      AskedReaches(ledger.profiles, old(ledger.db.Current()), met, ledger.db.Current(), Op.Consume(cred, Tool, now));
    }

    method HandleTool(name: string, args: Option<string>, now: int) returns (reply: Reply, ghost met: State)
      requires Backed() && Bounded() && Hearing() && heard[Now()] == ToolFrame(name, args)
      modifies this, ledger.db
      ensures Backed() && Bounded() && Ordered() && heard == old(heard) && routed == old(routed)
      ensures ToolHandled(ledger.profiles, cred, old(ledger.db.Current()), met, ledger.db.Current(), old(Memo()), name, args, now, reply,
                          Memo(), old(Now()), old(log), log, Limit(), parse)
    {
      ghost var m, s := Memo(), ledger.db.Current();
      var taken, i := Take(name, args);
      assert ledger.db.Current() == s;
      if taken.Some? {
        reply, met := Decide(taken.value, i, name, args, now, m);
      } else {
        reply, met := Decline(name, args, now);
      }
    }

    /** A tool frame for which no call was taken. */
    method Decline(name: string, args: Option<string>, now: int) returns (reply: Reply, ghost met: State)
      requires Hearing() && !MayTake(pending, name, args, allowed, parse)
      ensures Ordered()
      ensures ToolHandled(ledger.profiles, cred, ledger.db.Current(), met, ledger.db.Current(), Memo(), name, args, now, reply,
                          Memo(), Now(), log, log, Limit(), parse)
    {
      Pass();
      NothingTaken(ledger.profiles, cred, ledger.db.Current(), Memo(), name, args, now, Now(), log, Limit(), parse);
      return Refused, ledger.db.Current();
    }

    /** The call was just taken from what `m` remembers; it runs if it is paid for. */
    method Decide(call: Call, ghost i: nat, name: string, args: Option<string>, now: int, ghost m: Memory)
      returns (reply: Reply, ghost met: State)
      requires Backed() && Bounded() && heard != [] && heard[Now()] == ToolFrame(name, args)
      requires Accounted(history, m.pending, log, heard, |heard| - 1, allowed, parse)
      requires Takes(m.pending, pending, i, call, name, args, allowed, parse)
      requires modelCalls == m.modelCalls && toolCalls == m.toolCalls[name := Counted(m.toolCalls, name) + 1]
      requires toolCalls[name] <= maxPerTool ==> MayDispatch(log, name, maxPerTool, toolCalls)
      modifies this`log, this`history, ledger.db
      ensures Backed() && Bounded() && Ordered()
      ensures ToolHandled(ledger.profiles, cred, old(ledger.db.Current()), met, ledger.db.Current(), m, name, args, now, reply,
                          Memo(), old(Now()), old(log), log, Limit(), parse)
    {
      var granted;
      granted, met := PayTool(name, now);
      ghost var s := ledger.db.Current();
      TakenReply(m, name, args, i, call, pending, toolCalls, Limit(), parse, Now(),
                 Accepts(ledger.profiles, met, Op.Consume(cred, Tool, now)), granted);
      Settle(m.pending, i, call, name, args, granted);
      assert ledger.db.Current() == s;
      reply := if granted then Dispatched(call) else Refused;
    }

    method Handle(frame: Frame, again: int, pay: int) returns (reply: Reply, ghost auth: State, ghost met: State)
      requires Backed() && Bounded() && Hearing() && frame == heard[Now()]
      requires frame.ModelFrame? || frame.ToolFrame?
      modifies this, ledger.db
      ensures Backed() && Bounded() && Ordered() && heard == old(heard) && old(log) <= log
      ensures Answers(reply, frame, old(Now()), log)
      ensures Reaches(ledger.profiles, old(ledger.db.Current()), ledger.db.Current())
      ensures AskedBetween(ledger.profiles, old(ledger.db.Current()), auth, ledger.db.Current(), Op.Authorize(cred, again))
      ensures Accepts(ledger.profiles, auth, Op.Authorize(cred, again)) && Asks(old(Memo()), frame, Limit(), parse) ==>
                AskedBetween(ledger.profiles, old(ledger.db.Current()), met, ledger.db.Current(), Op.Consume(cred, KindOf(frame), pay))
      ensures var ok, paid := Accepts(ledger.profiles, auth, Op.Authorize(cred, again)),
                              Accepts(ledger.profiles, met, Op.Consume(cred, KindOf(frame), pay));
              && reply == ReplyTo(old(Memo()), frame, ok, paid, Limit(), parse)
              && Memo() == Remembers(old(Memo()), frame, ok, paid, Limit(), parse)
    {
      ghost var start, was := ledger.db.Current(), Memo();
      var ok;
      ok, auth := Authorized(again);
      ghost var mid := ledger.db.Current();
      AskedIsBetween(ledger.profiles, start, auth, mid, Op.Authorize(cred, again));
      met := mid;
      if !ok {
        Pass();
        return Refused, auth, met;
      }
      match frame {
        case ModelFrame(tools, completion) => reply, met := HandleModel(tools, completion, pay);
        case ToolFrame(name, args) => reply, met := HandleTool(name, args, pay);
        case _ =>
      }
      Paid(start, auth, mid, Op.Authorize(cred, again), met, ledger.db.Current(), Op.Consume(cred, KindOf(frame), pay),
           Asks(was, frame, Limit(), parse));
    }

    lemma Paid(start: State, auth: State, mid: State, check: Op, met: State, end: State, pay: Op, asked: bool)
      requires AskedBetween(ledger.profiles, start, auth, mid, check) && Reaches(ledger.profiles, start, mid)
      requires Reaches(ledger.profiles, mid, end) && (asked ==> Asked(ledger.profiles, mid, met, end, pay))
      ensures AskedBetween(ledger.profiles, start, auth, end, check) && Reaches(ledger.profiles, start, end)
      ensures asked ==> AskedBetween(ledger.profiles, start, met, end, pay)
    {
      ReachesItself(ledger.profiles, start);
      ReachesThen(ledger.profiles, start, mid, end);
      AskedAmid(ledger.profiles, start, start, auth, mid, end, check);
      if asked {
        AskedIsBetween(ledger.profiles, mid, met, end, pay);
        ReachesItself(ledger.profiles, end);
        AskedAmid(ledger.profiles, start, mid, met, end, end, pay);
      }
    }

    ghost method Hear(frame: Frame)
      requires Ordered()
      modifies this`heard
      ensures Hearing() && heard == old(heard) + [frame]
    {
      FrameIsAccounted(history, pending, log, heard, frame, allowed, parse);
      heard := heard + [frame];
    }

    /** A result is released exactly from a clean worker still authorized. */
    method Conclude(correlated: bool, cleanExit: bool, last: int) returns (step: Step, ghost met: State)
      requires Backed() && Bounded() && Ordered()
      modifies ledger.db
      ensures Backed() && Bounded() && Ordered()
      ensures correlated && cleanExit ==>
                AskedBetween(ledger.profiles, old(ledger.db.Current()), met, ledger.db.Current(), Op.Authorize(cred, last))
      ensures Reaches(ledger.profiles, old(ledger.db.Current()), ledger.db.Current())
      ensures step == End(if correlated && cleanExit && Accepts(ledger.profiles, met, Op.Authorize(cred, last)) then Released else Aborted)
      ensures step == End(Released) ==> Accepts(ledger.profiles, ledger.db.Current(), Op.Authorize(cred, last))
    {
      met := ledger.db.Current();
      ReachesItself(ledger.profiles, met);
      if !correlated || !cleanExit { return End(Aborted), met; }
      var ok;
      ok, met := Authorized(last);
      AskedIsBetween(ledger.profiles, old(ledger.db.Current()), met, ledger.db.Current(), Op.Authorize(cred, last));
      return if ok then End(Released) else End(Aborted), met;
    }

    method Respond(frame: Frame, t: Times) returns (step: Step, ghost auth: State, ghost paid: State, ghost last: State)
      requires Backed() && Bounded() && Hearing() && frame == heard[Now()]
      requires frame.ModelFrame? || frame.ToolFrame?
      modifies this, ledger.db
      ensures Backed() && Bounded() && Ordered() && heard == old(heard) && old(log) <= log
      ensures step.Deliver? ==> Answers(step.reply, frame, old(Now()), log)
      ensures Reaches(ledger.profiles, old(ledger.db.Current()), ledger.db.Current())
      ensures Questioned(ledger.profiles, cred, old(ledger.db.Current()), old(Memo()), frame, t, auth, paid, last, ledger.db.Current(), Limit(), parse)
      ensures var ok, pays, still := Accepts(ledger.profiles, auth, Op.Authorize(cred, t.again)),
                                     Accepts(ledger.profiles, paid, Op.Consume(cred, KindOf(frame), t.pay)),
                                     Accepts(ledger.profiles, last, Op.Authorize(cred, t.last));
              && step == (if still then Deliver(ReplyTo(old(Memo()), frame, ok, pays, Limit(), parse)) else End(Aborted))
              && Memo() == Remembers(old(Memo()), frame, ok, pays, Limit(), parse)
    {
      ghost var start, was := ledger.db.Current(), Memo();
      var reply, ok;
      reply, auth, paid := Handle(frame, t.again, t.pay);
      ghost var mid := ledger.db.Current();
      ok, last := Authorized(t.last);
      AllAsked(start, was, frame, t, auth, paid, mid, last, ledger.db.Current());
      step := if ok then Deliver(reply) else End(Aborted);
    }

    lemma AllAsked(start: State, was: Memory, frame: Frame, t: Times, auth: State, paid: State, mid: State, last: State, end: State)
      requires Reaches(ledger.profiles, start, mid)
      requires AskedBetween(ledger.profiles, start, auth, mid, Op.Authorize(cred, t.again))
      requires Accepts(ledger.profiles, auth, Op.Authorize(cred, t.again)) && Asks(was, frame, Limit(), parse) ==>
                 AskedBetween(ledger.profiles, start, paid, mid, Op.Consume(cred, KindOf(frame), t.pay))
      requires Asked(ledger.profiles, mid, last, end, Op.Authorize(cred, t.last))
      ensures Questioned(ledger.profiles, cred, start, was, frame, t, auth, paid, last, end, Limit(), parse) && Reaches(ledger.profiles, start, end)
    {
      AskedIsBetween(ledger.profiles, mid, last, end, Op.Authorize(cred, t.last));
      ReachesItself(ledger.profiles, start);
      ReachesItself(ledger.profiles, end);
      ReachesThen(ledger.profiles, start, mid, end);
      AskedAmid(ledger.profiles, start, start, auth, mid, end, Op.Authorize(cred, t.again));
      AskedAmid(ledger.profiles, start, mid, last, end, end, Op.Authorize(cred, t.last));
      if Accepts(ledger.profiles, auth, Op.Authorize(cred, t.again)) && Asks(was, frame, Limit(), parse) {
        AskedAmid(ledger.profiles, start, start, paid, mid, end, Op.Consume(cred, KindOf(frame), t.pay));
      }
    }

    /** What an authorized frame leads to. */
    method React(frame: Frame, t: Times) returns (step: Step, ghost auth: State, ghost paid: State, ghost last: State)
      requires Backed() && Bounded() && Hearing() && frame == heard[Now()]
      modifies this, ledger.db
      ensures Backed() && Bounded() && Ordered() && heard == old(heard) && old(log) <= log
      ensures step.Deliver? ==> Answers(step.reply, frame, old(Now()), log)
      ensures Reaches(ledger.profiles, old(ledger.db.Current()), ledger.db.Current())
      ensures Reacted(ledger.profiles, cred, old(ledger.db.Current()), old(Memo()), frame, t, auth, paid, last, ledger.db.Current(), step,
                      Memo(), Limit(), parse)
      ensures step == End(Released) ==> Accepts(ledger.profiles, ledger.db.Current(), Op.Authorize(cred, t.last))
    {
      auth, paid, last := ledger.db.Current(), ledger.db.Current(), ledger.db.Current();
      ReachesItself(ledger.profiles, last);
      step := End(Aborted);
      Pass();
      match frame {
        case ResultFrame(correlated, cleanExit) => step, last := Conclude(correlated, cleanExit, t.last);
        case ErrorFrame =>
        case UnknownFrame =>
        case _ => step, auth, paid, last := Respond(frame, t);
      }
    }

    /** The last frame heard, if the attempt is authorized as it arrives. */
    method Attend(frame: Frame, t: Times) returns (step: Step, ghost met: Met, ghost mid: State)
      requires Backed() && Bounded() && Hearing() && frame == heard[Now()]
      modifies this, ledger.db
      ensures Backed() && Bounded() && Ordered() && heard == old(heard) && old(log) <= log
      ensures step.Deliver? ==> Answers(step.reply, frame, old(Now()), log)
      ensures Asked(ledger.profiles, old(ledger.db.Current()), met.first, mid, Op.Authorize(cred, t.first))
      ensures if Accepts(ledger.profiles, met.first, Op.Authorize(cred, t.first))
              then Reacted(ledger.profiles, cred, mid, old(Memo()), frame, t, met.again, met.paid, met.last, ledger.db.Current(), step,
                           Memo(), Limit(), parse)
              else step == End(Aborted) && ledger.db.Current() == mid
      ensures step == End(Released) ==> Accepts(ledger.profiles, ledger.db.Current(), Op.Authorize(cred, t.last))
    {
      var ok;
      ghost var first, again, paid, last;
      ok, first := Authorized(t.first);
      mid := ledger.db.Current();
      met := Met(first, mid, mid, mid);
      if !ok {
        Pass();
        return End(Aborted), met, mid;
      }
      step, again, paid, last := React(frame, t);
      met := Met(first, again, paid, last);
    }

    /** One frame: a reply to deliver, or the end of the conversation. */
    method ServeFrame(frame: Frame, t: Times) returns (step: Step, ghost met: Met, ghost v: Verdicts)
      requires Backed() && Bounded() && Ordered()
      modifies this, ledger.db
      ensures Backed() && Bounded() && Ordered() && heard == old(heard) + [frame] && old(log) <= log
      ensures step.Deliver? ==> Answers(step.reply, frame, |old(heard)|, log)
      ensures Truthful(ledger.profiles, cred, frame, t, met, v)
      ensures MetBetween(ledger.profiles, cred, old(ledger.db.Current()), ledger.db.Current(), old(Memo()), frame, t, met, v, Limit(), parse)
      ensures Reaches(ledger.profiles, old(ledger.db.Current()), ledger.db.Current())
      ensures step == StepFor(old(Memo()), frame, v, Limit(), parse)
      ensures step.Deliver? ==> Memo() == Remembers(old(Memo()), frame, v.again, v.paid, Limit(), parse)
      ensures step == End(Released) ==> Accepts(ledger.profiles, ledger.db.Current(), Op.Authorize(cred, t.last))
    {
      ghost var start, was, mid := ledger.db.Current(), Memo(), ledger.db.Current();
      Hear(frame);
      step, met, mid := Attend(frame, t);
      v := VerdictsOf(ledger.profiles, cred, frame, t, met);
      AskedIsBetween(ledger.profiles, start, met.first, mid, Op.Authorize(cred, t.first));
      FrameServed(ledger.profiles, cred, start, was, frame, t, mid, met, v, ledger.db.Current(), step, Memo(), Limit(), parse);
    }

    ghost predicate Underway(b: Begun, x: Script, story: Story, replies: seq<Reply>)
      reads this, ledger.db
    {
      Serving(ledger.profiles, cred, b, x, story, replies, ledger.db.Current(), Memo(), heard, log, Limit(), parse)
    }

    ghost predicate Over(b: Begun, x: Script, story: Story, replies: seq<Reply>, outcome: Outcome)
      reads this, ledger.db
    {
      Finished(ledger.profiles, cred, b, x, story, replies, outcome, ledger.db.Current(), heard, log, Limit(), parse)
    }

    /** The next frame within budget. */
    method ServeNext(frame: Frame, t: Times, ghost b: Begun, ghost x: Script, ghost story: Story, ghost replies: seq<Reply>)
      returns (step: Step, ghost more: Story)
      requires Backed() && Bounded() && Ordered() && Underway(b, x, story, replies)
      requires |replies| < |x.frames| == |x.times| && frame == x.frames[|replies|] && t == x.times[|replies|]
      requires WithinBudget(x.sizes, |replies|, x.maxFrames)
      modifies this, ledger.db
      ensures Backed() && Bounded() && Ordered()
      ensures match step
              case Deliver(reply) => Underway(b, x, more, replies + [reply])
              case End(outcome) => Over(b, x, more, replies, outcome)
      ensures |more.verdicts| == |replies| + 1
      ensures step == End(Released) ==> Accepts(ledger.profiles, ledger.db.Current(), Op.Authorize(cred, t.last))
    {
      ghost var said, mid, before, earlier := log, ledger.db.Current(), Memo(), heard;
      ghost var m, v;
      step, m, v := ServeFrame(frame, t);
      more := Further(story, m, v, step, Memo());
      ServedNext(ledger.profiles, cred, b, x, story, replies, mid, before, earlier, said, Limit(), parse,
                 step, m, v, ledger.db.Current(), Memo(), log);
    }

    /** The frame loop, against any worker. Whatever it sends, from the first frame on:
        every turn's uses are calls its model made, in emission order, each asked for by a
        frame of its own with the same name and arguments (`Ordered`, over all turns and
        frames heard); each reply answers the frame it comes after and is the one the
        ledger's answers call for, to the end (`Finished`); dispatches and model calls stay
        within this supervisor's limits and the ledger's lease. */
    method Serve(frames: seq<Frame>, sizes: seq<nat>, times: seq<Times>, maxFrames: nat)
      returns (outcome: Outcome, replies: seq<Reply>, ghost story: Story)
      requires Backed() && Bounded() && Ordered() && |sizes| == |frames| == |times|
      requires maxFrames == maxIterations * (maxPerTool + 2)
      modifies this, ledger.db
      ensures Backed() && Bounded() && Ordered()
      ensures Over(Begun(old(ledger.db.Current()), old(Memo()), old(heard), old(log)), Script(frames, sizes, times, maxFrames),
                   story, replies, outcome)
      ensures AllDispatches(log) <= Allowance(ledger.db.Current(), cred.id, Tool)
      ensures routed <= Allowance(ledger.db.Current(), cred.id, Model)
      ensures outcome.Released? ==>
                && 1 <= |story.verdicts| <= |times|
                && Accepts(ledger.profiles, ledger.db.Current(), Op.Authorize(cred, times[|story.verdicts| - 1].last))
    {
      ghost var b := Begun(ledger.db.Current(), Memo(), heard, log);
      NothingServed(ledger.profiles, cred, b, Script(frames, sizes, times, maxFrames), Limit(), parse);
      outcome, replies, story := ServeAll(frames, sizes, times, maxFrames, b);
      WithinLease();
    }

    method ServeAll(frames: seq<Frame>, sizes: seq<nat>, times: seq<Times>, maxFrames: nat, ghost b: Begun)
      returns (outcome: Outcome, replies: seq<Reply>, ghost story: Story)
      requires Backed() && Bounded() && Ordered() && |sizes| == |frames| == |times|
      requires Underway(b, Script(frames, sizes, times, maxFrames), Story([], [], [Memo()]), [])
      modifies this, ledger.db
      ensures Backed() && Bounded() && Ordered()
      ensures Over(b, Script(frames, sizes, times, maxFrames), story, replies, outcome)
      ensures outcome.Released? ==>
                && 1 <= |story.verdicts| <= |times|
                && Accepts(ledger.profiles, ledger.db.Current(), Op.Authorize(cred, times[|story.verdicts| - 1].last))
    {
      ghost var x := Script(frames, sizes, times, maxFrames);
      replies, story := [], Story([], [], [Memo()]);
      var n, bytes := 0, 0;
      while n < |frames|
        invariant n <= |frames| && n == |replies| && bytes == Bytes(sizes[..n])
        invariant Backed() && Bounded() && Ordered() && Underway(b, x, story, replies)
      {
        BudgetSoFar(sizes, n, maxFrames, bytes);
        if n + 1 > maxFrames || bytes + sizes[n] > MAX_BYTES { break; }
        var step;
        step, story := ServeNext(frames[n], times[n], b, x, story, replies);
        if step.End? { return step.outcome, replies, story; }
        bytes, n, replies := bytes + sizes[n], n + 1, replies + [step.reply];
      }
      ServedOut(ledger.profiles, cred, b, x, story, replies, ledger.db.Current(), Memo(), heard, log, Limit(), parse);
      return Aborted, replies, story;
    }

    /** What this parent did is within what the ledger allows. */
    lemma WithinLease()
      requires Backed()
      ensures AllDispatches(log) <= Allowance(ledger.db.Current(), cred.id, Tool)
      ensures routed <= Allowance(ledger.db.Current(), cred.id, Model)
    {
      UsedWithinLease(ledger.profiles, ledger.db.Current(), cred.id, Tool);
      UsedWithinLease(ledger.profiles, ledger.db.Current(), cred.id, Model);
    }

    /** Enters a use of the call just taken from `was`. */
    ghost method Settle(was: seq<Call>, i: nat, call: Call, name: string, args: Option<string>, dispatched: bool)
      requires Bounded() && heard != [] && Accounted(history, was, log, heard, |heard| - 1, allowed, parse)
      requires heard[Now()] == ToolFrame(name, args) && Takes(was, pending, i, call, name, args, allowed, parse)
      requires dispatched ==> MayDispatch(log, name, maxPerTool, toolCalls)
      modifies this`log, this`history
      ensures Bounded() && Ordered()
      ensures log == old(log) + [Use(call, dispatched, Now())]
      ensures AllDispatches(log) == AllDispatches(old(log)) + if dispatched then 1 else 0
    {
      var u := Use(call, dispatched, |heard| - 1);
      UseStaysWithin(log, u, maxPerTool, toolCalls);
      TakenIsAccounted(history, was, pending, log, heard, i, call, name, args, dispatched, allowed, parse);
      history := WithUse(history, i, u);
      log := log + [u];
    }
  }
}
