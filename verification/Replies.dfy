/** What the parent owes each frame: which reply, and what it remembers, given how the ledger
    answered the questions asked around it. */
module Replies {
  import opened Wrappers
  import opened Conversations

  datatype Limits = Limits(allowed: set<string>, maxIterations: nat, maxPerTool: nat)

  /** The calls not yet used, and what was counted against the limits. */
  datatype Memory = Memory(pending: seq<Call>, modelCalls: nat, toolCalls: map<string, nat>)

  /** How the ledger answered around one frame: on its arrival, before it was handled, when
      it was paid for, and before anything was released. */
  datatype Verdicts = Verdicts(first: bool, again: bool, paid: bool, last: bool)

  const MAX_BYTES := 4000000

  function Counted(toolCalls: map<string, nat>, name: string): nat {
    if name in toolCalls then toolCalls[name] else 0
  }

  predicate ToolsAllowed(tools: Option<seq<string>>, allowed: set<string>) {
    tools.Some? && forall t | t in tools.value :: t in allowed
  }

  /** The first pending call of this name was made with these very arguments. */
  predicate MayTake(pending: seq<Call>, name: string, args: Option<string>, allowed: set<string>, parse: string -> Option<string>) {
    && name in allowed && args.Some?
    && var i := FirstNamed(pending, name);
    i < |pending| && parse(pending[i].arguments) == args
  }

  /** The parent's own limits leave the ledger to decide. */
  predicate Asks(m: Memory, frame: Frame, l: Limits, parse: string -> Option<string>) {
    match frame
    case ModelFrame(_, _) => m.modelCalls <= l.maxIterations
    case ToolFrame(name, args) => MayTake(m.pending, name, args, l.allowed, parse) && Counted(m.toolCalls, name) < l.maxPerTool
    case _ => false
  }

  function ReplyTo(m: Memory, frame: Frame, again: bool, paid: bool, l: Limits, parse: string -> Option<string>): Reply {
    if !again || !Asks(m, frame, l, parse) || !paid then Refused
    else match frame
      case ModelFrame(tools, completion) =>
        if ToolsAllowed(tools, l.allowed) && completion.Some? then Answered(completion.value) else Refused
      case ToolFrame(name, _) => Dispatched(m.pending[FirstNamed(m.pending, name)])
      case _ => Refused
  }

  /** A model call is counted however it ends; a tool call is used up and counted once it
      was the one authorized, dispatched or not. */
  function Remembers(m: Memory, frame: Frame, again: bool, paid: bool, l: Limits, parse: string -> Option<string>): Memory {
    if !again then m
    else match frame
      case ModelFrame(_, _) =>
        var reply := ReplyTo(m, frame, again, paid, l, parse);
        Memory(if reply.Answered? then Pending(reply.calls) else m.pending, m.modelCalls + 1, m.toolCalls)
      case ToolFrame(name, args) =>
        if MayTake(m.pending, name, args, l.allowed, parse)
        then Memory(Without(m.pending, FirstNamed(m.pending, name)), m.modelCalls, m.toolCalls[name := Counted(m.toolCalls, name) + 1])
        else m
      case _ => m
  }

  function StepFor(m: Memory, frame: Frame, v: Verdicts, l: Limits, parse: string -> Option<string>): Step {
    if !v.first || !v.last then End(Aborted)
    else match frame
      case ModelFrame(_, _) => Deliver(ReplyTo(m, frame, v.again, v.paid, l, parse))
      case ToolFrame(_, _) => Deliver(ReplyTo(m, frame, v.again, v.paid, l, parse))
      case ResultFrame(correlated, cleanExit) => End(if correlated && cleanExit then Released else Aborted)
      case _ => End(Aborted)
  }

  /** What a tool frame adds to the log of uses. */
  function UsesFor(pending: seq<Call>, name: string, args: Option<string>, dispatched: bool, at: nat, allowed: set<string>,
                   parse: string -> Option<string>): seq<Use> {
    if MayTake(pending, name, args, allowed, parse) then [Use(pending[FirstNamed(pending, name)], dispatched, at)] else []
  }

  lemma TakenReply(m: Memory, name: string, args: Option<string>, i: nat, call: Call, pending: seq<Call>, toolCalls: map<string, nat>,
                   l: Limits, parse: string -> Option<string>, at: nat, paid: bool, granted: bool)
    requires Takes(m.pending, pending, i, call, name, args, l.allowed, parse)
    requires toolCalls == m.toolCalls[name := Counted(m.toolCalls, name) + 1]
    requires granted <==> toolCalls[name] <= l.maxPerTool && paid
    ensures ReplyTo(m, ToolFrame(name, args), true, paid, l, parse) == (if granted then Dispatched(call) else Refused)
    ensures Remembers(m, ToolFrame(name, args), true, paid, l, parse) == Memory(pending, m.modelCalls, toolCalls)
    ensures UsesFor(m.pending, name, args, granted, at, l.allowed, parse) == [Use(call, granted, at)]
  {
  }

  lemma NotTakenReply(m: Memory, name: string, args: Option<string>, l: Limits, parse: string -> Option<string>, at: nat, paid: bool,
                      log: seq<Use>)
    requires !MayTake(m.pending, name, args, l.allowed, parse)
    ensures var frame := ToolFrame(name, args);
            && !Asks(m, frame, l, parse) && ReplyTo(m, frame, true, paid, l, parse) == Refused
            && Remembers(m, frame, true, paid, l, parse) == m
    ensures log == log + UsesFor(m.pending, name, args, false, at, l.allowed, parse)
  {
  }

  lemma RoutedReply(m: Memory, tools: Option<seq<string>>, completion: Option<seq<Call>>, l: Limits,
                    parse: string -> Option<string>, paid: bool, granted: bool)
    requires granted <==> m.modelCalls <= l.maxIterations && ToolsAllowed(tools, l.allowed) && paid
    ensures var frame := ModelFrame(tools, completion);
            if granted && completion.Some?
            then && ReplyTo(m, frame, true, paid, l, parse) == Answered(completion.value)
                 && Remembers(m, frame, true, paid, l, parse) == Memory(Pending(completion.value), m.modelCalls + 1, m.toolCalls)
            else && ReplyTo(m, frame, true, paid, l, parse) == Refused
                 && Remembers(m, frame, true, paid, l, parse) == Memory(m.pending, m.modelCalls + 1, m.toolCalls)
  {
  }

  // ---- what that means, frame by frame ----

  /** A tool call is dispatched exactly when it is allowed, is the first of its name the model
      made and nobody used, was asked for with its own arguments, is within its limit, and
      the ledger both still authorizes the attempt and pays. */
  lemma DispatchedIff(m: Memory, name: string, args: Option<string>, again: bool, paid: bool, l: Limits,
                      parse: string -> Option<string>, call: Call)
    ensures ReplyTo(m, ToolFrame(name, args), again, paid, l, parse) == Dispatched(call)
       <==> (&& again && paid && name in l.allowed && args.Some? && parse(call.arguments) == args
             && (if name in m.toolCalls then m.toolCalls[name] < l.maxPerTool else 0 < l.maxPerTool)
             && exists i | 0 <= i < |m.pending| ::
                  m.pending[i] == call && call.name == name && forall j | 0 <= j < i :: m.pending[j].name != name)
  {
    var i := FirstNamed(m.pending, name);
    if i < |m.pending| && m.pending[i] == call { assert call.name == name; }
  }

  /** The model's answer is passed on exactly when it gave one, the turn is within its limit,
      only allowed tools were named, and the ledger authorizes and pays. */
  lemma AnsweredIff(m: Memory, tools: Option<seq<string>>, completion: Option<seq<Call>>, again: bool, paid: bool, l: Limits,
                    parse: string -> Option<string>, calls: seq<Call>)
    ensures ReplyTo(m, ModelFrame(tools, completion), again, paid, l, parse) == Answered(calls)
       <==> (&& again && paid && completion == Some(calls) && m.modelCalls + 1 <= l.maxIterations + 1
             && tools.Some? && forall i | 0 <= i < |tools.value| :: tools.value[i] in l.allowed)
  {
  }

  // ---- a whole conversation ----

  function Bytes(sizes: seq<nat>): nat {
    if sizes == [] then 0 else Bytes(sizes[..|sizes| - 1]) + sizes[|sizes| - 1]
  }

  lemma BytesOneMore(sizes: seq<nat>, n: nat)
    requires n < |sizes|
    ensures Bytes(sizes[..n + 1]) == Bytes(sizes[..n]) + sizes[n]
  {
    assert sizes[..n + 1][..n] == sizes[..n];
  }

  predicate WithinBudget(sizes: seq<nat>, n: nat, maxFrames: nat)
    requires n < |sizes|
  {
    n + 1 <= maxFrames && Bytes(sizes[..n + 1]) <= MAX_BYTES
  }

  lemma BudgetSoFar(sizes: seq<nat>, n: nat, maxFrames: nat, bytes: nat)
    requires n < |sizes| && bytes == Bytes(sizes[..n])
    ensures WithinBudget(sizes, n, maxFrames) <==> n + 1 <= maxFrames && bytes + sizes[n] <= MAX_BYTES
    ensures Bytes(sizes[..n + 1]) == bytes + sizes[n]
  {
    BytesOneMore(sizes, n);
  }

  /** The first frames were each within budget and got this reply, leaving this memory. */
  ghost predicate Replied(m: Memory, frames: seq<Frame>, sizes: seq<nat>, verdicts: seq<Verdicts>, memories: seq<Memory>,
                          replies: seq<Reply>, maxFrames: nat, l: Limits, parse: string -> Option<string>)
  {
    && |replies| <= |verdicts| && |replies| <= |frames| == |sizes| && |memories| == |replies| + 1 && memories[0] == m
    && forall i | 0 <= i < |replies| ::
         && WithinBudget(sizes, i, maxFrames)
         && StepFor(memories[i], frames[i], verdicts[i], l, parse) == Deliver(replies[i])
         && memories[i + 1] == Remembers(memories[i], frames[i], verdicts[i].again, verdicts[i].paid, l, parse)
  }

  /** And then the conversation ended: the worker was gone, or over budget, or the next frame
      ended it. */
  ghost predicate Conversed(m: Memory, frames: seq<Frame>, sizes: seq<nat>, verdicts: seq<Verdicts>, memories: seq<Memory>,
                            replies: seq<Reply>, outcome: Outcome, maxFrames: nat, l: Limits, parse: string -> Option<string>)
  {
    && Replied(m, frames, sizes, verdicts, memories, replies, maxFrames, l, parse)
    && var n := |replies|;
    if n == |frames| || !WithinBudget(sizes, n, maxFrames) then outcome.Aborted?
    else n < |verdicts| && StepFor(memories[n], frames[n], verdicts[n], l, parse) == End(outcome)
  }

  lemma RepliedOneMore(m: Memory, frames: seq<Frame>, sizes: seq<nat>, verdicts: seq<Verdicts>, memories: seq<Memory>,
                       replies: seq<Reply>, maxFrames: nat, l: Limits, parse: string -> Option<string>,
                       v: Verdicts, reply: Reply, after: Memory)
    requires Replied(m, frames, sizes, verdicts, memories, replies, maxFrames, l, parse)
    requires |verdicts| == |replies| < |frames| && WithinBudget(sizes, |replies|, maxFrames)
    requires StepFor(memories[|replies|], frames[|replies|], v, l, parse) == Deliver(reply)
    requires after == Remembers(memories[|replies|], frames[|replies|], v.again, v.paid, l, parse)
    ensures Replied(m, frames, sizes, verdicts + [v], memories + [after], replies + [reply], maxFrames, l, parse)
  {
  }

  /** One frame on: another reply, or the end. */
  lemma ServedOn(m: Memory, frames: seq<Frame>, sizes: seq<nat>, verdicts: seq<Verdicts>, memories: seq<Memory>,
                 replies: seq<Reply>, maxFrames: nat, l: Limits, parse: string -> Option<string>,
                 v: Verdicts, step: Step, after: Memory)
    requires Replied(m, frames, sizes, verdicts, memories, replies, maxFrames, l, parse)
    requires |verdicts| == |replies| < |frames| && WithinBudget(sizes, |replies|, maxFrames)
    requires step == StepFor(memories[|replies|], frames[|replies|], v, l, parse)
    requires step.Deliver? ==> after == Remembers(memories[|replies|], frames[|replies|], v.again, v.paid, l, parse)
    ensures step.Deliver? ==>
              Replied(m, frames, sizes, verdicts + [v], memories + [after], replies + [step.reply], maxFrames, l, parse)
    ensures step.End? ==> Conversed(m, frames, sizes, verdicts + [v], memories, replies, step.outcome, maxFrames, l, parse)
  {
    if step.Deliver? {
      RepliedOneMore(m, frames, sizes, verdicts, memories, replies, maxFrames, l, parse, v, step.reply, after);
    }
  }

  /** A result is released exactly when every frame before it was a model or tool frame the
      ledger authorized on arrival and before replying, all within budget, and it came
      correlated from a clean exit and was itself authorized twice. */
  lemma ReleasedIff(m: Memory, frames: seq<Frame>, sizes: seq<nat>, verdicts: seq<Verdicts>, memories: seq<Memory>,
                    replies: seq<Reply>, outcome: Outcome, maxFrames: nat, l: Limits, parse: string -> Option<string>)
    requires Conversed(m, frames, sizes, verdicts, memories, replies, outcome, maxFrames, l, parse)
    ensures outcome.Released?
       <==> exists n | 0 <= n < |frames| && n < |verdicts| ::
              && n + 1 <= maxFrames && Bytes(sizes[..n + 1]) <= MAX_BYTES
              && frames[n] == ResultFrame(true, true) && verdicts[n].first && verdicts[n].last
              && forall i | 0 <= i < n :: (frames[i].ModelFrame? || frames[i].ToolFrame?) && verdicts[i].first && verdicts[i].last
  {
    var n := |replies|;
    forall i | 0 <= i < n ensures (frames[i].ModelFrame? || frames[i].ToolFrame?) && verdicts[i].first && verdicts[i].last {
      assert StepFor(memories[i], frames[i], verdicts[i], l, parse) == Deliver(replies[i]);
    }
    if k: nat :| k < |frames| && k < |verdicts| && k + 1 <= maxFrames && Bytes(sizes[..k + 1]) <= MAX_BYTES
                 && frames[k] == ResultFrame(true, true) && verdicts[k].first && verdicts[k].last
                 && forall i | 0 <= i < k :: (frames[i].ModelFrame? || frames[i].ToolFrame?) && verdicts[i].first && verdicts[i].last
    {
      assert k >= n;
      FewerBytes(sizes, n, k);
    }
  }

  lemma {:induction false} FewerBytes(sizes: seq<nat>, a: nat, b: nat)
    requires a <= b < |sizes|
    ensures Bytes(sizes[..a + 1]) <= Bytes(sizes[..b + 1])
    decreases b
  {
    if a < b {
      BytesOneMore(sizes, b);
      FewerBytes(sizes, a, b - 1);
    }
  }
}
