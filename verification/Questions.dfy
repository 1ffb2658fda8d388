/** The questions a parent asks a ledger it shares with others, and the answers it met. */
module Questions {
  import opened Wrappers
  import opened Conversations
  import opened Delegations
  import opened Interference
  import opened Replies

  /** The clock's readings at the four questions asked around one frame. */
  datatype Times = Times(first: int, again: int, pay: int, last: int)

  /** The ledgers that answered them. */
  datatype Met = Met(first: State, again: State, paid: State, last: State)

  function KindOf(frame: Frame): Kind {
    if frame.ModelFrame? then Model else Tool
  }

  // ---- which questions a frame raises ----

  predicate AsksAgain(frame: Frame, v: Verdicts) {
    v.first && (frame.ModelFrame? || frame.ToolFrame?)
  }

  predicate AsksToPay(m: Memory, frame: Frame, v: Verdicts, l: Limits, parse: string -> Option<string>) {
    AsksAgain(frame, v) && v.again && Asks(m, frame, l, parse)
  }

  predicate AsksLast(frame: Frame, v: Verdicts) {
    v.first && match frame
               case ResultFrame(correlated, cleanExit) => correlated && cleanExit
               case _ => frame.ModelFrame? || frame.ToolFrame?
  }

  /** Each question the frame raised was put to the ledger met between these two. */
  ghost predicate MetBetween(profiles: Profiles, cred: Credential, start: State, end: State, m: Memory, frame: Frame, t: Times,
                             met: Met, v: Verdicts, l: Limits, parse: string -> Option<string>)
  {
    && AskedBetween(profiles, start, met.first, end, Op.Authorize(cred, t.first))
    && (AsksAgain(frame, v) ==> AskedBetween(profiles, start, met.again, end, Op.Authorize(cred, t.again)))
    && (AsksToPay(m, frame, v, l, parse) ==> AskedBetween(profiles, start, met.paid, end, Op.Consume(cred, KindOf(frame), t.pay)))
    && (AsksLast(frame, v) ==> AskedBetween(profiles, start, met.last, end, Op.Authorize(cred, t.last)))
  }

  /** How an authorized tool frame was dealt with. */
  ghost predicate ToolHandled(profiles: Profiles, cred: Credential, start: State, met: State, end: State, m: Memory, name: string,
                              args: Option<string>, now: int, reply: Reply, after: Memory, at: nat, said: seq<Use>, log: seq<Use>,
                              l: Limits, parse: string -> Option<string>)
  {
    && Reaches(profiles, start, end)
    && (Asks(m, ToolFrame(name, args), l, parse) ==> Asked(profiles, start, met, end, Op.Consume(cred, Tool, now)))
    && var paid := Accepts(profiles, met, Op.Consume(cred, Tool, now));
    && reply == ReplyTo(m, ToolFrame(name, args), true, paid, l, parse)
    && after == Remembers(m, ToolFrame(name, args), true, paid, l, parse)
    && log == said + UsesFor(m.pending, name, args, reply.Dispatched?, at, l.allowed, parse)
  }

  lemma NothingTaken(profiles: Profiles, cred: Credential, s: State, m: Memory, name: string, args: Option<string>, now: int, at: nat,
                     log: seq<Use>, l: Limits, parse: string -> Option<string>)
    requires !MayTake(m.pending, name, args, l.allowed, parse)
    ensures ToolHandled(profiles, cred, s, s, s, m, name, args, now, Refused, m, at, log, log, l, parse)
  {
    ReachesItself(profiles, s);
    NotTakenReply(m, name, args, l, parse, at, Accepts(profiles, s, Op.Consume(cred, Tool, now)), log);
  }

  /** The questions a model or tool frame raises, once it was authorized on arrival. */
  ghost predicate Questioned(profiles: Profiles, cred: Credential, start: State, was: Memory, frame: Frame, t: Times, auth: State,
                             paid: State, last: State, end: State, l: Limits, parse: string -> Option<string>)
  {
    && AskedBetween(profiles, start, auth, end, Op.Authorize(cred, t.again))
    && (Accepts(profiles, auth, Op.Authorize(cred, t.again)) && Asks(was, frame, l, parse) ==>
          AskedBetween(profiles, start, paid, end, Op.Consume(cred, KindOf(frame), t.pay)))
    && AskedBetween(profiles, start, last, end, Op.Authorize(cred, t.last))
  }

  /** How a frame authorized on arrival was dealt with. */
  ghost predicate Reacted(profiles: Profiles, cred: Credential, start: State, was: Memory, frame: Frame, t: Times, auth: State,
                          paid: State, last: State, end: State, step: Step, after: Memory, l: Limits, parse: string -> Option<string>)
  {
    && Reaches(profiles, start, end)
    && (frame.ModelFrame? || frame.ToolFrame? ==> Questioned(profiles, cred, start, was, frame, t, auth, paid, last, end, l, parse))
    && (frame == ResultFrame(true, true) ==> AskedBetween(profiles, start, last, end, Op.Authorize(cred, t.last)))
    && var v := Verdicts(true, Accepts(profiles, auth, Op.Authorize(cred, t.again)),
                         Accepts(profiles, paid, Op.Consume(cred, KindOf(frame), t.pay)),
                         Accepts(profiles, last, Op.Authorize(cred, t.last)));
    && step == StepFor(was, frame, v, l, parse)
    && (step.Deliver? ==> after == Remembers(was, frame, v.again, v.paid, l, parse))
  }

  lemma FrameServed(profiles: Profiles, cred: Credential, start: State, was: Memory, frame: Frame, t: Times, mid: State, met: Met,
                    v: Verdicts, end: State, step: Step, after: Memory, l: Limits, parse: string -> Option<string>)
    requires Truthful(profiles, cred, frame, t, met, v)
    requires AskedBetween(profiles, start, met.first, mid, Op.Authorize(cred, t.first)) && Reaches(profiles, start, mid)
    requires if v.first then Reacted(profiles, cred, mid, was, frame, t, met.again, met.paid, met.last, end, step, after, l, parse)
             else step == End(Aborted) && end == mid
    ensures Reaches(profiles, start, end)
    ensures MetBetween(profiles, cred, start, end, was, frame, t, met, v, l, parse)
    ensures step == StepFor(was, frame, v, l, parse) && (step.Deliver? ==> after == Remembers(was, frame, v.again, v.paid, l, parse))
  {
    ReachesItself(profiles, mid);
    FrameAsked(profiles, cred, start, was, frame, t, mid, met, v, end, l, parse);
  }

  lemma FrameAsked(profiles: Profiles, cred: Credential, start: State, was: Memory, frame: Frame, t: Times, mid: State, met: Met,
                   v: Verdicts, end: State, l: Limits, parse: string -> Option<string>)
    requires Truthful(profiles, cred, frame, t, met, v)
    requires AskedBetween(profiles, start, met.first, mid, Op.Authorize(cred, t.first))
    requires Reaches(profiles, start, mid) && Reaches(profiles, mid, end)
    requires AsksAgain(frame, v) ==> Questioned(profiles, cred, mid, was, frame, t, met.again, met.paid, met.last, end, l, parse)
    requires v.first && frame == ResultFrame(true, true) ==> AskedBetween(profiles, mid, met.last, end, Op.Authorize(cred, t.last))
    ensures Reaches(profiles, start, end)
    ensures MetBetween(profiles, cred, start, end, was, frame, t, met, v, l, parse)
  {
    ReachesItself(profiles, start);
    ReachesItself(profiles, end);
    ReachesThen(profiles, start, mid, end);
    AskedAmid(profiles, start, start, met.first, mid, end, Op.Authorize(cred, t.first));
    if AsksAgain(frame, v) { AskedAmid(profiles, start, mid, met.again, end, end, Op.Authorize(cred, t.again)); }
    if AsksToPay(was, frame, v, l, parse) {
      AskedAmid(profiles, start, mid, met.paid, end, end, Op.Consume(cred, KindOf(frame), t.pay));
    }
    if AsksLast(frame, v) { AskedAmid(profiles, start, mid, met.last, end, end, Op.Authorize(cred, t.last)); }
  }

  /** Its answers. */
  ghost predicate Truthful(profiles: Profiles, cred: Credential, frame: Frame, t: Times, met: Met, v: Verdicts) {
    && v.first == Accepts(profiles, met.first, Op.Authorize(cred, t.first))
    && v.again == Accepts(profiles, met.again, Op.Authorize(cred, t.again))
    && v.paid == Accepts(profiles, met.paid, Op.Consume(cred, KindOf(frame), t.pay))
    && v.last == Accepts(profiles, met.last, Op.Authorize(cred, t.last))
  }

  ghost function VerdictsOf(profiles: Profiles, cred: Credential, frame: Frame, t: Times, met: Met): (v: Verdicts)
    ensures Truthful(profiles, cred, frame, t, met, v)
  {
    Verdicts(Accepts(profiles, met.first, Op.Authorize(cred, t.first)),
             Accepts(profiles, met.again, Op.Authorize(cred, t.again)),
             Accepts(profiles, met.paid, Op.Consume(cred, KindOf(frame), t.pay)),
             Accepts(profiles, met.last, Op.Authorize(cred, t.last)))
  }

  lemma MetAmid(profiles: Profiles, cred: Credential, a: State, b: State, c: State, d: State, m: Memory, frame: Frame, t: Times,
                met: Met, v: Verdicts, l: Limits, parse: string -> Option<string>)
    requires Reaches(profiles, a, b) && MetBetween(profiles, cred, b, c, m, frame, t, met, v, l, parse) && Reaches(profiles, c, d)
    ensures MetBetween(profiles, cred, a, d, m, frame, t, met, v, l, parse)
  {
    AskedAmid(profiles, a, b, met.first, c, d, Op.Authorize(cred, t.first));
    if AsksAgain(frame, v) { AskedAmid(profiles, a, b, met.again, c, d, Op.Authorize(cred, t.again)); }
    if AsksToPay(m, frame, v, l, parse) { AskedAmid(profiles, a, b, met.paid, c, d, Op.Consume(cred, KindOf(frame), t.pay)); }
    if AsksLast(frame, v) { AskedAmid(profiles, a, b, met.last, c, d, Op.Authorize(cred, t.last)); }
  }

  /** Every frame heard was answered as the ledgers met, all between these two, said. */
  ghost predicate Heeded(profiles: Profiles, cred: Credential, start: State, end: State, x: Script, story: Story, l: Limits,
                         parse: string -> Option<string>)
  {
    && |story.met| == |story.verdicts| <= |x.frames| == |x.times| && |story.met| <= |story.memories|
    && forall i | 0 <= i < |story.met| ::
         && MetBetween(profiles, cred, start, end, story.memories[i], x.frames[i], x.times[i], story.met[i], story.verdicts[i], l, parse)
         && Truthful(profiles, cred, x.frames[i], x.times[i], story.met[i], story.verdicts[i])
  }

  lemma HeededOneMore(profiles: Profiles, cred: Credential, start: State, mid: State, end: State, x: Script, story: Story,
                      m: Met, v: Verdicts, step: Step, after: Memory, l: Limits, parse: string -> Option<string>)
    requires Heeded(profiles, cred, start, mid, x, story, l, parse)
    requires |story.met| < |x.frames| && |story.met| < |story.memories|
    requires Reaches(profiles, start, mid) && Reaches(profiles, mid, end)
    requires var n := |story.met|;
             && MetBetween(profiles, cred, mid, end, story.memories[n], x.frames[n], x.times[n], m, v, l, parse)
             && Truthful(profiles, cred, x.frames[n], x.times[n], m, v)
    ensures Heeded(profiles, cred, start, end, x, Further(story, m, v, step, after), l, parse)
  {
    var n, more := |story.met|, Further(story, m, v, step, after);
    ReachesItself(profiles, start);
    ReachesItself(profiles, end);
    forall i | 0 <= i < |more.met|
      ensures MetBetween(profiles, cred, start, end, more.memories[i], x.frames[i], x.times[i], more.met[i], more.verdicts[i], l, parse)
      ensures Truthful(profiles, cred, x.frames[i], x.times[i], more.met[i], more.verdicts[i])
    {
      if i < n {
        MetAmid(profiles, cred, start, start, mid, end, story.memories[i], x.frames[i], x.times[i], story.met[i], story.verdicts[i], l, parse);
      } else {
        MetAmid(profiles, cred, start, mid, end, end, story.memories[n], x.frames[n], x.times[n], m, v, l, parse);
      }
    }
  }

  // ---- a conversation under way ----

  /** Where a conversation began. */
  datatype Begun = Begun(ledger: State, memory: Memory, heard: seq<Frame>, log: seq<Use>)

  /** What the worker sent, and when the parent looked at its clock. */
  datatype Script = Script(frames: seq<Frame>, sizes: seq<nat>, times: seq<Times>, maxFrames: nat)

  /** The ledgers met, their answers, and the parent's memory before each frame and after. */
  datatype Story = Story(met: seq<Met>, verdicts: seq<Verdicts>, memories: seq<Memory>)

  /** Each frame so far was within budget and got the reply the ledgers' answers call for. */
  ghost predicate Serving(profiles: Profiles, cred: Credential, b: Begun, x: Script, story: Story, replies: seq<Reply>,
                          now: State, memory: Memory, heard: seq<Frame>, log: seq<Use>, l: Limits, parse: string -> Option<string>)
  {
    && Served(b.heard, b.log, heard, log, x.frames, |story.verdicts|, replies) && |replies| == |story.verdicts|
    && Reaches(profiles, b.ledger, now) && Heeded(profiles, cred, b.ledger, now, x, story, l, parse)
    && Replied(b.memory, x.frames, x.sizes, story.verdicts, story.memories, replies, x.maxFrames, l, parse)
    && story.memories[|replies|] == memory
  }

  ghost predicate Finished(profiles: Profiles, cred: Credential, b: Begun, x: Script, story: Story, replies: seq<Reply>,
                           outcome: Outcome, now: State, heard: seq<Frame>, log: seq<Use>, l: Limits, parse: string -> Option<string>)
  {
    && Served(b.heard, b.log, heard, log, x.frames, |story.verdicts|, replies)
    && Reaches(profiles, b.ledger, now) && Heeded(profiles, cred, b.ledger, now, x, story, l, parse)
    && Conversed(b.memory, x.frames, x.sizes, story.verdicts, story.memories, replies, outcome, x.maxFrames, l, parse)
  }

  lemma NothingServed(profiles: Profiles, cred: Credential, b: Begun, x: Script, l: Limits, parse: string -> Option<string>)
    requires |x.frames| == |x.sizes| == |x.times|
    ensures Serving(profiles, cred, b, x, Story([], [], [b.memory]), [], b.ledger, b.memory, b.heard, b.log, l, parse)
  {
    ReachesItself(profiles, b.ledger);
  }

  lemma ServedOut(profiles: Profiles, cred: Credential, b: Begun, x: Script, story: Story, replies: seq<Reply>,
                  now: State, memory: Memory, heard: seq<Frame>, log: seq<Use>, l: Limits, parse: string -> Option<string>)
    requires Serving(profiles, cred, b, x, story, replies, now, memory, heard, log, l, parse)
    requires |replies| < |x.frames| ==> !WithinBudget(x.sizes, |replies|, x.maxFrames)
    ensures Finished(profiles, cred, b, x, story, replies, Aborted, now, heard, log, l, parse)
  {
  }

  function Further(story: Story, m: Met, v: Verdicts, step: Step, after: Memory): Story {
    Story(story.met + [m], story.verdicts + [v], if step.Deliver? then story.memories + [after] else story.memories)
  }

  lemma ServedNext(profiles: Profiles, cred: Credential, b: Begun, x: Script, story: Story, replies: seq<Reply>,
                   mid: State, before: Memory, heard: seq<Frame>, log: seq<Use>, l: Limits, parse: string -> Option<string>,
                   step: Step, m: Met, v: Verdicts, now: State, after: Memory, more: seq<Use>)
    requires Serving(profiles, cred, b, x, story, replies, mid, before, heard, log, l, parse)
    requires |replies| < |x.frames| && WithinBudget(x.sizes, |replies|, x.maxFrames) && log <= more
    requires var (frame, t) := (x.frames[|replies|], x.times[|replies|]);
             MetBetween(profiles, cred, mid, now, before, frame, t, m, v, l, parse) && Truthful(profiles, cred, frame, t, m, v)
    requires Reaches(profiles, mid, now) && step == StepFor(before, x.frames[|replies|], v, l, parse)
    requires step.Deliver? ==> after == Remembers(before, x.frames[|replies|], v.again, v.paid, l, parse)
    requires step.Deliver? ==> Answers(step.reply, x.frames[|replies|], |heard|, more)
    ensures var next := heard + [x.frames[|replies|]];
            if step.Deliver?
            then Serving(profiles, cred, b, x, Further(story, m, v, step, after), replies + [step.reply], now, after, next, more, l, parse)
            else Finished(profiles, cred, b, x, Further(story, m, v, step, after), replies, step.outcome, now, next, more, l, parse)
  {
    ServedOneMore(b.heard, b.log, heard, log, x.frames, |replies|, replies, more, if step.Deliver? then step.reply else Refused);
    HeededOneMore(profiles, cred, b.ledger, mid, now, x, story, m, v, step, after, l, parse);
    ReachesThen(profiles, b.ledger, mid, now);
    ServedOn(b.memory, x.frames, x.sizes, story.verdicts, story.memories, replies, x.maxFrames, l, parse, v, step, after);
  }
}
