/** One conversational turn: model call after model call, each tool call answered in order. */
module Orchestrator {
  import opened Wrappers
  import opened LG = LoopGuard

  const MAX_IDENTICAL := 3

  datatype Message =
    | Text(role: string, content: string)
    | Calls(content: string, calls: seq<Call>)
    | Answer(id: string, name: string, content: string)

  /** What the router gives back: an exception, or text with any number of tool calls. */
  datatype Completion = Raises | Says(text: string, calls: seq<Call>)

  /** What running a tool gives back. */
  datatype Ran = Threw(note: string) | Returned(content: string)

  datatype Outcome = Completed | MaxTurns | Stopped(reason: Reason) | Aborted

  datatype Report = Report(outcome: Outcome, final: string, turns: nat)

  /** The model and the tools are arbitrary: each answer may depend on the whole
      transcript so far, which never shows the same state twice. */
  type Model = seq<Message> -> Completion
  type Tools = (seq<Message>, Call) -> Ran

  function AnswerOf(call: Call, ran: Ran): Message {
    Answer(call.id, call.name, if ran.Threw? then ran.note else ran.content)
  }

  function Notice(call: Call, reason: Reason): Message {
    Answer(call.id, call.name,
           match reason
           case OverBudget => "[loop-guard] over budget"
           case Identical => "[loop-guard] identical call"
           case PingPong => "[loop-guard] ping-pong")
  }

  /** A notice answers the call objected to, and tells the objections apart. */
  lemma NoticesTell(call: Call, a: Reason, b: Reason)
    ensures Notice(call, a).Answer? && Notice(call, a).id == call.id && Notice(call, a).name == call.name
    ensures Notice(call, a) == Notice(call, b) <==> a == b
  {
    assert "[loop-guard] over budget"[13] == 'o' && "[loop-guard] identical call"[13] == 'i' && "[loop-guard] ping-pong"[13] == 'p';
  }

  // ---- what a transcript may look like ----

  /** One answer per call, in the order of the calls. */
  predicate Answered(calls: seq<Call>, answers: seq<Message>) {
    |answers| == |calls|
    && forall i | 0 <= i < |calls| :: answers[i].Answer? && answers[i].id == calls[i].id && answers[i].name == calls[i].name
  }

  /** Every message with tool calls is followed by exactly its answers. */
  predicate Paired(ms: seq<Message>)
    decreases |ms|
  {
    if ms == [] then true
    else match ms[0]
      case Text(_, _) => Paired(ms[1..])
      case Calls(_, calls) => |calls| < |ms| && Answered(calls, ms[1..|calls| + 1]) && Paired(ms[|calls| + 1..])
      case Answer(_, _, _) => false
  }

  lemma {:induction false} PairedThenBlock(ms: seq<Message>, text: string, calls: seq<Call>, answers: seq<Message>)
    requires Paired(ms) && Answered(calls, answers)
    ensures Paired(ms + [Calls(text, calls)] + answers)
    decreases |ms|
  {
    var all := ms + [Calls(text, calls)] + answers;
    if ms == [] {
      assert all[1..|calls| + 1] == answers;
      assert all[|calls| + 1..] == [];
    } else {
      var n := if ms[0].Calls? then |ms[0].calls| + 1 else 1;
      assert all[n..] == ms[n..] + [Calls(text, calls)] + answers;
      assert all[1..n] == ms[1..n];
      PairedThenBlock(ms[n..], text, calls, answers);
    }
  }

  // ---- how a transcript grows ----

  /** The message carries, under the call's own id and name, the text the tool returned or the
      note of the exception it raised. */
  predicate Carries(m: Message, call: Call, ran: Ran) {
    match ran
    case Returned(content) => m == Answer(call.id, call.name, content)
    case Threw(note) => m == Answer(call.id, call.name, note)
  }

  /** From position `base` on, `ms` answers the first `n` calls with what the tools gave,
      each run when everything before its answer was in the transcript. */
  ghost predicate RanInOrder(run: Tools, calls: seq<Call>, ms: seq<Message>, base: nat, n: nat) {
    n <= |calls| && base + n <= |ms|
    && forall i | 0 <= i < n :: Carries(ms[base + i], calls[i], run(ms[..base + i], calls[i]))
  }

  predicate Extends(ms: seq<Message>, next: seq<Message>, last: Message) {
    |ms| < |next| && next[..|ms| + 1] == ms + [last]
  }

  /** What the model said of `ms`, with every call it made answered. */
  ghost predicate Follows(complete: Model, run: Tools, ms: seq<Message>, next: seq<Message>) {
    var c := complete(ms);
    && c.Says? && c.calls != [] && Extends(ms, next, Calls(c.text, c.calls))
    && |next| == |ms| + 1 + |c.calls| && RanInOrder(run, c.calls, next, |ms| + 1, |c.calls|)
  }

  /** The same up to call `k`, which the guard answers instead. */
  ghost predicate CutShort(complete: Model, run: Tools, ms: seq<Message>, next: seq<Message>, k: nat, reason: Reason) {
    var c := complete(ms);
    && c.Says? && k < |c.calls| && Extends(ms, next, Calls(c.text, c.calls))
    && |next| == |ms| + 2 + k && RanInOrder(run, c.calls, next, |ms| + 1, k) && next[|ms| + 1 + k] == Notice(c.calls[k], reason)
  }

  /** The transcripts the model is shown, one per turn. */
  ghost predicate Shown(initial: seq<Message>, complete: Model, run: Tools, seen: seq<seq<Message>>) {
    (seen != [] ==> seen[0] == initial) && forall i | 0 < i < |seen| :: Follows(complete, run, seen[i - 1], seen[i])
  }

  lemma ShownOneMore(initial: seq<Message>, complete: Model, run: Tools, seen: seq<seq<Message>>, ms: seq<Message>)
    requires Shown(initial, complete, run, seen)
    requires if seen == [] then ms == initial else Follows(complete, run, seen[|seen| - 1], ms)
    ensures Shown(initial, complete, run, seen + [ms])
  {
  }

  lemma AnswerIs(run: Tools, calls: seq<Call>, ms: seq<Message>, base: nat, n: nat, i: nat)
    requires RanInOrder(run, calls, ms, base, n) && i < n
    ensures Carries(ms[base + i], calls[i], run(ms[..base + i], calls[i]))
  {
  }

  lemma FollowingIsPaired(complete: Model, run: Tools, ms: seq<Message>, next: seq<Message>)
    requires Paired(ms) && Follows(complete, run, ms, next)
    ensures Paired(next) && ms < next
  {
    var c := complete(ms);
    var answers := next[|ms| + 1..];
    forall i | 0 <= i < |c.calls|
      ensures answers[i].Answer? && answers[i].id == c.calls[i].id && answers[i].name == c.calls[i].name
    {
      assert answers[i] == next[(|ms| + 1) + i];
      AnswerIs(run, c.calls, next, |ms| + 1, |c.calls|, i);
    }
    PairedThenBlock(ms, c.text, c.calls, answers);
    assert next == ms + [Calls(c.text, c.calls)] + answers;
  }

  /** What the model sees after a turn: each call it made, answered in order with what the tool
      gave when everything before that answer was in the transcript. */
  lemma ModelSeesResults(complete: Model, run: Tools, ms: seq<Message>, next: seq<Message>, i: nat)
    requires Follows(complete, run, ms, next) && i < |complete(ms).calls|
    ensures var call, at := complete(ms).calls[i], |ms| + 1 + i;
            && at < |next| && next[|ms|] == Calls(complete(ms).text, complete(ms).calls)
            && next[at].Answer? && next[at].id == call.id && next[at].name == call.name
            && match run(next[..at], call)
               case Returned(text) => next[at].content == text
               case Threw(note) => next[at].content == note
  {
    AnswerIs(run, complete(ms).calls, next, |ms| + 1, |complete(ms).calls|, i);
  }

  /** At the start of every turn's model call the transcript is complete, and longer than
      at the turn before. */
  lemma {:induction false} TranscriptsComplete(initial: seq<Message>, complete: Model, run: Tools, seen: seq<seq<Message>>, i: nat)
    requires Paired(initial) && Shown(initial, complete, run, seen) && i < |seen|
    ensures Paired(seen[i]) && (i > 0 ==> seen[i - 1] < seen[i])
    decreases i
  {
    if i > 0 {
      TranscriptsComplete(initial, complete, run, seen, i - 1);
      FollowingIsPaired(complete, run, seen[i - 1], seen[i]);
    }
  }

  /** The calls the model made over these transcripts, in order. */
  function Emitted(complete: Model, seen: seq<seq<Message>>): seq<Call>
    decreases |seen|
  {
    if seen == [] then []
    else
      var last := |seen| - 1;
      var c := complete(seen[last]);
      Emitted(complete, seen[..last]) + if c.Says? then c.calls else []
  }

  lemma EmittedOneMore(complete: Model, seen: seq<seq<Message>>, ms: seq<Message>)
    ensures var c := complete(ms);
            Emitted(complete, seen + [ms]) == Emitted(complete, seen) + if c.Says? then c.calls else []
  {
    assert (seen + [ms])[..|seen|] == seen;
  }

  // ---- one message's calls ----

  /** Answers the calls in order until the guard objects to one, which it also answers. */
  method AnswerCalls(calls: seq<Call>, guard: LoopGuard, run: Tools, before: seq<Message>)
    returns (messages: seq<Message>, stop: Option<Reason>, done: nat)
    requires guard.Valid() && Passed(guard.calls, guard.maxIdentical, guard.maxPerTool)
    modifies guard
    ensures guard.Valid() && done <= |calls|
    ensures Passed(old(guard.calls) + calls[..done], guard.maxIdentical, guard.maxPerTool)
    ensures before <= messages && RanInOrder(run, calls, messages, |before|, done)
    ensures stop.None? ==> done == |calls| && guard.calls == old(guard.calls) + calls && |messages| == |before| + done
    ensures stop.Some? ==> (done < |calls| && |messages| == |before| + done + 1
                            && messages[|before| + done] == Notice(calls[done], stop.value)
                            && stop == Verdict(old(guard.calls) + calls[..done + 1], guard.maxIdentical, guard.maxPerTool))
  {
    messages, stop, done := before, None, 0;
    ghost var past := guard.calls;
    assert past + calls[..0] == past;
    while done < |calls|
      invariant 0 <= done <= |calls| && stop.None? && guard.Valid() && guard.calls == past + calls[..done]
      invariant Passed(guard.calls, guard.maxIdentical, guard.maxPerTool)
      invariant before <= messages && |messages| == |before| + done && RanInOrder(run, calls, messages, |before|, done)
    {
      var call := calls[done];
      assert past + calls[..done] + [call] == past + calls[..done + 1];
      stop := guard.Check(call);
      if stop.Some? {
        OneMoreMessage(run, calls, messages, |before|, done, Notice(call, stop.value));
        messages := messages + [Notice(call, stop.value)];
        return;
      }
      PassedOneMore(past + calls[..done], call, guard.maxIdentical, guard.maxPerTool);
      var ran := run(messages, call);
      OneMoreMessage(run, calls, messages, |before|, done, AnswerOf(call, ran));
      messages := messages + [AnswerOf(call, ran)];
      done := done + 1;
    }
    assert calls[..done] == calls;
  }

  lemma OneMoreMessage(run: Tools, calls: seq<Call>, ms: seq<Message>, base: nat, n: nat, m: Message)
    requires RanInOrder(run, calls, ms, base, n) && n < |calls| && |ms| == base + n
    ensures RanInOrder(run, calls, ms + [m], base, n)
    ensures Carries(m, calls[n], run(ms, calls[n])) ==> RanInOrder(run, calls, ms + [m], base, n + 1)
  {
    var all := ms + [m];
    forall i | 0 <= i < n ensures Carries(all[base + i], calls[i], run(all[..base + i], calls[i])) {
      AnswerIs(run, calls, ms, base, n, i);
      assert all[..base + i] == ms[..base + i];
    }
    assert all[..base + n] == ms;
  }

  /** One message's calls, all answered, or up to the one the guard objects to. */
  method Turn(guard: LoopGuard, ghost complete: Model, c: Completion, run: Tools, messages: seq<Message>)
    returns (next: seq<Message>, stop: Option<Reason>, done: nat)
    requires guard.Valid() && Passed(guard.calls, guard.maxIdentical, guard.maxPerTool)
    requires c == complete(messages) && c.Says? && c.calls != []
    modifies guard
    ensures guard.Valid() && done <= |c.calls|
    ensures Passed(old(guard.calls) + c.calls[..done], guard.maxIdentical, guard.maxPerTool)
    ensures stop.None? ==> done == |c.calls| && guard.calls == old(guard.calls) + c.calls && Follows(complete, run, messages, next)
    ensures stop.Some? ==> (done < |c.calls| && CutShort(complete, run, messages, next, done, stop.value)
                            && stop == Verdict(old(guard.calls) + c.calls[..done + 1], guard.maxIdentical, guard.maxPerTool))
  {
    var asked := messages + [Calls(c.text, c.calls)];
    next, stop, done := AnswerCalls(c.calls, guard, run, asked);
    assert next[..|messages| + 1] == asked;
  }

  // ---- the whole turn ----

  function AtLeastZero(n: int): nat {
    if n < 0 then 0 else n
  }

  function StoppedText(text: string): string {
    if text == "" then "Stopped" else text
  }

  /** The guard objects to the call after the `k`th of the last message, and the model,
      shown the objection and given no tools, has the last word. */
  ghost predicate Pivoted(complete: Model, run: Tools, seen: seq<seq<Message>>, pivot: seq<Message>, dispatched: seq<Call>,
                          k: nat, reason: Reason, maxPerTool: int) {
    && seen != [] && CutShort(complete, run, seen[|seen| - 1], pivot, k, reason)
    && Objected(Emitted(complete, seen[..|seen| - 1]), complete(seen[|seen| - 1]).calls, dispatched, k, reason, maxPerTool)
  }

  /** After `before`, the guard let `k` of these calls through and objected to the next. */
  ghost predicate Objected(before: seq<Call>, calls: seq<Call>, dispatched: seq<Call>, k: nat, reason: Reason, maxPerTool: int) {
    && k < |calls| && dispatched == before + calls[..k]
    && Verdict(before + calls[..k + 1], MAX_IDENTICAL, maxPerTool) == Some(reason)
  }

  /** Every way a turn can end. `pivot` holds the transcript of the extra call, if any. */
  ghost predicate Reported(report: Report, initial: seq<Message>, complete: Model, run: Tools, seen: seq<seq<Message>>,
                           pivot: seq<seq<Message>>, dispatched: seq<Call>, most: nat, maxPerTool: int) {
    && report.turns == |seen| && |seen| <= most && |pivot| <= 1
    && Shown(initial, complete, run, seen) && Passed(dispatched, MAX_IDENTICAL, maxPerTool)
    && (pivot == [] ==> dispatched == Emitted(complete, seen))
    && match report.outcome
       case Completed => pivot == [] && seen != [] && complete(seen[|seen| - 1]) == Says(report.final, [])
       case MaxTurns => pivot == [] && |seen| == most && AllAsked(complete, seen) && report.final == "[max turns reached]"
       case Stopped(reason) =>
         && |pivot| == 1 && (exists k :: Pivoted(complete, run, seen, pivot[0], dispatched, k, reason, maxPerTool))
         && complete(pivot[0]).Says? && report.final != "" && (complete(pivot[0]).text in {"", report.final})
       case Aborted =>
         if pivot == [] then seen != [] && complete(seen[|seen| - 1]).Raises?
         else complete(pivot[0]).Raises? && exists k, reason :: Pivoted(complete, run, seen, pivot[0], dispatched, k, reason, maxPerTool)
  }

  /** Every one of these calls to the model asked for tools. */
  ghost predicate AllAsked(complete: Model, seen: seq<seq<Message>>) {
    forall i | 0 <= i < |seen| :: complete(seen[i]).Says? && complete(seen[i]).calls != []
  }

  lemma AllAskedOneMore(complete: Model, seen: seq<seq<Message>>, ms: seq<Message>)
    requires AllAsked(complete, seen) && complete(ms).Says? && complete(ms).calls != []
    ensures AllAsked(complete, seen + [ms])
  {
  }

  /** Between turns: everything emitted has been dispatched and answered. */
  ghost predicate Going(initial: seq<Message>, complete: Model, run: Tools, ms: seq<Message>, seen: seq<seq<Message>>,
                        dispatched: seq<Call>, maxPerTool: int) {
    && Shown(initial, complete, run, seen + [ms]) && Shown(initial, complete, run, seen) && AllAsked(complete, seen)
    && dispatched == Emitted(complete, seen) && Passed(dispatched, MAX_IDENTICAL, maxPerTool)
  }

  lemma KeepsGoing(initial: seq<Message>, complete: Model, run: Tools, ms: seq<Message>, next: seq<Message>,
                   seen: seq<seq<Message>>, dispatched: seq<Call>, maxPerTool: int)
    requires Going(initial, complete, run, ms, seen, dispatched, maxPerTool) && Follows(complete, run, ms, next)
    requires Passed(dispatched + complete(ms).calls, MAX_IDENTICAL, maxPerTool)
    ensures Going(initial, complete, run, next, seen + [ms], dispatched + complete(ms).calls, maxPerTool)
  {
    EmittedOneMore(complete, seen, ms);
    AllAskedOneMore(complete, seen, ms);
    ShownOneMore(initial, complete, run, seen + [ms], next);
  }

  lemma EndsWithText(initial: seq<Message>, complete: Model, run: Tools, ms: seq<Message>, seen: seq<seq<Message>>,
                     dispatched: seq<Call>, report: Report, most: nat, maxPerTool: int)
    requires Going(initial, complete, run, ms, seen, dispatched, maxPerTool) && |seen| < most && report.turns == |seen| + 1
    requires if complete(ms).Raises? then report.outcome.Aborted? else report.outcome.Completed? && complete(ms) == Says(report.final, [])
    ensures Reported(report, initial, complete, run, seen + [ms], [], dispatched, most, maxPerTool)
  {
    EmittedOneMore(complete, seen, ms);
  }

  lemma EndsByGuard(initial: seq<Message>, complete: Model, run: Tools, ms: seq<Message>, seen: seq<seq<Message>>, next: seq<Message>,
                    dispatched: seq<Call>, k: nat, reason: Reason, report: Report, most: nat, maxPerTool: int)
    requires Going(initial, complete, run, ms, seen, dispatched, maxPerTool) && |seen| < most && report.turns == |seen| + 1
    requires CutShort(complete, run, ms, next, k, reason)
    requires Passed(dispatched + complete(ms).calls[..k], MAX_IDENTICAL, maxPerTool)
    requires Verdict(dispatched + complete(ms).calls[..k + 1], MAX_IDENTICAL, maxPerTool) == Some(reason)
    requires if complete(next).Raises? then report.outcome.Aborted?
             else report.outcome == Stopped(reason) && report.final == StoppedText(complete(next).text)
    ensures Reported(report, initial, complete, run, seen + [ms], [next], dispatched + complete(ms).calls[..k], most, maxPerTool)
  {
    PivotsAt(complete, run, ms, seen, next, dispatched, k, reason, maxPerTool);
  }

  lemma PivotsAt(complete: Model, run: Tools, ms: seq<Message>, seen: seq<seq<Message>>, next: seq<Message>,
                 dispatched: seq<Call>, k: nat, reason: Reason, maxPerTool: int)
    requires dispatched == Emitted(complete, seen) && CutShort(complete, run, ms, next, k, reason)
    requires Verdict(dispatched + complete(ms).calls[..k + 1], MAX_IDENTICAL, maxPerTool) == Some(reason)
    ensures Pivoted(complete, run, seen + [ms], next, dispatched + complete(ms).calls[..k], k, reason, maxPerTool)
  {
    assert (seen + [ms])[..|seen|] == seen;
  }

  method Iterate(guard: LoopGuard, ghost initial: seq<Message>, complete: Model, run: Tools, messages: seq<Message>,
                 turn: nat, ghost past: seq<seq<Message>>, ghost most: nat)
    returns (end: Option<Report>, next: seq<Message>, ghost pivot: seq<seq<Message>>, ghost dispatched: seq<Call>)
    requires guard.Valid() && guard.maxIdentical == MAX_IDENTICAL && turn == |past| + 1 && turn <= most
    requires Going(initial, complete, run, messages, past, guard.calls, guard.maxPerTool)
    modifies guard
    ensures guard.Valid()
    ensures end.None? ==> Going(initial, complete, run, next, past + [messages], guard.calls, guard.maxPerTool)
    ensures end.Some? ==>
              Reported(end.value, initial, complete, run, past + [messages], pivot, dispatched, most, guard.maxPerTool)
  {
    pivot, dispatched, next := [], guard.calls, messages;
    var c := complete(messages);
    if c.Raises? || c.calls == [] {
      var report := Report(if c.Raises? then Aborted else Completed, if c.Raises? then "" else c.text, turn);
      EndsWithText(initial, complete, run, messages, past, dispatched, report, most, guard.maxPerTool);
      return Some(report), next, pivot, dispatched;
    }
    var stop, done;
    next, stop, done := Turn(guard, complete, c, run, messages);
    if stop.None? {
      assert c.calls[..done] == c.calls;
      KeepsGoing(initial, complete, run, messages, next, past, dispatched, guard.maxPerTool);
      return None, next, pivot, guard.calls;
    }
    var last := complete(next);
    var report := Report(if last.Raises? then Aborted else Stopped(stop.value),
                         if last.Raises? then "" else StoppedText(last.text), turn);
    EndsByGuard(initial, complete, run, messages, past, next, dispatched, done, stop.value, report, most, guard.maxPerTool);
    return Some(report), next, [next], dispatched + c.calls[..done];
  }

  lemma RanOut(initial: seq<Message>, complete: Model, run: Tools, ms: seq<Message>, seen: seq<seq<Message>>,
               dispatched: seq<Call>, maxPerTool: int, report: Report)
    requires Going(initial, complete, run, ms, seen, dispatched, maxPerTool) && report.outcome.MaxTurns? && report.turns == |seen|
    requires report.final == "[max turns reached]"
    ensures Reported(report, initial, complete, run, seen, [], dispatched, |seen|, maxPerTool)
  {
  }

  lemma NothingYet(initial: seq<Message>, complete: Model, run: Tools, maxPerTool: int)
    ensures Going(initial, complete, run, initial, [], [], maxPerTool)
  {
  }

  /** The turn loop. What it reports is what some sequence of transcripts, each following
      from the last by what the model said and the tools gave, led to. */
  method RunLoop(initial: seq<Message>, complete: Model, run: Tools, maxIterations: int, maxPerTool: int)
    returns (report: Report)
    ensures exists seen, pivot, dispatched ::
              Reported(report, initial, complete, run, seen, pivot, dispatched, AtLeastZero(maxIterations), maxPerTool)
  {
    var messages, most := initial, AtLeastZero(maxIterations);
    var guard := new LoopGuard(MAX_IDENTICAL, maxPerTool);
    ghost var seen: seq<seq<Message>> := [];
    NothingYet(initial, complete, run, maxPerTool);
    for turns := 0 to most
      invariant |seen| == turns
      invariant guard.Valid() && guard.maxIdentical == MAX_IDENTICAL && guard.maxPerTool == maxPerTool
      invariant Going(initial, complete, run, messages, seen, guard.calls, maxPerTool)
    {
      var end, next;
      ghost var pivot, dispatched;
      end, next, pivot, dispatched := Iterate(guard, initial, complete, run, messages, turns + 1, seen, most);
      seen := seen + [messages];
      if end.Some? { return end.value; }
      messages := next;
    }
    report := Report(MaxTurns, "[max turns reached]", most);
    RanOut(initial, complete, run, messages, seen, guard.calls, maxPerTool, report);
  }

  /** However a turn ends: at most `max_iterations + 1` model calls, at most `max_per_tool`
      runs of any tool, and the tools run are the first the model asked for, in its order. */
  lemma TurnIsBounded(report: Report, initial: seq<Message>, complete: Model, run: Tools, seen: seq<seq<Message>>,
                      pivot: seq<seq<Message>>, dispatched: seq<Call>, most: nat, maxPerTool: int, tool: string)
    requires Reported(report, initial, complete, run, seen, pivot, dispatched, most, maxPerTool)
    ensures |seen| + |pivot| <= most + 1
    ensures CountOf(dispatched, tool) <= AtLeastZero(maxPerTool)
    ensures dispatched <= Emitted(complete, seen)
  {
    WithinBudget(dispatched, MAX_IDENTICAL, maxPerTool, tool);
    if pivot != [] {
      var k, reason :| Pivoted(complete, run, seen, pivot[0], dispatched, k, reason, maxPerTool);
      PivotedIsPrefix(complete, run, seen, pivot[0], dispatched, k, reason, maxPerTool);
    }
  }

  lemma PivotedMeans(complete: Model, run: Tools, seen: seq<seq<Message>>, pivot: seq<Message>, dispatched: seq<Call>,
                     k: nat, reason: Reason, maxPerTool: int)
    requires Pivoted(complete, run, seen, pivot, dispatched, k, reason, maxPerTool)
    ensures seen != [] && complete(seen[|seen| - 1]).Says?
    ensures Objected(Emitted(complete, seen[..|seen| - 1]), complete(seen[|seen| - 1]).calls, dispatched, k, reason, maxPerTool)
  {
  }

  lemma PivotedIsPrefix(complete: Model, run: Tools, seen: seq<seq<Message>>, pivot: seq<Message>, dispatched: seq<Call>,
                        k: nat, reason: Reason, maxPerTool: int)
    requires Pivoted(complete, run, seen, pivot, dispatched, k, reason, maxPerTool)
    ensures dispatched <= Emitted(complete, seen)
  {
    PivotedMeans(complete, run, seen, pivot, dispatched, k, reason, maxPerTool);
    EmittedLast(complete, seen);
    ObjectedIsPrefix(Emitted(complete, seen[..|seen| - 1]), complete(seen[|seen| - 1]).calls, dispatched, k, reason, maxPerTool);
  }

  lemma EmittedLast(complete: Model, seen: seq<seq<Message>>)
    requires seen != []
    ensures var c := complete(seen[|seen| - 1]);
            Emitted(complete, seen) == Emitted(complete, seen[..|seen| - 1]) + if c.Says? then c.calls else []
  {
  }

  lemma ObjectedIsPrefix(before: seq<Call>, calls: seq<Call>, dispatched: seq<Call>, k: nat, reason: Reason, maxPerTool: int)
    requires Objected(before, calls, dispatched, k, reason, maxPerTool)
    ensures dispatched < before + calls
  {
  }
}
