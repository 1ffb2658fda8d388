/** The conversation between an arbitrary worker and its parent: the calls the model makes,
    the worker's uses of them, and what an account of the whole conversation says. */
module Conversations {
  import opened Wrappers

  datatype Call = Call(id: string, name: string, arguments: string)

  /** One tool authorization used up, whether it led to a dispatch, and the number of the
      frame that asked for it. */
  datatype Use = Use(call: Call, dispatched: bool, at: nat)

  datatype Frame =
    | ModelFrame(tools: Option<seq<string>>, completion: Option<seq<Call>>)
    | ToolFrame(name: string, args: Option<string>)
    | ResultFrame(correlated: bool, cleanExit: bool)
    | ErrorFrame
    | UnknownFrame

  datatype Reply = Answered(calls: seq<Call>) | Dispatched(call: Call) | Refused

  datatype Outcome = Released | Aborted

  datatype Step = Deliver(reply: Reply) | End(outcome: Outcome)

  // ---- the pending table: a dictionary in insertion order ----

  function Put(pending: seq<Call>, c: Call): seq<Call> {
    if pending == [] then [c]
    else if pending[0].id == c.id then [c] + pending[1..]
    else [pending[0]] + Put(pending[1..], c)
  }

  function Pending(calls: seq<Call>): seq<Call> {
    if calls == [] then [] else Put(Pending(calls[..|calls| - 1]), calls[|calls| - 1])
  }

  ghost predicate DistinctIds(calls: seq<Call>) {
    forall i, j | 0 <= i < j < |calls| :: calls[i].id != calls[j].id
  }

  lemma {:induction false} PutFresh(pending: seq<Call>, c: Call)
    requires forall i | 0 <= i < |pending| :: pending[i].id != c.id
    ensures Put(pending, c) == pending + [c]
  {
    if pending != [] {
      PutFresh(pending[1..], c);
      assert pending == [pending[0]] + pending[1..];
    }
  }

  /** With distinct ids the table is the model's list itself. */
  lemma {:induction false} PendingDistinct(calls: seq<Call>)
    requires DistinctIds(calls)
    ensures Pending(calls) == calls
    decreases |calls|
  {
    if calls != [] {
      var n := |calls| - 1;
      PendingDistinct(calls[..n]);
      PutFresh(calls[..n], calls[n]);
      assert calls == calls[..n] + [calls[n]];
    }
  }

  lemma {:induction false} PutMeans(pending: seq<Call>, c: Call)
    requires DistinctIds(pending)
    ensures DistinctIds(Put(pending, c)) && c in Put(pending, c)
    ensures forall x: Call | x.id != c.id :: x in Put(pending, c) <==> x in pending
    ensures |Put(pending, c)| >= |pending| && forall i | 0 <= i < |pending| :: Put(pending, c)[i].id == pending[i].id
    ensures |Put(pending, c)| > |pending| ==> Put(pending, c) == pending + [c]
    decreases |pending|
  {
    if pending != [] && pending[0].id != c.id {
      var rest := pending[1..];
      assert pending == [pending[0]] + rest;
      PutMeans(rest, c);
      forall i, j | 0 <= i < j < |Put(pending, c)| ensures Put(pending, c)[i].id != Put(pending, c)[j].id {
        if i == 0 { NewIdElsewhere(pending, c, j); }
      }
    }
  }

  lemma NewIdElsewhere(pending: seq<Call>, c: Call, j: nat)
    requires pending != [] && DistinctIds(pending) && pending[0].id != c.id && 0 < j < |Put(pending, c)|
    requires forall x: Call | x.id != c.id :: x in Put(pending[1..], c) <==> x in pending[1..]
    ensures Put(pending, c)[j].id != pending[0].id
  {
    assert Put(pending[1..], c)[j - 1] in Put(pending[1..], c);
  }

  /** A call is the last the model made under its id. */
  ghost predicate LastOfId(calls: seq<Call>, c: Call) {
    exists i | 0 <= i < |calls| :: calls[i] == c && forall j | i < j < |calls| :: calls[j].id != c.id
  }

  lemma LastThen(calls: seq<Call>, d: Call, c: Call)
    ensures LastOfId(calls + [d], c) <==> c == d || (c.id != d.id && LastOfId(calls, c))
  {
    var all := calls + [d];
    if c == d { assert all[|calls|] == c; }
    if c.id != d.id && LastOfId(calls, c) {
      var i :| 0 <= i < |calls| && calls[i] == c && forall j | i < j < |calls| :: calls[j].id != c.id;
      assert all[i] == c;
    }
    if LastOfId(all, c) && c != d {
      var i :| 0 <= i < |all| && all[i] == c && forall j | i < j < |all| :: all[j].id != c.id;
      assert i < |calls| && all[|calls|].id != c.id;
      assert calls[i] == c && forall j | i < j < |calls| :: calls[j] == all[j];
    }
  }

  /** Whatever ids the model uses, the table holds each id once, with the last call made under it. */
  lemma {:induction false} PendingMeans(calls: seq<Call>)
    ensures DistinctIds(Pending(calls)) && forall c :: c in Pending(calls) <==> LastOfId(calls, c)
    decreases |calls|
  {
    if calls != [] {
      var n := |calls| - 1;
      var before, d := Pending(calls[..n]), calls[n];
      PendingMeans(calls[..n]);
      PutMeans(before, d);
      assert calls == calls[..n] + [d];
      forall c ensures c in Pending(calls) <==> LastOfId(calls, c) {
        LastThen(calls[..n], d, c);
        if c.id == d.id && c in Pending(calls) { OnlyOneOfId(Pending(calls), c, d); }
      }
    }
  }

  lemma OnlyOneOfId(calls: seq<Call>, a: Call, b: Call)
    requires DistinctIds(calls) && a in calls && b in calls && a.id == b.id
    ensures a == b
  {
  }

  /** Position of the first pending call of this name, or |pending|. */
  function FirstNamed(pending: seq<Call>, name: string): (i: nat)
    ensures i <= |pending|
    ensures i < |pending| ==> pending[i].name == name
    ensures forall j | 0 <= j < i :: pending[j].name != name
  {
    if pending == [] || pending[0].name == name then 0 else 1 + FirstNamed(pending[1..], name)
  }

  function Named(calls: seq<Call>, name: string): seq<Call> {
    if calls == [] then []
    else Named(calls[..|calls| - 1], name) + if calls[|calls| - 1].name == name then [calls[|calls| - 1]] else []
  }

  lemma {:induction false} NamedConcat(a: seq<Call>, b: seq<Call>, name: string)
    ensures Named(a + b, name) == Named(a, name) + Named(b, name)
    decreases |b|
  {
    if b == [] {
      assert a + b == a;
    } else {
      var n := |b| - 1;
      NamedConcat(a, b[..n], name);
      assert (a + b)[..|a + b| - 1] == a + b[..n];
    }
  }

  lemma {:induction false} NamedNone(calls: seq<Call>, name: string)
    requires forall j | 0 <= j < |calls| :: calls[j].name != name
    ensures Named(calls, name) == []
    decreases |calls|
  {
    if calls != [] { NamedNone(calls[..|calls| - 1], name); }
  }

  lemma NamedOne(c: Call, name: string)
    ensures Named([c], name) == if name == c.name then [c] else []
  {
    assert [c][..0] == [];
  }

  lemma NamedAround(before: seq<Call>, c: Call, after: seq<Call>, name: string)
    ensures Named(before + [c] + after, name)
         == Named(before, name) + (if name == c.name then [c] else []) + Named(after, name)
  {
    NamedConcat(before + [c], after, name);
    NamedConcat(before, [c], name);
    NamedOne(c, name);
  }

  lemma PopAround(before: seq<Call>, c: Call, after: seq<Call>, name: string)
    requires forall j | 0 <= j < |before| :: before[j].name != c.name
    ensures Named(before + [c] + after, name)
         == (if name == c.name then [c] else []) + Named(before + after, name)
  {
    NamedAround(before, c, after, name);
    NamedConcat(before, after, name);
    if name == c.name { NamedNone(before, name); }
    var x, y := Named(before, name), Named(after, name);
    assert x + [] + y == [] + (x + y);
  }

  /** Popping the first call of a name takes exactly the head of that name's queue. */
  lemma PopIsHead(pending: seq<Call>, i: nat, name: string)
    requires i < |pending| && i == FirstNamed(pending, pending[i].name)
    ensures Named(pending, name)
         == (if name == pending[i].name then [pending[i]] else []) + Named(pending[..i] + pending[i + 1..], name)
  {
    assert pending == pending[..i] + [pending[i]] + pending[i + 1..];
    PopAround(pending[..i], pending[i], pending[i + 1..], name);
  }

  // ---- what a run of uses says ----

  function CallsOf(uses: seq<Use>): (calls: seq<Call>)
    ensures |calls| == |uses| && forall i | 0 <= i < |uses| :: calls[i] == uses[i].call
  {
    seq(|uses|, i requires 0 <= i < |uses| => uses[i].call)
  }

  function Dispatches(uses: seq<Use>, name: string): nat {
    if uses == [] then 0
    else Dispatches(uses[..|uses| - 1], name)
         + if uses[|uses| - 1].dispatched && uses[|uses| - 1].call.name == name then 1 else 0
  }

  function AllDispatches(uses: seq<Use>): nat {
    if uses == [] then 0 else AllDispatches(uses[..|uses| - 1]) + if uses[|uses| - 1].dispatched then 1 else 0
  }

  /** Per tool name, the calls used since the last model turn and those still pending
      are the model's calls of that name, in the order it emitted them. */
  ghost predicate InEmissionOrder(emitted: seq<Call>, uses: seq<Use>, pending: seq<Call>) {
    forall name :: Named(emitted, name) == Named(CallsOf(uses), name) + Named(pending, name)
  }

  lemma NothingUsed(pending: seq<Call>)
    ensures InEmissionOrder(pending, [], pending)
  {
    assert CallsOf([]) == [];
  }

  lemma UseNamed(uses: seq<Use>, u: Use, name: string)
    ensures Named(CallsOf(uses + [u]), name)
         == Named(CallsOf(uses), name) + if name == u.call.name then [u.call] else []
  {
    assert CallsOf(uses + [u]) == CallsOf(uses) + [u.call];
    NamedConcat(CallsOf(uses), [u.call], name);
    NamedOne(u.call, name);
  }

  lemma UseKeepsQueue(emitted: seq<Call>, used: seq<Call>, queue: seq<Call>, left: seq<Call>, head: seq<Call>)
    requires emitted == used + queue && queue == head + left
    ensures emitted == used + head + left
  {
  }

  function Without(pending: seq<Call>, i: nat): seq<Call>
    requires i < |pending|
  {
    pending[..i] + pending[i + 1..]
  }

  lemma UseKeepsOrder(emitted: seq<Call>, uses: seq<Use>, pending: seq<Call>, i: nat, u: Use)
    requires InEmissionOrder(emitted, uses, pending)
    requires i < |pending| && i == FirstNamed(pending, pending[i].name) && u.call == pending[i]
    ensures InEmissionOrder(emitted, uses + [u], Without(pending, i))
  {
    var rest := Without(pending, i);
    forall name ensures Named(emitted, name) == Named(CallsOf(uses + [u]), name) + Named(rest, name) {
      PopIsHead(pending, i, name);
      UseNamed(uses, u, name);
      UseKeepsQueue(Named(emitted, name), Named(CallsOf(uses), name), Named(pending, name), Named(rest, name),
                    if name == u.call.name then [u.call] else []);
    }
  }

  lemma {:induction false} NamedKeepsAll(calls: seq<Call>, c: Call)
    ensures multiset(Named(calls, c.name))[c] == multiset(calls)[c]
    decreases |calls|
  {
    if calls != [] {
      var n := |calls| - 1;
      NamedKeepsAll(calls[..n], c);
      assert calls == calls[..n] + [calls[n]];
    }
  }

  lemma {:induction false} DistinctOnce(calls: seq<Call>, c: Call)
    requires DistinctIds(calls)
    ensures multiset(calls)[c] <= 1
    decreases |calls|
  {
    if calls != [] {
      var n := |calls| - 1;
      DistinctOnce(calls[..n], c);
      assert calls == calls[..n] + [calls[n]];
      if calls[n] == c { assert c !in calls[..n]; }
    }
  }

  /** So no authorization is used twice: since the last model turn, all used calls are
      the model's own, and their ids are distinct when the model's are. */
  lemma UsesAreDistinct(emitted: seq<Call>, uses: seq<Use>, pending: seq<Call>, i: nat, j: nat)
    requires InEmissionOrder(emitted, uses, pending) && DistinctIds(emitted)
    requires i < j < |uses|
    ensures uses[i].call in emitted && uses[i].call.id != uses[j].call.id
  {
    var used := CallsOf(uses);
    UsedIsEmitted(emitted, uses, pending, used[i]);
    UsedIsEmitted(emitted, uses, pending, used[j]);
    DistinctOnce(emitted, used[i]);
    if used[i] == used[j] { TwicePresent(used, i, j); }
    SameIdSameCall(emitted, used[i], used[j]);
  }

  lemma TwicePresent(calls: seq<Call>, i: nat, j: nat)
    requires i < j < |calls| && calls[i] == calls[j]
    ensures multiset(calls)[calls[i]] >= 2
  {
    var c := calls[i];
    assert calls == calls[..i] + [c] + calls[i + 1..j] + [c] + calls[j + 1..];
    assert multiset(calls) == multiset(calls[..i]) + multiset{c} + multiset(calls[i + 1..j]) + multiset{c} + multiset(calls[j + 1..]);
  }

  lemma SameIdSameCall(calls: seq<Call>, a: Call, b: Call)
    requires DistinctIds(calls) && a in calls && b in calls
    ensures a.id == b.id ==> a == b
  {
  }

  lemma UsedIsEmitted(emitted: seq<Call>, uses: seq<Use>, pending: seq<Call>, c: Call)
    requires InEmissionOrder(emitted, uses, pending) && c in CallsOf(uses)
    ensures c in emitted && multiset(CallsOf(uses))[c] <= multiset(emitted)[c]
  {
    NamedKeepsAll(emitted, c);
    NamedKeepsAll(CallsOf(uses), c);
    NamedKeepsAll(pending, c);
    assert Named(emitted, c.name) == Named(CallsOf(uses), c.name) + Named(pending, c.name);
  }

  // ---- the whole conversation ----

  /** The model turns, the latest outermost: the frame that asked for it, the calls the
      model made, the uses of them, and the calls pending, or pending when the next turn
      replaced them. */
  datatype History =
    | Opening
    | Turn(before: History, at: nat, emitted: seq<Call>, uses: seq<Use>, pending: seq<Call>)

  function PendingOf(h: History): seq<Call> {
    match h case Opening => [] case Turn(_, _, _, _, pending) => pending
  }

  function UsesOf(h: History): seq<Use> {
    match h case Opening => [] case Turn(before, _, _, uses, _) => UsesOf(before) + uses
  }

  /** The frame asked for this very call, by name and parsed arguments, and may. */
  ghost predicate UseOk(u: Use, heard: seq<Frame>, allowed: set<string>, parse: string -> Option<string>) {
    && u.at < |heard| && heard[u.at] == ToolFrame(u.call.name, parse(u.call.arguments))
    && parse(u.call.arguments).Some? && u.call.name in allowed
  }

  /** Each use was asked for by a frame of its own, after frame `from` and before `until`. */
  ghost predicate UsesOk(uses: seq<Use>, heard: seq<Frame>, from: nat, until: nat, allowed: set<string>,
                         parse: string -> Option<string>) {
    && (forall i | 0 <= i < |uses| :: UseOk(uses[i], heard, allowed, parse) && from < uses[i].at < until)
    && (forall i, j | 0 <= i < j < |uses| :: uses[i].at < uses[j].at)
  }

  /** Every turn answered its model frame, and its uses are calls it made, in emission
      order per name, asked for between that frame and the next turn's, or frame `until`. */
  ghost predicate Told(h: History, heard: seq<Frame>, until: nat, allowed: set<string>, parse: string -> Option<string>) {
    match h
    case Opening => until <= |heard|
    case Turn(before, at, emitted, uses, pending) =>
      && at < until <= |heard| && heard[at].ModelFrame? && heard[at].completion == Some(emitted)
      && InEmissionOrder(Pending(emitted), uses, pending) && UsesOk(uses, heard, at, until, allowed, parse)
      && Told(before, heard, at, allowed, parse)
  }

  lemma UsesStayOk(uses: seq<Use>, heard: seq<Frame>, more: seq<Frame>, from: nat, until: nat, later: nat, allowed: set<string>,
                   parse: string -> Option<string>)
    requires UsesOk(uses, heard, from, until, allowed, parse) && heard <= more && until <= later
    ensures UsesOk(uses, more, from, later, allowed, parse)
  {
    forall i | 0 <= i < |uses| ensures UseOk(uses[i], more, allowed, parse) && from < uses[i].at < later {
      assert UseOk(uses[i], heard, allowed, parse);
    }
  }

  /** More may be heard, and time may pass. */
  lemma {:induction false} ToldLater(h: History, heard: seq<Frame>, more: seq<Frame>, until: nat, later: nat, allowed: set<string>,
                                     parse: string -> Option<string>)
    requires Told(h, heard, until, allowed, parse) && heard <= more && until <= later <= |more|
    ensures Told(h, more, later, allowed, parse)
    decreases h
  {
    match h
    case Opening =>
    case Turn(before, at, emitted, uses, pending) =>
      UsesStayOk(uses, heard, more, at, until, later, allowed, parse);
      ToldLater(before, heard, more, at, at, allowed, parse);
  }

  lemma ToldTurn(h: History, heard: seq<Frame>, until: nat, calls: seq<Call>, allowed: set<string>, parse: string -> Option<string>)
    requires Told(h, heard, until, allowed, parse)
    requires until < |heard| && heard[until].ModelFrame? && heard[until].completion == Some(calls)
    ensures Told(Turn(h, until, calls, [], Pending(calls)), heard, until + 1, allowed, parse)
  {
    NothingUsed(Pending(calls));
  }

  /** The `i`th pending call is used up. */
  function WithUse(h: History, i: nat, u: Use): History
    requires i < |PendingOf(h)|
  {
    Turn(h.before, h.at, h.emitted, h.uses + [u], Without(h.pending, i))
  }

  lemma OneMoreUse(uses: seq<Use>, u: Use, heard: seq<Frame>, from: nat, until: nat, allowed: set<string>,
                   parse: string -> Option<string>)
    requires UsesOk(uses, heard, from, until, allowed, parse) && from < until
    requires UseOk(u, heard, allowed, parse) && u.at == until
    ensures UsesOk(uses + [u], heard, from, until + 1, allowed, parse)
  {
    var all := uses + [u];
    forall i | 0 <= i < |all| ensures UseOk(all[i], heard, allowed, parse) && from < all[i].at < until + 1 {
      if i < |uses| { assert UseOk(uses[i], heard, allowed, parse); }
    }
  }

  lemma ToldUse(h: History, heard: seq<Frame>, until: nat, i: nat, u: Use, allowed: set<string>, parse: string -> Option<string>)
    requires Told(h, heard, until, allowed, parse) && until < |heard|
    requires i < |PendingOf(h)| && i == FirstNamed(PendingOf(h), PendingOf(h)[i].name) && u.call == PendingOf(h)[i]
    requires UseOk(u, heard, allowed, parse) && u.at == until
    ensures Told(WithUse(h, i, u), heard, until + 1, allowed, parse)
  {
    OneMoreUse(h.uses, u, heard, h.at, until, allowed, parse);
    UseKeepsOrder(Pending(h.emitted), h.uses, h.pending, i, u);
  }

  lemma UseIsLast(h: History, i: nat, u: Use)
    requires i < |PendingOf(h)|
    ensures UsesOf(WithUse(h, i, u)) == UsesOf(h) + [u] && PendingOf(WithUse(h, i, u)) == Without(PendingOf(h), i)
  {
    assert UsesOf(h.before) + (h.uses + [u]) == UsesOf(h.before) + h.uses + [u];
  }

  /** The history accounts for every use and for what is still pending, up to frame `until`. */
  ghost predicate Accounted(h: History, pending: seq<Call>, log: seq<Use>, heard: seq<Frame>, until: nat, allowed: set<string>,
                            parse: string -> Option<string>) {
    pending == PendingOf(h) && log == UsesOf(h) && Told(h, heard, until, allowed, parse)
  }

  /** The last frame heard used up a call. */
  lemma UseIsAccounted(h: History, pending: seq<Call>, log: seq<Use>, heard: seq<Frame>, i: nat, u: Use, allowed: set<string>,
                       parse: string -> Option<string>)
    requires heard != [] && Accounted(h, pending, log, heard, |heard| - 1, allowed, parse)
    requires i < |pending| && i == FirstNamed(pending, pending[i].name) && u.call == pending[i]
    requires UseOk(u, heard, allowed, parse) && u.at == |heard| - 1
    ensures i < |PendingOf(h)|
    ensures Accounted(WithUse(h, i, u), Without(pending, i), log + [u], heard, |heard|, allowed, parse)
  {
    ToldUse(h, heard, |heard| - 1, i, u, allowed, parse);
    UseIsLast(h, i, u);
  }

  /** The last frame heard was a model turn. */
  lemma TurnIsAccounted(h: History, pending: seq<Call>, log: seq<Use>, heard: seq<Frame>, calls: seq<Call>, allowed: set<string>,
                        parse: string -> Option<string>)
    requires heard != [] && Accounted(h, pending, log, heard, |heard| - 1, allowed, parse)
    requires heard[|heard| - 1].ModelFrame? && heard[|heard| - 1].completion == Some(calls)
    ensures Accounted(Turn(h, |heard| - 1, calls, [], Pending(calls)), Pending(calls), log, heard, |heard|, allowed, parse)
  {
    ToldTurn(h, heard, |heard| - 1, calls, allowed, parse);
  }

  /** Nothing came of the last frame heard. */
  lemma PassIsAccounted(h: History, pending: seq<Call>, log: seq<Use>, heard: seq<Frame>, allowed: set<string>,
                        parse: string -> Option<string>)
    requires heard != [] && Accounted(h, pending, log, heard, |heard| - 1, allowed, parse)
    ensures Accounted(h, pending, log, heard, |heard|, allowed, parse)
  {
    ToldLater(h, heard, heard, |heard| - 1, |heard|, allowed, parse);
  }

  lemma FrameIsAccounted(h: History, pending: seq<Call>, log: seq<Use>, heard: seq<Frame>, frame: Frame, allowed: set<string>,
                         parse: string -> Option<string>)
    requires Accounted(h, pending, log, heard, |heard|, allowed, parse)
    ensures Accounted(h, pending, log, heard + [frame], |heard + [frame]| - 1, allowed, parse)
  {
    ToldLater(h, heard, heard + [frame], |heard|, |heard|, allowed, parse);
  }

  /** `t` is one of the turns of `h`. */
  ghost predicate Among(t: History, h: History) {
    h.Turn? && (t == h || Among(t, h.before))
  }

  /** What an account of a conversation says of any one use: some turn's model made this
      call, and a later frame of its own, before the next turn, asked for it by name with
      the arguments it parses to. */
  lemma {:induction false} UseWasEmitted(h: History, heard: seq<Frame>, until: nat, allowed: set<string>, parse: string -> Option<string>,
                                         u: Use) returns (t: History)
    requires Told(h, heard, until, allowed, parse) && u in UsesOf(h)
    ensures Among(t, h) && t.Turn? && u in t.uses && u.call in Pending(t.emitted)
    ensures t.at < |heard| && heard[t.at].ModelFrame? && heard[t.at].completion == Some(t.emitted)
    ensures t.at < u.at < until && UseOk(u, heard, allowed, parse)
    decreases h
  {
    if u in h.uses {
      t := h;
      var i :| 0 <= i < |h.uses| && h.uses[i] == u;
      assert CallsOf(h.uses)[i] == u.call;
      UsedIsEmitted(Pending(h.emitted), h.uses, h.pending, u.call);
    } else {
      t := UseWasEmitted(h.before, heard, h.at, allowed, parse, u);
    }
  }

  /** No frame leads to two uses, in any turn. */
  lemma {:induction false} OneUsePerFrame(h: History, heard: seq<Frame>, until: nat, allowed: set<string>, parse: string -> Option<string>)
    requires Told(h, heard, until, allowed, parse)
    ensures forall i, j | 0 <= i < j < |UsesOf(h)| :: UsesOf(h)[i].at < UsesOf(h)[j].at
    ensures forall i | 0 <= i < |UsesOf(h)| :: UsesOf(h)[i].at < until
    decreases h
  {
    match h
    case Opening =>
    case Turn(before, at, emitted, uses, pending) => OneUsePerFrame(before, heard, at, allowed, parse);
  }

  lemma LogGrows(log: seq<Use>, u: Use)
    ensures AllDispatches(log + [u]) == AllDispatches(log) + if u.dispatched then 1 else 0
    ensures forall name ::
              Dispatches(log + [u], name) == Dispatches(log, name) + if u.dispatched && u.call.name == name then 1 else 0
  {
    assert (log + [u])[..|log|] == log;
  }

  /** No tool was dispatched more often than allowed, nor than was counted. */
  ghost predicate Within(log: seq<Use>, limit: nat, counted: map<string, nat>) {
    forall name :: Dispatches(log, name) <= limit && Dispatches(log, name) <= if name in counted then counted[name] else 0
  }

  ghost predicate MayDispatch(log: seq<Use>, name: string, limit: nat, counted: map<string, nat>) {
    Dispatches(log, name) < limit && name in counted && Dispatches(log, name) < counted[name]
  }

  lemma UseStaysWithin(log: seq<Use>, u: Use, limit: nat, counted: map<string, nat>)
    requires Within(log, limit, counted) && (u.dispatched ==> MayDispatch(log, u.call.name, limit, counted))
    ensures Within(log + [u], limit, counted)
    ensures AllDispatches(log + [u]) == AllDispatches(log) + if u.dispatched then 1 else 0
  {
    LogGrows(log, u);
  }

  /** The reply is what came of this frame: the calls its model made, or the use it led to. */
  ghost predicate Answers(reply: Reply, frame: Frame, at: nat, log: seq<Use>) {
    match reply
    case Answered(calls) => frame.ModelFrame? && frame.completion == Some(calls)
    case Dispatched(call) => Use(call, true, at) in log
    case Refused => true
  }

  /** `call` is the first pending one of this name, was asked for with its own arguments and
      may run, and is taken out. */
  ghost predicate Takes(was: seq<Call>, pending: seq<Call>, i: nat, call: Call, name: string, args: Option<string>,
                        allowed: set<string>, parse: string -> Option<string>) {
    && i < |was| && i == FirstNamed(was, name) && call == was[i] && pending == Without(was, i)
    && call.name == name && name in allowed && args.Some? && parse(call.arguments) == args
  }

  lemma TakenIsAccounted(h: History, was: seq<Call>, pending: seq<Call>, log: seq<Use>, heard: seq<Frame>, i: nat, call: Call,
                         name: string, args: Option<string>, dispatched: bool, allowed: set<string>, parse: string -> Option<string>)
    requires heard != [] && Accounted(h, was, log, heard, |heard| - 1, allowed, parse)
    requires heard[|heard| - 1] == ToolFrame(name, args) && Takes(was, pending, i, call, name, args, allowed, parse)
    ensures i < |PendingOf(h)|
    ensures var u := Use(call, dispatched, |heard| - 1);
            Accounted(WithUse(h, i, u), pending, log + [u], heard, |heard|, allowed, parse)
  {
    UseIsAccounted(h, was, log, heard, i, Use(call, dispatched, |heard| - 1), allowed, parse);
  }

  /** `log` and `heard` took the first `count` frames further, and each reply answers its frame. */
  ghost predicate Served(firstHeard: seq<Frame>, firstLog: seq<Use>, heard: seq<Frame>, log: seq<Use>, frames: seq<Frame>,
                         count: nat, replies: seq<Reply>)
  {
    && count <= |frames| && heard == firstHeard + frames[..count] && firstLog <= log && |replies| <= count
    && forall i | 0 <= i < |replies| :: Answers(replies[i], frames[i], |firstHeard| + i, log)
  }

  lemma ServedOneMore(firstHeard: seq<Frame>, firstLog: seq<Use>, heard: seq<Frame>, log: seq<Use>, frames: seq<Frame>,
                      count: nat, replies: seq<Reply>, more: seq<Use>, reply: Reply)
    requires Served(firstHeard, firstLog, heard, log, frames, count, replies) && count < |frames| && log <= more
    requires |replies| == count && Answers(reply, frames[count], |heard|, more)
    ensures Served(firstHeard, firstLog, heard + [frames[count]], more, frames, count + 1, replies)
    ensures Served(firstHeard, firstLog, heard + [frames[count]], more, frames, count + 1, replies + [reply])
  {
    assert frames[..count + 1] == frames[..count] + [frames[count]];
    var all := replies + [reply];
    forall i | 0 <= i < |all| ensures Answers(all[i], frames[i], |firstHeard| + i, more) {
      if i < |replies| { assert Answers(replies[i], frames[i], |firstHeard| + i, log); }
    }
  }
}
