/** Detecting an agent that is stuck: over budget, repeating itself, or ping-ponging. */
module LoopGuard {
  import opened Wrappers

  datatype Call = Call(id: string, name: string, args: string)

  datatype Reason = OverBudget | Identical | PingPong

  /** What the guard hashes: the tool and its arguments. */
  function Sig(c: Call): (string, string) {
    (c.name, c.args)
  }

  function CountOf(calls: seq<Call>, tool: string): nat
    decreases |calls|
  {
    if calls == [] then 0
    else CountOf(calls[..|calls| - 1], tool) + if calls[|calls| - 1].name == tool then 1 else 0
  }

  lemma CountOfOneMore(calls: seq<Call>, c: Call, tool: string)
    ensures CountOf(calls + [c], tool) == CountOf(calls, tool) + if c.name == tool then 1 else 0
  {
    assert (calls + [c])[..|calls|] == calls;
  }

  /** The same tool with the same arguments; the id tells calls apart but not what they do. */
  predicate Same(a: Call, b: Call) {
    a.name == b.name && a.args == b.args
  }

  /** The last `n` calls are all the same call. */
  predicate Repeats(calls: seq<Call>, n: int) {
    1 <= n <= |calls| && forall i | |calls| - n <= i < |calls| :: Same(calls[i], calls[|calls| - 1])
  }

  /** The last four calls alternate between two different ones. */
  predicate Alternates(calls: seq<Call>) {
    && |calls| >= 4
    && var k := |calls| - 4;
    Same(calls[k], calls[k + 2]) && Same(calls[k + 1], calls[k + 3]) && !Same(calls[k], calls[k + 1])
  }

  /** Why the guard objects to the last of `calls`, if it does. */
  function Verdict(calls: seq<Call>, maxIdentical: int, maxPerTool: int): Option<Reason>
    requires calls != []
  {
    if CountOf(calls, calls[|calls| - 1].name) > maxPerTool then Some(OverBudget)
    else if Repeats(calls, maxIdentical) then Some(Identical)
    else if Alternates(calls) then Some(PingPong)
    else None
  }

  function Distinct(s: seq<(string, string)>): set<(string, string)> {
    set i | 0 <= i < |s| :: s[i]
  }

  lemma OneDistinct(s: seq<(string, string)>)
    requires s != []
    ensures |Distinct(s)| == 1 <==> forall i | 0 <= i < |s| :: s[i] == s[|s| - 1]
  {
    var last := s[|s| - 1];
    assert last in Distinct(s);
    if |Distinct(s)| == 1 {
      var others := Distinct(s) - {last};
      assert |others| == 0;
      assert others == {};
      forall i | 0 <= i < |s| ensures s[i] == last {
        assert s[i] in Distinct(s) && s[i] !in others;
      }
    }
    if forall i | 0 <= i < |s| :: s[i] == last {
      assert Distinct(s) == {last};
    }
  }

  class LoopGuard {
    const maxIdentical: int
    const maxPerTool: int
    var hashes: seq<(string, string)>
    var perTool: map<string, nat>
    ghost var calls: seq<Call>

    ghost predicate Valid()
      reads this
    {
      && |hashes| == |calls|
      && (forall i | 0 <= i < |calls| :: hashes[i] == Sig(calls[i]))
      && (forall t :: (if t in perTool then perTool[t] else 0) == CountOf(calls, t))
    }

    constructor (maxIdentical: int, maxPerTool: int)
      ensures Valid() && calls == [] && this.maxIdentical == maxIdentical && this.maxPerTool == maxPerTool
    {
      this.maxIdentical, this.maxPerTool := maxIdentical, maxPerTool;
      hashes, perTool, calls := [], map[], [];
    }

    /** Records the call, then objects to it or not. */
    method Check(c: Call) returns (reason: Option<Reason>)
      requires Valid()
      modifies this
      ensures Valid() && calls == old(calls) + [c]
      ensures reason == Verdict(calls, maxIdentical, maxPerTool)
    {
      Record(c);
      if perTool[c.name] > maxPerTool { return Some(OverBudget); }
      var n := |hashes|;
      if 1 <= maxIdentical <= n {
        var recent := hashes[n - maxIdentical..];
        OneDistinct(recent);
        RecentAgree(recent);
        if |Distinct(recent)| == 1 { return Some(Identical); }
      }
      AlternatesIff();
      if n >= 4 && hashes[n - 4] == hashes[n - 2] && hashes[n - 3] == hashes[n - 1] && hashes[n - 4] != hashes[n - 3] {
        return Some(PingPong);
      }
      return None;
    }

    lemma AlternatesIff()
      requires Valid()
      ensures var n := |hashes|;
              Alternates(calls) <==> (n >= 4 && hashes[n - 4] == hashes[n - 2] && hashes[n - 3] == hashes[n - 1]
                                      && hashes[n - 4] != hashes[n - 3])
    {
    }

    lemma RecentAgree(recent: seq<(string, string)>)
      requires Valid() && 1 <= maxIdentical <= |hashes| && recent == hashes[|hashes| - maxIdentical..]
      ensures (forall i | 0 <= i < |recent| :: recent[i] == recent[|recent| - 1]) <==> Repeats(calls, maxIdentical)
    {
      var k := |calls| - maxIdentical;
      if forall i | 0 <= i < |recent| :: recent[i] == recent[|recent| - 1] {
        forall i | k <= i < |calls| ensures Same(calls[i], calls[|calls| - 1]) {
          assert recent[i - k] == recent[|recent| - 1];
        }
      }
    }

    method Record(c: Call)
      requires Valid()
      modifies this
      ensures Valid() && calls == old(calls) + [c] && c.name in perTool
    {
      forall t ensures CountOf(calls + [c], t) == CountOf(calls, t) + if c.name == t then 1 else 0 {
        CountOfOneMore(calls, c, t);
      }
      hashes := hashes + [Sig(c)];
      perTool := perTool[c.name := (if c.name in perTool then perTool[c.name] else 0) + 1];
      calls := calls + [c];
    }
  }

  // ---- what calls the guard has let through look like ----

  ghost predicate PassedAt(calls: seq<Call>, n: nat, maxIdentical: int, maxPerTool: int)
    requires 1 <= n <= |calls|
  {
    Verdict(calls[..n], maxIdentical, maxPerTool).None?
  }

  /** The guard objected to none of them when it was made. */
  ghost predicate Passed(calls: seq<Call>, maxIdentical: int, maxPerTool: int) {
    forall n | 1 <= n <= |calls| :: PassedAt(calls, n, maxIdentical, maxPerTool)
  }

  lemma PassedOneMore(calls: seq<Call>, c: Call, maxIdentical: int, maxPerTool: int)
    requires Passed(calls, maxIdentical, maxPerTool) && Verdict(calls + [c], maxIdentical, maxPerTool).None?
    ensures Passed(calls + [c], maxIdentical, maxPerTool)
  {
    forall n | 1 <= n <= |calls + [c]| ensures PassedAt(calls + [c], n, maxIdentical, maxPerTool) {
      if n <= |calls| {
        assert PassedAt(calls, n, maxIdentical, maxPerTool);
        assert (calls + [c])[..n] == calls[..n];
      } else {
        assert (calls + [c])[..n] == calls + [c];
      }
    }
  }

  /** No tool is over its budget, no call stands `max_identical` times in a row, and no
      two calls alternate twice, anywhere among calls that passed. */
  lemma PassedCallsAreSpread(calls: seq<Call>, maxIdentical: int, maxPerTool: int, tool: string, k: nat)
    requires Passed(calls, maxIdentical, maxPerTool)
    ensures CountOf(calls, tool) == 0 || CountOf(calls, tool) <= maxPerTool
    ensures maxIdentical >= 1 && k + maxIdentical <= |calls| ==>
              exists i, j | k <= i < j < k + maxIdentical :: !Same(calls[i], calls[j])
    ensures k + 4 <= |calls| && Same(calls[k], calls[k + 2]) && Same(calls[k + 1], calls[k + 3]) ==>
              Same(calls[k], calls[k + 1])
  {
    WithinBudget(calls, maxIdentical, maxPerTool, tool);
    if maxIdentical >= 1 && k + maxIdentical <= |calls| { NotAllTheSame(calls, maxIdentical, maxPerTool, k); }
    if k + 4 <= |calls| { NotAlternating(calls, maxIdentical, maxPerTool, k); }
  }

  lemma NotAllTheSame(calls: seq<Call>, maxIdentical: int, maxPerTool: int, k: nat)
    requires Passed(calls, maxIdentical, maxPerTool) && maxIdentical >= 1 && k + maxIdentical <= |calls|
    ensures exists i, j | k <= i < j < k + maxIdentical :: !Same(calls[i], calls[j])
  {
    var n := k + maxIdentical;
    assert PassedAt(calls, n, maxIdentical, maxPerTool);
    assert !Repeats(calls[..n], maxIdentical);
    var i :| n - maxIdentical <= i < n && !Same(calls[..n][i], calls[..n][n - 1]);
    assert !Same(calls[i], calls[n - 1]);
  }

  lemma NotAlternating(calls: seq<Call>, maxIdentical: int, maxPerTool: int, k: nat)
    requires Passed(calls, maxIdentical, maxPerTool) && k + 4 <= |calls|
    ensures Same(calls[k], calls[k + 2]) && Same(calls[k + 1], calls[k + 3]) ==> Same(calls[k], calls[k + 1])
  {
    assert PassedAt(calls, k + 4, maxIdentical, maxPerTool);
    assert !Alternates(calls[..k + 4]);
  }

  lemma {:induction false} WithinBudget(calls: seq<Call>, maxIdentical: int, maxPerTool: int, tool: string)
    requires Passed(calls, maxIdentical, maxPerTool)
    ensures CountOf(calls, tool) == 0 || CountOf(calls, tool) <= maxPerTool
    decreases |calls|
  {
    if calls != [] {
      var n := |calls|;
      var rest := calls[..n - 1];
      forall m | 1 <= m <= |rest| ensures PassedAt(rest, m, maxIdentical, maxPerTool) {
        assert rest[..m] == calls[..m];
        assert PassedAt(calls, m, maxIdentical, maxPerTool);
      }
      WithinBudget(rest, maxIdentical, maxPerTool, tool);
      assert calls[..n] == calls;
      assert PassedAt(calls, n, maxIdentical, maxPerTool);
    }
  }
}
