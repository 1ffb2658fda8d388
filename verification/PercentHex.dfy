/** Upper-casing the hex letters of percent escapes, nested `%25` escapes included. */
module PercentHex {
  predicate IsHex(c: char) {
    '0' <= c <= '9' || 'a' <= c <= 'f' || 'A' <= c <= 'F'
  }

  function Upper(c: char): char {
    if 'a' <= c <= 'f' then c - 'a' + 'A' else c
  }

  predicate Starts25(t: string) {
    |t| >= 2 && t[0] == '2' && t[1] == '5'
  }

  predicate StartsHex(t: string) {
    |t| >= 2 && IsHex(t[0]) && IsHex(t[1])
  }

  /** Left to right: after a `%` any number of `25`s is skipped, and the two hex digits
      that follow, if there are two, are upper-cased. */
  function Canonical(t: string, escaping: bool): (r: string)
    ensures |r| == |t|
    decreases |t|, escaping
  {
    if t == [] then []
    else if escaping then
      if Starts25(t) then t[..2] + Canonical(t[2..], true)
      else if StartsHex(t) then [Upper(t[0]), Upper(t[1])] + Canonical(t[2..], false)
      else Canonical(t, false)
    else [t[0]] + Canonical(t[1..], t[0] == '%')
  }

  function Canon(t: string): string {
    Canonical(t, false)
  }

  // ---- the loop over a list of characters ----

  /** Where the run of `25`s from `c` ends. */
  function Skip(t: string, c: nat): (d: nat)
    requires c <= |t|
    ensures c <= d <= |t|
    decreases |t| - c
  {
    if Starts25(t[c..]) then Skip(t, c + 2) else c
  }

  /** The run from `c` ends in two hex digits, and `i` is one of them. */
  predicate Hits(t: string, c: nat, i: nat)
    requires c <= |t|
  {
    StartsHex(t[Skip(t, c)..]) && Skip(t, c) <= i <= Skip(t, c) + 1
  }

  /** Position `i` is upper-cased by an escape that starts in `lo..hi`. */
  ghost predicate Marked(t: string, i: nat, lo: nat, hi: nat) {
    exists p | lo <= p < hi && p < |t| && t[p] == '%' :: Hits(t, p + 1, i)
  }

  /** Two texts that differ at most in the case of hex letters. */
  ghost predicate SameUpToCase(a: string, b: string) {
    |a| == |b| && forall i | 0 <= i < |a| :: a[i] == b[i] || (IsHex(a[i]) && IsHex(b[i]) && Upper(a[i]) == Upper(b[i]))
  }

  lemma SameTests(a: string, b: string, c: nat)
    requires SameUpToCase(a, b) && c <= |a|
    ensures Starts25(a[c..]) == Starts25(b[c..]) && StartsHex(a[c..]) == StartsHex(b[c..])
  {
  }

  lemma {:induction false} SameSkips(a: string, b: string, c: nat)
    requires SameUpToCase(a, b) && c <= |a|
    ensures Skip(a, c) == Skip(b, c)
    decreases |a| - c
  {
    SameTests(a, b, c);
    if Starts25(a[c..]) { SameSkips(a, b, c + 2); }
  }

  /** The text with the escapes that start before `bound` dealt with. */
  ghost predicate PartlyDone(t: string, r: string, bound: nat) {
    |r| == |t| && forall i | 0 <= i < |t| :: r[i] == if Marked(t, i, 0, bound) then Upper(t[i]) else t[i]
  }

  lemma HitsAfter25(t: string, k: nat, i: nat)
    requires k <= |t| && Starts25(t[k..])
    ensures Hits(t, k, i) <==> Hits(t, k + 2, i)
    ensures Hits(t, k, i) ==> i >= k + 2
  {
  }

  /** Escapes start at percent signs only, and mark positions after them only. */
  lemma MarkedFrom(t: string, i: nat, k: nat, n: nat)
    requires k + n <= |t| && forall p | k <= p < k + n :: t[p] != '%'
    ensures Marked(t, i, k, |t|) <==> Marked(t, i, k + n, |t|)
    ensures Marked(t, i, k, |t|) ==> i > k + n
  {
  }

  lemma {:induction false} CanonicalAt(t: string, k: nat, escaping: bool, i: nat)
    requires k <= i < |t|
    ensures Canonical(t[k..], escaping)[i - k]
         == if Marked(t, i, k, |t|) || (escaping && Hits(t, k, i)) then Upper(t[i]) else t[i]
    decreases |t| - k, escaping
  {
    if !escaping {
      CanonicalAtPlain(t, k, i);
    } else if Starts25(t[k..]) {
      CanonicalAt25(t, k, i);
    } else if StartsHex(t[k..]) {
      CanonicalAtDigits(t, k, i);
    } else {
      CanonicalAt(t, k, false, i);
    }
  }

  lemma {:induction false} CanonicalAtPlain(t: string, k: nat, i: nat)
    requires k <= i < |t|
    ensures Canonical(t[k..], false)[i - k] == if Marked(t, i, k, |t|) then Upper(t[i]) else t[i]
    decreases |t| - k, false, 0
  {
    assert t[k..][1..] == t[k + 1..];
    if i > k {
      assert Canonical(t[k..], false)[i - k] == Canonical(t[k + 1..], t[k] == '%')[i - k - 1];
      CanonicalAt(t, k + 1, t[k] == '%', i);
      MarkedSplit(t, i, k);
    } else {
      MarkedFrom(t, i, k, 0);
    }
  }

  lemma {:induction false} CanonicalAt25(t: string, k: nat, i: nat)
    requires k <= i < |t| && Starts25(t[k..])
    ensures Canonical(t[k..], true)[i - k] == if Marked(t, i, k, |t|) || Hits(t, k, i) then Upper(t[i]) else t[i]
    decreases |t| - k, true, 0
  {
    assert t[k..][2..] == t[k + 2..];
    HitsAfter25(t, k, i);
    MarkedFrom(t, i, k, 2);
    if i >= k + 2 { CanonicalAt(t, k + 2, true, i); }
  }

  lemma DigitsFirst(u: string, j: nat)
    requires StartsHex(u) && !Starts25(u) && j < |u|
    ensures Canonical(u, true)[j] == if j < 2 then Upper(u[j]) else Canonical(u[2..], false)[j - 2]
  {
  }

  lemma HitsHere(t: string, k: nat, i: nat)
    requires k <= |t| && StartsHex(t[k..]) && !Starts25(t[k..])
    ensures Hits(t, k, i) <==> k <= i <= k + 1
  {
  }

  lemma {:induction false} CanonicalAtDigits(t: string, k: nat, i: nat)
    requires k <= i < |t| && StartsHex(t[k..]) && !Starts25(t[k..])
    ensures Canonical(t[k..], true)[i - k] == if Marked(t, i, k, |t|) || Hits(t, k, i) then Upper(t[i]) else t[i]
    decreases |t| - k, true, 0
  {
    assert t[k..][2..] == t[k + 2..];
    DigitsFirst(t[k..], i - k);
    HitsHere(t, k, i);
    MarkedFrom(t, i, k, 2);
    if i >= k + 2 { CanonicalAt(t, k + 2, false, i); }
  }

  lemma MarkedSplit(t: string, i: nat, k: nat)
    requires k < |t|
    ensures Marked(t, i, k, |t|) <==> (t[k] == '%' && Hits(t, k + 1, i)) || Marked(t, i, k + 1, |t|)
  {
    if t[k] == '%' && Hits(t, k + 1, i) {
      assert Marked(t, i, k, |t|);
    }
  }

  lemma MarkedGrows(t: string, i: nat, p: nat)
    requires p < |t|
    ensures Marked(t, i, 0, p + 1) <==> Marked(t, i, 0, p) || (t[p] == '%' && Hits(t, p + 1, i))
  {
    if t[p] == '%' && Hits(t, p + 1, i) {
      assert Marked(t, i, 0, p + 1);
    }
  }

  /** Every escape has been dealt with exactly when the list is canonical. */
  lemma AllDoneIsCanonical(t: string, r: string)
    ensures PartlyDone(t, r, |t|) <==> r == Canon(t)
  {
    assert t[0..] == t;
    forall i | 0 <= i < |t| ensures Canon(t)[i] == if Marked(t, i, 0, |t|) then Upper(t[i]) else t[i] {
      CanonicalAt(t, 0, false, i);
    }
  }

  lemma UpperHex(c: char)
    ensures IsHex(Upper(c)) == IsHex(c) && Upper(Upper(c)) == Upper(c)
  {
  }

  lemma HitIsHex(t: string, c: nat, i: nat)
    requires c <= |t| && Hits(t, c, i)
    ensures c <= i < |t| && IsHex(t[i])
  {
    var d := Skip(t, c);
    assert t[d..][i - d] == t[i];
  }

  lemma MarkedIsHex(t: string, i: nat, bound: nat)
    requires i < |t| && Marked(t, i, 0, bound)
    ensures IsHex(t[i]) && IsHex(Upper(t[i])) && Upper(Upper(t[i])) == Upper(t[i])
  {
    var p :| 0 <= p < bound && p < |t| && t[p] == '%' && Hits(t, p + 1, i);
    HitIsHex(t, p + 1, i);
    UpperHex(t[i]);
  }

  lemma PartlyDoneIsSame(t: string, r: string, bound: nat)
    requires PartlyDone(t, r, bound)
    ensures SameUpToCase(t, r)
  {
    forall i | 0 <= i < |t| && Marked(t, i, 0, bound) ensures IsHex(t[i]) && IsHex(r[i]) && Upper(t[i]) == Upper(r[i]) {
      MarkedIsHex(t, i, bound);
    }
  }

  /** The list after the escape at `index`, whose run ends at `cursor`. */
  function Escaped(r: string, cursor: nat): (u: string)
    requires cursor <= |r|
    ensures |u| == |r|
  {
    if StartsHex(r[cursor..]) then r[cursor := Upper(r[cursor])][cursor + 1 := Upper(r[cursor + 1])] else r
  }

  lemma EscapedIsDone(t: string, r: string, index: nat, cursor: nat)
    requires PartlyDone(t, r, index) && index < |t| && t[index] == '%' && cursor == Skip(t, index + 1)
    requires StartsHex(r[cursor..]) == StartsHex(t[cursor..])
    ensures PartlyDone(t, Escaped(r, cursor), index + 1)
  {
    forall i | 0 <= i < |t| ensures Escaped(r, cursor)[i] == if Marked(t, i, 0, index + 1) then Upper(t[i]) else t[i] {
      EscapedAt(t, r, index, cursor, i);
    }
  }

  lemma EscapedAt(t: string, r: string, index: nat, cursor: nat, i: nat)
    requires |r| == |t| && index < |t| && t[index] == '%' && cursor == Skip(t, index + 1) && i < |t|
    requires StartsHex(r[cursor..]) == StartsHex(t[cursor..])
    requires r[i] == if Marked(t, i, 0, index) then Upper(t[i]) else t[i]
    ensures Escaped(r, cursor)[i] == if Marked(t, i, 0, index + 1) then Upper(t[i]) else t[i]
  {
    MarkedGrows(t, i, index);
    UpperHex(t[i]);
    assert Hits(t, index + 1, i) <==> StartsHex(t[cursor..]) && cursor <= i <= cursor + 1;
  }

  /** The inner loop: past any number of `25`s. */
  method RunEnd(chars: array<char>, index: nat) returns (cursor: nat)
    requires index < chars.Length
    ensures index < cursor <= chars.Length && cursor == Skip(chars[..], index + 1)
  {
    cursor := index + 1;
    while cursor + 1 < chars.Length && chars[cursor] == '2' && chars[cursor + 1] == '5'
      invariant index < cursor <= chars.Length
      invariant Skip(chars[..], cursor) == Skip(chars[..], index + 1)
    {
      cursor := cursor + 2;
    }
    SkipHere(chars[..], cursor);
  }

  /** One escape: its two hex digits, if it has them, are upper-cased in place. */
  method Escape(chars: array<char>, index: nat, ghost t: string)
    requires index < chars.Length && chars[index] == '%' && PartlyDone(t, chars[..], index)
    modifies chars
    ensures PartlyDone(t, chars[..], index + 1)
  {
    var cursor := RunEnd(chars, index);
    SameRun(t, chars[..], index, cursor);
    if cursor + 1 < chars.Length && IsHex(chars[cursor]) && IsHex(chars[cursor + 1]) {
      chars[cursor], chars[cursor + 1] := Upper(chars[cursor]), Upper(chars[cursor + 1]);
    }
    assert chars[..] == Escaped(old(chars[..]), cursor);
  }

  lemma SkipHere(t: string, c: nat)
    requires c <= |t| && !(c + 1 < |t| && t[c] == '2' && t[c + 1] == '5')
    ensures Skip(t, c) == c
  {
  }

  lemma SameRun(t: string, r: string, index: nat, cursor: nat)
    requires PartlyDone(t, r, index) && index < |t| && r[index] == '%' && cursor == Skip(r, index + 1)
    ensures cursor <= |r| && PartlyDone(t, Escaped(r, cursor), index + 1)
  {
    PartlyDoneIsSame(t, r, index);
    SameSkips(t, r, index + 1);
    SameTests(t, r, cursor);
    EscapedIsDone(t, r, index, cursor);
  }

  method CanonicalPercentHex(chars: array<char>)
    modifies chars
    ensures chars[..] == Canon(old(chars[..]))
  {
    ghost var t := chars[..];
    for index := 0 to chars.Length
      invariant PartlyDone(t, chars[..], index)
    {
      if chars[index] == '%' {
        Escape(chars, index, t);
      } else {
        PartlyDoneIsSame(t, chars[..], index);
        forall i | 0 <= i < |t| ensures Marked(t, i, 0, index + 1) <==> Marked(t, i, 0, index) { MarkedGrows(t, i, index); }
      }
    }
    AllDoneIsCanonical(t, chars[..]);
  }

  // ---- what canonical means ----

  lemma {:induction false} CanonicalTwice(t: string, escaping: bool)
    ensures Canonical(Canonical(t, escaping), escaping) == Canonical(t, escaping)
    decreases |t|, escaping
  {
    var r := Canonical(t, escaping);
    if t != [] {
      if escaping && Starts25(t) {
        assert r[..2] == t[..2] && r[2..] == Canonical(t[2..], true);
        CanonicalTwice(t[2..], true);
      } else if escaping && StartsHex(t) {
        assert r[2..] == Canonical(t[2..], false);
        UpperHex(t[0]);
        UpperHex(t[1]);
        CanonicalTwice(t[2..], false);
      } else if escaping {
        StaysPlain(t);
        CanonicalTwice(t, false);
      } else {
        assert r[1..] == Canonical(t[1..], t[0] == '%');
        CanonicalTwice(t[1..], t[0] == '%');
      }
    }
  }

  /** Where no escape can end, none can end after canonicalising either. */
  lemma StaysPlain(t: string)
    requires t != [] && !Starts25(t) && !StartsHex(t)
    ensures !Starts25(Canonical(t, false)) && !StartsHex(Canonical(t, false))
  {
    if |t| >= 2 && t[0] != '%' {
      assert Canonical(t, false)[1..] == Canonical(t[1..], false);
      assert Canonical(t[1..], false)[0] == t[1];
    }
  }

  /** Canonicalising again changes nothing. */
  lemma CanonIsIdempotent(t: string)
    ensures Canon(Canon(t)) == Canon(t)
  {
    CanonicalTwice(t, false);
  }

  /** Only hex digits change, and only their case. */
  lemma CanonKeepsText(t: string)
    ensures SameUpToCase(t, Canon(t))
  {
    AllDoneIsCanonical(t, Canon(t));
    PartlyDoneIsSame(t, Canon(t), |t|);
  }
}
