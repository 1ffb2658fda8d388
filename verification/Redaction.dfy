/** Replacing a secret's encoded forms, and looking for it under layers of encoding. */
module Redaction {
  import opened Wrappers
  import opened PercentHex
  import opened PercentDecoding

  const MARK := "***REDACTED***"

  predicate MatchAt(text: string, form: string, p: nat) {
    p + |form| <= |text| && text[p..p + |form|] == form
  }

  predicate Contains(text: string, form: string) {
    exists p | 0 <= p <= |text| :: MatchAt(text, form, p)
  }

  /** The first occurrence at or after `from`. */
  method Find(text: string, form: string, from: nat) returns (at: Option<nat>)
    ensures at.Some? ==> from <= at.value && MatchAt(text, form, at.value)
    ensures at.Some? ==> forall p | from <= p < at.value :: !MatchAt(text, form, p)
    ensures at.None? ==> forall p | from <= p :: !MatchAt(text, form, p)
  {
    var p := from;
    while p + |form| <= |text|
      invariant from <= p && forall q | from <= q < p :: !MatchAt(text, form, q)
      decreases |text| - p
    {
      if text[p..p + |form|] == form { return Some(p); }
      p := p + 1;
    }
    return None;
  }

  /** `cuts` are the leftmost non-overlapping occurrences of `form` from `from` on. */
  ghost predicate Leftmost(text: string, form: string, cuts: seq<nat>, from: nat)
    decreases |cuts|
  {
    if cuts == [] then forall p: nat | from <= p :: !MatchAt(text, form, p)
    else
      && from <= cuts[0] && MatchAt(text, form, cuts[0])
      && (forall p: nat | from <= p < cuts[0] :: !MatchAt(text, form, p))
      && Leftmost(text, form, cuts[1..], cuts[0] + |form|)
  }

  /** `text` from `from` on, with the `size` characters at each cut replaced. */
  function Replaced(text: string, cuts: seq<nat>, size: nat, from: nat): string
    decreases |cuts|
  {
    if cuts == [] then (if from <= |text| then text[from..] else "")
    else (if from <= cuts[0] <= |text| then text[from..cuts[0]] else "") + MARK + Replaced(text, cuts[1..], size, cuts[0] + size)
  }

  // ---- the loop, which adds its cuts at the end ----

  /** Where the search goes on after `cuts`. */
  function Resume(cuts: seq<nat>, size: nat): nat {
    if cuts == [] then 0 else cuts[|cuts| - 1] + size
  }

  /** As Leftmost, so far: nothing is claimed past the last cut. */
  ghost predicate LeftmostSoFar(text: string, form: string, cuts: seq<nat>, from: nat)
    decreases |cuts|
  {
    cuts == []
    || (&& from <= cuts[0] && MatchAt(text, form, cuts[0])
        && (forall p: nat | from <= p < cuts[0] :: !MatchAt(text, form, p))
        && LeftmostSoFar(text, form, cuts[1..], cuts[0] + |form|))
  }

  lemma {:induction false} OneMoreCut(text: string, form: string, cuts: seq<nat>, from: nat, at: nat)
    requires LeftmostSoFar(text, form, cuts, from) && MatchAt(text, form, at)
    requires var next := if cuts == [] then from else Resume(cuts, |form|);
             next <= at && forall p: nat | next <= p < at :: !MatchAt(text, form, p)
    ensures LeftmostSoFar(text, form, cuts + [at], from)
    decreases |cuts|
  {
    if cuts == [] {
      assert (cuts + [at])[1..] == [];
    } else {
      assert (cuts + [at])[1..] == cuts[1..] + [at];
      OneMoreCut(text, form, cuts[1..], cuts[0] + |form|, at);
    }
  }

  lemma {:induction false} NoMoreCuts(text: string, form: string, cuts: seq<nat>, from: nat)
    requires LeftmostSoFar(text, form, cuts, from)
    requires forall p: nat | (if cuts == [] then from else Resume(cuts, |form|)) <= p :: !MatchAt(text, form, p)
    ensures Leftmost(text, form, cuts, from)
    decreases |cuts|
  {
    if cuts != [] { NoMoreCuts(text, form, cuts[1..], cuts[0] + |form|); }
  }

  /** The pieces collected so far, for cuts made in a text of this length. */
  function Pieces(text: string, cuts: seq<nat>, size: nat, from: nat): string
    decreases |cuts|
  {
    if cuts == [] then ""
    else Piece(text, from, cuts[0]) + Pieces(text, cuts[1..], size, cuts[0] + size)
  }

  function Piece(text: string, from: nat, cut: nat): string {
    (if from <= cut <= |text| then text[from..cut] else "") + MARK
  }

  lemma Regroup(a: string, b: string, c: string)
    ensures a + (b + c) == a + b + c
  {
  }

  lemma PiecesFirst(text: string, cut: nat, rest: seq<nat>, size: nat, from: nat)
    ensures Pieces(text, [cut] + rest, size, from) == Piece(text, from, cut) + Pieces(text, rest, size, cut + size)
  {
    assert ([cut] + rest)[1..] == rest;
  }

  lemma {:induction false} OneMorePiece(text: string, cuts: seq<nat>, size: nat, from: nat, next: nat, at: nat)
    requires next == if cuts == [] then from else Resume(cuts, size)
    ensures Pieces(text, cuts + [at], size, from) == Pieces(text, cuts, size, from) + Piece(text, next, at)
    decreases |cuts|
  {
    if cuts == [] {
      assert cuts + [at] == [at] + [];
      PiecesFirst(text, at, [], size, from);
    } else {
      var cut, rest := cuts[0], cuts[1..];
      assert cuts == [cut] + rest && cuts + [at] == [cut] + (rest + [at]);
      PiecesFirst(text, cut, rest, size, from);
      PiecesFirst(text, cut, rest + [at], size, from);
      OneMorePiece(text, rest, size, cut + size, next, at);
      Regroup(Piece(text, from, cut), Pieces(text, rest, size, cut + size), Piece(text, next, at));
    }
  }

  lemma {:induction false} PiecesThenRest(text: string, cuts: seq<nat>, size: nat, from: nat)
    requires var next := if cuts == [] then from else Resume(cuts, size); next <= |text|
    ensures var next := if cuts == [] then from else Resume(cuts, size);
            Replaced(text, cuts, size, from) == Pieces(text, cuts, size, from) + text[next..]
    decreases |cuts|
  {
    if cuts != [] { PiecesThenRest(text, cuts[1..], size, cuts[0] + size); }
  }

  /** Exactly the leftmost non-overlapping matches between the canonical forms are
      replaced, and every other character is copied as it was written. */
  method ReplaceSecretForm(text: string, form: string) returns (r: string)
    requires form != ""
    ensures exists cuts ::
              r == Replaced(text, cuts, |form|, 0)
              && if '%' in form then Leftmost(Canon(text), Canon(form), cuts, 0) else Leftmost(text, form, cuts, 0)
  {
    var searched, wanted := text, form;
    if '%' in form { searched, wanted := Canon(text), Canon(form); }
    var pieces, cursor := "", 0;
    ghost var cuts: seq<nat> := [];
    var position := Find(searched, wanted, cursor);
    while position.Some?
      invariant cursor == Resume(cuts, |form|) && cursor <= |text|
      invariant LeftmostSoFar(searched, wanted, cuts, 0) && pieces == Pieces(text, cuts, |form|, 0)
      invariant position.Some? ==> cursor <= position.value && MatchAt(searched, wanted, position.value)
      invariant position.Some? ==> forall p | cursor <= p < position.value :: !MatchAt(searched, wanted, p)
      invariant position.None? ==> forall p | cursor <= p :: !MatchAt(searched, wanted, p)
      decreases |text| - cursor, position.Some?
    {
      OneMoreCut(searched, wanted, cuts, 0, position.value);
      OneMorePiece(text, cuts, |form|, 0, cursor, position.value);
      pieces := pieces + (text[cursor..position.value] + MARK);
      cuts := cuts + [position.value];
      cursor := position.value + |form|;
      position := Find(searched, wanted, cursor);
    }
    NoMoreCuts(searched, wanted, cuts, 0);
    PiecesThenRest(text, cuts, |form|, 0);
    r := pieces + text[cursor..];
  }

  /** What is replaced differs from the form only in the case of hex letters. */
  lemma MatchesAreTheForm(text: string, form: string, p: nat)
    requires MatchAt(Canon(text), Canon(form), p)
    ensures p + |form| <= |text|
    ensures forall i | 0 <= i < |form| :: Upper(text[p + i]) == Upper(form[i])
  {
    CanonKeepsText(text);
    CanonKeepsText(form);
    forall i | 0 <= i < |form| ensures Upper(text[p + i]) == Upper(form[i]) {
      assert Canon(text)[p..p + |form|][i] == Canon(form)[i];
      UpperHex(text[p + i]);
      UpperHex(form[i]);
    }
  }

  /** There is only one such list of cuts. */
  lemma {:induction false} LeftmostIsUnique(text: string, form: string, a: seq<nat>, b: seq<nat>, from: nat)
    requires Leftmost(text, form, a, from) && Leftmost(text, form, b, from)
    ensures a == b
    decreases |a|
  {
    if a != [] && b != [] {
      assert a[0] == b[0];
      LeftmostIsUnique(text, form, a[1..], b[1..], a[0] + |form|);
    }
  }

  // ---- looking under layers of encoding ----

  const SCAN_LIMIT := 8192

  predicate ShowsAny(text: string, fragments: set<string>) {
    exists f | f in fragments :: Contains(text, f)
  }

  /** Some layer shows a fragment: layers are decoded while that shortens them, and a
      layer of the same length is looked at once. No bound on their number. */
  ghost predicate Reveals(text: string, decode: string -> string, fragments: set<string>)
    decreases |text|
  {
    var next := decode(text);
    || ShowsAny(text, fragments)
    || (next != text && |next| == |text| && ShowsAny(next, fragments))
    || (|next| < |text| && Reveals(next, decode, fragments))
  }

  /** One decoder's loop; its bound of one more pass than there are characters is never
      what ends it. */
  method ScanLayers(text: string, decode: string -> string, fragments: set<string>) returns (found: bool)
    ensures found <==> Reveals(text, decode, fragments)
  {
    var layer := text;
    for i := 0 to |text| + 1
      invariant |layer| <= |text| - i
      invariant Reveals(text, decode, fragments) <==> Reveals(layer, decode, fragments)
    {
      if ShowsAny(layer, fragments) { return true; }
      var decoded := decode(layer);
      if decoded == layer || |decoded| > |layer| { return false; }
      if |decoded| == |layer| { return ShowsAny(decoded, fragments); }
      layer := decoded;
    }
    return false;
  }

  /** Text over the scan limit, in characters or in bytes, counts as containing a secret. */
  method ContainsDecodedSecret(text: string, bytes: nat, fragments: set<string>, decoders: seq<string -> string>)
    returns (found: bool)
    ensures found <==> (|text| > SCAN_LIMIT || bytes > SCAN_LIMIT
                        || exists i | 0 <= i < |decoders| :: Reveals(text, decoders[i], fragments))
  {
    if |text| > SCAN_LIMIT || bytes > SCAN_LIMIT { return true; }
    if fragments == {} {
      forall i | 0 <= i < |decoders| ensures !Reveals(text, decoders[i], fragments) {
        NothingToReveal(text, decoders[i], fragments);
      }
      return false;
    }
    for i := 0 to |decoders|
      invariant forall j | 0 <= j < i :: !Reveals(text, decoders[j], fragments)
    {
      var hit := ScanLayers(text, decoders[i], fragments);
      if hit { return true; }
    }
    return false;
  }

  lemma {:induction false} NothingToReveal(text: string, decode: string -> string, fragments: set<string>)
    requires fragments == {}
    ensures !Reveals(text, decode, fragments)
    decreases |text|
  {
    if |decode(text)| < |text| { NothingToReveal(decode(text), decode, fragments); }
  }

  function Decoded(text: string, decode: string -> string, n: nat): string
    decreases n
  {
    if n == 0 then text else Decoded(decode(text), decode, n - 1)
  }

  ghost predicate SomeLayerShows(text: string, decode: string -> string, fragments: set<string>) {
    exists n: nat :: ShowsAny(Decoded(text, decode, n), fragments)
  }

  /** A decoder that never lengthens a text, and has nothing more to decode in a result as
      long as what it came from. */
  ghost predicate Shrinks(decode: string -> string) {
    forall t :: |decode(t)| <= |t| && (|decode(t)| == |t| ==> decode(decode(t)) == decode(t))
  }

  lemma {:induction false} FixedPoint(text: string, decode: string -> string, n: nat)
    requires decode(text) == text
    ensures Decoded(text, decode, n) == text
    decreases n
  {
    if n > 0 { FixedPoint(text, decode, n - 1); }
  }

  lemma LayersOfNext(text: string, decode: string -> string, fragments: set<string>)
    ensures SomeLayerShows(text, decode, fragments)
       <==> ShowsAny(text, fragments) || SomeLayerShows(decode(text), decode, fragments)
  {
    assert Decoded(text, decode, 0) == text;
    if SomeLayerShows(text, decode, fragments) {
      var n: nat :| ShowsAny(Decoded(text, decode, n), fragments);
      if n > 0 { assert Decoded(text, decode, n) == Decoded(decode(text), decode, n - 1); }
    }
    if SomeLayerShows(decode(text), decode, fragments) {
      var n: nat :| ShowsAny(Decoded(decode(text), decode, n), fragments);
      assert Decoded(text, decode, n + 1) == Decoded(decode(text), decode, n);
    }
  }

  lemma LayersOfFixed(text: string, decode: string -> string, fragments: set<string>)
    requires decode(text) == text
    ensures SomeLayerShows(text, decode, fragments) <==> ShowsAny(text, fragments)
  {
    assert Decoded(text, decode, 0) == text;
    if SomeLayerShows(text, decode, fragments) {
      var n: nat :| ShowsAny(Decoded(text, decode, n), fragments);
      FixedPoint(text, decode, n);
    }
  }

  /** For such a decoder, what the bounded loop looks for is: some number of decodings
      shows a fragment. */
  lemma {:induction false} RevealsIffSomeLayer(text: string, decode: string -> string, fragments: set<string>)
    requires Shrinks(decode)
    ensures Reveals(text, decode, fragments) <==> SomeLayerShows(text, decode, fragments)
    decreases |text|
  {
    var next := decode(text);
    assert |next| <= |text|;
    LayersOfNext(text, decode, fragments);
    if |next| == |text| {
      LayersOfFixed(next, decode, fragments);
    } else {
      RevealsIffSomeLayer(next, decode, fragments);
    }
  }

  // ---- the two decoders of the source ----

  /** Every `+` is a space. */
  function PlusToSpace(t: string): (r: string)
    ensures |r| == |t| && '+' !in r && ('+' !in t ==> r == t)
  {
    if t == [] then [] else [if t[0] == '+' then ' ' else t[0]] + PlusToSpace(t[1..])
  }

  function DecodePlus(t: string): string {
    Decode(PlusToSpace(t))
  }

  lemma PercentDecodersShrink()
    ensures Shrinks(Decode) && Shrinks(DecodePlus)
  {
    forall t ensures |DecodePlus(t)| <= |t| && (|DecodePlus(t)| == |t| ==> DecodePlus(DecodePlus(t)) == DecodePlus(t)) {
      var u := PlusToSpace(t);
      if |Decode(u)| == |u| { assert Decode(u) == u && PlusToSpace(u) == u; }
    }
  }

  /** So both of the source's decoders find a fragment exactly when it shows in the text
      decoded some number of times. */
  lemma BothDecodersSeeEveryLayer(text: string, fragments: set<string>)
    ensures Reveals(text, Decode, fragments) <==> SomeLayerShows(text, Decode, fragments)
    ensures Reveals(text, DecodePlus, fragments) <==> SomeLayerShows(text, DecodePlus, fragments)
  {
    PercentDecodersShrink();
    RevealsIffSomeLayer(text, Decode, fragments);
    RevealsIffSomeLayer(text, DecodePlus, fragments);
  }
}
