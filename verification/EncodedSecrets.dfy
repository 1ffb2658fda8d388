/** A secret percent-encoded any number of times, anywhere in a text, is found. */
module EncodedSecrets {
  import opened PercentHex
  import opened PercentDecoding
  import opened Redaction

  function Digit(n: nat): (c: char)
    requires n < 16
    ensures IsHex(c)
  {
    if n < 10 then '0' + n as char else 'A' + (n - 10) as char
  }

  predicate Bytes(t: string) {
    forall i | 0 <= i < |t| :: t[i] as int < 256
  }

  /** Every character as a percent sign and two hex digits. */
  function Encode(t: string): (r: string)
    requires Bytes(t)
    ensures |r| == 3 * |t| && Bytes(r)
  {
    if t == [] then []
    else ['%', Digit(t[0] as int / 16), Digit(t[0] as int % 16)] + Encode(t[1..])
  }

  function EncodeTimes(t: string, n: nat): (r: string)
    requires Bytes(t)
    ensures Bytes(r)
    decreases n
  {
    if n == 0 then t else Encode(EncodeTimes(t, n - 1))
  }

  lemma DigitsMakeByte(c: char)
    requires c as int < 256
    ensures Byte(Digit(c as int / 16), Digit(c as int % 16)) == c
  {
    var high, low := c as int / 16, c as int % 16;
    DigitHasValue(high);
    DigitHasValue(low);
    assert 16 * high + low == c as int;
  }

  lemma DigitHasValue(n: nat)
    requires n < 16
    ensures HexValue(Digit(n)) == n
  {
  }

  lemma DecodeOne(c: char, rest: string)
    requires c as int < 256
    ensures Decode(['%', Digit(c as int / 16), Digit(c as int % 16)] + rest) == [c] + Decode(rest)
  {
    var t := ['%', Digit(c as int / 16), Digit(c as int % 16)] + rest;
    assert t[3..] == rest && t[1..][0] == Digit(c as int / 16) && t[1..][1] == Digit(c as int % 16);
    DigitsMakeByte(c);
  }

  lemma Regrouped(a: string, b: string, c: string)
    ensures (a + b) + c == a + (b + c)
  {
  }

  lemma HeadAndTail(t: string, rest: string)
    requires t != []
    ensures [t[0]] + (t[1..] + rest) == t + rest && (t + rest)[0] == t[0] && (t + rest)[1..] == t[1..] + rest
  {
  }

  /** Decoding undoes encoding, and goes on behind it. */
  lemma {:induction false} DecodeUndoes(t: string, rest: string)
    requires Bytes(t)
    ensures Decode(Encode(t) + rest) == t + Decode(rest)
    decreases |t|
  {
    if t == [] {
      assert Encode(t) + rest == rest;
    } else {
      var head := ['%', Digit(t[0] as int / 16), Digit(t[0] as int % 16)];
      Regrouped(head, Encode(t[1..]), rest);
      DecodeOne(t[0], Encode(t[1..]) + rest);
      DecodeUndoes(t[1..], rest);
      HeadAndTail(t, Decode(rest));
    }
  }

  /** Text without a percent sign is left as it is, and decoding goes on behind it. */
  lemma {:induction false} PlainStays(pre: string, rest: string)
    requires '%' !in pre
    ensures Decode(pre + rest) == pre + Decode(rest)
    decreases |pre|
  {
    if pre == [] {
      assert pre + rest == rest;
    } else {
      HeadAndTail(pre, rest);
      DecodePlain(pre + rest);
      PlainStays(pre[1..], rest);
      HeadAndTail(pre, Decode(rest));
    }
  }

  lemma OneLayer(pre: string, inner: string, post: string)
    requires '%' !in pre && Bytes(inner)
    ensures Decode(pre + Encode(inner) + post) == pre + inner + Decode(post)
  {
    Regrouped(pre, Encode(inner), post);
    PlainStays(pre, Encode(inner) + post);
    DecodeUndoes(inner, post);
    Regrouped(pre, inner, Decode(post));
  }

  lemma PeelOne(pre: string, inner: string, post: string, n: nat)
    requires n > 0 && '%' !in pre && Bytes(inner)
    ensures DecodeTimes(pre + Encode(inner) + post, n) == DecodeTimes(pre + inner + Decode(post), n - 1)
  {
    OneLayer(pre, inner, post);
  }

  /** What decoding `n` times makes of `n` layers of encoding. */
  ghost predicate Peels(pre: string, t: string, outer: string, post: string, n: nat) {
    exists after :: DecodeTimes(pre + outer + post, n) == pre + t + after
  }

  lemma PeelsOne(pre: string, t: string, inner: string, post: string, n: nat)
    requires n > 0 && '%' !in pre && Bytes(inner) && Peels(pre, t, inner, Decode(post), n - 1)
    ensures Peels(pre, t, Encode(inner), post, n)
  {
    PeelOne(pre, inner, post, n);
  }

  lemma NothingToPeel(pre: string, t: string, post: string)
    ensures Peels(pre, t, t, post, 0)
  {
    assert DecodeTimes(pre + t + post, 0) == pre + t + post;
  }

  lemma EncodedNext(t: string, n: nat) returns (inner: string)
    requires Bytes(t) && n > 0
    ensures inner == EncodeTimes(t, n - 1) && Bytes(inner) && EncodeTimes(t, n) == Encode(inner)
  {
    inner := EncodeTimes(t, n - 1);
  }

  lemma {:induction false} LayersPeel(pre: string, t: string, outer: string, post: string, n: nat)
    requires '%' !in pre && Bytes(t) && outer == EncodeTimes(t, n)
    ensures Peels(pre, t, outer, post, n)
    decreases n
  {
    if n == 0 {
      NothingToPeel(pre, t, post);
    } else {
      var inner := EncodedNext(t, n);
      LayersPeel(pre, t, inner, Decode(post), n - 1);
      PeelsOne(pre, t, inner, post, n);
    }
  }

  lemma {:induction false} DecodedIs(text: string, decode: string -> string, n: nat)
    requires forall t :: decode(t) == Decode(t)
    ensures Decoded(text, decode, n) == DecodeTimes(text, n)
    decreases n
  {
    if n > 0 { DecodedIs(Decode(text), decode, n - 1); }
  }

  lemma ContainsMeans(text: string, form: string)
    ensures Contains(text, form) <==> exists a, b :: text == a + form + b
  {
    if p :| 0 <= p <= |text| && MatchAt(text, form, p) {
      assert text == text[..p] + form + text[p + |form|..];
    }
    if a, b :| text == a + form + b {
      assert text[|a|..|a| + |form|] == form;
      assert MatchAt(text, form, |a|);
    }
  }

  /** However often a fragment was percent-encoded, behind any text without a percent sign and
      before any text at all, it is found. */
  lemma EncodedSecretIsFound(pre: string, fragment: string, post: string, n: nat, fragments: set<string>)
    requires '%' !in pre && Bytes(fragment) && fragment in fragments
    ensures Reveals(pre + EncodeTimes(fragment, n) + post, Decode, fragments)
  {
    var text := pre + EncodeTimes(fragment, n) + post;
    LayersPeel(pre, fragment, EncodeTimes(fragment, n), post, n);
    var after :| DecodeTimes(text, n) == pre + fragment + after;
    DecodedIs(text, Decode, n);
    ContainsMeans(pre + fragment + after, fragment);
    assert ShowsAny(Decoded(text, Decode, n), fragments);
    BothDecodersSeeEveryLayer(text, fragments);
  }

  /** Text with no percent sign is searched as it stands, and reading plus as space only on top. */
  lemma PlainTextIsSearchedOnce(text: string, fragments: set<string>)
    requires '%' !in text
    ensures Reveals(text, Decode, fragments) <==> exists f, a, b :: f in fragments && text == a + f + b
    ensures Reveals(text, DecodePlus, fragments)
       <==> exists f, a, b :: f in fragments && (text == a + f + b || PlusToSpace(text) == a + f + b)
  {
    PlainStays(text, []);
    assert text + [] == text && Decode([]) == [];
    PlusKeepsPlain(text);
    PlainStays(PlusToSpace(text), []);
    assert PlusToSpace(text) + [] == PlusToSpace(text);
    ShowsMeans(text, fragments);
    ShowsMeans(PlusToSpace(text), fragments);
  }

  lemma ShowsMeans(text: string, fragments: set<string>)
    ensures ShowsAny(text, fragments) <==> exists f, a, b :: f in fragments && text == a + f + b
  {
    forall f ensures Contains(text, f) <==> exists a, b :: text == a + f + b { ContainsMeans(text, f); }
    if f, a, b :| f in fragments && text == a + f + b { assert Contains(text, f); }
  }

  /** Reading plus as space changes those characters and no others. */
  lemma {:induction false} PlusKeepsPlain(t: string)
    ensures forall i | 0 <= i < |t| :: PlusToSpace(t)[i] == if t[i] == '+' then ' ' else t[i]
    ensures '%' !in t ==> '%' !in PlusToSpace(t)
    decreases |t|
  {
    if t != [] {
      PlusKeepsPlain(t[1..]);
      forall i | 0 < i < |t| ensures PlusToSpace(t)[i] == if t[i] == '+' then ' ' else t[i] {
        assert PlusToSpace(t)[i] == PlusToSpace(t[1..])[i - 1];
      }
    }
  }
}
