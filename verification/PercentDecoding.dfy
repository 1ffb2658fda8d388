/** Canonicalising never changes what a text decodes to, at any depth. */
module PercentDecoding {
  import opened PercentHex

  function HexValue(c: char): (v: nat)
    requires IsHex(c)
    ensures v < 16
  {
    if '0' <= c <= '9' then c as int - '0' as int
    else if 'a' <= c <= 'f' then c as int - 'a' as int + 10
    else c as int - 'A' as int + 10
  }

  function Byte(high: char, low: char): char
    requires IsHex(high) && IsHex(low)
  {
    (16 * HexValue(high) + HexValue(low)) as char
  }

  /** One layer: each `%` with two hex digits becomes the character they number. */
  function Decode(t: string): (r: string)
    ensures |r| <= |t| && (|r| == |t| ==> r == t)
  {
    if t == [] then []
    else if t[0] == '%' && StartsHex(t[1..]) then [Byte(t[1], t[2])] + Decode(t[3..])
    else [t[0]] + Decode(t[1..])
  }

  function DecodeTimes(t: string, n: nat): string
    decreases n
  {
    if n == 0 then t else DecodeTimes(Decode(t), n - 1)
  }

  lemma ByteIgnoresCase(a: char, b: char, c: char, d: char)
    requires IsHex(a) && IsHex(b) && IsHex(c) && IsHex(d) && Upper(a) == Upper(c) && Upper(b) == Upper(d)
    ensures Byte(a, b) == Byte(c, d)
    ensures Byte(a, b) == '%' <==> a == '2' && b == '5'
  {
  }

  lemma PlainHead(t: string)
    requires |t| >= 2 && t[0] != '%'
    ensures Canonical(t, false)[0] == t[0] && Canonical(t, false)[1] == t[1]
  {
    assert Canonical(t, false)[1] == Canonical(t[1..], false)[0];
  }

  /** What a canonical form shows of the two digits an escape may end in. */
  lemma HeadShows(t: string)
    requires t != []
    ensures var r := Canonical(t, true);
            Starts25(t) == Starts25(r) && StartsHex(t) == StartsHex(r)
            && (StartsHex(t) ==> Upper(t[0]) == r[0] && Upper(t[1]) == r[1])
  {
    if StartsHex(t) {
      UpperHex(t[0]);
      UpperHex(t[1]);
    } else {
      StaysPlain(t);
    }
  }

  lemma SameHead(a: string, b: string)
    requires a != [] && Canonical(a, true) == Canonical(b, true)
    ensures b != [] && Starts25(a) == Starts25(b) && StartsHex(a) == StartsHex(b)
    ensures StartsHex(a) ==> Upper(a[0]) == Upper(b[0]) && Upper(a[1]) == Upper(b[1])
    ensures StartsHex(a) ==> Canonical(a[2..], Starts25(a)) == Canonical(b[2..], Starts25(b))
    ensures !StartsHex(a) ==> Canonical(a, false) == Canonical(b, false)
  {
    assert |Canonical(a, true)| == |a|;
    HeadShows(a);
    HeadShows(b);
    if StartsHex(a) {
      assert Canonical(a, true)[2..] == Canonical(a[2..], Starts25(a));
      assert Canonical(b, true)[2..] == Canonical(b[2..], Starts25(b));
    }
  }

  /** Reading a text as the end of an escape only marks more. */
  lemma {:induction false} Coarser(a: string, b: string)
    requires Canonical(a, false) == Canonical(b, false)
    ensures Canonical(a, true) == Canonical(b, true)
    decreases |a|
  {
    assert |a| == |Canonical(a, false)| == |b|;
    if |a| >= 2 && a[0] != '%' {
      PlainHead(a);
      if b[0] != '%' { PlainHead(b); }
      TwoOff(a);
      TwoOff(b);
      if Starts25(a) { Coarser(a[2..], b[2..]); }
    }
  }

  lemma TwoOff(t: string)
    requires |t| >= 2 && t[0] != '%'
    ensures t[1] != '%' ==> Canonical(t, false)[2..] == Canonical(t[2..], false)
  {
    assert t[1..][1..] == t[2..];
    assert Canonical(t, false)[2..] == Canonical(t[1..], false)[1..];
  }

  lemma DecodePlain(t: string)
    requires t != [] && t[0] != '%'
    ensures Decode(t) == [t[0]] + Decode(t[1..])
  {
  }

  lemma DecodeTwo(t: string)
    requires StartsHex(t)
    ensures Decode(t) == t[..2] + Decode(t[2..])
  {
    DecodePlain(t);
    DecodePlain(t[1..]);
    assert t[1..][1..] == t[2..];
  }

  lemma CanonicalCons(c: char, t: string)
    ensures Canonical([c] + t, false) == [c] + Canonical(t, c == '%')
  {
    assert ([c] + t)[1..] == t;
  }

  lemma CanonicalTwo(a: char, b: char, t: string)
    requires IsHex(a) && IsHex(b)
    ensures Canonical([a, b] + t, true) == [Upper(a), Upper(b)] + Canonical(t, a == '2' && b == '5')
  {
    assert ([a, b] + t)[2..] == t;
    assert ([a, b] + t)[..2] == [a, b];
  }

  lemma DecodeAfterEscape(a: string, b: string)
    requires StartsHex(a) && StartsHex(b) && Starts25(a) == Starts25(b)
    requires Upper(a[0]) == Upper(b[0]) && Upper(a[1]) == Upper(b[1])
    requires Canonical(Decode(a[2..]), Starts25(a)) == Canonical(Decode(b[2..]), Starts25(b))
    ensures Canonical(Decode(a), true) == Canonical(Decode(b), true)
    ensures Canonical(Decode(['%'] + a), false) == Canonical(Decode(['%'] + b), false)
  {
    DecodeTwo(a);
    DecodeTwo(b);
    CanonicalTwo(a[0], a[1], Decode(a[2..]));
    CanonicalTwo(b[0], b[1], Decode(b[2..]));
    assert a[..2] == [a[0], a[1]] && b[..2] == [b[0], b[1]];
    ByteIgnoresCase(a[0], a[1], b[0], b[1]);
    EscapeDecodes(a);
    EscapeDecodes(b);
    CanonicalCons(Byte(a[0], a[1]), Decode(a[2..]));
    CanonicalCons(Byte(b[0], b[1]), Decode(b[2..]));
  }

  lemma EscapeDecodes(a: string)
    requires StartsHex(a)
    ensures Decode(['%'] + a) == [Byte(a[0], a[1])] + Decode(a[2..])
  {
    assert (['%'] + a)[1..] == a;
    assert (['%'] + a)[3..] == a[2..];
  }

  lemma LonePercent(a: string)
    requires !StartsHex(a)
    ensures Canonical(Decode(['%'] + a), false) == ['%'] + Canonical(Decode(a), true)
  {
    assert (['%'] + a)[1..] == a;
    CanonicalCons('%', Decode(a));
  }

  /** Texts with one canonical form decode to texts with one canonical form. */
  lemma {:induction false} DecodeAgrees(a: string, b: string, escaping: bool)
    requires Canonical(a, escaping) == Canonical(b, escaping)
    ensures Canonical(Decode(a), escaping) == Canonical(Decode(b), escaping)
    decreases |a|, escaping
  {
    assert |a| == |Canonical(a, escaping)| == |b|;
    if a == [] {
    } else if escaping {
      SameHead(a, b);
      if StartsHex(a) {
        DecodeAgrees(a[2..], b[2..], Starts25(a));
        DecodeAfterEscape(a, b);
      } else {
        DecodeAgrees(a, b, false);
        Coarser(Decode(a), Decode(b));
      }
    } else {
      DecodePlainText(a, b);
    }
  }

  lemma {:induction false} DecodePlainText(a: string, b: string)
    requires a != [] && Canonical(a, false) == Canonical(b, false)
    ensures Canonical(Decode(a), false) == Canonical(Decode(b), false)
    decreases |a|, false, 0
  {
    assert |a| == |Canonical(a, false)| == |b|;
    assert Canonical(a, false)[1..] == Canonical(a[1..], a[0] == '%');
    assert Canonical(b, false)[1..] == Canonical(b[1..], b[0] == '%');
    if a[0] != '%' {
      DecodeAgrees(a[1..], b[1..], false);
      DecodePlain(a);
      DecodePlain(b);
      CanonicalCons(a[0], Decode(a[1..]));
      CanonicalCons(b[0], Decode(b[1..]));
    } else {
      assert a == ['%'] + a[1..] && b == ['%'] + b[1..];
      if a[1..] != [] { SameHead(a[1..], b[1..]); }
      if StartsHex(a[1..]) {
        DecodeAgrees(a[1..][2..], b[1..][2..], Starts25(a[1..]));
        DecodeAfterEscape(a[1..], b[1..]);
      } else {
        DecodeAgrees(a[1..], b[1..], true);
        LonePercent(a[1..]);
        LonePercent(b[1..]);
      }
    }
  }

  /** However often a text is decoded, canonicalising it first makes no difference but
      to the case of the escapes that are left. */
  lemma {:induction false} DecodingSurvives(a: string, b: string, n: nat)
    requires Canon(a) == Canon(b)
    ensures Canon(DecodeTimes(a, n)) == Canon(DecodeTimes(b, n))
    decreases n
  {
    if n > 0 {
      DecodeAgrees(a, b, false);
      DecodingSurvives(Decode(a), Decode(b), n - 1);
    }
  }

  lemma CanonDecodesAlike(t: string, n: nat)
    ensures Canon(DecodeTimes(Canon(t), n)) == Canon(DecodeTimes(t, n))
  {
    CanonIsIdempotent(t);
    DecodingSurvives(Canon(t), t, n);
  }
}
