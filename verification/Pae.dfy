/** The DSSE v1 pre-authentication encoding, and why what is signed determines what was meant. */
module Pae {
  import opened Bytes

  const SP: byte := 0x20

  /** A Unicode scalar value: what the elements of an encodable text are. */
  type Scalar = n: nat | n < 0x11_0000 && !(0xd800 <= n < 0xe000)

  // ---------------------------------------------------------------------------
  // Decimal lengths
  // ---------------------------------------------------------------------------

  function Decimal(n: nat): (d: seq<byte>)
    ensures d != []
  {
    if n < 10 then [(0x30 + n) as byte] else Decimal(n / 10) + [(0x30 + n % 10) as byte]
  }

  lemma {:induction false} DecimalHasNoSpace(n: nat)
    ensures SP !in Decimal(n)
  {
    if n >= 10 { DecimalHasNoSpace(n / 10); }
  }

  lemma {:induction false} DecimalIsInjective(m: nat, n: nat)
    requires Decimal(m) == Decimal(n)
    ensures m == n
  {
    var a, b := Decimal(m), Decimal(n);
    assert a[|a| - 1] == (0x30 + m % 10) as byte && b[|b| - 1] == (0x30 + n % 10) as byte;
    assert (m >= 10 <==> |a| > 1) && (n >= 10 <==> |b| > 1);
    if m >= 10 && n >= 10 {
      assert a[..|a| - 1] == Decimal(m / 10) && b[..|b| - 1] == Decimal(n / 10);
      DecimalIsInjective(m / 10, n / 10);
    }
  }

  /** The number that ASCII digits spell, most significant first. */
  function Reading(d: seq<byte>): int {
    if d == [] then 0 else 10 * Reading(d[..|d| - 1]) + (d[|d| - 1] as int - '0' as int)
  }

  predicate Digits(d: seq<byte>) {
    forall i :: 0 <= i < |d| ==> '0' as int <= d[i] as int <= '9' as int
  }

  /** `d` is the usual spelling of `n`: digits only, no leading zero, reading as `n`. */
  ghost predicate Spells(d: seq<byte>, n: nat) {
    && d != []
    && Digits(d)
    && (d[0] as int == '0' as int ==> |d| == 1)
    && Reading(d) == n
  }

  lemma {:induction false} DecimalSpells(n: nat)
    ensures Spells(Decimal(n), n) && (n > 0 ==> Decimal(n)[0] as int != '0' as int)
  {
    var d := Decimal(n);
    if n >= 10 {
      DecimalSpells(n / 10);
      assert d[..|d| - 1] == Decimal(n / 10) && d[0] == Decimal(n / 10)[0];
    } else {
      assert d[..0] == [];
    }
  }

  lemma {:induction false} ReadingIsPositive(d: seq<byte>)
    requires d != [] && Digits(d) && d[0] as int != '0' as int
    ensures Reading(d) >= 1 && (|d| > 1 ==> Reading(d) >= 10)
    decreases |d|
  {
    assert '0' as int <= d[|d| - 1] as int;
    if |d| > 1 {
      ReadingIsPositive(d[..|d| - 1]);
    } else {
      assert d[..0] == [];
    }
  }

  /** There is one such spelling. */
  lemma {:induction false} SpellingIsUnique(d: seq<byte>, n: nat)
    requires Spells(d, n)
    ensures d == Decimal(n)
    decreases |d|
  {
    var front, last := d[..|d| - 1], d[|d| - 1] as int - '0' as int;
    assert d[|d| - 1] in d && d == front + [d[|d| - 1]];
    if |d| > 1 {
      ReadingIsPositive(front);
      assert n == 10 * Reading(front) + last && n / 10 == Reading(front) && n % 10 == last;
      SpellingIsUnique(front, n / 10);
    }
  }

  /** A space-free word ends at the first space, so it and what follows can be told apart. */
  lemma {:induction false} WordIsReadBack(a: seq<byte>, x: seq<byte>, b: seq<byte>, y: seq<byte>)
    requires SP !in a && SP !in b && a + [SP] + x == b + [SP] + y
    ensures a == b && x == y
    decreases |a|
  {
    var s, t := a + [SP] + x, b + [SP] + y;
    assert s[0] == (if a == [] then SP else a[0]) && t[0] == (if b == [] then SP else b[0]);
    assert (a != [] ==> a[0] in a) && (b != [] ==> b[0] in b);
    if a == [] {
      assert s[1..] == x && t[1..] == y;
    } else {
      assert s[1..] == a[1..] + [SP] + x && t[1..] == b[1..] + [SP] + y;
      WordIsReadBack(a[1..], x, b[1..], y);
      assert a == [a[0]] + a[1..] && b == [b[0]] + b[1..];
    }
  }

  // ---------------------------------------------------------------------------
  // UTF-8
  // ---------------------------------------------------------------------------

  function EncodeScalar(c: Scalar): (b: seq<byte>)
    ensures 1 <= |b| <= 4
    ensures |b| == 1 <==> c < 0x80
  {
    if c < 0x80 then [c as byte]
    else if c < 0x800 then [(0xc0 + c / 0x40) as byte, (0x80 + c % 0x40) as byte]
    else if c < 0x1_0000 then
      [(0xe0 + c / 0x1000) as byte, (0x80 + c / 0x40 % 0x40) as byte, (0x80 + c % 0x40) as byte]
    else
      [(0xf0 + c / 0x4_0000) as byte, (0x80 + c / 0x1000 % 0x40) as byte,
       (0x80 + c / 0x40 % 0x40) as byte, (0x80 + c % 0x40) as byte]
  }

  function Encode(text: seq<Scalar>): seq<byte> {
    if text == [] then [] else EncodeScalar(text[0]) + Encode(text[1..])
  }

  /** The lead byte says how many bytes the scalar takes, and together they say which it is. */
  lemma ScalarIsReadBack(c: Scalar, x: seq<byte>, d: Scalar, y: seq<byte>)
    requires EncodeScalar(c) + x == EncodeScalar(d) + y
    ensures c == d && x == y
  {
    var s, a, b := EncodeScalar(c) + x, EncodeScalar(c), EncodeScalar(d);
    assert s[0] == a[0] && s[0] == b[0];
    assert |a| == |b|;
    assert a == s[..|a|] && b == (EncodeScalar(d) + y)[..|b|];
    SameBytesSameScalar(c, d);
    assert x == s[|a|..] && y == (EncodeScalar(d) + y)[|b|..];
  }

  /** What the bytes of one scalar spell. */
  function Rebuilt(b: seq<byte>): int
    requires 1 <= |b| <= 4
  {
    if |b| == 1 then b[0] as int
    else if |b| == 2 then (b[0] as int - 0xc0) * 0x40 + (b[1] as int - 0x80)
    else if |b| == 3 then (b[0] as int - 0xe0) * 0x1000 + (b[1] as int - 0x80) * 0x40 + (b[2] as int - 0x80)
    else
      (b[0] as int - 0xf0) * 0x4_0000 + (b[1] as int - 0x80) * 0x1000
      + (b[2] as int - 0x80) * 0x40 + (b[3] as int - 0x80)
  }

  lemma SixBits(c: nat)
    ensures c == c / 0x40 * 0x40 + c % 0x40
    ensures c / 0x40 == c / 0x1000 * 0x40 + c / 0x40 % 0x40
    ensures c / 0x1000 == c / 0x4_0000 * 0x40 + c / 0x1000 % 0x40
  {
  }

  lemma ScalarIsRebuilt(c: Scalar)
    ensures Rebuilt(EncodeScalar(c)) == c
  {
    SixBits(c);
  }

  /** As UTF-8 has it: the shortest form, with every byte after the first a continuation byte. */
  lemma ScalarIsShortest(c: Scalar)
    ensures |EncodeScalar(c)| == if c < 0x80 then 1 else if c < 0x800 then 2 else if c < 0x1_0000 then 3 else 4
    ensures forall i :: 1 <= i < |EncodeScalar(c)| ==> 0x80 <= EncodeScalar(c)[i] < 0xc0
  {
  }

  lemma SameBytesSameScalar(c: Scalar, d: Scalar)
    requires EncodeScalar(c) == EncodeScalar(d)
    ensures c == d
  {
    ScalarIsRebuilt(c);
    ScalarIsRebuilt(d);
  }

  /** Texts of one length are told apart by their encodings, whatever follows. */
  lemma {:induction false} TextIsReadBack(t: seq<Scalar>, x: seq<byte>, u: seq<Scalar>, y: seq<byte>)
    requires |t| == |u| && Encode(t) + x == Encode(u) + y
    ensures t == u && x == y
    decreases |t|
  {
    if t == [] {
      assert Encode(t) + x == x && Encode(u) + y == y;
    } else {
      var tx, uy := Encode(t[1..]) + x, Encode(u[1..]) + y;
      assert Encode(t) + x == EncodeScalar(t[0]) + tx;
      assert Encode(u) + y == EncodeScalar(u[0]) + uy;
      ScalarIsReadBack(t[0], tx, u[0], uy);
      TextIsReadBack(t[1..], x, u[1..], y);
      assert t == [t[0]] + t[1..] && u == [u[0]] + u[1..];
    }
  }

  predicate Ascii(text: seq<Scalar>) {
    forall c <- text :: c < 0x80
  }

  lemma {:induction false} AsciiIsOneByteEach(text: seq<Scalar>)
    ensures |text| <= |Encode(text)|
    ensures |Encode(text)| == |text| <==> Ascii(text)
    decreases |text|
  {
    if text != [] {
      AsciiIsOneByteEach(text[1..]);
      var rest := text[1..];
      assert Ascii(text) <==> text[0] < 0x80 && Ascii(rest) by {
        assert text[0] in text;
        assert forall i :: 0 <= i < |rest| ==> rest[i] == text[i + 1] && rest[i] in rest && text[i + 1] in text;
        assert forall i :: 1 <= i < |text| ==> text[i] == rest[i - 1];
      }
    }
  }

  // ---------------------------------------------------------------------------
  // The encoding
  // ---------------------------------------------------------------------------

  const PREFIX: seq<byte> := [0x44, 0x53, 0x53, 0x45, 0x76, 0x31]

  /** The script's encoding: the type's length is its length as a text, not as bytes. */
  function Pae(ptype: seq<Scalar>, body: seq<byte>): seq<byte> {
    PREFIX + [SP] + Decimal(|ptype|) + [SP] + Encode(ptype) + [SP] + Decimal(|body|) + [SP] + body
  }

  /** ASCII text as bytes. */
  ghost predicate Writes(b: seq<byte>, text: string) {
    |b| == |text| && forall i :: 0 <= i < |b| ==> b[i] as int == text[i] as int
  }

  /** The encoding as DSSE v1 defines it: "DSSEv1", then both parts after their lengths in bytes, all a space apart. */
  ghost predicate IsDsse(e: seq<byte>, ptype: seq<byte>, body: seq<byte>) {
    exists v, sp, m, n ::
      && Writes(v, "DSSEv1") && Writes(sp, " ") && Spells(m, |ptype|) && Spells(n, |body|)
      && e == v + sp + m + sp + ptype + sp + n + sp + body
  }

  /** The same as a function. */
  function Dsse(ptype: seq<byte>, body: seq<byte>): seq<byte> {
    PREFIX + [SP] + Decimal(|ptype|) + [SP] + ptype + [SP] + Decimal(|body|) + [SP] + body
  }

  lemma DsseIsTheFormat(e: seq<byte>, ptype: seq<byte>, body: seq<byte>)
    ensures IsDsse(e, ptype, body) <==> e == Dsse(ptype, body)
  {
    if v, sp, m, n :|
      && Writes(v, "DSSEv1") && Writes(sp, " ") && Spells(m, |ptype|) && Spells(n, |body|)
      && e == v + sp + m + sp + ptype + sp + n + sp + body
    {
      SpellingIsUnique(m, |ptype|);
      SpellingIsUnique(n, |body|);
      assert v == PREFIX && sp == [SP];
    }
    if e == Dsse(ptype, body) {
      DecimalSpells(|ptype|);
      DecimalSpells(|body|);
      assert Writes(PREFIX, "DSSEv1") && Writes([SP], " ");
    }
  }

  function Tail(body: seq<byte>): seq<byte> {
    [SP] + Decimal(|body|) + [SP] + body
  }

  lemma Associates(a: seq<byte>, b: seq<byte>, c: seq<byte>)
    ensures a + b + c == a + (b + c)
  {
  }

  lemma Regrouped(n: nat, typed: seq<byte>, body: seq<byte>)
    ensures PREFIX + [SP] + Decimal(n) + [SP] + typed + [SP] + Decimal(|body|) + [SP] + body
            == (PREFIX + [SP]) + (Decimal(n) + [SP] + (typed + Tail(body)))
  {
    FourParts(PREFIX + [SP], Decimal(n), typed, Decimal(|body|), body);
  }

  lemma FourParts(head: seq<byte>, first: seq<byte>, typed: seq<byte>, second: seq<byte>, body: seq<byte>)
    ensures head + first + [SP] + typed + [SP] + second + [SP] + body
            == head + (first + [SP] + (typed + ([SP] + second + [SP] + body)))
  {
    var front := head + first + [SP] + typed;
    Associates(front, [SP], second);
    Associates(front, [SP] + second, [SP]);
    Associates(front, [SP] + second + [SP], body);
    var back := [SP] + second + [SP] + body;
    Associates(head, first, [SP]);
    Associates(head + (first + [SP]), typed, back);
    Associates(head, first + [SP], typed + back);
  }

  lemma TailIsReadBack(a: seq<byte>, b: seq<byte>)
    requires Tail(a) == Tail(b)
    ensures a == b
  {
    DecimalHasNoSpace(|a|);
    DecimalHasNoSpace(|b|);
    assert Tail(a)[1..] == Decimal(|a|) + [SP] + a && Tail(b)[1..] == Decimal(|b|) + [SP] + b;
    WordIsReadBack(Decimal(|a|), a, Decimal(|b|), b);
  }

  lemma LengthIsReadBack(m: nat, x: seq<byte>, n: nat, y: seq<byte>)
    requires (PREFIX + [SP]) + (Decimal(m) + [SP] + x) == (PREFIX + [SP]) + (Decimal(n) + [SP] + y)
    ensures m == n && x == y
  {
    var s, t := (PREFIX + [SP]) + (Decimal(m) + [SP] + x), (PREFIX + [SP]) + (Decimal(n) + [SP] + y);
    assert s[7..] == Decimal(m) + [SP] + x && t[7..] == Decimal(n) + [SP] + y;
    DecimalHasNoSpace(m);
    DecimalHasNoSpace(n);
    WordIsReadBack(Decimal(m), x, Decimal(n), y);
    DecimalIsInjective(m, n);
  }

  /** Equal encodings come from equal payload types and equal bodies, ASCII or not. */
  lemma PaeIsInjective(t: seq<Scalar>, a: seq<byte>, u: seq<Scalar>, b: seq<byte>)
    requires Pae(t, a) == Pae(u, b)
    ensures t == u && a == b
  {
    Regrouped(|t|, Encode(t), a);
    Regrouped(|u|, Encode(u), b);
    LengthIsReadBack(|t|, Encode(t) + Tail(a), |u|, Encode(u) + Tail(b));
    TextIsReadBack(t, Tail(a), u, Tail(b));
    TailIsReadBack(a, b);
  }

  /** The script agrees with DSSE exactly on ASCII payload types. */
  lemma AgreesWithDsseOnAscii(t: seq<Scalar>, body: seq<byte>)
    ensures IsDsse(Pae(t, body), Encode(t), body) <==> Ascii(t)
  {
    DsseIsTheFormat(Pae(t, body), Encode(t), body);
    AsciiIsOneByteEach(t);
    Regrouped(|t|, Encode(t), body);
    Regrouped(|Encode(t)|, Encode(t), body);
    if Pae(t, body) == Dsse(Encode(t), body) {
      LengthIsReadBack(|t|, Encode(t) + Tail(body), |Encode(t)|, Encode(t) + Tail(body));
    }
  }
}
