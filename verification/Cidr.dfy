/** Address blocks: the bit mask behind `--trusted-proxy` and what it means as a range of addresses. */
module Cidr {

  function Pow2(n: nat): (r: nat)
    ensures 0 < r
  {
    if n == 0 then 1 else 2 * Pow2(n - 1)
  }

  /** Bitwise and of two unsigned integers, bit by bit from the low end. */
  function And(x: nat, y: nat): nat
    decreases x
  {
    if x == 0 then 0 else (x % 2) * (y % 2) + 2 * And(x / 2, y / 2)
  }

  /** `MAX << k` in a register of `width` bits: the bits shifted past the top are lost. */
  function ShiftedOnes(width: nat, k: nat): nat {
    ((Pow2(width) - 1) * Pow2(k)) % Pow2(width)
  }

  datatype Ip = V4(bits: nat) | V6(bits: nat) {
    function Width(): nat {
      if V4? then 32 else 128
    }

    ghost predicate Valid() {
      bits < Pow2(Width())
    }

    predicate IsLoopback() {
      if V4? then bits / 0x100_0000 == 127 else bits == 1
    }

    function WithBits(b: nat): Ip {
      if V4? then V4(b) else V6(b)
    }
  }

  /** Zero every bit below the prefix. */
  function Mask(ip: Ip, prefix: nat): Ip
    requires prefix <= ip.Width()
  {
    var m := if prefix == 0 then 0 else ShiftedOnes(ip.Width(), ip.Width() - prefix);
    ip.WithBits(And(ip.bits, m))
  }

  datatype Source = Exact(ip: Ip) | Network(base: Ip, prefix: nat)

  /** A `--trusted-proxy` operand after address and number parsing; `bits` is `None` when unreadable as a `u8`. */
  datatype RawSource = NotAnAddress | Bare(ip: Ip) | Block(ip: Ip, bits: Bits)
  datatype Bits = Unreadable | Readable(value: nat)

  datatype ParsedSource = Parsed(source: Source) | BadSource

  function ParseSource(raw: RawSource): ParsedSource {
    match raw
    case NotAnAddress => BadSource
    case Bare(ip) => Parsed(Exact(ip))
    case Block(ip, Unreadable) => BadSource
    case Block(ip, Readable(prefix)) =>
      if prefix > ip.Width() then BadSource
      else if prefix == 0 then BadSource
      else Parsed(Network(Mask(ip, prefix), prefix))
  }

  predicate Contains(s: Source, ip: Ip)
    requires s.Network? ==> s.prefix <= s.base.Width()
  {
    match s
    case Exact(want) => want == ip
    case Network(base, prefix) => base.V4? == ip.V4? && Mask(ip, prefix) == base
  }

  // ---------------------------------------------------------------------------
  // The mask is a quotient
  // ---------------------------------------------------------------------------

  lemma {:induction false} Pow2Adds(a: nat, b: nat)
    ensures Pow2(a + b) == Pow2(a) * Pow2(b)
  {
    if a != 0 {
      Pow2Adds(a - 1, b);
      assert a + b - 1 == (a - 1) + b;
    }
  }

  lemma {:induction false} AndOnes(x: nat, width: nat)
    requires x < Pow2(width)
    ensures And(x, Pow2(width) - 1) == x
  {
    if x != 0 {
      assert width != 0;
      assert (Pow2(width) - 1) % 2 == 1 && (Pow2(width) - 1) / 2 == Pow2(width - 1) - 1;
      AndOnes(x / 2, width - 1);
    }
  }

  /** `width` ones shifted left by `k` are the `width - k` ones times `2^k`. */
  lemma ShiftedOnesIs(width: nat, k: nat)
    requires k <= width
    ensures ShiftedOnes(width, k) == (Pow2(width - k) - 1) * Pow2(k)
  {
    Pow2Adds(width - k, k);
    TopBits(Pow2(width - k), Pow2(k), Pow2(width));
  }

  lemma TopBits(h: nat, p: nat, w: nat)
    requires 0 < h && 0 < p && w == h * p
    ensures ((w - 1) * p) % w == (h - 1) * p
  {
    assert (h - 1) * p == w - p;
    assert (w - 1) * p == (p - 1) * w + (w - p);
    MulBound(h, p);
    DivModIs((w - 1) * p, w, p - 1, w - p);
  }

  lemma MulBound(k: int, d: int)
    requires 0 < d
    ensures 1 <= k ==> d <= k * d
    ensures k <= -1 ==> k * d <= -d
  {
  }

  lemma DivModIs(x: nat, d: nat, q: nat, r: nat)
    requires x == q * d + r && r < d
    ensures x / d == q && x % d == r
  {
    var k := q - x / d;
    assert k * d == x % d - r by {
      assert x == x / d * d + x % d;
      assert k * d == q * d - x / d * d;
    }
    MulBound(k, d);
  }

  /** Clearing the low `k` bits of `x` leaves the multiple of `2^k` at or below it. */
  lemma {:induction false} AndClearsLowBits(x: nat, width: nat, k: nat)
    requires k <= width && x < Pow2(width)
    ensures And(x, (Pow2(width - k) - 1) * Pow2(k)) == x / Pow2(k) * Pow2(k)
    decreases k
  {
    if k == 0 {
      AndOnes(x, width);
      Ones(width);
    } else {
      var p := Pow2(k - 1);
      AndClearsLowBits(x / 2, width - 1, k - 1);
      assert width - 1 - (k - 1) == width - k;
      DoubledMask(x, Pow2(width - k) - 1, p);
      DivTwice(x, p);
      Doubled(x / 2 / p, p);
    }
  }

  lemma Ones(width: nat)
    ensures Pow2(0) == 1 && (Pow2(width) - 1) * Pow2(0) == Pow2(width) - 1
  {
  }

  lemma Doubled(q: nat, p: nat)
    ensures 2 * (q * p) == q * (2 * p)
  {
  }

  lemma DoubledMask(x: nat, ones: nat, p: nat)
    ensures And(x, ones * (2 * p)) == 2 * And(x / 2, ones * p)
  {
    var half := ones * p;
    assert ones * (2 * p) == 2 * half;
    assert (2 * half) % 2 == 0 && (2 * half) / 2 == half;
  }

  lemma DivTwice(x: nat, p: nat)
    requires 0 < p
    ensures x / 2 / p == x / (2 * p)
  {
    var a, b := x / 2, x % 2;
    var q, r := a / p, a % p;
    assert a == q * p + r;
    assert x == q * (2 * p) + (2 * r + b);
    DivModIs(x, 2 * p, q, 2 * r + b);
  }

  lemma MaskIsQuotient(ip: Ip, prefix: nat)
    requires ip.Valid() && prefix <= ip.Width()
    ensures Mask(ip, prefix).V4? == ip.V4?
    ensures Mask(ip, prefix).bits == ip.bits / Pow2(ip.Width() - prefix) * Pow2(ip.Width() - prefix)
  {
    var w := ip.Width();
    if prefix == 0 {
      AndZero(ip.bits);
      DivModIs(ip.bits, Pow2(w), 0, ip.bits);
    } else {
      ShiftedOnesIs(w, w - prefix);
      AndClearsLowBits(ip.bits, w, w - prefix);
    }
  }

  lemma {:induction false} AndZero(x: nat)
    ensures And(x, 0) == 0
  {
    if x != 0 { AndZero(x / 2); }
  }

  /** What two addresses of one family share under a mask. */
  lemma MasksAgree(x: nat, y: nat, size: nat)
    requires 0 < size
    ensures x / size * size == y / size * size <==> x / size == y / size
    ensures x / size == y / size <==> y / size * size <= x < y / size * size + size
  {
    var p, q := x / size, y / size;
    assert x == p * size + x % size;
    MulBound(p - q, size);
    assert (p - q) * size == p * size - q * size;
    if q * size <= x < q * size + size { DivModIs(x, size, q, x - q * size); }
  }

  /** Membership is equality of quotients, and the members are one interval of size `2^(width - prefix)`. */
  lemma ContainsIsQuotient(net: Ip, prefix: nat, ip: Ip)
    requires net.Valid() && ip.Valid() && 1 <= prefix <= net.Width()
    ensures var size := Pow2(net.Width() - prefix);
            var s := Network(Mask(net, prefix), prefix);
            && ParseSource(Block(net, Readable(prefix))) == Parsed(s)
            && s.base.Width() == net.Width()
            && (Contains(s, ip) <==> net.V4? == ip.V4? && ip.bits / size == net.bits / size)
            && (Contains(s, ip) <==> net.V4? == ip.V4? && s.base.bits <= ip.bits < s.base.bits + size)
  {
    MaskIsQuotient(net, prefix);
    if net.V4? == ip.V4? {
      MaskIsQuotient(ip, prefix);
      MasksAgree(ip.bits, net.bits, Pow2(net.Width() - prefix));
    }
  }

  lemma MaskIsIdempotent(ip: Ip, prefix: nat)
    requires ip.Valid() && prefix <= ip.Width()
    ensures Mask(ip, prefix).Valid()
    ensures Mask(Mask(ip, prefix), prefix) == Mask(ip, prefix)
  {
    var size := Pow2(ip.Width() - prefix);
    MaskIsQuotient(ip, prefix);
    FloorIsFixed(ip.bits, size);
    MaskIsQuotient(Mask(ip, prefix), prefix);
  }

  lemma FloorIsFixed(x: nat, d: nat)
    requires 0 < d
    ensures 0 <= x / d * d <= x
    ensures x / d * d / d == x / d
  {
    assert x == x / d * d + x % d;
    DivModIs(x / d * d, d, x / d, 0);
  }

  /** Any two blocks of one family are nested or disjoint: the one with the longer prefix decides. */
  lemma BlocksNestOrMiss(a: Ip, pa: nat, b: Ip, pb: nat)
    requires a.Valid() && b.Valid() && a.V4? == b.V4? && 1 <= pa <= pb <= a.Width()
    ensures var wide, narrow := Network(Mask(a, pa), pa), Network(Mask(b, pb), pb);
            && (Contains(wide, b) ==> forall ip: Ip :: ip.Valid() && Contains(narrow, ip) ==> Contains(wide, ip))
            && (!Contains(wide, b) ==> forall ip: Ip :: ip.Valid() ==> !(Contains(narrow, ip) && Contains(wide, ip)))
  {
    var w := a.Width();
    ContainsIsQuotient(a, pa, b);
    forall ip: Ip | ip.Valid() && Contains(Network(Mask(b, pb), pb), ip)
      ensures Contains(Network(Mask(a, pa), pa), ip) <==> Contains(Network(Mask(a, pa), pa), b)
    {
      ContainsIsQuotient(a, pa, ip);
      ContainsIsQuotient(b, pb, ip);
      CoarserBlock(ip.bits, b.bits, w, pa, pb);
    }
  }

  lemma CoarserBlock(x: nat, y: nat, w: nat, pa: nat, pb: nat)
    requires pa <= pb <= w && x / Pow2(w - pb) == y / Pow2(w - pb)
    ensures x / Pow2(w - pa) == y / Pow2(w - pa)
  {
    Pow2Adds(pb - pa, w - pb);
    assert pb - pa + (w - pb) == w - pa;
    CoarserQuotient(x, y, Pow2(w - pb), Pow2(pb - pa));
  }

  lemma CoarserQuotient(x: nat, y: nat, d: nat, e: nat)
    requires 0 < d && 0 < e && x / d == y / d
    ensures 0 < e * d && x / (e * d) == y / (e * d)
  {
    DivDiv(x, d, e);
    DivDiv(y, d, e);
  }

  lemma DivDiv(x: nat, d: nat, e: nat)
    requires 0 < d && 0 < e
    ensures 0 < e * d && x / (e * d) == x / d / e
  {
    MulBound(e, d);
    DivisionParts(x, d);
    DivisionParts(x / d, e);
    TwoDivisions(x, d, e, x / d, x % d, x / d / e, (x / d) % e);
  }

  lemma DivisionParts(x: nat, d: nat)
    requires 0 < d
    ensures x == x / d * d + x % d && 0 <= x % d < d && 0 <= x / d
  {
  }

  lemma TwoDivisions(x: nat, d: nat, e: nat, a: nat, low: nat, q: nat, r: nat)
    requires 0 < d && 0 < e && 0 < e * d
    requires x == a * d + low && low < d && a == q * e + r && r < e
    ensures x / (e * d) == q
  {
    Regroup(low, d, e, q, r);
    DivModIs(x, e * d, q, r * d + low);
  }

  lemma Regroup(low: nat, d: nat, e: nat, q: nat, r: nat)
    requires low < d && r < e
    ensures (q * e + r) * d + low == q * (e * d) + (r * d + low)
    ensures 0 <= r * d + low < e * d
  {
    MulBound(e - r, d);
    assert (e - r) * d == e * d - r * d;
    assert (q * e + r) * d == q * e * d + r * d;
    assert q * e * d == q * (e * d);
  }
}
