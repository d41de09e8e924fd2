/** ECDSA signatures from a key service: DER `SEQUENCE { INTEGER r, INTEGER s }` to fixed-width `r || s`. */
module Der {
  import opened Bytes
  import opened Wrappers

  datatype Fault = NotASequence | OutOfRange | NotAnInteger | TooWide

  // ---------------------------------------------------------------------------
  // The conversion
  // ---------------------------------------------------------------------------

  /** A slice as the source takes it: clipped at the end of the input. */
  function Slice(b: seq<byte>, from: nat, len: nat): seq<byte> {
    if from >= |b| then [] else if from + len <= |b| then b[from..from + len] else b[from..]
  }

  function StripZeros(b: seq<byte>): seq<byte> {
    if b != [] && b[0] == 0 then StripZeros(b[1..]) else b
  }

  function PadLeft(b: seq<byte>, width: nat): seq<byte> {
    if |b| >= width then b else seq(width - |b|, _ => 0 as byte) + b
  }

  datatype Read = Read(value: seq<byte>, next: nat)

  /** One INTEGER at `pos`, as `coordLen` bytes, and where it ends. */
  function ReadInt(der: seq<byte>, coordLen: nat, pos: nat): Result<Read, Fault> {
    if pos >= |der| then Err(OutOfRange)
    else if der[pos] != 0x02 then Err(NotAnInteger)
    else if pos + 1 >= |der| then Err(OutOfRange)
    else
      var length := der[pos + 1] as nat;
      var value := StripZeros(Slice(der, pos + 2, length));
      if |value| > coordLen then Err(TooWide) else Ok(Read(PadLeft(value, coordLen), pos + 2 + length))
  }

  /** Where the contents start: past the tag and a short or long length. */
  function ContentsAt(der: seq<byte>): Result<nat, Fault> {
    if der == [] || der[0] != 0x30 then Err(NotASequence)
    else if |der| < 2 then Err(OutOfRange)
    else if der[1] >= 0x80 then Ok(2 + (der[1] as nat - 0x80))
    else Ok(2)
  }

  function Unwrapped(der: seq<byte>, coordLen: nat): Result<seq<byte>, Fault> {
    match ContentsAt(der)
    case Err(e) => Err(e)
    case Ok(i) =>
      match ReadInt(der, coordLen, i)
      case Err(e) => Err(e)
      case Ok(r) =>
        match ReadInt(der, coordLen, r.next)
        case Err(e) => Err(e)
        case Ok(s) => Ok(r.value + s.value)
  }

  /** `raw` is the numbers of two consecutive contents fields of `der`, in order, big-endian at fixed width. */
  ghost predicate BothNumbers(der: seq<byte>, coordLen: nat, raw: seq<byte>) {
    && |raw| == 2 * coordLen
    && exists i: nat, j: nat ::
         && ContentsAt(der) == Ok(i) && i + 1 < |der| && j == i + 2 + der[i + 1] as nat && j + 1 < |der|
         && raw == Fixed(Value(Contents(der, i)), coordLen) + Fixed(Value(Contents(der, j)), coordLen)
  }

  method DerToRaw(der: seq<byte>, coordLen: nat) returns (raw: Result<seq<byte>, Fault>)
    ensures raw == Unwrapped(der, coordLen)
    ensures raw.Ok? ==> BothNumbers(der, coordLen, raw.value)
  {
    if |der| == 0 || der[0] != 0x30 { return Err(NotASequence); }
    var i := 1;
    if i >= |der| { return Err(OutOfRange); }
    if der[i] >= 0x80 {
      i := i + 1 + (der[i] as nat - 0x80);
    } else {
      i := i + 1;
    }
    var first := ReadInt(der, coordLen, i);
    if first.Err? { return Err(first.error); }
    var pos := first.value.next;
    var second := ReadInt(der, coordLen, pos);
    if second.Err? { return Err(second.error); }
    raw := Ok(first.value.value + second.value.value);
    AcceptedKeepsBothNumbers(der, coordLen);
  }

  // ---------------------------------------------------------------------------
  // Numbers as bytes
  // ---------------------------------------------------------------------------

  /** The number big-endian bytes spell. */
  function Value(b: seq<byte>): nat {
    if b == [] then 0 else 256 * Value(b[..|b| - 1]) + b[|b| - 1] as nat
  }

  function Pow256(n: nat): nat {
    if n == 0 then 1 else 256 * Pow256(n - 1)
  }

  /** Big-endian bytes at a fixed width. */
  function Fixed(n: nat, width: nat): (b: seq<byte>)
    ensures |b| == width
    decreases width
  {
    if width == 0 then [] else Fixed(n / 256, width - 1) + [(n % 256) as byte]
  }

  /** Without leading zeros; zero is empty. */
  function Minimal(n: nat): (b: seq<byte>)
    ensures b != [] ==> b[0] != 0
    ensures n == 0 <==> b == []
  {
    if n == 0 then [] else Minimal(n / 256) + [(n % 256) as byte]
  }

  lemma {:induction false} ValueOfFixed(n: nat, width: nat)
    requires n < Pow256(width)
    ensures Value(Fixed(n, width)) == n
    decreases width
  {
    if width != 0 {
      ValueOfFixed(n / 256, width - 1);
      var b := Fixed(n, width);
      assert b[..|b| - 1] == Fixed(n / 256, width - 1);
    }
  }

  lemma {:induction false} ValueOfMinimal(n: nat)
    ensures Value(Minimal(n)) == n
  {
    if n != 0 {
      ValueOfMinimal(n / 256);
      var b := Minimal(n);
      assert b[..|b| - 1] == Minimal(n / 256);
    }
  }

  /** A number has one spelling at each width. */
  lemma {:induction false} FixedIsTheSpelling(b: seq<byte>)
    ensures Fixed(Value(b), |b|) == b
    decreases |b|
  {
    if b != [] {
      FixedIsTheSpelling(b[..|b| - 1]);
      assert b == b[..|b| - 1] + [b[|b| - 1]];
    }
  }

  lemma {:induction false} ZeroInFront(b: seq<byte>)
    ensures Value([0] + b) == Value(b)
    decreases |b|
  {
    if b == [] {
      assert ([0] + b)[..0] == [];
    } else {
      ZeroInFront(b[..|b| - 1]);
      assert ([0] + b)[..|b|] == [0] + b[..|b| - 1];
    }
  }

  lemma {:induction false} StripKeepsValue(b: seq<byte>)
    ensures Value(StripZeros(b)) == Value(b)
    decreases |b|
  {
    if b != [] && b[0] == 0 {
      StripKeepsValue(b[1..]);
      ZeroInFront(b[1..]);
      assert b == [0] + b[1..];
    }
  }

  lemma {:induction false} ZerosInFront(n: nat, b: seq<byte>)
    ensures Value(seq(n, _ => 0 as byte) + b) == Value(b)
    decreases n
  {
    if n == 0 {
      assert seq(0, _ => 0 as byte) + b == b;
    } else {
      ZerosInFront(n - 1, b);
      ZeroInFront(seq(n - 1, _ => 0 as byte) + b);
      assert seq(n, _ => 0 as byte) + b == [0] + (seq(n - 1, _ => 0 as byte) + b);
    }
  }

  lemma PadKeepsValue(b: seq<byte>, width: nat)
    requires |b| <= width
    ensures |PadLeft(b, width)| == width && Value(PadLeft(b, width)) == Value(b)
  {
    ZerosInFront(width - |b|, b);
  }

  // ---------------------------------------------------------------------------
  // What every accepted input means
  // ---------------------------------------------------------------------------

  /** The contents octets of the INTEGER at `pos`, as far as the input goes. */
  function Contents(der: seq<byte>, pos: nat): seq<byte>
    requires pos + 1 < |der|
  {
    var end := pos + 2 + der[pos + 1] as nat;
    der[pos + 2..if end <= |der| then end else |der|]
  }

  lemma ContentsAreTheSlice(der: seq<byte>, pos: nat)
    requires pos + 1 < |der|
    ensures Slice(der, pos + 2, der[pos + 1] as nat) == Contents(der, pos)
  {
  }

  lemma ReadIntMeans(der: seq<byte>, coordLen: nat, pos: nat)
    ensures var r := ReadInt(der, coordLen, pos);
            r.Ok? <==> pos + 1 < |der| && der[pos] == 0x02 && |StripZeros(Contents(der, pos))| <= coordLen
    ensures var r := ReadInt(der, coordLen, pos);
            r.Ok? ==>
              && |r.value.value| == coordLen
              && Value(r.value.value) == Value(Contents(der, pos))
              && r.value.next == pos + 2 + der[pos + 1] as nat
    ensures var r := ReadInt(der, coordLen, pos);
            r.Err? ==>
              && (r.error == OutOfRange <==> pos >= |der| || (der[pos] == 0x02 && pos + 1 >= |der|))
              && (r.error == NotAnInteger <==> pos < |der| && der[pos] != 0x02)
              && (r.error == TooWide <==> pos + 1 < |der| && der[pos] == 0x02)
  {
    if pos + 1 < |der| && der[pos] == 0x02 {
      ContentsAreTheSlice(der, pos);
      var value := StripZeros(Contents(der, pos));
      StripKeepsValue(Contents(der, pos));
      if |value| <= coordLen { PadKeepsValue(value, coordLen); }
    }
  }

  /**
   * Whatever is accepted, canonical or not, comes out as two coordinates of exactly `coordLen` bytes
   * whose numbers are those of the two contents fields.
   */
  lemma AcceptedKeepsBothNumbers(der: seq<byte>, coordLen: nat)
    requires Unwrapped(der, coordLen).Ok?
    ensures BothNumbers(der, coordLen, Unwrapped(der, coordLen).value)
  {
    var i := ContentsAt(der).value;
    var r := ReadInt(der, coordLen, i);
    var j := r.value.next;
    var s := ReadInt(der, coordLen, j);
    ReadIntMeans(der, coordLen, i);
    ReadIntMeans(der, coordLen, j);
    FixedIsTheSpelling(r.value.value);
    FixedIsTheSpelling(s.value.value);
  }

  // ---------------------------------------------------------------------------
  // Round trip
  // ---------------------------------------------------------------------------

  /** Contents octets of a non-negative INTEGER: shortest, with a zero in front of a set top bit. */
  function IntContents(n: nat): seq<byte> {
    if n == 0 then [0] else if Minimal(n)[0] >= 0x80 then [0] + Minimal(n) else Minimal(n)
  }

  function EncodeInt(n: nat): seq<byte>
    requires |IntContents(n)| < 0x80
  {
    Tagged(IntContents(n))
  }

  datatype Header = Short(length: byte) | Long(octets: seq<byte>)

  ghost predicate ValidHeader(h: Header) {
    match h
    case Short(length) => length < 0x80
    case Long(octets) => 1 <= |octets| < 0x7f
  }

  /** A SEQUENCE header, in either length form. */
  function EncodeHeader(h: Header): seq<byte>
    requires ValidHeader(h)
  {
    match h
    case Short(length) => [0x30, length]
    case Long(octets) => [0x30, (0x80 + |octets|) as byte] + octets
  }

  lemma {:induction false} MinimalFits(n: nat, width: nat)
    requires n < Pow256(width)
    ensures |Minimal(n)| <= width
    decreases n
  {
    if n != 0 {
      assert width != 0 && n / 256 < Pow256(width - 1);
      MinimalFits(n / 256, width - 1);
    }
  }

  lemma StripOfContents(n: nat)
    ensures StripZeros(IntContents(n)) == Minimal(n)
  {
    if n == 0 {
      assert StripZeros([0]) == StripZeros([0][1..]);
    } else {
      assert ([0] + Minimal(n))[1..] == Minimal(n);
      assert StripZeros(Minimal(n)) == Minimal(n);
    }
  }

  /** The encoding is the one X.690 section 8.3 asks for: shortest, and read as two's complement it is not negative. */
  lemma ContentsAreMinimal(n: nat)
    ensures var b := IntContents(n);
            && b != [] && b[0] < 0x80 && Value(b) == n
            && (|b| > 1 ==> !(b[0] == 0 && b[1] < 0x80))
  {
    ValueOfMinimal(n);
    if n == 0 {
      assert [0 as byte][..0] == [];
    } else {
      ZeroInFront(Minimal(n));
    }
  }

  function Tagged(contents: seq<byte>): seq<byte>
    requires |contents| < 0x80
  {
    [0x02, |contents| as byte] + contents
  }

  lemma ContentsAtPos(der: seq<byte>, before: seq<byte>, contents: seq<byte>, after: seq<byte>)
    requires |contents| < 0x80 && der == before + Tagged(contents) + after
    ensures |before| + 1 < |der| && der[|before|] == 0x02
    ensures der[|before| + 1] as nat == |contents| && Contents(der, |before|) == contents
  {
  }

  /** An INTEGER anywhere in the input is read as the number its contents spell. */
  lemma Spells(der: seq<byte>, before: seq<byte>, contents: seq<byte>, after: seq<byte>, coordLen: nat)
    requires |contents| < 0x80 && |StripZeros(contents)| <= coordLen && der == before + Tagged(contents) + after
    ensures ReadInt(der, coordLen, |before|)
            == Ok(Read(Fixed(Value(contents), coordLen), |before| + |Tagged(contents)|))
  {
    ContentsAtPos(der, before, contents, after);
    ReadIntMeans(der, coordLen, |before|);
    FixedIsTheSpelling(ReadInt(der, coordLen, |before|).value.value);
  }

  lemma HeaderIsSkipped(h: Header, rest: seq<byte>)
    requires ValidHeader(h)
    ensures ContentsAt(EncodeHeader(h) + rest) == Ok(|EncodeHeader(h)|)
  {
    var der := EncodeHeader(h) + rest;
    assert der[0] == EncodeHeader(h)[0] && der[1] == EncodeHeader(h)[1];
  }

  lemma Assembles(a: seq<byte>, b: seq<byte>, c: seq<byte>, d: seq<byte>)
    ensures a + b + c + d == a + (b + c + d) && a + b + c + d == a + b + (c + d)
  {
  }

  lemma TwoReads(der: seq<byte>, coordLen: nat, i: nat, r: Read, s: Read)
    requires ContentsAt(der) == Ok(i) && ReadInt(der, coordLen, i) == Ok(r) && ReadInt(der, coordLen, r.next) == Ok(s)
    ensures Unwrapped(der, coordLen) == Ok(r.value + s.value)
  {
  }

  lemma SecondSpells(der: seq<byte>, before: seq<byte>, n: nat, b: seq<byte>, after: seq<byte>, coordLen: nat)
    requires |b| < 0x80 && |StripZeros(b)| <= coordLen && |before| == n && der == before + Tagged(b) + after
    ensures ReadInt(der, coordLen, n) == Ok(Read(Fixed(Value(b), coordLen), n + |Tagged(b)|))
  {
    Spells(der, before, b, after, coordLen);
  }

  lemma OneAndThenOne(der: seq<byte>, coordLen: nat, i: nat, x: seq<byte>, j: nat, y: seq<byte>, k: nat)
    requires ContentsAt(der) == Ok(i)
    requires ReadInt(der, coordLen, i) == Ok(Read(x, j)) && ReadInt(der, coordLen, j) == Ok(Read(y, k))
    ensures Unwrapped(der, coordLen) == Ok(x + y)
  {
    TwoReads(der, coordLen, i, Read(x, j), Read(y, k));
  }

  lemma FirstSpells(der: seq<byte>, head: seq<byte>, a: seq<byte>, b: seq<byte>, after: seq<byte>, coordLen: nat)
    requires |a| < 0x80 && |b| < 0x80 && |StripZeros(a)| <= coordLen
    requires der == head + Tagged(a) + Tagged(b) + after
    ensures ReadInt(der, coordLen, |head|) == Ok(Read(Fixed(Value(a), coordLen), |head| + |Tagged(a)|))
  {
    Assembles(head, Tagged(a), Tagged(b), after);
    Spells(der, head, a, Tagged(b) + after, coordLen);
  }

  /** Two INTEGERs behind a header. */
  lemma TwoIntegers(der: seq<byte>, head: seq<byte>, a: seq<byte>, b: seq<byte>, after: seq<byte>, coordLen: nat)
    requires |a| < 0x80 && |StripZeros(a)| <= coordLen && |b| < 0x80 && |StripZeros(b)| <= coordLen
    requires der == head + Tagged(a) + Tagged(b) + after && ContentsAt(der) == Ok(|head|)
    ensures Unwrapped(der, coordLen) == Ok(Fixed(Value(a), coordLen) + Fixed(Value(b), coordLen))
  {
    var j := |head| + |Tagged(a)|;
    FirstSpells(der, head, a, b, after, coordLen);
    SecondSpells(der, head + Tagged(a), j, b, after, coordLen);
    OneAndThenOne(der, coordLen, |head|, Fixed(Value(a), coordLen), j, Fixed(Value(b), coordLen), j + |Tagged(b)|);
  }

  lemma ContentsFit(n: nat, coordLen: nat)
    requires n < Pow256(coordLen) && coordLen < 0x7f
    ensures |IntContents(n)| < 0x80 && |StripZeros(IntContents(n))| <= coordLen
  {
    MinimalFits(n, coordLen);
    StripOfContents(n);
  }

  /** Any two coordinates, wrapped with a short or a long SEQUENCE length, come back at fixed width. */
  lemma RoundTrip(h: Header, r: nat, s: nat, after: seq<byte>, coordLen: nat)
    requires ValidHeader(h) && coordLen < 0x7f && r < Pow256(coordLen) && s < Pow256(coordLen)
    ensures |IntContents(r)| < 0x80 && |IntContents(s)| < 0x80
    ensures Unwrapped(EncodeHeader(h) + EncodeInt(r) + EncodeInt(s) + after, coordLen)
            == Ok(Fixed(r, coordLen) + Fixed(s, coordLen))
  {
    ContentsFit(r, coordLen);
    ContentsFit(s, coordLen);
    ContentsAreMinimal(r);
    ContentsAreMinimal(s);
    var head := EncodeHeader(h);
    HeaderIsSkipped(h, EncodeInt(r) + EncodeInt(s) + after);
    Assembles(head, EncodeInt(r), EncodeInt(s), after);
    TwoIntegers(head + EncodeInt(r) + EncodeInt(s) + after, head, IntContents(r), IntContents(s), after, coordLen);
  }
}
