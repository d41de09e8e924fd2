/**
 * What the transport must prove before a bearer token is believed. Texts are their UTF-8 bytes, a character for each,
 * so lengths count bytes.
 */
module Transport {
  import opened Wrappers
  import opened Cidr
  import opened Text

  const PROXY_SECRET_HEADER := "x-warden-proxy-secret"
  const FORWARDED_PROTO := "x-forwarded-proto"
  const MIN_SECRET_LEN := 32

  /** The digest of a text, as its hexadecimal bytes. */
  type Digest = string -> seq<bv8>

  ghost predicate Injective(sha: Digest) {
    forall a, b :: sha(a) == sha(b) ==> a == b
  }

  datatype Secret = Secret(digest: seq<bv8>)

  datatype Policy =
    | Loopback
    | TlsProxy(trusted: seq<Source>, secret: Option<Secret>)
    | Insecure

  /** The parts of a request the transport looks at. */
  datatype Wire = Wire(peer: Option<Ip>, headers: map<string, string>)

  predicate Matches(secret: Secret, presented: string, sha: Digest) {
    sha(presented) == secret.digest
  }

  /** The comparison as it runs: fold every byte, then decide. */
  method MatchesByFold(secret: Secret, presented: string, sha: Digest) returns (same: bool)
    ensures same == Matches(secret, presented, sha)
  {
    var got := sha(presented);
    if |got| != |secret.digest| { return false; }
    var diff: bv8 := 0;
    for i := 0 to |got|
      invariant diff == 0 <==> secret.digest[..i] == got[..i]
    {
      var a, b := secret.digest[i], got[i];
      OrXorIsZero(diff, a, b);
      assert secret.digest[..i + 1] == secret.digest[..i] + [a];
      assert got[..i + 1] == got[..i] + [b];
      diff := diff | (a ^ b);
    }
    assert got[..|got|] == got && secret.digest[..|got|] == secret.digest;
    same := diff == 0;
  }

  lemma OrXorIsZero(d: bv8, a: bv8, b: bv8)
    ensures d | (a ^ b) == 0 <==> d == 0 && a == b
  {
  }

  ghost predicate WellFormed(p: Policy) {
    p.TlsProxy? ==> forall s <- p.trusted :: s.Network? ==> 0 < s.prefix <= s.base.Width()
  }

  ghost predicate FromTrusted(trusted: seq<Source>, peer: Option<Ip>)
    requires forall s <- trusted :: s.Network? ==> 0 < s.prefix <= s.base.Width()
  {
    || trusted == []
    || (peer.Some? && exists s <- trusted :: Contains(s, peer.value))
  }

  ghost predicate Admits(p: Policy, w: Wire, sha: Digest)
    requires WellFormed(p)
  {
    match p
    case Insecure => true
    case Loopback => w.peer.Some? && w.peer.value.IsLoopback()
    case TlsProxy(trusted, secret) =>
      && FromTrusted(trusted, w.peer)
      && (secret.Some? ==>
          PROXY_SECRET_HEADER in w.headers && Matches(secret.value, w.headers[PROXY_SECRET_HEADER], sha))
      && FORWARDED_PROTO in w.headers
      && Lower(w.headers[FORWARDED_PROTO]) == "https"
  }

  // ---------------------------------------------------------------------------
  // The startup decision
  // ---------------------------------------------------------------------------

  datatype SecretFile = NoFile | CannotRead | Contents(trimmed: string)

  /** The flags the startup decision reads, with addresses and files already read. */
  datatype Flags = Flags(
    insecurePlaintext: bool,
    behindTlsProxy: bool,
    trustedProxy: seq<RawSource>,
    proxySecretFile: SecretFile,
    listenHost: Option<Ip>)

  function ParseAll(raws: seq<RawSource>): (r: Option<seq<Source>>)
    ensures r.Some? ==> |r.value| == |raws|
    ensures r.Some? ==> forall i :: 0 <= i < |raws| ==> ParseSource(raws[i]) == Parsed(r.value[i])
    ensures r.None? ==> exists i :: 0 <= i < |raws| && ParseSource(raws[i]).BadSource?
  {
    if raws == [] then Some([])
    else
      match ParseSource(raws[0])
      case BadSource => None
      case Parsed(s) =>
        var rest := ParseAll(raws[1..]);
        if rest.None? then None else Some([s] + rest.value)
  }

  function NewSecret(raw: string, sha: Digest): Option<Secret> {
    if |raw| < MIN_SECRET_LEN then None else Some(Secret(sha(raw)))
  }

  function TransportPolicy(f: Flags, sha: Digest): Option<Policy> {
    if f.insecurePlaintext then Some(Insecure)
    else
      var trusted := ParseAll(f.trustedProxy);
      if trusted.None? || f.proxySecretFile.CannotRead? then None
      else
        var secret := if f.proxySecretFile.Contents? then NewSecret(f.proxySecretFile.trimmed, sha) else None;
        if f.proxySecretFile.Contents? && secret.None? then None
        else if f.behindTlsProxy then Some(TlsProxy(trusted.value, secret))
        else if secret.Some? || trusted.value != [] then None
        else if f.listenHost.Some? && f.listenHost.value.IsLoopback() then Some(Loopback)
        else None
  }

  lemma MaskKeepsFamily(ip: Ip, prefix: nat)
    requires prefix <= ip.Width()
    ensures Mask(ip, prefix).Width() == ip.Width()
  {
  }

  /** Every policy the startup decision returns can be asked about any request. */
  lemma PolicyIsWellFormed(f: Flags, sha: Digest)
    ensures TransportPolicy(f, sha).Some? ==> WellFormed(TransportPolicy(f, sha).value)
  {
    var p := TransportPolicy(f, sha);
    if p.Some? && p.value.TlsProxy? {
      forall s <- p.value.trusted ensures s.Network? ==> 0 < s.prefix <= s.base.Width() {
        var i :| 0 <= i < |p.value.trusted| && p.value.trusted[i] == s;
        var raw := f.trustedProxy[i];
        assert ParseSource(raw) == Parsed(s);
        if raw.Block? && raw.bits.Readable? && s.Network? { MaskKeepsFamily(raw.ip, raw.bits.value); }
      }
    }
  }

  /** Without either opt-out the listener starts only on loopback, and believes only loopback peers. */
  lemma DefaultIsLoopback(f: Flags, w: Wire, sha: Digest)
    requires !f.insecurePlaintext && !f.behindTlsProxy
    ensures TransportPolicy(f, sha).Some? <==>
              && f.trustedProxy == []
              && f.proxySecretFile == NoFile
              && f.listenHost.Some? && f.listenHost.value.IsLoopback()
    ensures TransportPolicy(f, sha).Some? ==>
              && TransportPolicy(f, sha).value == Loopback
              && (Admits(TransportPolicy(f, sha).value, w, sha) ==> w.peer.Some? && w.peer.value.IsLoopback())
  {
    if f.trustedProxy == [] { assert ParseAll(f.trustedProxy).value == []; }
  }

  /** The IPv4 loopback test is membership of 127.0.0.0/8. */
  lemma LoopbackIsABlock(ip: Ip)
    requires ip.V4? && ip.Valid()
    ensures var block := ParseSource(Block(V4(0x7f00_0000), Readable(8)));
            block.Parsed? && block.source.Network? && block.source.prefix <= block.source.base.Width()
            && (ip.IsLoopback() <==> Contains(block.source, ip))
  {
    Pow2Of24And32();
    ContainsIsQuotient(V4(0x7f00_0000), 8, ip);
  }

  lemma Pow2Of24And32()
    ensures Pow2(24) == 0x100_0000 && Pow2(32) == 0x1_0000_0000
  {
    assert Pow2(8) == 256;
    Pow2Adds(8, 8);
    Pow2Adds(16, 8);
    Pow2Adds(24, 8);
  }

  /**
   * Narrowing. Requiring a secret, or replacing the trusted list by a non-empty one whose
   * members were all trusted before, only ever removes admitted requests.
   */
  lemma NarrowingOnlyShrinks(before: Policy, after: Policy, w: Wire, sha: Digest)
    requires before.TlsProxy? && after.TlsProxy? && WellFormed(before) && WellFormed(after)
    requires before.trusted == [] || after.trusted != []
    requires forall s <- after.trusted :: before.trusted == [] || s in before.trusted
    requires before.secret.Some? ==> after.secret == before.secret
    ensures Admits(after, w, sha) ==> Admits(before, w, sha)
  {
    if Admits(after, w, sha) && before.trusted != [] {
      var s :| s in after.trusted && Contains(s, w.peer.value);
      assert s in before.trusted;
    }
  }

  /**
   * Dropping entries from a trusted list narrows exactly as long as the list does not become empty, with or
   * without a secret; `text` is whatever a proxy that knows the secret presents.
   */
  lemma EmptyingTheListWidens(before: seq<Source>, after: seq<Source>, secret: Option<Secret>, text: string,
                              sha: Digest)
    requires WellFormed(TlsProxy(before, secret)) && WellFormed(TlsProxy(after, secret))
    requires before != [] && forall s <- after :: s in before
    requires secret.Some? ==> Matches(secret.value, text, sha)
    ensures (forall w :: Admits(TlsProxy(after, secret), w, sha) ==> Admits(TlsProxy(before, secret), w, sha))
            <==> after != []
  {
    if after == [] {
      var w := Wire(None, map[FORWARDED_PROTO := "https", PROXY_SECRET_HEADER := text]);
      assert Lower("https") == "https" && FORWARDED_PROTO != PROXY_SECRET_HEADER;
      assert Admits(TlsProxy(after, secret), w, sha) && !Admits(TlsProxy(before, secret), w, sha);
    } else {
      forall w | Admits(TlsProxy(after, secret), w, sha) ensures Admits(TlsProxy(before, secret), w, sha) {
        NarrowingOnlyShrinks(TlsProxy(before, secret), TlsProxy(after, secret), w, sha);
      }
    }
  }

  /** A configured secret has to be presented: every believed request behind the proxy carries its exact text. */
  lemma SecretHasToBePresented(f: Flags, w: Wire, sha: Digest)
    requires !f.insecurePlaintext && f.proxySecretFile.Contents? && Injective(sha)
    requires TransportPolicy(f, sha).Some? && WellFormed(TransportPolicy(f, sha).value)
    requires Admits(TransportPolicy(f, sha).value, w, sha)
    ensures |f.proxySecretFile.trimmed| >= MIN_SECRET_LEN
    ensures PROXY_SECRET_HEADER in w.headers && w.headers[PROXY_SECRET_HEADER] == f.proxySecretFile.trimmed
  {
    assert sha(w.headers[PROXY_SECRET_HEADER]) == sha(f.proxySecretFile.trimmed);
  }

  // ---------------------------------------------------------------------------
  // The whole decision, from the flags as given
  // ---------------------------------------------------------------------------

  /** A `--trusted-proxy` operand that can be used: an address, or one with a prefix from 1 to its width. */
  predicate Usable(raw: RawSource) {
    raw.Bare? || (raw.Block? && raw.bits.Readable? && 1 <= raw.bits.value <= if raw.ip.V4? then 32 else 128)
  }

  /** The address is the operand's, or in the same block of `2^(width - prefix)` addresses. */
  ghost predicate Covers(raw: RawSource, ip: Ip) {
    match raw
    case NotAnAddress => false
    case Bare(want) => ip == want
    case Block(_, Unreadable) => false
    case Block(net, Readable(prefix)) =>
      var width := if net.V4? then 32 else 128;
      && net.V4? == ip.V4? && prefix <= width
      && ip.bits / Pow2(width - prefix) == net.bits / Pow2(width - prefix)
  }

  /** 127.0.0.0/8, or ::1. */
  predicate Local(ip: Ip) {
    if ip.V4? then 127 * 0x100_0000 <= ip.bits < 128 * 0x100_0000 else ip.bits == 1
  }

  predicate ValidRaw(raw: RawSource) {
    raw.NotAnAddress? || raw.ip.bits < if raw.ip.V4? then Pow2(32) else Pow2(128)
  }

  lemma ParsesExactly(raw: RawSource)
    ensures ParseSource(raw).Parsed? <==> Usable(raw)
  {
  }

  lemma {:induction false} ParsesAllExactly(raws: seq<RawSource>)
    ensures ParseAll(raws).Some? <==> forall raw <- raws :: Usable(raw)
    decreases |raws|
  {
    if raws != [] {
      ParsesExactly(raws[0]);
      ParsesAllExactly(raws[1..]);
      assert forall raw :: raw in raws <==> raw == raws[0] || raw in raws[1..];
    }
  }

  /** When the listener starts at all. */
  lemma StartsExactlyWhen(f: Flags, sha: Digest)
    ensures TransportPolicy(f, sha).Some? <==>
            || f.insecurePlaintext
            || (&& f.behindTlsProxy
                && (forall raw <- f.trustedProxy :: Usable(raw))
                && (f.proxySecretFile.NoFile? || (f.proxySecretFile.Contents? && |f.proxySecretFile.trimmed| >= 32)))
            || (&& !f.behindTlsProxy
                && f.trustedProxy == [] && f.proxySecretFile.NoFile?
                && f.listenHost.Some? && Local(f.listenHost.value))
  {
    ParsesAllExactly(f.trustedProxy);
  }

  lemma CoversIsContains(raw: RawSource, ip: Ip)
    requires ValidRaw(raw) && ip.Valid() && ParseSource(raw).Parsed?
    ensures var s := ParseSource(raw).source;
            (s.Network? ==> 0 < s.prefix <= s.base.Width()) && (Contains(s, ip) <==> Covers(raw, ip))
  {
    if raw.Block? { ContainsIsQuotient(raw.ip, raw.bits.value, ip); }
  }

  lemma TrustedIsCovered(raws: seq<RawSource>, ip: Ip)
    requires ParseAll(raws).Some? && ip.Valid() && forall raw <- raws :: ValidRaw(raw)
    ensures forall s <- ParseAll(raws).value :: s.Network? ==> 0 < s.prefix <= s.base.Width()
    ensures (exists s <- ParseAll(raws).value :: Contains(s, ip)) <==> exists raw <- raws :: Covers(raw, ip)
  {
    var sources := ParseAll(raws).value;
    forall i | 0 <= i < |raws|
      ensures (sources[i].Network? ==> 0 < sources[i].prefix <= sources[i].base.Width())
           && (Contains(sources[i], ip) <==> Covers(raws[i], ip))
    {
      assert raws[i] in raws;
      CoversIsContains(raws[i], ip);
    }
    if raw :| raw in raws && Covers(raw, ip) {
      var i :| 0 <= i < |raws| && raws[i] == raw;
      assert sources[i] in sources && Contains(sources[i], ip);
    }
    if s :| s in sources && Contains(s, ip) {
      var i :| 0 <= i < |sources| && sources[i] == s;
      assert raws[i] in raws && Covers(raws[i], ip);
    }
  }

  /** From an operand, or anywhere when there is none; with the file's secret if there is one; claiming TLS. */
  ghost predicate Vouched(f: Flags, w: Wire, sha: Digest) {
    && (f.trustedProxy == [] || (w.peer.Some? && exists raw <- f.trustedProxy :: Covers(raw, w.peer.value)))
    && (f.proxySecretFile.Contents? ==>
          && "x-warden-proxy-secret" in w.headers
          && sha(w.headers["x-warden-proxy-secret"]) == sha(f.proxySecretFile.trimmed))
    && "x-forwarded-proto" in w.headers && SameWord(w.headers["x-forwarded-proto"], "https")
  }

  /**
   * The decision, from the flags as given: a started listener believes every request if told to, behind a TLS proxy
   * exactly the vouched-for ones, and otherwise exactly those of a local peer.
   */
  lemma BelievesExactly(f: Flags, w: Wire, sha: Digest)
    requires TransportPolicy(f, sha).Some? && WellFormed(TransportPolicy(f, sha).value)
    requires (forall raw <- f.trustedProxy :: ValidRaw(raw)) && (w.peer.Some? ==> w.peer.value.Valid())
    ensures Admits(TransportPolicy(f, sha).value, w, sha) <==>
            || f.insecurePlaintext
            || (f.behindTlsProxy && Vouched(f, w, sha))
            || (!f.behindTlsProxy && w.peer.Some? && Local(w.peer.value))
  {
    if f.behindTlsProxy && !f.insecurePlaintext {
      if w.peer.Some? { TrustedIsCovered(f.trustedProxy, w.peer.value); }
      if "x-forwarded-proto" in w.headers { LowerIsCaseless(w.headers["x-forwarded-proto"], "https"); }
    }
  }
}
