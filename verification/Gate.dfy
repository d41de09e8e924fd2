/** Latency gates: nearest-rank percentiles, and what a passing gate says about its samples. */
module Gate {
  import opened Sorting

  const U64_MAX: nat := 0xffff_ffff_ffff_ffff

  datatype Gate = Gate(iterations: nat, p50: nat, p99: nat, threshold: nat) {
    predicate Passed() {
      p99 <= threshold
    }
  }

  function Clamp(x: nat): nat {
    if x <= U64_MAX then x else U64_MAX
  }

  function Min(a: nat, b: nat): nat { if a <= b then a else b }
  function Max(a: nat, b: nat): nat { if a <= b then b else a }

  /** The `p`th percentile of a sorted sample list, nearest rank. */
  function Percentile(sorted: seq<nat>, p: nat): nat {
    if sorted == [] then 0
    else
      var rank := Max((p * |sorted| + 99) / 100, 1);
      sorted[Min(rank, |sorted|) - 1]
  }

  /** How many samples are at or below `v`. */
  function AtMost(s: seq<nat>, v: nat): nat {
    if s == [] then 0 else (if s[0] <= v then 1 else 0) + AtMost(s[1..], v)
  }

  // ---------------------------------------------------------------------------
  // Percentiles
  // ---------------------------------------------------------------------------

  /** In a sorted list, the samples at or below `v` are exactly a prefix. */
  lemma {:induction false} AtMostIsAPrefix(s: seq<nat>, v: nat)
    requires Sorted(s)
    ensures AtMost(s, v) <= |s|
    ensures forall i :: 0 <= i < |s| ==> (s[i] <= v <==> i < AtMost(s, v))
    decreases |s|
  {
    if s != [] {
      var rest := s[1..];
      AtMostIsAPrefix(rest, v);
      forall i | 0 <= i < |s| ensures s[i] <= v <==> i < AtMost(s, v) {
        if i > 0 { assert s[i] == rest[i - 1]; }
        if s[0] > v && rest != [] { assert rest[0] == s[1] && !(rest[0] <= v); }
      }
    }
  }

  lemma RankIsCeiling(p: nat, n: nat)
    requires 1 <= p <= 100 && 1 <= n
    ensures var rank := (p * n + 99) / 100;
            1 <= rank <= n && 100 * rank >= p * n && 100 * (rank - 1) < p * n
  {
    assert p * n <= 100 * n && n <= p * n;
  }

  /** The percentile is a sample, and the least value with `p` percent of the samples at or below it. */
  lemma PercentileIsLeast(sorted: seq<nat>, p: nat, w: nat)
    requires Sorted(sorted) && sorted != [] && 1 <= p <= 100
    ensures Percentile(sorted, p) in sorted
    ensures 100 * AtMost(sorted, Percentile(sorted, p)) >= p * |sorted|
    ensures Percentile(sorted, p) <= w <==> 100 * AtMost(sorted, w) >= p * |sorted|
  {
    var n, v := |sorted|, Percentile(sorted, p);
    RankIsCeiling(p, n);
    var rank := (p * n + 99) / 100;
    assert v == sorted[rank - 1];
    AtMostIsAPrefix(sorted, v);
    AtMostIsAPrefix(sorted, w);
  }

  // ---------------------------------------------------------------------------
  // Measuring
  // ---------------------------------------------------------------------------

  lemma {:induction false} AtMostJoins(a: seq<nat>, b: seq<nat>, v: nat)
    ensures AtMost(a + b, v) == AtMost(a, v) + AtMost(b, v)
    decreases |a|
  {
    if a == [] {
      assert a + b == b;
    } else {
      assert (a + b)[0] == a[0] && (a + b)[1..] == a[1..] + b;
      AtMostJoins(a[1..], b, v);
    }
  }

  function Without(s: seq<nat>, j: nat): seq<nat>
    requires j < |s|
  {
    s[..j] + s[j + 1..]
  }

  lemma WithoutKeepsTheRest(s: seq<nat>, j: nat)
    requires j < |s|
    ensures multiset(Without(s, j)) == multiset(s) - multiset{s[j]}
  {
    assert s == s[..j] + [s[j]] + s[j + 1..];
  }

  lemma WithoutCounts(s: seq<nat>, j: nat, v: nat)
    requires j < |s|
    ensures AtMost(s, v) == AtMost(Without(s, j), v) + if s[j] <= v then 1 else 0
  {
    var tail := [s[j]] + s[j + 1..];
    assert s == s[..j] + tail && tail[1..] == s[j + 1..];
    AtMostJoins(s[..j], tail, v);
    AtMostJoins(s[..j], s[j + 1..], v);
  }

  /** Counting does not see the order. */
  lemma {:induction false} SameBagSameCount(a: seq<nat>, b: seq<nat>, v: nat)
    requires multiset(a) == multiset(b)
    ensures |a| == |b| && AtMost(a, v) == AtMost(b, v)
    decreases |a|
  {
    assert |a| == |multiset(a)| == |b|;
    if a != [] {
      assert a[0] in multiset(b);
      var j :| 0 <= j < |b| && b[j] == a[0];
      WithoutKeepsTheRest(a, 0);
      WithoutKeepsTheRest(b, j);
      SameBagSameCount(Without(a, 0), Without(b, j), v);
      WithoutCounts(a, 0, v);
      WithoutCounts(b, j, v);
    }
  }

  lemma {:induction false} ClampCounts(s: seq<nat>, clamped: seq<nat>, t: nat)
    requires |clamped| == |s| && forall i :: 0 <= i < |s| ==> clamped[i] == Clamp(s[i])
    ensures AtMost(clamped, Clamp(t)) == if t < U64_MAX then AtMost(s, t) else |s|
    decreases |s|
  {
    if s != [] { ClampCounts(s[1..], clamped[1..], t); }
  }

  /** Enough of the samples met the threshold. */
  ghost predicate EnoughMet(elapsed: seq<nat>, threshold: nat) {
    elapsed == [] || threshold >= 0xffff_ffff_ffff_ffff || 100 * AtMost(elapsed, threshold) >= 99 * |elapsed|
  }

  /**
   * A measured gate passes exactly when at least 99 percent of the samples were at or below the
   * threshold; a run of no iterations, and a threshold no `u64` can exceed, pass whatever happened.
   */
  method Measure(elapsed: seq<nat>, threshold: nat) returns (g: Gate)
    ensures g.Passed() <==> EnoughMet(elapsed, threshold)
    ensures g.iterations == |elapsed|
    ensures elapsed != [] ==> SplitsAt(elapsed, 50, g.p50) && SplitsAt(elapsed, 99, g.p99)
  {
    var samples: seq<nat> := [];
    for i := 0 to |elapsed|
      invariant |samples| == i
      invariant forall j :: 0 <= j < i ==> samples[j] == Clamp(elapsed[j])
    {
      samples := samples + [Clamp(elapsed[i])];
    }
    ghost var taken := samples;
    samples := Sort(samples);
    g := Gate(|elapsed|, Percentile(samples, 50), Percentile(samples, 99), Clamp(threshold));
    SameBagSameCount(samples, taken, 0);
    if elapsed != [] {
      PercentileOfSorted(elapsed, taken, samples, 50);
      PercentileOfSorted(elapsed, taken, samples, 99);
      PercentileIsLeast(samples, 99, Clamp(threshold));
      SameBagSameCount(samples, taken, Clamp(threshold));
      ClampCounts(elapsed, taken, threshold);
    }
  }

  /** `v` is the least value with `p` percent of the samples at or below it, as far as a `u64` can tell. */
  ghost predicate SplitsAt(elapsed: seq<nat>, p: nat, v: nat) {
    forall w: nat :: w < 0xffff_ffff_ffff_ffff ==> (v <= w <==> 100 * AtMost(elapsed, w) >= p * |elapsed|)
  }

  lemma PercentileOfSorted(elapsed: seq<nat>, taken: seq<nat>, samples: seq<nat>, p: nat)
    requires elapsed != [] && |taken| == |elapsed| && 1 <= p <= 100
    requires forall i :: 0 <= i < |elapsed| ==> taken[i] == Clamp(elapsed[i])
    requires Sorted(samples) && multiset(samples) == multiset(taken)
    ensures SplitsAt(elapsed, p, Percentile(samples, p))
  {
    forall w: nat | w < U64_MAX
      ensures Percentile(samples, p) <= w <==> 100 * AtMost(elapsed, w) >= p * |elapsed|
    {
      SameBagSameCount(samples, taken, w);
      PercentileIsLeast(samples, p, w);
      ClampCounts(elapsed, taken, w);
    }
  }
}
