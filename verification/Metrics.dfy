/** Latency percentiles: the collector of `hyperbox-server/src/metrics.rs` and the summaries of
    the benchmark command, which share one `percentile`. */
module Metrics {
  ghost predicate Ordered(values: seq<nat>) {
    forall i, j | 0 <= i < j < |values| :: values[i] <= values[j]
  }

  function Insert(x: nat, values: seq<nat>): (r: seq<nat>)
    requires Ordered(values)
    ensures Ordered(r) && multiset(r) == multiset(values) + multiset{x}
    ensures r[0] == if values == [] || x <= values[0] then x else values[0]
  {
    if values == [] || x <= values[0] then [x] + values
    else
      assert values == [values[0]] + values[1..];
      [values[0]] + Insert(x, values[1..])
  }

  /** `sort_unstable`; equal numbers cannot be told apart, so any sort gives this list. */
  function Sorted(samples: seq<nat>): (r: seq<nat>)
    ensures Ordered(r) && multiset(r) == multiset(samples)
  {
    if samples == [] then []
    else
      assert samples == [samples[0]] + samples[1..];
      Insert(samples[0], Sorted(samples[1..]))
  }

  /** `(len * p).div_ceil(100).saturating_sub(1)` */
  function Rank(len: nat, p: nat): nat {
    var ceiling := (len * p + 99) / 100;
    if ceiling == 0 then 0 else ceiling - 1
  }

  /** The index is in bounds for percentages, and for nothing else. */
  lemma RankInBounds(len: nat, p: nat)
    requires len > 0
    ensures Rank(len, p) < len <==> p <= 100
  {
    if p <= 100 {
      assert len * p <= len * 100;
    } else {
      assert len * p >= len * 101;
    }
  }

  function Percentile(values: seq<nat>, p: nat): nat
    requires p <= 100
  {
    if values == [] then 0 else
      RankInBounds(|values|, p);
      values[Rank(|values|, p)]
  }

  // ---- What a percentile is ----

  /** How many samples are at most `v`. */
  ghost function CountUpTo(samples: seq<nat>, v: nat): (n: nat)
    ensures n <= |samples|
  {
    if samples == [] then 0
    else (if samples[0] <= v then 1 else 0) + CountUpTo(samples[1..], v)
  }

  /** `v` is the least sample that at least `p` percent of the samples do not exceed. */
  ghost predicate NearestRank(samples: seq<nat>, p: nat, v: nat) {
    && v in samples
    && 100 * CountUpTo(samples, v) >= p * |samples|
    && forall w <- samples :: w < v ==> 100 * CountUpTo(samples, w) < p * |samples|
  }

  lemma {:induction false} CountAppend(a: seq<nat>, b: seq<nat>, v: nat)
    ensures CountUpTo(a + b, v) == CountUpTo(a, v) + CountUpTo(b, v)
  {
    if a == [] {
      assert a + b == b;
    } else {
      assert (a + b)[1..] == a[1..] + b;
      CountAppend(a[1..], b, v);
    }
  }

  /** The order of the samples does not matter. */
  lemma {:induction false} CountPermuted(a: seq<nat>, b: seq<nat>, v: nat)
    requires multiset(a) == multiset(b)
    ensures CountUpTo(a, v) == CountUpTo(b, v)
  {
    if a == [] {
      assert |multiset(b)| == |b| == 0;
    } else {
      assert a[0] in multiset(b);
      var i :| 0 <= i < |b| && b[i] == a[0];
      TakenOut(a, b, i);
      CountPermuted(a[1..], b[..i] + b[i + 1..], v);
      CountAppend(b[..i], b[i + 1..], v);
      CountAppend(b[..i], b[i..], v);
      assert b == b[..i] + b[i..] && b[i..][1..] == b[i + 1..];
    }
  }

  lemma TakenOut(a: seq<nat>, b: seq<nat>, i: nat)
    requires a != [] && i < |b| && b[i] == a[0] && multiset(a) == multiset(b)
    ensures multiset(a[1..]) == multiset(b[..i] + b[i + 1..])
  {
    assert a == [a[0]] + a[1..] && b == b[..i] + [b[i]] + b[i + 1..];
    assert multiset(a[1..]) == multiset(a) - multiset{a[0]};
    assert multiset(b[..i] + b[i + 1..]) == multiset(b) - multiset{b[i]};
  }

  lemma {:induction false} CountAll(values: seq<nat>, v: nat)
    requires forall i | 0 <= i < |values| :: values[i] <= v
    ensures CountUpTo(values, v) == |values|
  {
    if values != [] { CountAll(values[1..], v); }
  }

  lemma {:induction false} CountNone(values: seq<nat>, v: nat)
    requires forall i | 0 <= i < |values| :: v < values[i]
    ensures CountUpTo(values, v) == 0
  {
    if values != [] { CountNone(values[1..], v); }
  }

  /** In an ordered list, more than `k` values are at most the one at `k`, and at most `k` are
      below it. */
  lemma CountAtIndex(values: seq<nat>, k: nat)
    requires Ordered(values) && k < |values|
    ensures CountUpTo(values, values[k]) > k
    ensures forall w: nat | w < values[k] :: CountUpTo(values, w) <= k
  {
    hide CountUpTo;
    var low, high := values[..k + 1], values[k + 1..];
    assert values == low + high;
    CountAppend(low, high, values[k]);
    CountAll(low, values[k]);
    forall w: nat | w < values[k] ensures CountUpTo(values, w) <= k {
      CountBelow(values, k, w);
    }
  }

  lemma CountBelow(values: seq<nat>, k: nat, w: nat)
    requires Ordered(values) && k < |values| && w < values[k]
    ensures CountUpTo(values, w) <= k
  {
    hide CountUpTo;
    var low, high := values[..k], values[k..];
    assert values == low + high;
    CountAppend(low, high, w);
    CountNone(high, w);
  }

  lemma RankExact(len: nat, p: nat)
    requires len > 0 && p <= 100
    ensures 100 * (Rank(len, p) + 1) >= p * len
    ensures Rank(len, p) > 0 ==> 100 * Rank(len, p) < p * len
  {
    assert len * p == p * len;
  }

  lemma Extremes(samples: seq<nat>)
    requires samples != []
    ensures var values := Sorted(samples);
            && |values| == |samples| && values[0] in samples && values[|values| - 1] in samples
            && forall x <- samples :: values[0] <= x <= values[|values| - 1]
  {
    var values := Sorted(samples);
    assert |values| == |multiset(values)| == |multiset(samples)| == |samples|;
    assert values[0] in multiset(values) && values[|values| - 1] in multiset(values);
    forall x <- samples ensures values[0] <= x <= values[|values| - 1] {
      assert x in multiset(values);
    }
  }

  /** `percentile` on the sorted samples is the nearest-rank percentile of the samples. */
  lemma PercentileIsNearestRank(samples: seq<nat>, p: nat)
    requires samples != [] && p <= 100
    ensures NearestRank(samples, p, Percentile(Sorted(samples), p))
  {
    var values := Sorted(samples);
    Extremes(samples);
    var k := Rank(|values|, p);
    RankInBounds(|values|, p);
    RankExact(|values|, p);
    CountAtIndex(values, k);
    assert values[k] in multiset(values);
    CountPermuted(samples, values, values[k]);
    forall w <- samples ensures w < values[k] ==> 100 * CountUpTo(samples, w) < p * |samples| {
      CountPermuted(samples, values, w);
    }
  }

  /** There is only one such sample. */
  lemma NearestRankUnique(samples: seq<nat>, p: nat, v: nat, w: nat)
    requires NearestRank(samples, p, v) && NearestRank(samples, p, w)
    ensures v == w
  {
    assert v < w ==> 100 * CountUpTo(samples, v) < p * |samples|;
    assert w < v ==> 100 * CountUpTo(samples, w) < p * |samples|;
  }

  // ---- Summaries ----

  datatype BenchSummary = BenchSummary(runs: nat, p50: nat, p95: nat, min: nat, max: nat)

  /** `summarize_samples`, without the mean. */
  function Summarize(samples: seq<nat>): BenchSummary {
    var values := Sorted(samples);
    BenchSummary(|values|, Percentile(values, 50), Percentile(values, 95),
                 if values == [] then 0 else values[0], if values == [] then 0 else values[|values| - 1])
  }

  lemma RankGrows(len: nat, p: nat, q: nat)
    requires p <= q
    ensures Rank(len, p) <= Rank(len, q)
  {
    assert len * p <= len * q;
  }

  /** For every list of samples the figures of a summary are in order, and the outer two are the
      extremes of the samples. */
  lemma SummaryOrdered(samples: seq<nat>)
    ensures var s := Summarize(samples);
            && s.runs == |samples| && s.min <= s.p50 <= s.p95 <= s.max
            && (samples != [] ==> NearestRank(samples, 50, s.p50) && NearestRank(samples, 95, s.p95))
            && (forall x <- samples :: s.min <= x <= s.max)
            && (samples != [] ==> s.min in samples && s.max in samples)
  {
    hide Sorted;
    var values := Sorted(samples);
    if samples != [] {
      Extremes(samples);
      RankInBounds(|values|, 50);
      RankInBounds(|values|, 95);
      RankGrows(|values|, 50, 95);
      PercentileIsNearestRank(samples, 50);
      PercentileIsNearestRank(samples, 95);
    } else {
      assert |multiset(values)| == |values|;
    }
  }

  datatype MetricsSnapshot = MetricsSnapshot(
    creates: nat, destroys: nat, execs: nat, execFailures: nat, p50: nat, p95: nat)

  /** The counters wrap around at 64 bits, as `fetch_add` does. */
  class MetricsCollector {
    var creates: nat
    var destroys: nat
    var execs: nat
    var execFailures: nat
    var latencies: seq<nat>

    constructor ()
      ensures creates == 0 && destroys == 0 && execs == 0 && execFailures == 0 && latencies == []
    {
      creates, destroys, execs, execFailures, latencies := 0, 0, 0, 0, [];
    }

    method RecordExecLatency(millis: nat)
      modifies this`latencies
      ensures latencies == old(latencies) + [millis]
      ensures forall v :: CountUpTo(latencies, v) == old(CountUpTo(latencies, v)) + (if millis <= v then 1 else 0)
    {
      forall v ensures CountUpTo(latencies + [millis], v) == CountUpTo(latencies, v) + (if millis <= v then 1 else 0) {
        CountAppend(latencies, [millis], v);
        assert [millis][1..] == [];
      }
      latencies := latencies + [millis];
    }

    method IncExec()
      modifies this`execs
      ensures execs == (old(execs) + 1) % 0x1_0000_0000_0000_0000
    {
      execs := (execs + 1) % 0x1_0000_0000_0000_0000;
    }

    /** Taking a snapshot sorts a copy: the recorded latencies stay as they are. */
    method Snapshot() returns (r: MetricsSnapshot)
      ensures r.creates == creates && r.destroys == destroys
      ensures r.execs == execs && r.execFailures == execFailures
      ensures latencies == [] ==> r.p50 == 0 && r.p95 == 0
      ensures latencies != [] ==> NearestRank(latencies, 50, r.p50) && NearestRank(latencies, 95, r.p95)
    {
      var latency := Sorted(latencies);
      if latencies != [] {
        PercentileIsNearestRank(latencies, 50);
        PercentileIsNearestRank(latencies, 95);
      } else {
        assert |latency| == |multiset(latency)| == 0;
      }
      r := MetricsSnapshot(creates, destroys, execs, execFailures,
                           Percentile(latency, 50), Percentile(latency, 95));
    }
  }
}
