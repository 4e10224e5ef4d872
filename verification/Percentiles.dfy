/** Nearest-rank percentiles: `percentile` and `TickReport::from_samples` in
    `crates/bot/src/bench.rs`, `SwarmStats::percentile_us` in
    `crates/bot/src/runner.rs`. */
module Percentiles {

  // ----- Counting -----

  /** How many samples are at most `v`, and how many below it. */
  function AtMost(s: seq<nat>, v: nat): nat {
    if s == [] then 0 else (if s[0] <= v then 1 else 0) + AtMost(s[1..], v)
  }

  function Below(s: seq<nat>, v: nat): nat {
    if s == [] then 0 else (if s[0] < v then 1 else 0) + Below(s[1..], v)
  }

  function Sum(s: seq<nat>): nat {
    if s == [] then 0 else s[0] + Sum(s[1..])
  }

  lemma {:induction false} Split(a: seq<nat>, b: seq<nat>, v: nat)
    ensures AtMost(a + b, v) == AtMost(a, v) + AtMost(b, v)
    ensures Below(a + b, v) == Below(a, v) + Below(b, v)
    ensures Sum(a + b) == Sum(a) + Sum(b)
    decreases |a|
  {
    if a == [] {
      assert a + b == b;
    } else {
      assert (a + b)[1..] == a[1..] + b;
      Split(a[1..], b, v);
    }
  }

  lemma WithoutOne(s: seq<nat>, i: nat, v: nat)
    requires i < |s|
    ensures var rest := s[..i] + s[i + 1..];
      && AtMost(s, v) == AtMost(rest, v) + (if s[i] <= v then 1 else 0)
      && Below(s, v) == Below(rest, v) + (if s[i] < v then 1 else 0)
      && Sum(s) == Sum(rest) + s[i]
      && multiset(s) == multiset(rest) + multiset{s[i]}
  {
    assert s == s[..i] + ([s[i]] + s[i + 1..]);
    Split(s[..i], [s[i]] + s[i + 1..], v);
    Split([s[i]], s[i + 1..], v);
    Split(s[..i], s[i + 1..], v);
  }

  lemma Cancelled(a: multiset<nat>, b: multiset<nat>, v: nat)
    requires a + multiset{v} == b + multiset{v}
    ensures a == b
  {
    assert a == a + multiset{v} - multiset{v};
    assert b == b + multiset{v} - multiset{v};
  }

  /** The counts and the sum depend only on which samples there are. */
  lemma {:induction false} SameSamples(s: seq<nat>, t: seq<nat>, v: nat)
    requires multiset(s) == multiset(t)
    ensures AtMost(s, v) == AtMost(t, v) && Below(s, v) == Below(t, v) && Sum(s) == Sum(t) && |s| == |t|
    decreases |s|
  {
    assert |s| == |multiset(s)| && |t| == |multiset(t)|;
    if s != [] {
      assert s[0] in multiset(t);
      var i :| 0 <= i < |t| && t[i] == s[0];
      WithoutOne(t, i, v);
      WithoutOne(s, 0, v);
      assert s[..0] + s[1..] == s[1..];
      Cancelled(multiset(s[1..]), multiset(t[..i] + t[i + 1..]), s[0]);
      SameSamples(s[1..], t[..i] + t[i + 1..], v);
    }
  }

  lemma {:induction false} CountsBounded(s: seq<nat>, v: nat)
    ensures Below(s, v) <= AtMost(s, v) <= |s|
    ensures (forall i :: 0 <= i < |s| ==> s[i] <= v) ==> AtMost(s, v) == |s|
    ensures (forall i :: 0 <= i < |s| ==> s[i] >= v) ==> Below(s, v) == 0
    decreases |s|
  {
    if s != [] { CountsBounded(s[1..], v); }
  }

  lemma {:induction false} CountsGrow(s: seq<nat>, v: nat, w: nat)
    requires v < w
    ensures AtMost(s, v) <= Below(s, w)
    decreases |s|
  {
    if s != [] { CountsGrow(s[1..], v, w); }
  }

  // ----- The rank -----

  /** The sample of that rank: a sample, with at least `rank` of them at or below
      it and fewer than `rank` strictly below. */
  ghost predicate IsRanked(s: seq<nat>, rank: nat, v: nat) {
    v in s && AtMost(s, v) >= rank && Below(s, v) < rank
  }

  /** There is only one such value, and it does not depend on the order. */
  lemma RankedOnce(s: seq<nat>, t: seq<nat>, rank: nat, v: nat, w: nat)
    requires multiset(s) == multiset(t) && IsRanked(s, rank, v) && IsRanked(t, rank, w)
    ensures v == w
  {
    SameSamples(s, t, v);
    SameSamples(s, t, w);
    if v < w { CountsGrow(s, v, w); }
    if w < v { CountsGrow(s, w, v); }
  }

  /** A higher rank is a value no lower. */
  lemma RankedInOrder(s: seq<nat>, low: nat, high: nat, v: nat, w: nat)
    requires low <= high && IsRanked(s, low, v) && IsRanked(s, high, w)
    ensures v <= w
  {
    if w < v { CountsGrow(s, w, v); }
  }

  ghost predicate IsSorted(s: seq<nat>) {
    forall i, j :: 0 <= i < j < |s| ==> s[i] <= s[j]
  }

  lemma EnoughAtMost(s: seq<nat>, k: nat)
    requires IsSorted(s) && k < |s|
    ensures AtMost(s, s[k]) >= k + 1
  {
    assert s == s[..k + 1] + s[k + 1..];
    Split(s[..k + 1], s[k + 1..], s[k]);
    CountsBounded(s[..k + 1], s[k]);
  }

  lemma FewBelow(s: seq<nat>, k: nat)
    requires IsSorted(s) && k < |s|
    ensures Below(s, s[k]) <= k
  {
    assert s == s[..k] + s[k..];
    Split(s[..k], s[k..], s[k]);
    CountsBounded(s[..k], s[k]);
    CountsBounded(s[k..], s[k]);
  }

  lemma RankedBySorting(s: seq<nat>, k: nat)
    requires IsSorted(s) && k < |s|
    ensures IsRanked(s, k + 1, s[k])
  {
    EnoughAtMost(s, k);
    FewBelow(s, k);
  }

  function Ceiling(a: nat): (c: nat)
    ensures 100 * c >= a && (a > 0 ==> 100 * (c - 1) < a)
  {
    (a + 99) / 100
  }

  /** `ceil(p * n / 100)`, brought into the sample. */
  function Rank(p: nat, n: nat): (r: nat)
    requires n > 0
    ensures 1 <= r <= n
  {
    var c := Ceiling(p * n);
    if c == 0 then 1 else if c > n then n else c
  }

  /** Which changes nothing for a real percentage. */
  lemma RankMeans(p: nat, n: nat)
    requires n > 0 && 1 <= p <= 100
    ensures Rank(p, n) == Ceiling(p * n)
  {
    Times(1, p, n);
    Times(p, 100, n);
  }

  lemma Times(p: nat, q: nat, n: nat)
    requires p <= q
    ensures p * n <= q * n
  {
  }

  lemma RankGrows(p: nat, q: nat, n: nat)
    requires p <= q && n > 0
    ensures Rank(p, n) <= Rank(q, n)
  {
    Times(p, q, n);
    CeilingGrows(p * n, q * n);
  }

  lemma CeilingGrows(a: nat, b: nat)
    requires a <= b
    ensures Ceiling(a) <= Ceiling(b)
  {
  }

  /** `percentile`, over a sorted slice: the nearest rank, or zero of nothing. */
  function Percentile(sorted: seq<nat>, p: nat): nat {
    if sorted == [] then 0
    else
      var rank := Ceiling(p * |sorted|);
      var index := if rank == 0 then 0 else rank - 1;
      sorted[if index < |sorted| then index else |sorted| - 1]
  }

  lemma PercentileRanked(sorted: seq<nat>, p: nat)
    requires IsSorted(sorted) && sorted != []
    ensures IsRanked(sorted, Rank(p, |sorted|), Percentile(sorted, p))
  {
    RankedBySorting(sorted, Rank(p, |sorted|) - 1);
  }

  // ----- The reports -----

  method Sorted(samples: seq<nat>) returns (sorted: seq<nat>)
    ensures IsSorted(sorted) && multiset(sorted) == multiset(samples)
  {
    sorted := [];
    for i := 0 to |samples|
      invariant IsSorted(sorted) && multiset(sorted) == multiset(samples[..i])
    {
      var at := |sorted|;
      while at > 0 && sorted[at - 1] > samples[i]
        invariant 0 <= at <= |sorted|
        invariant forall j :: at <= j < |sorted| ==> samples[i] <= sorted[j]
      {
        at := at - 1;
      }
      Placed(sorted, samples[i], at);
      assert samples[..i + 1] == samples[..i] + [samples[i]];
      sorted := sorted[..at] + [samples[i]] + sorted[at..];
    }
    assert samples[..|samples|] == samples;
  }

  lemma Placed(s: seq<nat>, v: nat, at: nat)
    requires IsSorted(s) && at <= |s| && (at > 0 ==> s[at - 1] <= v)
    requires forall j :: at <= j < |s| ==> v <= s[j]
    ensures IsSorted(s[..at] + [v] + s[at..])
    ensures multiset(s[..at] + [v] + s[at..]) == multiset(s) + multiset{v}
  {
    PlacedInOrder(s, v, at);
    PlacedOnce(s[..at], s[at..], v);
    assert s == s[..at] + s[at..];
  }

  lemma PlacedOnce(a: seq<nat>, b: seq<nat>, v: nat)
    ensures multiset(a + [v] + b) == multiset(a + b) + multiset{v}
  {
  }

  lemma PlacedInOrder(s: seq<nat>, v: nat, at: nat)
    requires IsSorted(s) && at <= |s| && (at > 0 ==> s[at - 1] <= v)
    requires forall j :: at <= j < |s| ==> v <= s[j]
    ensures IsSorted(s[..at] + [v] + s[at..])
  {
    var r := s[..at] + [v] + s[at..];
    forall i, j | 0 <= i < j < |r| ensures r[i] <= r[j] {
      var a, b := if i <= at then i else i - 1, if j <= at then j else j - 1;
      if i < at && at > 0 { assert s[i] <= s[at - 1]; }
      if i != at { assert r[i] == s[a]; }
      if j != at { assert r[j] == s[b]; }
    }
  }

  /** What a nearest-rank percentile of these samples is. */
  ghost predicate IsPercentile(samples: seq<nat>, p: nat, v: nat) {
    if samples == [] then v == 0 else IsRanked(samples, Rank(p, |samples|), v)
  }

  lemma PercentileOf(samples: seq<nat>, sorted: seq<nat>, p: nat)
    requires IsSorted(sorted) && multiset(sorted) == multiset(samples)
    ensures IsPercentile(samples, p, Percentile(sorted, p))
  {
    SameSamples(samples, sorted, Percentile(sorted, p));
    if samples != [] {
      PercentileRanked(sorted, p);
      assert Percentile(sorted, p) in multiset(sorted);
    }
  }

  /** The swarm's percentile: sorts a copy, then takes the rank. */
  method SwarmPercentile(latencies: seq<nat>, p: nat) returns (v: nat)
    ensures IsPercentile(latencies, p, v)
  {
    if latencies == [] {
      return 0;
    }
    var sorted := Sorted(latencies);
    PercentileOf(latencies, sorted, p);
    assert |sorted| == |latencies| by { SameSamples(latencies, sorted, 0); }
    var rank := Ceiling(p * |sorted|);
    var index := if rank == 0 then 0 else rank - 1;
    v := sorted[if index < |sorted| then index else |sorted| - 1];
  }

  datatype TickReport = TickReport(ticks: nat, mean: nat, p50: nat, p95: nat, p99: nat, max: nat)

  /** The mean, rounded down. */
  ghost predicate IsMean(mean: nat, total: nat, n: nat) {
    mean * n <= total < (mean + 1) * n
  }

  method Mean(s: seq<nat>) returns (mean: nat)
    requires s != []
    ensures IsMean(mean, Sum(s), |s|)
  {
    var total := Total(s);
    mean := total / |s|;
    Quotient(total, |s|);
  }

  lemma Quotient(total: nat, n: nat)
    requires n > 0
    ensures IsMean(total / n, total, n)
  {
  }

  method Total(s: seq<nat>) returns (total: nat)
    ensures total == Sum(s)
  {
    total := 0;
    for i := 0 to |s|
      invariant total == Sum(s[..i])
    {
      Split(s[..i], [s[i]], 0);
      assert s[..i + 1] == s[..i] + [s[i]];
      total := total + s[i];
    }
    assert s[..|s|] == s;
  }

  /** The bench's report. */
  method FromSamples(samples: seq<nat>) returns (r: TickReport)
    ensures r.ticks == |samples|
    ensures IsPercentile(samples, 50, r.p50) && IsPercentile(samples, 95, r.p95) && IsPercentile(samples, 99, r.p99)
    ensures samples != [] ==> r.max in samples && forall v :: v in samples ==> v <= r.max
    ensures samples != [] ==> IsMean(r.mean, Sum(samples), |samples|)
    ensures samples == [] ==> r.mean == 0 && r.max == 0
  {
    if samples == [] {
      return TickReport(0, 0, 0, 0, 0, 0);
    }
    var sorted := Sorted(samples);
    SameSamples(samples, sorted, 0);
    var mean := Mean(sorted);
    PercentileOf(samples, sorted, 50);
    PercentileOf(samples, sorted, 95);
    PercentileOf(samples, sorted, 99);
    Largest(samples, sorted);
    r := TickReport(|sorted|, mean, Percentile(sorted, 50), Percentile(sorted, 95), Percentile(sorted, 99), sorted[|sorted| - 1]);
  }

  /** A higher percentile of the same samples is no lower, and is one of them. */
  lemma PercentilesInOrder(samples: seq<nat>, p: nat, q: nat, v: nat, w: nat)
    requires p <= q && IsPercentile(samples, p, v) && IsPercentile(samples, q, w)
    ensures v <= w
    ensures samples != [] ==> w in samples
  {
    if samples != [] {
      RankGrows(p, q, |samples|);
      RankedInOrder(samples, Rank(p, |samples|), Rank(q, |samples|), v, w);
    }
  }

  lemma Largest(samples: seq<nat>, sorted: seq<nat>)
    requires IsSorted(sorted) && multiset(sorted) == multiset(samples) && sorted != []
    ensures sorted[|sorted| - 1] in samples && forall v :: v in samples ==> v <= sorted[|sorted| - 1]
  {
    assert sorted[|sorted| - 1] in multiset(sorted);
    forall v | v in samples ensures v <= sorted[|sorted| - 1] {
      assert v in multiset(sorted);
      var i :| 0 <= i < |sorted| && sorted[i] == v;
    }
  }

  /** The two agree on any samples, in whatever order each saw them. */
  lemma BenchAndSwarmAgree(a: seq<nat>, b: seq<nat>, p: nat, v: nat, w: nat)
    requires multiset(a) == multiset(b) && IsPercentile(a, p, v) && IsPercentile(b, p, w)
    ensures v == w
  {
    SameSamples(a, b, 0);
    if a != [] { RankedOnce(a, b, Rank(p, |a|), v, w); }
  }
}
