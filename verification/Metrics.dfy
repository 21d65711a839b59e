/**
 Per-Attempt metrics: the summary of packages/backend/convex/attemptMetricsModel.ts and the upload
 rule of packages/backend/convex/attemptMetrics.ts. Numbers a Worker sends are integers here, so a
 negative count is representable and refused; quotients are exact.
 */
module Metrics {
  import opened Common
  import opened Sorting
  import opened Quantile

  const MAX_METRIC_POINTS := 360
  const METRICS_LATE_REPORT_MS := 15 * 60000
  const MAX_LAST_ERROR := 200
  const MAX_SOURCE_LENGTH := 32
  const MIB := 1024 * 1024

  datatype Columns = Columns(
    offset: seq<int>, ms: seq<int>, cpuMs: seq<int>, cpuMaxMilli: seq<int>, memBytes: seq<int>,
    netRx: Option<seq<int>>, netTx: Option<seq<int>>, diskRead: Option<seq<int>>, diskWrite: Option<seq<int>>)

  datatype Snapshot = Snapshot(
    source: string, startedAt: int, sampleSeconds: int, bucketSeconds: int, samples: int, errors: int,
    lastError: Option<string>, memoryPeakBytes: int, oomKills: Option<int>, points: Columns)

  datatype Summary = Summary(
    source: string, samples: int, errors: int, final: bool, durationMs: int, vcpus: int,
    cpuAvgVcpus: real, cpuP95Vcpus: real, cpuMaxVcpus: real, memoryLimitBytes: int, memoryPeakBytes: int,
    netRx: Option<int>, netTx: Option<int>, diskRead: Option<int>, diskWrite: Option<int>, oomKills: Option<int>)

  // ---------------------------------------------------------------------------------------------
  // Validation

  predicate IsCount(v: int) {
    0 <= v <= MAX_SAFE_INTEGER
  }

  /** The columns in the order an upload lists them. */
  function Entries(p: Columns): seq<Option<seq<int>>> {
    [Some(p.offset), Some(p.ms), Some(p.cpuMs), Some(p.cpuMaxMilli), Some(p.memBytes),
     p.netRx, p.netTx, p.diskRead, p.diskWrite]
  }

  ghost predicate ValidColumn(column: Option<seq<int>>, length: nat) {
    column.Some? ==> |column.value| == length && forall i :: 0 <= i < length ==> IsCount(column.value[i])
  }

  /** One point per bucket of the series, in order, each at its bucket's start. */
  ghost predicate InBuckets(offset: seq<int>, bucketSeconds: int, buckets: seq<nat>) {
    && |buckets| == |offset|
    && (forall i, j :: 0 <= i < j < |buckets| ==> buckets[i] < buckets[j])
    && (forall i :: 0 <= i < |buckets| ==> buckets[i] < MAX_METRIC_POINTS && offset[i] == buckets[i] * bucketSeconds)
  }

  /** Times, counts and lengths within their bounds. */
  ghost predicate ValidScalars(s: Snapshot, now: int) {
    && 0 < |s.source| <= MAX_SOURCE_LENGTH
    && 1 <= s.sampleSeconds <= 3600 && s.sampleSeconds <= s.bucketSeconds <= 86400
    && 1 <= s.samples <= MAX_SAFE_INTEGER
    && IsCount(s.errors) && IsCount(s.memoryPeakBytes) && (s.oomKills.Some? ==> IsCount(s.oomKills.value))
    && IsCount(s.startedAt) && s.startedAt <= now + 60 * 60000
  }

  ghost predicate ValidColumns(p: Columns) {
    && (forall i :: 0 <= i < |Entries(p)| ==> ValidColumn(Entries(p)[i], |p.offset|))
    && p.netRx.Some? == p.netTx.Some? && p.diskRead.Some? == p.diskWrite.Some?
  }

  /** What a series of at most 360 buckets can have produced. */
  ghost predicate ValidSnapshot(s: Snapshot, now: int) {
    && ValidScalars(s, now) && ValidColumns(s.points)
    && exists buckets :: InBuckets(s.points.offset, s.bucketSeconds, buckets)
  }

  /** The check the source makes of one offset. */
  predicate OffsetPasses(s: Snapshot, i: nat)
    requires i < |s.points.offset| && 0 < s.bucketSeconds
  {
    var offset := s.points.offset;
    && offset[i] % s.bucketSeconds == 0
    && offset[i] < MAX_METRIC_POINTS * s.bucketSeconds
    && (i > 0 ==> offset[i] > offset[i - 1])
  }

  method CheckScalars(s: Snapshot, now: int) returns (ok: bool)
    ensures ok <==> ValidScalars(s, now)
  {
    if |s.source| == 0 || |s.source| > MAX_SOURCE_LENGTH {
      return false;
    }
    if !IsCount(s.sampleSeconds) || s.sampleSeconds < 1 || s.sampleSeconds > 3600 {
      return false;
    }
    if !IsCount(s.bucketSeconds) || s.bucketSeconds < s.sampleSeconds || s.bucketSeconds > 86400 {
      return false;
    }
    if !IsCount(s.samples) || s.samples < 1 {
      return false;
    }
    if !IsCount(s.errors) || !IsCount(s.memoryPeakBytes) {
      return false;
    }
    if s.oomKills.Some? && !IsCount(s.oomKills.value) {
      return false;
    }
    return IsCount(s.startedAt) && s.startedAt <= now + 60 * 60000;
  }

  method AllCounts(column: seq<int>) returns (ok: bool)
    ensures ok <==> forall i :: 0 <= i < |column| ==> IsCount(column[i])
  {
    for i := 0 to |column|
      invariant forall j :: 0 <= j < i ==> IsCount(column[j])
    {
      if !IsCount(column[i]) {
        return false;
      }
    }
    return true;
  }

  method CheckColumns(p: Columns) returns (ok: bool)
    ensures ok <==> ValidColumns(p)
  {
    var columns := Entries(p);
    for c := 0 to |columns|
      invariant forall i :: 0 <= i < c ==> ValidColumn(columns[i], |p.offset|)
    {
      if columns[c].None? {
        continue;
      }
      if |columns[c].value| != |p.offset| {
        assert !ValidColumn(columns[c], |p.offset|);
        return false;
      }
      var counts := AllCounts(columns[c].value);
      if !counts {
        assert !ValidColumn(columns[c], |p.offset|);
        return false;
      }
    }
    return p.netRx.Some? == p.netTx.Some? && p.diskRead.Some? == p.diskWrite.Some?;
  }

  lemma {:induction false} AtMostOnePerBucket(buckets: seq<nat>, limit: nat)
    requires forall i, j :: 0 <= i < j < |buckets| ==> buckets[i] < buckets[j]
    requires forall i :: 0 <= i < |buckets| ==> buckets[i] < limit
    ensures |buckets| <= limit
  {
    if buckets != [] {
      var n := |buckets| - 1;
      AtMostOnePerBucket(buckets[..n], buckets[n]);
    }
  }

  lemma {:induction false} NoMultipleWithin(d: int, b: int)
    requires b > 0 && 0 <= d * b < b
    ensures d * b == 0
  {
    Scales(d, 1, b);
    Scales(-1, d, b);
  }

  lemma {:induction false} MultipleOf(x: int, b: int, k: int)
    requires b > 0 && x == k * b
    ensures x % b == 0
  {
    var q := x / b;
    assert x == q * b + x % b;
    assert (k - q) * b == k * b - q * b;
    NoMultipleWithin(k - q, b);
  }

  lemma Scales(a: int, b: int, k: int)
    requires k > 0
    ensures a < b <==> a * k < b * k
  {
    if a < b {
      assert (b - a) * k > 0;
    } else {
      assert (a - b) * k >= 0;
    }
  }

  /** An offset in its bucket passes, whatever comes before it. */
  lemma InBucketPasses(s: Snapshot, buckets: seq<nat>, i: nat)
    requires 0 < s.bucketSeconds && i < |s.points.offset| && InBuckets(s.points.offset, s.bucketSeconds, buckets)
    ensures OffsetPasses(s, i)
  {
    MultipleOf(s.points.offset[i], s.bucketSeconds, buckets[i]);
    Scales(buckets[i], MAX_METRIC_POINTS, s.bucketSeconds);
    if i > 0 {
      Scales(buckets[i - 1], buckets[i], s.bucketSeconds);
    }
  }

  function BucketsOf(offset: seq<int>, bucketSeconds: int): seq<int>
    requires bucketSeconds > 0
  {
    seq(|offset|, i requires 0 <= i < |offset| => offset[i] / bucketSeconds)
  }

  lemma PassingDivides(s: Snapshot, i: nat)
    requires 0 < s.bucketSeconds && i < |s.points.offset| && s.points.offset[i] >= 0 && OffsetPasses(s, i)
    ensures var b := s.points.offset[i] / s.bucketSeconds;
            0 <= b < MAX_METRIC_POINTS && s.points.offset[i] == b * s.bucketSeconds
  {
    var b := s.points.offset[i] / s.bucketSeconds;
    assert s.points.offset[i] == b * s.bucketSeconds;
    Scales(b, MAX_METRIC_POINTS, s.bucketSeconds);
    Scales(-1, b, s.bucketSeconds);
  }

  lemma {:induction false} BucketsIncrease(s: Snapshot, i: nat, j: nat)
    requires 0 < s.bucketSeconds && i < j < |s.points.offset|
    requires forall k :: 0 <= k < |s.points.offset| ==> s.points.offset[k] >= 0 && OffsetPasses(s, k)
    ensures s.points.offset[i] / s.bucketSeconds < s.points.offset[j] / s.bucketSeconds
    decreases j
  {
    PassingDivides(s, j - 1);
    PassingDivides(s, j);
    Scales(s.points.offset[j - 1] / s.bucketSeconds, s.points.offset[j] / s.bucketSeconds, s.bucketSeconds);
    if i < j - 1 {
      BucketsIncrease(s, i, j - 1);
    }
  }

  lemma PassingIsInBuckets(s: Snapshot)
    requires 0 < s.bucketSeconds
    requires forall k :: 0 <= k < |s.points.offset| ==> s.points.offset[k] >= 0 && OffsetPasses(s, k)
    ensures exists buckets :: InBuckets(s.points.offset, s.bucketSeconds, buckets)
  {
    var offset := s.points.offset;
    forall i | 0 <= i < |offset| ensures 0 <= offset[i] / s.bucketSeconds < MAX_METRIC_POINTS {
      PassingDivides(s, i);
    }
    var buckets: seq<nat> := BucketsOf(offset, s.bucketSeconds);
    forall i, j | 0 <= i < j < |buckets| ensures buckets[i] < buckets[j] {
      BucketsIncrease(s, i, j);
    }
    forall i | 0 <= i < |buckets| ensures buckets[i] < MAX_METRIC_POINTS && offset[i] == buckets[i] * s.bucketSeconds {
      PassingDivides(s, i);
    }
    assert InBuckets(offset, s.bucketSeconds, buckets);
  }

  method CheckOffsets(s: Snapshot) returns (ok: bool)
    requires 0 < s.bucketSeconds && forall i :: 0 <= i < |s.points.offset| ==> IsCount(s.points.offset[i])
    ensures ok <==> exists buckets :: InBuckets(s.points.offset, s.bucketSeconds, buckets)
  {
    for index := 0 to |s.points.offset|
      invariant forall i :: 0 <= i < index ==> OffsetPasses(s, i)
    {
      if !OffsetPasses(s, index) {
        forall buckets ensures !InBuckets(s.points.offset, s.bucketSeconds, buckets) {
          if InBuckets(s.points.offset, s.bucketSeconds, buckets) {
            InBucketPasses(s, buckets, index);
          }
        }
        return false;
      }
    }
    PassingIsInBuckets(s);
    return true;
  }

  /**
   Accepts exactly what a series of at most 360 buckets can have produced: the checks, made one by
   one and each ending the call, leave no other snapshot, and the limit on points refuses nothing more.
   */
  method AssertValidSnapshot(s: Snapshot, now: int) returns (ok: bool)
    ensures ok <==> ValidSnapshot(s, now)
  {
    var scalars := CheckScalars(s, now);
    if !scalars {
      return false;
    }
    if |s.points.offset| > MAX_METRIC_POINTS {
      forall buckets ensures !InBuckets(s.points.offset, s.bucketSeconds, buckets) {
        if InBuckets(s.points.offset, s.bucketSeconds, buckets) {
          AtMostOnePerBucket(buckets, MAX_METRIC_POINTS);
        }
      }
      return false;
    }
    var columns := CheckColumns(s.points);
    if !columns {
      return false;
    }
    assert ValidColumn(Entries(s.points)[0], |s.points.offset|);
    ok := CheckOffsets(s);
  }

  // ---------------------------------------------------------------------------------------------
  // The summary

  function Sum(xs: seq<int>): int {
    if xs == [] then 0 else xs[0] + Sum(xs[1..])
  }

  function SumOptional(xs: Option<seq<int>>): Option<int> {
    if xs.Some? then Some(Sum(xs.value)) else None
  }

  function MaxInt(floor: int, xs: seq<int>): (m: int)
    ensures m >= floor && forall i :: 0 <= i < |xs| ==> m >= xs[i]
    ensures m == floor || m in xs
  {
    if xs == [] then floor
    else
      var m := MaxInt(floor, xs[1..]);
      assert xs == [xs[0]] + xs[1..];
      if xs[0] > m then xs[0] else m
  }

  /** Math.max(0, ...values). */
  function Busiest(ps: seq<Point>): (m: real)
    ensures m >= 0.0 && forall i :: 0 <= i < |ps| ==> m >= ps[i].key
  {
    if ps == [] then 0.0
    else
      var m := Busiest(ps[1..]);
      assert ps == [ps[0]] + ps[1..];
      if ps[0].key > m then ps[0].key else m
  }

  function Bucket(ms: int, cpuMs: int): Point {
    Keyed(if ms > 0 then cpuMs as real / ms as real else 0.0, ms as real)
  }

  function PerBucket(p: Columns): seq<Point> {
    seq(|p.ms|, i requires 0 <= i < |p.ms| => Bucket(p.ms[i], if i < |p.cpuMs| then p.cpuMs[i] else 0))
  }

  function Average(cpuMs: int, durationMs: int): real {
    if durationMs > 0 then cpuMs as real / durationMs as real else 0.0
  }

  function Summarize(s: Snapshot, vcpus: int, memoryMiB: int, final: bool): Summary {
    var p := s.points;
    var duration := Sum(p.ms);
    var busiestBucket := Busiest(PerBucket(p));
    var busiestInterval := MaxInt(0, p.cpuMaxMilli) as real / 1000.0;
    Summary(
      s.source, s.samples, s.errors, final, duration, vcpus,
      Average(Sum(p.cpuMs), duration),
      WeightedQuantile(PerBucket(p), 0.95),
      if busiestBucket > busiestInterval then busiestBucket else busiestInterval,
      memoryMiB * MIB,
      MaxInt(s.memoryPeakBytes, p.memBytes),
      SumOptional(p.netRx), SumOptional(p.netTx), SumOptional(p.diskRead), SumOptional(p.diskWrite),
      s.oomKills)
  }

  /** The reported p95 never exceeds the reported maximum, whatever was uploaded. */
  lemma P95WithinMax(s: Snapshot, vcpus: int, memoryMiB: int, final: bool)
    ensures var m := Summarize(s, vcpus, memoryMiB, final); 0.0 <= m.cpuMaxVcpus && m.cpuP95Vcpus <= m.cpuMaxVcpus
  {
    QuantileIsAValue(PerBucket(s.points), 0.95);
  }

  /** No bucket of zero length carries CPU time. */
  predicate NoCpuInNoTime(p: Columns)
  {
    forall i :: 0 <= i < |p.ms| && i < |p.cpuMs| && p.ms[i] == 0 ==> p.cpuMs[i] == 0
  }

  /** No bucket uses more than this rate, and buckets of no time use nothing. */
  ghost predicate UseAtMost(ms: seq<int>, cpu: seq<int>, rate: real) {
    && |ms| == |cpu| && rate >= 0.0
    && (forall i :: 0 <= i < |ms| ==> 0 <= ms[i] && 0 <= cpu[i] && (ms[i] == 0 ==> cpu[i] == 0))
    && (forall i :: 0 <= i < |ms| ==> Bucket(ms[i], cpu[i]).key <= rate)
  }

  ghost predicate AtRate(cpuMs: int, durationMs: int, rate: real) {
    cpuMs as real <= rate * durationMs as real
  }

  lemma {:induction false} CpuBoundedByRate(ms: seq<int>, cpu: seq<int>, rate: real)
    requires UseAtMost(ms, cpu, rate)
    ensures 0 <= Sum(ms) && AtRate(Sum(cpu), Sum(ms), rate)
  {
    if ms == [] {
      assert cpu == [];
    } else {
      CpuBoundedByRate(ms[1..], cpu[1..], rate);
      HeadBounded(ms[0], cpu[0], rate);
      RatesAdd(ms[0], cpu[0], Sum(ms[1..]), Sum(cpu[1..]), rate);
    }
  }

  lemma RatesAdd(ms: int, cpu: int, ms': int, cpu': int, rate: real)
    requires AtRate(cpu, ms, rate) && AtRate(cpu', ms', rate)
    ensures AtRate(cpu + cpu', ms + ms', rate)
  {
    assert rate * (ms + ms') as real == rate * ms as real + rate * ms' as real;
  }

  lemma HeadBounded(ms: int, cpu: int, rate: real)
    requires 0 <= ms && (ms == 0 ==> cpu == 0) && Bucket(ms, cpu).key <= rate
    ensures AtRate(cpu, ms, rate)
  {
    if ms > 0 {
      var m := ms as real;
      assert (cpu as real / m) * m == cpu as real;
      assert (rate - cpu as real / m) * m >= 0.0;
    }
  }

  lemma SameLengths(p: Columns)
    requires ValidColumns(p)
    ensures |p.ms| == |p.cpuMs| == |p.cpuMaxMilli| == |p.offset|
    ensures forall i :: 0 <= i < |p.offset| ==> IsCount(p.ms[i]) && IsCount(p.cpuMs[i]) && IsCount(p.cpuMaxMilli[i])
  {
    assert ValidColumn(Entries(p)[1], |p.offset|);
    assert ValidColumn(Entries(p)[2], |p.offset|);
    assert ValidColumn(Entries(p)[3], |p.offset|);
  }

  /** On a snapshot the control plane accepts, the average is within the maximum too. */
  lemma AverageWithinMax(s: Snapshot, now: int, vcpus: int, memoryMiB: int, final: bool)
    requires ValidSnapshot(s, now) && NoCpuInNoTime(s.points)
    ensures var m := Summarize(s, vcpus, memoryMiB, final); m.cpuAvgVcpus <= m.cpuMaxVcpus
  {
    var p := s.points;
    SameLengths(p);
    var rate := Busiest(PerBucket(p));
    forall i | 0 <= i < |p.ms| ensures Bucket(p.ms[i], p.cpuMs[i]).key <= rate {
      assert PerBucket(p)[i] == Bucket(p.ms[i], p.cpuMs[i]);
    }
    CpuBoundedByRate(p.ms, p.cpuMs, rate);
    AverageAtMost(Sum(p.cpuMs), Sum(p.ms), rate);
  }

  lemma AverageAtMost(cpuMs: int, durationMs: int, rate: real)
    requires rate >= 0.0 && AtRate(cpuMs, durationMs, rate)
    ensures Average(cpuMs, durationMs) <= rate
  {
    if durationMs > 0 {
      QuotientBound(cpuMs as real, durationMs as real, rate);
    }
  }

  lemma QuotientBound(a: real, d: real, rate: real)
    requires d > 0.0 && a <= rate * d
    ensures a / d <= rate
  {
    assert (a / d) * d == a;
    var excess := a / d - rate;
    assert excess * d == a - rate * d;
    assert excess > 0.0 ==> excess * d > 0.0;
  }

  /** Any CPU time in a zero-length bucket can break that: `z` ms of it in an otherwise idle series. */
  function IdleButFor(z: int, d: int): Snapshot {
    Snapshot("cgroup", 0, 1, 1, 2, 0, None, 0, None,
      Columns([0, 1], [0, d], [z, 0], [0, 0], [0, 0], None, None, None, None))
  }

  lemma SumOfTwo(x: int, y: int)
    ensures Sum([x, y]) == x + y
  {
    assert [x, y][1..] == [y] && [y][1..] == [];
    assert Sum([y]) == y + Sum([]);
  }

  lemma AverageBoundIsSharp(z: int, d: int, now: int, vcpus: int, memoryMiB: int, final: bool)
    requires 0 < z <= MAX_SAFE_INTEGER && 0 < d <= MAX_SAFE_INTEGER && 0 <= now
    ensures ValidSnapshot(IdleButFor(z, d), now) && !NoCpuInNoTime(IdleButFor(z, d).points)
    ensures var m := Summarize(IdleButFor(z, d), vcpus, memoryMiB, final);
            m.cpuMaxVcpus == 0.0 && m.cpuAvgVcpus == z as real / d as real > 0.0
  {
    var p := IdleButFor(z, d).points;
    assert InBuckets(p.offset, 1, [0, 1]);
    SumOfTwo(0, d);
    SumOfTwo(z, 0);
    var ps := PerBucket(p);
    assert ps == [Keyed(0.0, 0.0), Keyed(0.0, d as real)];
    assert ps[1..] == [Keyed(0.0, d as real)];
    assert ps[1..][1..] == [];
    assert Busiest(ps[1..][1..]) == 0.0;
    assert Busiest(ps[1..]) == 0.0;
    assert z as real > 0.0 && d as real > 0.0;
  }

  /** The same time in every bucket and the same CPU in the buckets of no time. */
  ghost predicate SameEmptyBuckets(p: Columns, p': Columns) {
    && p'.ms == p.ms && |p'.cpuMs| == |p.cpuMs|
    && forall i :: 0 <= i < |p.ms| && i < |p.cpuMs| && p.ms[i] == 0 ==> p'.cpuMs[i] == p.cpuMs[i]
  }

  /** The snapshot with no other CPU than that of its empty buckets. */
  function Quieted(s: Snapshot): Snapshot {
    var p := s.points;
    s.(points := p.(
      cpuMs := seq(|p.cpuMs|, i requires 0 <= i < |p.cpuMs| => if i < |p.ms| && p.ms[i] == 0 then p.cpuMs[i] else 0),
      cpuMaxMilli := seq(|p.cpuMaxMilli|, i => 0)))
  }

  lemma QuietedIsValid(s: Snapshot, now: int)
    requires ValidSnapshot(s, now)
    ensures ValidSnapshot(Quieted(s), now) && SameEmptyBuckets(s.points, Quieted(s).points)
  {
    var p, q := s.points, Quieted(s).points;
    SameLengths(p);
    forall i | 0 <= i < |Entries(q)| ensures ValidColumn(Entries(q)[i], |q.offset|) {
      assert ValidColumn(Entries(p)[i], |p.offset|);
    }
  }

  lemma {:induction false} SumAtLeast(xs: seq<int>, i: nat)
    requires i < |xs| && forall j :: 0 <= j < |xs| ==> xs[j] >= 0
    ensures Sum(xs) >= xs[i]
  {
    if i == 0 {
      SumIsNatural(xs[1..]);
    } else {
      SumAtLeast(xs[1..], i - 1);
    }
  }

  lemma {:induction false} SumIsNatural(xs: seq<int>)
    requires forall j :: 0 <= j < |xs| ==> xs[j] >= 0
    ensures Sum(xs) >= 0
  {
    if xs != [] {
      SumIsNatural(xs[1..]);
    }
  }

  lemma {:induction false} NothingBusy(ps: seq<Point>)
    requires forall i :: 0 <= i < |ps| ==> ps[i].key == 0.0
    ensures Busiest(ps) == 0.0
  {
    if ps != [] {
      NothingBusy(ps[1..]);
    }
  }

  /** Quieted, the maximum is nothing; the CPU of an empty bucket still counts in the average. */
  lemma QuietedExceeds(s: Snapshot, now: int, vcpus: int, memoryMiB: int, final: bool, i: nat)
    requires ValidSnapshot(s, now) && Sum(s.points.ms) > 0
    requires i < |s.points.ms| && i < |s.points.cpuMs| && s.points.ms[i] == 0 && s.points.cpuMs[i] != 0
    ensures var m := Summarize(Quieted(s), vcpus, memoryMiB, final); m.cpuMaxVcpus == 0.0 < m.cpuAvgVcpus
  {
    var q := Quieted(s).points;
    SameLengths(s.points);
    SumAtLeast(q.cpuMs, i);
    forall k | 0 <= k < |PerBucket(q)| ensures PerBucket(q)[k].key == 0.0 {
    }
    NothingBusy(PerBucket(q));
    QuotientPositive(Sum(q.cpuMs) as real, Sum(q.ms) as real);
  }

  lemma QuotientPositive(a: real, d: real)
    requires a > 0.0 && d > 0.0
    ensures a / d > 0.0
  {
  }

  /**
   Exactly when the average stays within the maximum: it does for every accepted snapshot with this
   time and this CPU in its empty buckets if and only if they carry none, or there is no time at all.
   */
  lemma AverageWithinMaxIff(s: Snapshot, now: int, vcpus: int, memoryMiB: int, final: bool)
    requires ValidSnapshot(s, now)
    ensures (forall s' :: ValidSnapshot(s', now) && SameEmptyBuckets(s.points, s'.points) ==>
               Summarize(s', vcpus, memoryMiB, final).cpuAvgVcpus <= Summarize(s', vcpus, memoryMiB, final).cpuMaxVcpus)
            <==> Sum(s.points.ms) == 0 || NoCpuInNoTime(s.points)
  {
    SameLengths(s.points);
    if Sum(s.points.ms) == 0 || NoCpuInNoTime(s.points) {
      forall s' | ValidSnapshot(s', now) && SameEmptyBuckets(s.points, s'.points)
        ensures Summarize(s', vcpus, memoryMiB, final).cpuAvgVcpus <= Summarize(s', vcpus, memoryMiB, final).cpuMaxVcpus
      {
        if Sum(s.points.ms) != 0 {
          AverageWithinMax(s', now, vcpus, memoryMiB, final);
        }
      }
    } else {
      var i :| 0 <= i < |s.points.ms| && i < |s.points.cpuMs| && s.points.ms[i] == 0 && s.points.cpuMs[i] != 0;
      SumIsNatural(s.points.ms);
      QuietedIsValid(s, now);
      QuietedExceeds(s, now, vcpus, memoryMiB, final, i);
    }
  }

  // ---------------------------------------------------------------------------------------------
  // Uploads: which one survives

  datatype Upload = Upload(final: bool, snapshot: Snapshot)

  /** One accepted upload: nothing replaces a final one, and fewer samples never replace more. */
  function Deliver(stored: Option<Upload>, u: Upload): Option<Upload> {
    if stored.None? then Some(u)
    else
      var e := stored.value;
      if e.final || u.snapshot.samples < e.snapshot.samples
        || (u.snapshot.samples == e.snapshot.samples && !u.final)
      then stored else Some(u)
  }

  /** Another upload replaces a stored one that is not final exactly if it has more samples, or as many and is final. */
  lemma ReplacedOnlyByNewer(e: Upload, u: Upload)
    requires u != e
    ensures Deliver(Some(e), u) == Some(u) <==>
            && !e.final
            && (u.snapshot.samples > e.snapshot.samples || (u.snapshot.samples == e.snapshot.samples && u.final))
    ensures Deliver(Some(e), u) != Some(u) ==> Deliver(Some(e), u) == Some(e)
  {
  }

  function DeliverAll(stored: Option<Upload>, us: seq<Upload>): Option<Upload>
    decreases us
  {
    if us == [] then stored else DeliverAll(Deliver(stored, us[0]), us[1..])
  }

  /** The order a Worker produces uploads in: by samples, the final one last. */
  predicate AtMostAsNew(u: Upload, v: Upload) {
    (u.final ==> v.final) && u.snapshot.samples <= v.snapshot.samples
  }

  /** Two uploads of one Worker: the same one, or one strictly after the other and at most one final. */
  predicate InOrder(u: Upload, v: Upload) {
    u == v || (!(u.final && v.final) && AtMostAsNew(u, v) != AtMostAsNew(v, u))
  }

  ghost predicate FromOneWorker(us: seq<Upload>) {
    forall u, v :: u in us && v in us ==> InOrder(u, v)
  }

  ghost predicate Newest(us: seq<Upload>, u: Upload) {
    u in us && forall v :: v in us ==> AtMostAsNew(v, u)
  }

  lemma {:induction false} DeliveriesKeepNewest(first: Upload, us: seq<Upload>)
    requires FromOneWorker([first] + us)
    ensures var r := DeliverAll(Some(first), us); r.Some? && Newest([first] + us, r.value)
    decreases us
  {
    if us != [] {
      var kept := Deliver(Some(first), us[0]).value;
      assert us == [us[0]] + us[1..];
      assert InOrder(first, us[0]);
      assert AtMostAsNew(first, kept) && AtMostAsNew(us[0], kept);
      DeliveriesKeepNewest(kept, us[1..]);
      assert kept in [kept] + us[1..];
    }
  }

  /**
   Convergence: two deliveries of one Worker's uploads that cover the same uploads, in any order
   and with any repetition, store the same one, the newest.
   */
  lemma UploadsConverge(us: seq<Upload>, vs: seq<Upload>)
    requires us != [] && FromOneWorker(us)
    requires forall u :: u in us <==> u in vs
    ensures DeliverAll(None, us) == DeliverAll(None, vs)
    ensures DeliverAll(None, us).Some? && Newest(us, DeliverAll(None, us).value)
  {
    assert us[0] in vs;
    assert us == [us[0]] + us[1..] && vs == [vs[0]] + vs[1..];
    DeliveriesKeepNewest(us[0], us[1..]);
    DeliveriesKeepNewest(vs[0], vs[1..]);
    var r, q := DeliverAll(None, us).value, DeliverAll(None, vs).value;
    assert AtMostAsNew(r, q) && AtMostAsNew(q, r);
  }

  /** A replay of anything already delivered changes nothing. */
  lemma ReplayChangesNothing(us: seq<Upload>, u: Upload)
    requires FromOneWorker(us) && u in us
    ensures Deliver(DeliverAll(None, us), u) == DeliverAll(None, us)
  {
    UploadsConverge(us, us);
    assert InOrder(u, DeliverAll(None, us).value);
  }

  /** Two deliveries may swap exactly when the Worker ordered them. */
  lemma CommuteIffInOrder(u: Upload, v: Upload)
    ensures DeliverAll(None, [u, v]) == DeliverAll(None, [v, u]) <==> InOrder(u, v)
  {
    TwoDeliveries(u, v);
    TwoDeliveries(v, u);
  }

  lemma TwoDeliveries(u: Upload, v: Upload)
    ensures DeliverAll(None, [u, v]) == Deliver(Some(u), v)
  {
    assert [u, v][1..] == [v] && [v][1..] == [];
    assert DeliverAll(Some(u), [v]) == DeliverAll(Deliver(Some(u), v), []);
  }

  // ---------------------------------------------------------------------------------------------
  // The tables

  type AttemptId = nat
  type MachineId = nat

  datatype Attempt = Attempt(machineId: Option<MachineId>, vcpus: int, memoryMiB: int, finishedAt: Option<int>)

  /** An Attempt's summary row together with the series row it points to. */
  datatype Rows = Rows(machineId: MachineId, updatedAt: int, series: Snapshot, summary: Summary)

  /** The series keeps the snapshot with its error text cut short. */
  function Stored(s: Snapshot): Snapshot {
    s.(lastError := match s.lastError
                    case None => None
                    case Some(e) => Some(if |e| > MAX_LAST_ERROR then e[..MAX_LAST_ERROR] else e))
  }

  /** Only an error text over 200 characters is shortened, to its first 200. */
  lemma StoredKeeps(s: Snapshot)
    ensures Stored(s).(lastError := s.lastError) == s
    ensures s.lastError.Some? <==> Stored(s).lastError.Some?
    ensures s.lastError.Some? ==>
              var e, e' := s.lastError.value, Stored(s).lastError.value;
              e' <= e && |e'| == if |e| < 200 then |e| else 200
  {
  }

  predicate Superseded(existing: Summary, final: bool, samples: int) {
    existing.final || samples < existing.samples || (samples == existing.samples && !final)
  }

  class MetricsTables {
    const attempts: map<AttemptId, Attempt>
    var rows: map<AttemptId, Rows>
    /** The upload each Attempt's rows were written from. */
    ghost var uploads: map<AttemptId, Upload>

    ghost predicate Valid()
      reads this
    {
      && uploads.Keys == rows.Keys <= attempts.Keys
      && forall a :: a in rows ==> Describes(rows[a], attempts[a], uploads[a])
    }

    /** Series and summary of an Attempt tell of the same upload. */
    static ghost predicate Describes(rows: Rows, attempt: Attempt, u: Upload) {
      && rows.series == Stored(u.snapshot)
      && rows.summary == Summarize(u.snapshot, attempt.vcpus, attempt.memoryMiB, u.final)
    }

    ghost function Held(a: AttemptId): Option<Upload>
      reads this
    {
      if a in uploads then Some(uploads[a]) else None
    }

    /** Whether this Worker may still write to the Attempt. */
    predicate Accepts(machine: MachineId, a: AttemptId, now: int) {
      && a in attempts && attempts[a].machineId == Some(machine)
      && !(attempts[a].finishedAt.Some? && now - attempts[a].finishedAt.value > METRICS_LATE_REPORT_MS)
    }

    constructor (attempts: map<AttemptId, Attempt>)
      ensures Valid() && this.attempts == attempts && uploads == map[]
    {
      this.attempts := attempts;
      rows, uploads := map[], map[];
    }

    /**
     An upload that may be written follows `Deliver`. When it is superseded, and when it is refused,
     the rows stay as they are; no other Attempt's rows ever change.
     */
    method RecordAttemptMetrics(machine: MachineId, a: AttemptId, final: bool, snapshot: Snapshot, now: int)
      returns (r: Result<bool>)
      requires Valid()
      modifies this
      ensures Valid()
      ensures r == Ok(false) <==>
                || a !in attempts || attempts[a].machineId != Some(machine)
                || (attempts[a].finishedAt.Some? && now > attempts[a].finishedAt.value + 900_000)
      ensures !Accepts(machine, a, now) ==> r == Ok(false)
      ensures Accepts(machine, a, now) ==>
                r == if ValidSnapshot(snapshot, now) then Ok(true) else Err("invalid snapshot")
      ensures Held(a) == if r == Ok(true) then Deliver(old(Held(a)), Upload(final, snapshot)) else old(Held(a))
      ensures Held(a) == old(Held(a)) ==> rows == old(rows)
      ensures Held(a) != old(Held(a)) ==> a in rows && rows == old(rows)[a := rows[a]]
    {
      if !Accepts(machine, a, now) {
        return Ok(false);
      }
      var ok := AssertValidSnapshot(snapshot, now);
      if !ok {
        return Err("invalid snapshot");
      }
      if a in rows && Superseded(rows[a].summary, final, snapshot.samples) {
        return Ok(true);
      }
      Write(machine, a, final, snapshot, now);
      return Ok(true);
    }

    method Write(machine: MachineId, a: AttemptId, final: bool, snapshot: Snapshot, now: int)
      requires Valid() && a in attempts
      modifies this
      ensures Valid() && uploads == old(uploads)[a := Upload(final, snapshot)]
      ensures a in rows && rows == old(rows)[a := rows[a]] && rows[a].machineId == machine && rows[a].updatedAt == now
    {
      var summary := Summarize(snapshot, attempts[a].vcpus, attempts[a].memoryMiB, final);
      rows := rows[a := Rows(machine, now, Stored(snapshot), summary)];
      uploads := uploads[a := Upload(final, snapshot)];
    }
  }
}
