/**
 What the numbers of a metrics summary mean, in the integers a Worker uploads: the 95th percentile and the
 maximum are usages of the series, and the totals add up bucket by bucket.
 */
module MetricsReport {
  import opened Common
  import opened Sorting
  import opened Quantile
  import opened Metrics

  // ---------------------------------------------------------------------------------------------
  // The 95th percentile

  /** The bucket used at most as much CPU per time as `c` in `m`; less, if `strict`. */
  predicate UsesUpTo(cpu: int, ms: int, c: int, m: int, strict: bool) {
    if strict then cpu * m < c * ms else cpu * m <= c * ms
  }

  /** The time in buckets that used at most, or less than, `c` in `m`. */
  function TimeUpTo(ms: seq<int>, cpu: seq<int>, c: int, m: int, strict: bool): int
    requires |ms| == |cpu|
  {
    if ms == [] then 0
    else (if UsesUpTo(cpu[0], ms[0], c, m, strict) then ms[0] else 0) + TimeUpTo(ms[1..], cpu[1..], c, m, strict)
  }

  ghost predicate Counts(ms: seq<int>, cpu: seq<int>) {
    |ms| == |cpu| && forall i :: 0 <= i < |ms| ==> ms[i] >= 0 && cpu[i] >= 0
  }

  ghost predicate Plots(ps: seq<Point>, ms: seq<int>, cpu: seq<int>) {
    && |ps| == |ms| == |cpu|
    && forall i :: 0 <= i < |ms| ==>
         ps[i].item == ms[i] as real && (ms[i] > 0 ==> ps[i].key == cpu[i] as real / ms[i] as real)
  }

  lemma OneBucketsTime(p: Point, ms: int, cpu: int, c: int, m: int, strict: bool)
    requires ms >= 0 && cpu >= 0 && c >= 0 && m > 0 && p.item == ms as real
    requires ms > 0 ==> p.key == cpu as real / ms as real
    ensures var r := c as real / m as real;
            (if p.item > 0.0 && (if strict then p.key < r else p.key <= r) then p.item else 0.0) ==
            (if UsesUpTo(cpu, ms, c, m, strict) then ms else 0) as real
  {
    if ms > 0 {
      FractionOrder(cpu, ms, c, m);
      FractionOrder(c, m, cpu, ms);
    }
  }

  lemma {:induction false} WeightIsTime(ps: seq<Point>, ms: seq<int>, cpu: seq<int>, c: int, m: int)
    requires Counts(ms, cpu) && Plots(ps, ms, cpu) && c >= 0 && m > 0
    ensures AtMost(ps, c as real / m as real) == TimeUpTo(ms, cpu, c, m, false) as real
    ensures Below(ps, c as real / m as real) == TimeUpTo(ms, cpu, c, m, true) as real
  {
    if ms != [] {
      WeightIsTime(ps[1..], ms[1..], cpu[1..], c, m);
      OneBucketsTime(ps[0], ms[0], cpu[0], c, m, false);
      OneBucketsTime(ps[0], ms[0], cpu[0], c, m, true);
    }
  }

  lemma {:induction false} TotalIsTime(ps: seq<Point>, ms: seq<int>, cpu: seq<int>)
    requires Counts(ms, cpu) && Plots(ps, ms, cpu)
    ensures Total(ps) == Sum(ms) as real
  {
    if ms != [] {
      TotalIsTime(ps[1..], ms[1..], cpu[1..]);
    }
  }

  lemma {:induction false} PerBucketPlots(p: Columns)
    requires |p.ms| == |p.cpuMs|
    ensures Plots(PerBucket(p), p.ms, p.cpuMs)
  {
  }

  lemma ShareOfTime(below: int, total: int, upTo: int)
    requires below as real < 0.95 * total as real <= upTo as real
    ensures 100 * below < 95 * total <= 100 * upTo
  {
  }

  /** The bucket's usage is the 95th percentile: 95% of the time used at most that, and less than 95% used less. */
  ghost predicate IsP95(p: Columns, i: nat)
    requires |p.ms| == |p.cpuMs|
  {
    && i < |p.ms| && p.ms[i] > 0
    && 100 * TimeUpTo(p.ms, p.cpuMs, p.cpuMs[i], p.ms[i], true) < 95 * Sum(p.ms)
    && 95 * Sum(p.ms) <= 100 * TimeUpTo(p.ms, p.cpuMs, p.cpuMs[i], p.ms[i], false)
  }

  lemma QuantileBucket(p: Columns, r: real) returns (i: nat)
    requires Counts(p.ms, p.cpuMs) && Sum(p.ms) > 0 && IsQuantile(PerBucket(p), 0.95, r)
    ensures IsP95(p, i) && r == p.cpuMs[i] as real / p.ms[i] as real
  {
    var ps := PerBucket(p);
    PerBucketPlots(p);
    i :| 0 <= i < |ps| && ps[i].item > 0.0 && ps[i].key == r;
    TotalIsTime(ps, p.ms, p.cpuMs);
    WeightIsTime(ps, p.ms, p.cpuMs, p.cpuMs[i], p.ms[i]);
    ShareOfTime(TimeUpTo(p.ms, p.cpuMs, p.cpuMs[i], p.ms[i], true), Sum(p.ms),
                TimeUpTo(p.ms, p.cpuMs, p.cpuMs[i], p.ms[i], false));
  }

  /** On an accepted snapshot that covers any time, the reported p95 is the usage of a bucket that is the p95. */
  lemma P95IsAUsage(s: Snapshot, now: int, vcpus: int, memoryMiB: int, final: bool) returns (i: nat)
    requires ValidSnapshot(s, now) && Sum(s.points.ms) > 0
    ensures |s.points.ms| == |s.points.cpuMs| && IsP95(s.points, i)
    ensures Summarize(s, vcpus, memoryMiB, final).cpuP95Vcpus == s.points.cpuMs[i] as real / s.points.ms[i] as real
  {
    var p := s.points;
    SameLengths(p);
    PerBucketPlots(p);
    TotalIsTime(PerBucket(p), p.ms, p.cpuMs);
    QuantileIsReached(PerBucket(p), 0.95);
    i := QuantileBucket(p, Summarize(s, vcpus, memoryMiB, final).cpuP95Vcpus);
  }

  // ---------------------------------------------------------------------------------------------
  // Average, maximum and peak

  lemma {:induction false} BusiestIsOne(ps: seq<Point>)
    ensures Busiest(ps) == 0.0 || exists i :: 0 <= i < |ps| && ps[i].key == Busiest(ps)
  {
    if ps != [] {
      BusiestIsOne(ps[1..]);
      if Busiest(ps) == Busiest(ps[1..]) && Busiest(ps) != 0.0 {
        var i :| 0 <= i < |ps[1..]| && ps[1..][i].key == Busiest(ps[1..]);
        assert ps[i + 1].key == Busiest(ps);
      }
    }
  }

  /** The usage of bucket `i`, or the busiest interval it saw. */
  ghost predicate Peaks(p: Columns, i: nat, max: real) {
    || (i < |p.ms| && i < |p.cpuMs| && p.ms[i] > 0 && max == p.cpuMs[i] as real / p.ms[i] as real)
    || (i < |p.cpuMaxMilli| && max == p.cpuMaxMilli[i] as real / 1000.0)
  }

  /** The reported maximum bounds every bucket and every interval, and is one of them unless nothing ran. */
  lemma MaxIsAPeak(s: Snapshot, now: int, vcpus: int, memoryMiB: int, final: bool)
    requires ValidSnapshot(s, now)
    ensures var p, max := s.points, Summarize(s, vcpus, memoryMiB, final).cpuMaxVcpus;
            && (forall i :: 0 <= i < |p.ms| && i < |p.cpuMs| && p.ms[i] > 0 ==>
                  p.cpuMs[i] as real / p.ms[i] as real <= max)
            && (forall i :: 0 <= i < |p.cpuMaxMilli| ==> p.cpuMaxMilli[i] as real / 1000.0 <= max)
            && (max == 0.0 || exists i :: 0 <= i < |p.offset| && Peaks(p, i, max))
  {
    var p, max := s.points, Summarize(s, vcpus, memoryMiB, final).cpuMaxVcpus;
    var ps := PerBucket(p);
    SameLengths(p);
    PerBucketPlots(p);
    BusiestIsOne(ps);
    forall i | 0 <= i < |p.ms| && p.ms[i] > 0 ensures p.cpuMs[i] as real / p.ms[i] as real <= max {
      assert ps[i].key <= Busiest(ps);
    }
    if max == Busiest(ps) && max != 0.0 {
      var i :| 0 <= i < |ps| && ps[i].key == max;
      assert Peaks(p, i, max);
    } else if max != 0.0 {
      var i :| 0 <= i < |p.cpuMaxMilli| && p.cpuMaxMilli[i] == MaxInt(0, p.cpuMaxMilli);
      assert Peaks(p, i, max);
    }
  }

  /** Over this time, this average is that much CPU. */
  ghost predicate Averages(avg: real, durationMs: int, cpuMs: int) {
    if durationMs > 0 then avg * durationMs as real == cpuMs as real else avg == 0.0
  }

  lemma AverageAverages(cpuMs: int, durationMs: int)
    ensures Averages(Average(cpuMs, durationMs), durationMs, cpuMs)
  {
  }

  /** The average times the time is the CPU used. */
  lemma AverageIsUsage(s: Snapshot, vcpus: int, memoryMiB: int, final: bool)
    ensures var m := Summarize(s, vcpus, memoryMiB, final);
            m.durationMs == Sum(s.points.ms) && Averages(m.cpuAvgVcpus, m.durationMs, Sum(s.points.cpuMs))
  {
    AverageAverages(Sum(s.points.cpuMs), Sum(s.points.ms));
  }

  /** The memory peak is the largest reading of all, and what was allotted comes from the Attempt. */
  lemma PeakIsAReading(s: Snapshot, vcpus: int, memoryMiB: int, final: bool)
    ensures var m := Summarize(s, vcpus, memoryMiB, final);
            && m.memoryPeakBytes >= s.memoryPeakBytes
            && (forall i :: 0 <= i < |s.points.memBytes| ==> m.memoryPeakBytes >= s.points.memBytes[i])
            && (m.memoryPeakBytes == s.memoryPeakBytes || m.memoryPeakBytes in s.points.memBytes)
            && m.memoryLimitBytes == memoryMiB * 1_048_576 && m.vcpus == vcpus && m.final == final
            && m.samples == s.samples && m.errors == s.errors && m.oomKills == s.oomKills && m.source == s.source
  {
  }

  // ---------------------------------------------------------------------------------------------
  // Totals

  function Cut(column: Option<seq<int>>, lo: nat, hi: nat): Option<seq<int>>
    requires lo <= hi && (column.Some? ==> hi <= |column.value|)
  {
    if column.Some? then Some(column.value[lo..hi]) else None
  }

  /** The columns have this many entries, those that are there. */
  ghost predicate Sized(p: Columns, n: nat) {
    forall i :: 0 <= i < |Entries(p)| && Entries(p)[i].Some? ==> |Entries(p)[i].value| == n
  }

  lemma SizedColumns(p: Columns, n: nat)
    requires Sized(p, n)
    ensures |p.offset| == |p.ms| == |p.cpuMs| == |p.cpuMaxMilli| == |p.memBytes| == n
    ensures (p.netRx.Some? ==> |p.netRx.value| == n) && (p.netTx.Some? ==> |p.netTx.value| == n)
    ensures (p.diskRead.Some? ==> |p.diskRead.value| == n) && (p.diskWrite.Some? ==> |p.diskWrite.value| == n)
  {
    var es := Entries(p);
    assert es[0] == Some(p.offset) && es[1] == Some(p.ms) && es[2] == Some(p.cpuMs) && es[3] == Some(p.cpuMaxMilli);
    assert es[4] == Some(p.memBytes) && es[5] == p.netRx && es[6] == p.netTx && es[7] == p.diskRead;
    assert es[8] == p.diskWrite;
  }

  /** The buckets of a series from `lo` up to `hi`. */
  function Stretch(s: Snapshot, lo: nat, hi: nat): Snapshot
    requires lo <= hi <= |s.points.offset| && ValidColumns(s.points)
  {
    assert Sized(s.points, |s.points.offset|) by {
      AcceptedIsSized(s.points);
    }
    SizedColumns(s.points, |s.points.offset|);
    var p := s.points;
    s.(points := Columns(p.offset[lo..hi], p.ms[lo..hi], p.cpuMs[lo..hi], p.cpuMaxMilli[lo..hi], p.memBytes[lo..hi],
                         Cut(p.netRx, lo, hi), Cut(p.netTx, lo, hi), Cut(p.diskRead, lo, hi), Cut(p.diskWrite, lo, hi)))
  }

  lemma AcceptedIsSized(p: Columns)
    requires ValidColumns(p)
    ensures Sized(p, |p.offset|)
  {
    forall i | 0 <= i < |Entries(p)| && Entries(p)[i].Some? ensures |Entries(p)[i].value| == |p.offset| {
      assert ValidColumn(Entries(p)[i], |p.offset|);
    }
  }

  lemma {:induction false} SumSplits(xs: seq<int>, k: nat)
    requires k <= |xs|
    ensures Sum(xs) == Sum(xs[..k]) + Sum(xs[k..])
  {
    if k > 0 {
      assert xs[1..][..k - 1] == xs[..k][1..] && xs[1..][k - 1..] == xs[k..];
      SumSplits(xs[1..], k - 1);
    } else {
      assert xs[k..] == xs;
    }
  }

  /** A total of the whole is the totals of the parts added up, or missing in all three. */
  predicate Adds(whole: Option<int>, first: Option<int>, rest: Option<int>) {
    if whole.None? then first.None? && rest.None?
    else first.Some? && rest.Some? && whole.value == first.value + rest.value
  }

  lemma CutAdds(column: Option<seq<int>>, k: nat, n: nat)
    requires k <= n && (column.Some? ==> |column.value| == n)
    ensures Adds(SumOptional(column), SumOptional(Cut(column, 0, k)), SumOptional(Cut(column, k, n)))
  {
    if column.Some? {
      SumSplits(column.value, k);
      assert column.value[0..k] == column.value[..k] && column.value[k..n] == column.value[k..];
    }
  }

  /** Time, traffic and disk totals of a series are those of its first `k` buckets plus those of the rest. */
  lemma TotalsAddUp(s: Snapshot, k: nat, vcpus: int, memoryMiB: int, final: bool)
    requires ValidColumns(s.points) && k <= |s.points.offset|
    ensures var n := |s.points.offset|;
            var whole := Summarize(s, vcpus, memoryMiB, final);
            var first := Summarize(Stretch(s, 0, k), vcpus, memoryMiB, final);
            var rest := Summarize(Stretch(s, k, n), vcpus, memoryMiB, final);
            && whole.durationMs == first.durationMs + rest.durationMs
            && Adds(whole.netRx, first.netRx, rest.netRx) && Adds(whole.netTx, first.netTx, rest.netTx)
            && Adds(whole.diskRead, first.diskRead, rest.diskRead)
            && Adds(whole.diskWrite, first.diskWrite, rest.diskWrite)
  {
    var p, n := s.points, |s.points.offset|;
    AcceptedIsSized(p);
    SizedColumns(p, n);
    SumSplits(p.ms, k);
    assert p.ms[0..k] == p.ms[..k] && p.ms[k..n] == p.ms[k..];
    CutAdds(p.netRx, k, n);
    CutAdds(p.netTx, k, n);
    CutAdds(p.diskRead, k, n);
    CutAdds(p.diskWrite, k, n);
  }

  /** The total over one bucket is what that bucket says. */
  predicate Reads(total: Option<int>, column: Option<seq<int>>) {
    if column.None? then total.None? else |column.value| == 1 && total == Some(column.value[0])
  }

  lemma OneBucketTotals(s: Snapshot, vcpus: int, memoryMiB: int, final: bool)
    requires ValidColumns(s.points) && |s.points.offset| == 1
    ensures var m, p := Summarize(s, vcpus, memoryMiB, final), s.points;
            && |p.ms| == 1 && m.durationMs == p.ms[0]
            && Reads(m.netRx, p.netRx) && Reads(m.netTx, p.netTx)
            && Reads(m.diskRead, p.diskRead) && Reads(m.diskWrite, p.diskWrite)
  {
    AcceptedIsSized(s.points);
    SizedColumns(s.points, 1);
    SumOfOne(s.points.ms);
    if s.points.netRx.Some? {
      SumOfOne(s.points.netRx.value);
      SumOfOne(s.points.netTx.value);
    }
    if s.points.diskRead.Some? {
      SumOfOne(s.points.diskRead.value);
      SumOfOne(s.points.diskWrite.value);
    }
  }

  lemma SumOfOne(xs: seq<int>)
    requires |xs| == 1
    ensures Sum(xs) == xs[0]
  {
    assert xs[1..] == [];
  }
}
