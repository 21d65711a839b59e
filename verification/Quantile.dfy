/** The time-weighted quantile of packages/backend/convex/attemptMetricsModel.ts. */
module Quantile {
  import opened Sorting

  /** A bucket: its value is the sort key and its weight the time it covered. */
  type Point = Keyed<real>

  datatype Cut = All | UpTo(bound: real) | Under(bound: real) {
    predicate Has(v: real) {
      match this
      case All => true
      case UpTo(b) => v <= b
      case Under(b) => v < b
    }
  }

  /** The positive weight of the points whose value is in the cut `p`. */
  function Weight(ps: seq<Point>, p: Cut): real {
    if ps == [] then 0.0
    else (if ps[0].item > 0.0 && p.Has(ps[0].key) then ps[0].item else 0.0) + Weight(ps[1..], p)
  }

  function Total(ps: seq<Point>): real {
    Weight(ps, All)
  }

  function AtMost(ps: seq<Point>, r: real): real {
    Weight(ps, UpTo(r))
  }

  function Below(ps: seq<Point>, r: real): real {
    Weight(ps, Under(r))
  }

  function Share(ps: seq<Point>, q: real): real {
    q * Total(ps)
  }

  /** `r` is a value of the points, and the first to take the weight up to `q` of the total. */
  ghost predicate IsQuantile(ps: seq<Point>, q: real, r: real) {
    && (exists i :: 0 <= i < |ps| && ps[i].item > 0.0 && ps[i].key == r)
    && Below(ps, r) < Share(ps, q) <= AtMost(ps, r)
  }

  // ---------------------------------------------------------------------------------------------
  // The algorithm

  function Positive(ps: seq<Point>): seq<Point> {
    if ps == [] then []
    else (if ps[0].item > 0.0 then [ps[0]] else []) + Positive(ps[1..])
  }

  function Ordered(ps: seq<Point>): seq<Point> {
    StableSort(Positive(ps))
  }

  /** The first point from `k` on whose running weight reaches `target`, or the last point. */
  function Reach(sorted: seq<Point>, k: nat, target: real): (i: nat)
    requires k < |sorted|
    ensures k <= i < |sorted|
    decreases |sorted| - k
  {
    if k + 1 == |sorted| || Total(sorted[..k + 1]) >= target then k else Reach(sorted, k + 1, target)
  }

  function WeightedQuantile(ps: seq<Point>, q: real): real {
    var sorted := Ordered(ps);
    if sorted == [] then 0.0 else sorted[Reach(sorted, 0, Share(sorted, q))].key
  }

  method ComputeQuantile(ps: seq<Point>, q: real) returns (r: real)
    ensures r == WeightedQuantile(ps, q)
    ensures 0.0 < q <= 1.0 && Total(ps) > 0.0 ==> IsQuantile(ps, q, r)
  {
    var sorted := Ordered(ps);
    if 0.0 < q <= 1.0 && Total(ps) > 0.0 {
      QuantileIsReached(ps, q);
    }
    if sorted == [] {
      return 0.0;
    }
    var target := Share(sorted, q);
    var cumulative := 0.0;
    for k := 0 to |sorted|
      invariant cumulative == Total(sorted[..k])
      invariant k < |sorted| ==> Reach(sorted, k, target) == Reach(sorted, 0, target)
      invariant k == |sorted| ==> Reach(sorted, 0, target) == |sorted| - 1
    {
      NextPrefix(ps, k);
      cumulative := cumulative + sorted[k].item;
      if cumulative >= target {
        return sorted[k].key;
      }
    }
    return sorted[|sorted| - 1].key;
  }

  // ---------------------------------------------------------------------------------------------
  // Correctness

  lemma {:induction false} WeightOfConcat(a: seq<Point>, b: seq<Point>, p: Cut)
    ensures Weight(a + b, p) == Weight(a, p) + Weight(b, p)
  {
    if a == [] {
      assert a + b == b;
    } else {
      assert (a + b)[1..] == a[1..] + b;
      WeightOfConcat(a[1..], b, p);
    }
  }

  lemma {:induction false} WeightBetween(ps: seq<Point>, p: Cut, p': Cut)
    requires forall i :: 0 <= i < |ps| && p.Has(ps[i].key) ==> p'.Has(ps[i].key)
    ensures 0.0 <= Weight(ps, p) <= Weight(ps, p')
  {
    if ps != [] {
      WeightBetween(ps[1..], p, p');
    }
  }

  lemma {:induction false} WeightOfNone(ps: seq<Point>, p: Cut)
    requires forall i :: 0 <= i < |ps| ==> !p.Has(ps[i].key)
    ensures Weight(ps, p) == 0.0
  {
    if ps != [] {
      WeightOfNone(ps[1..], p);
    }
  }

  lemma Without(b: seq<Point>, i: nat, p: Cut)
    requires i < |b|
    ensures var rest := b[..i] + b[i + 1..];
            && multiset(b) == multiset(rest) + multiset{b[i]}
            && Weight(b, p) == Weight(rest, p) + Weight([b[i]], p)
  {
    assert b == b[..i] + [b[i]] + b[i + 1..];
    WeightOfConcat(b[..i], b[i + 1..], p);
    WeightOfConcat(b[..i] + [b[i]], b[i + 1..], p);
    WeightOfConcat(b[..i], [b[i]], p);
  }

  lemma {:induction false} WeightPermutes(a: seq<Point>, b: seq<Point>, p: Cut)
    requires multiset(a) == multiset(b)
    ensures Weight(a, p) == Weight(b, p)
  {
    if a == [] {
      assert |multiset(b)| == 0;
    } else {
      assert a[0] in multiset(b);
      var i :| 0 <= i < |b| && b[i] == a[0];
      Without(a, 0, p);
      Without(b, i, p);
      PeelOff(a[..0] + a[1..], b[..i] + b[i + 1..], a[0]);
      WeightPermutes(a[..0] + a[1..], b[..i] + b[i + 1..], p);
    }
  }

  lemma PeelOff(a: seq<Point>, b: seq<Point>, x: Point)
    requires multiset(a) + multiset{x} == multiset(b) + multiset{x}
    ensures multiset(a) == multiset(b)
  {
    assert multiset(a) == multiset(a) + multiset{x} - multiset{x};
    assert multiset(b) == multiset(b) + multiset{x} - multiset{x};
  }

  lemma {:induction false} PositiveKeepsWeight(ps: seq<Point>, p: Cut)
    ensures Weight(Positive(ps), p) == Weight(ps, p)
    ensures forall x :: x in Positive(ps) <==> x in ps && x.item > 0.0
  {
    if ps != [] {
      PositiveKeepsWeight(ps[1..], p);
      var head := if ps[0].item > 0.0 then [ps[0]] else [];
      WeightOfConcat(head, Positive(ps[1..]), p);
      assert ps == [ps[0]] + ps[1..];
    }
  }

  lemma OrderedKeepsWeight(ps: seq<Point>, p: Cut)
    ensures Weight(Ordered(ps), p) == Weight(ps, p)
  {
    SortSorts(Positive(ps));
    WeightPermutes(Ordered(ps), Positive(ps), p);
    PositiveKeepsWeight(ps, p);
  }

  lemma OrderedIsPositive(ps: seq<Point>)
    ensures Sorted(Ordered(ps))
    ensures forall x :: x in Ordered(ps) <==> x in ps && x.item > 0.0
  {
    SortSorts(Positive(ps));
    PositiveKeepsWeight(ps, All);
    forall x ensures x in Ordered(ps) <==> x in Positive(ps) {
      assert x in Ordered(ps) <==> x in multiset(Ordered(ps));
      assert x in Positive(ps) <==> x in multiset(Positive(ps));
    }
  }

  lemma {:induction false} ReachIsFirst(sorted: seq<Point>, k: nat, target: real)
    requires k < |sorted| && target <= Total(sorted)
    requires Total(sorted[..k]) < target
    ensures var i := Reach(sorted, k, target); Total(sorted[..i]) < target <= Total(sorted[..i + 1])
    decreases |sorted| - k
  {
    if k + 1 == |sorted| {
      assert sorted[..k + 1] == sorted;
    } else if Total(sorted[..k + 1]) < target {
      ReachIsFirst(sorted, k + 1, target);
    }
  }

  lemma NextPrefix(ps: seq<Point>, k: nat)
    requires k < |Ordered(ps)|
    ensures var sorted := Ordered(ps); Total(sorted[..k + 1]) == Total(sorted[..k]) + sorted[k].item
  {
    var sorted := Ordered(ps);
    OrderedIsPositive(ps);
    assert sorted[k] in sorted;
    assert sorted[..k + 1] == sorted[..k] + [sorted[k]];
    WeightOfConcat(sorted[..k], [sorted[k]], All);
  }

  /** In sorted order a prefix up to `i` bounds the weight below and at `sorted[i]`. */
  lemma PrefixBounds(sorted: seq<Point>, i: nat)
    requires i < |sorted| && Sorted(sorted)
    ensures Below(sorted, sorted[i].key) <= Total(sorted[..i])
    ensures Total(sorted[..i + 1]) <= AtMost(sorted, sorted[i].key)
  {
    var r := sorted[i].key;
    assert sorted == sorted[..i] + sorted[i..];
    WeightOfConcat(sorted[..i], sorted[i..], Under(r));
    WeightBetween(sorted[..i], Under(r), All);
    forall j | 0 <= j < |sorted[i..]| ensures !(sorted[i..][j].key < r) {
      assert sorted[i..][j] == sorted[i + j];
    }
    WeightOfNone(sorted[i..], Under(r));
    assert sorted == sorted[..i + 1] + sorted[i + 1..];
    WeightOfConcat(sorted[..i + 1], sorted[i + 1..], UpTo(r));
    WeightBetween(sorted[..i + 1], All, UpTo(r));
    WeightBetween(sorted[i + 1..], UpTo(r), UpTo(r));
  }

  lemma ShareOfTotal(ps: seq<Point>, q: real)
    requires 0.0 < q <= 1.0 && Total(ps) > 0.0
    ensures 0.0 < Share(ps, q) <= Total(ps)
  {
    var t := Total(ps);
    assert 0.0 < q * t;
    assert (1.0 - q) * t >= 0.0;
    assert (1.0 - q) * t == t - q * t;
  }

  lemma QuantileOfSorted(sorted: seq<Point>, q: real)
    requires Sorted(sorted) && 0.0 < q <= 1.0 && Total(sorted) > 0.0
    ensures var r := sorted[Reach(sorted, 0, Share(sorted, q))].key;
            Below(sorted, r) < Share(sorted, q) <= AtMost(sorted, r)
  {
    ShareOfTotal(sorted, q);
    ReachIsFirst(sorted, 0, Share(sorted, q));
    PrefixBounds(sorted, Reach(sorted, 0, Share(sorted, q)));
  }

  /** The loop returns the quantile of the points as they were given, in whatever order. */
  lemma QuantileIsReached(ps: seq<Point>, q: real)
    requires 0.0 < q <= 1.0 && Total(ps) > 0.0
    ensures IsQuantile(ps, q, WeightedQuantile(ps, q))
  {
    var sorted, r := Ordered(ps), WeightedQuantile(ps, q);
    assert Total(sorted) == Total(ps) by {
      OrderedKeepsWeight(ps, All);
    }
    assert Sorted(sorted) by {
      OrderedIsPositive(ps);
    }
    assert Below(sorted, r) < Share(sorted, q) <= AtMost(sorted, r) by {
      QuantileOfSorted(sorted, q);
    }
    assert Below(sorted, r) == Below(ps, r) && AtMost(sorted, r) == AtMost(ps, r) by {
      OrderedKeepsWeight(ps, Under(r));
      OrderedKeepsWeight(ps, UpTo(r));
    }
    assert exists i :: 0 <= i < |ps| && ps[i].item > 0.0 && ps[i].key == r by {
      PositiveKeepsWeight(ps, All);
      QuantileIsAValue(ps, q);
    }
  }

  /** At most one value is the quantile, so `IsQuantile` determines the result. */
  lemma QuantileIsUnique(ps: seq<Point>, q: real, a: real, b: real)
    requires IsQuantile(ps, q, a) && IsQuantile(ps, q, b)
    ensures a == b
  {
    if a < b {
      WeightBetween(ps, UpTo(a), Under(b));
    } else if b < a {
      WeightBetween(ps, UpTo(b), Under(a));
    }
  }

  lemma ValuePermutes(ps: seq<Point>, ps': seq<Point>, r: real)
    requires multiset(ps) == multiset(ps') && exists i :: 0 <= i < |ps| && ps[i].item > 0.0 && ps[i].key == r
    ensures exists i :: 0 <= i < |ps'| && ps'[i].item > 0.0 && ps'[i].key == r
  {
    var i :| 0 <= i < |ps| && ps[i].item > 0.0 && ps[i].key == r;
    assert ps[i] in multiset(ps');
  }

  lemma QuantilePermutes(ps: seq<Point>, ps': seq<Point>, q: real, r: real)
    requires multiset(ps) == multiset(ps') && IsQuantile(ps, q, r)
    ensures IsQuantile(ps', q, r)
  {
    ValuePermutes(ps, ps', r);
    assert Total(ps') == Total(ps) by {
      WeightPermutes(ps, ps', All);
    }
    assert Below(ps', r) == Below(ps, r) by {
      WeightPermutes(ps, ps', Under(r));
    }
    assert AtMost(ps', r) == AtMost(ps, r) by {
      WeightPermutes(ps, ps', UpTo(r));
    }
  }

  /** The order in which the buckets arrive does not matter. */
  lemma QuantileIgnoresOrder(ps: seq<Point>, ps': seq<Point>, q: real)
    requires multiset(ps) == multiset(ps') && 0.0 < q <= 1.0 && Total(ps) > 0.0
    ensures WeightedQuantile(ps, q) == WeightedQuantile(ps', q)
  {
    WeightPermutes(ps, ps', All);
    QuantileIsReached(ps, q);
    QuantileIsReached(ps', q);
    QuantilePermutes(ps, ps', q, WeightedQuantile(ps, q));
    QuantileIsUnique(ps', q, WeightedQuantile(ps, q), WeightedQuantile(ps', q));
  }

  /** Whatever `q`, the result is one of the values that carry weight, or 0 when none does. */
  lemma QuantileIsAValue(ps: seq<Point>, q: real)
    ensures if Positive(ps) == [] then WeightedQuantile(ps, q) == 0.0
            else exists i :: 0 <= i < |ps| && ps[i].item > 0.0 && ps[i].key == WeightedQuantile(ps, q)
  {
    OrderedIsPositive(ps);
    PositiveKeepsWeight(ps, All);
    var sorted := Ordered(ps);
    if sorted != [] {
      var x := sorted[Reach(sorted, 0, Share(sorted, q))];
      assert x in ps;
      assert x in Positive(ps);
    }
  }
}
