/** Percentiles read from bucketed histograms (`bench/analysis.py`), over exact numbers: how far from the
    true ones they are, and when they are not below them. A histogram `{value: count}` is a multiset. */
module Percentiles {

  predicate Sorted(s: seq<real>) {
    forall i, k :: 0 <= i < k < |s| ==> s[i] <= s[k]
  }

  function Ceil(x: real): int {
    -(-x).Floor
  }

  /** The 1-based rank of the nearest-rank `q`-th percentile of `total` values. */
  function Rank(q: real, total: nat): (rank: int)
    requires 0.0 < q <= 100.0 && 0 < total
    ensures 1 <= rank <= total
  {
    RankInRange(q, total);
    Ceil(q / 100.0 * total as real)
  }

  lemma RankInRange(q: real, total: nat)
    requires 0.0 < q <= 100.0 && 0 < total
    ensures 1 <= Ceil(q / 100.0 * total as real) <= total
  {
    var part := q / 100.0;
    assert 0.0 < part <= 1.0;
    assert 0.0 < part * total as real <= total as real;
  }

  function CountAtMost(s: seq<real>, v: real): nat {
    if s == [] then 0 else CountAtMost(s[..|s| - 1], v) + if s[|s| - 1] <= v then 1 else 0
  }

  function CountBelow(s: seq<real>, v: real): nat {
    if s == [] then 0 else CountBelow(s[..|s| - 1], v) + if s[|s| - 1] < v then 1 else 0
  }

  /** `v` is the nearest-rank `q`-th percentile of the values: one of them, with at least `q` percent of them
      at most it, and less than `q` percent of them below it. */
  predicate IsPercentile(values: seq<real>, q: real, v: real) {
    CoversShare(values, q / 100.0 * |values| as real, v)
  }

  predicate CoversShare(values: seq<real>, share: real, v: real) {
    v in values && share <= CountAtMost(values, v) as real && CountBelow(values, v) as real < share
  }

  /** There is only one. */
  lemma PercentileIsUnique(values: seq<real>, q: real, v: real, w: real)
    requires IsPercentile(values, q, v) && IsPercentile(values, q, w)
    ensures v == w
  {
    if v < w {
      AtMostIsBelow(values, v, w);
    } else if w < v {
      AtMostIsBelow(values, w, v);
    }
  }

  lemma {:induction false} AtMostIsBelow(s: seq<real>, v: real, w: real)
    requires v < w
    ensures CountAtMost(s, v) <= CountBelow(s, w)
  {
    if s != [] {
      AtMostIsBelow(s[..|s| - 1], v, w);
    }
  }

  /** In a sorted list at most `k` values are below the one at `k`, and more than `k` are at most it. */
  lemma {:induction false} SortedCounts(s: seq<real>, k: nat)
    requires Sorted(s) && k < |s|
    ensures CountBelow(s, s[k]) <= k < CountAtMost(s, s[k])
    decreases |s|
  {
    var init := s[..|s| - 1];
    if k == |s| - 1 {
      AllAtMost(init, s[k]);
    } else {
      SortedCounts(init, k);
    }
  }

  lemma {:induction false} AllAtMost(s: seq<real>, v: real)
    requires forall i :: 0 <= i < |s| ==> s[i] <= v
    ensures CountAtMost(s, v) == |s| && CountBelow(s, v) <= |s|
  {
    if s != [] {
      AllAtMost(s[..|s| - 1], v);
    }
  }

  lemma RankedIsPercentile(s: seq<real>, q: real)
    requires Sorted(s) && s != [] && 0.0 < q <= 100.0
    ensures IsPercentile(s, q, s[Rank(q, |s|) - 1])
  {
    var share, rank := q / 100.0 * |s| as real, Rank(q, |s|);
    assert share <= rank as real < share + 1.0;
    SortedCounts(s, rank - 1);
  }

  lemma {:induction false} CountsConcat(a: seq<real>, b: seq<real>, v: real)
    ensures CountAtMost(a + b, v) == CountAtMost(a, v) + CountAtMost(b, v)
    ensures CountBelow(a + b, v) == CountBelow(a, v) + CountBelow(b, v)
    decreases |b|
  {
    if b == [] {
      assert a + b == a;
    } else {
      assert (a + b)[..|a + b| - 1] == a + b[..|b| - 1];
      CountsConcat(a, b[..|b| - 1], v);
    }
  }

  /** Counts do not depend on the order. */
  lemma {:induction false} CountsAgree(a: seq<real>, b: seq<real>, v: real)
    requires multiset(a) == multiset(b)
    ensures CountAtMost(a, v) == CountAtMost(b, v) && CountBelow(a, v) == CountBelow(b, v)
    decreases |a|
  {
    if a == [] {
      assert |b| == |multiset(b)| == 0;
    } else {
      var init, x := a[..|a| - 1], a[|a| - 1];
      assert a == init + [x];
      var before, after := Around(init, x, b);
      CountsAgree(init, before + after, v);
      CountsConcat(before + [x], after, v);
      CountsConcat(before, [x], v);
      CountsConcat(before, after, v);
      assert b == before + [x] + after;
    }
  }

  /** Where the last value of one list is in another list of the same values. */
  lemma Around(init: seq<real>, x: real, b: seq<real>) returns (before: seq<real>, after: seq<real>)
    requires multiset(init + [x]) == multiset(b)
    ensures b == before + [x] + after && multiset(init) == multiset(before + after)
  {
    assert x in multiset(b);
    var k :| 0 <= k < |b| && b[k] == x;
    before, after := b[..k], b[k + 1..];
    assert b == before + [x] + after;
    SameRest(multiset(init), multiset(before + after), x);
  }

  lemma PercentilesAgree(a: seq<real>, b: seq<real>, q: real, v: real)
    requires multiset(a) == multiset(b)
    ensures |a| == |b| && (IsPercentile(a, q, v) <==> IsPercentile(b, q, v))
  {
    assert |a| == |multiset(a)| == |multiset(b)| == |b|;
    SharesAgree(a, b, q / 100.0 * |a| as real, v);
  }

  lemma SharesAgree(a: seq<real>, b: seq<real>, share: real, v: real)
    requires multiset(a) == multiset(b)
    ensures CoversShare(a, share, v) <==> CoversShare(b, share, v)
  {
    assert v in a <==> v in multiset(a);
    CountsAgree(a, b, v);
  }

  datatype Answer = Value(value: real) | EmptyHistogram | BadQ

  lemma SomeElement<T>(s: set<T>) returns (x: T)
    requires s != {}
    ensures x in s
  {
    x :| x in s;
  }

  lemma {:induction false} Smallest(rest: set<real>) returns (value: real)
    requires rest != {}
    ensures value in rest && forall v :: v in rest ==> value <= v
    decreases |rest|
  {
    var first := SomeElement(rest);
    value := first;
    if rest != {first} {
      var other := Smallest(rest - {first});
      assert forall v :: v in rest ==> v == first || v in rest - {first};
      value := if other < first then other else first;
    } else {
      assert forall v :: v in rest ==> v == first;
    }
  }

  /** In a sorted list, the copies of the smallest value from `from` on come first. */
  lemma {:induction false} Block(s: seq<real>, from: nat, value: real, n: nat)
    requires Sorted(s) && from <= |s| && n == multiset(s[from..])[value]
    requires forall i :: from <= i < |s| ==> value <= s[i]
    ensures from + n <= |s|
    ensures forall i :: from <= i < from + n ==> s[i] == value
    ensures forall i :: from + n <= i < |s| ==> value < s[i]
    decreases |s| - from
  {
    if from < |s| {
      assert s[from..] == [s[from]] + s[from + 1..];
      if s[from] == value {
        Block(s, from + 1, value, n - 1);
      } else {
        assert forall i :: from <= i < |s| ==> value < s[from] <= s[i];
        assert value !in s[from..];
      }
    }
  }

  /** What the loop over the sorted values has passed: the first `seen` of the expanded list. */
  ghost predicate Passed(sorted: seq<real>, rest: set<real>, seen: nat) {
    && seen <= |sorted|
    && (forall i :: 0 <= i < seen ==> sorted[i] !in rest)
    && (forall i :: seen <= i < |sorted| ==> sorted[i] in rest)
  }

  lemma PassedNext(sorted: seq<real>, rest: set<real>, seen: nat, value: real)
    requires Sorted(sorted) && Passed(sorted, rest, seen)
    requires value in rest && forall v :: v in rest ==> value <= v
    ensures var n := multiset(sorted)[value];
            && Passed(sorted, rest - {value}, seen + n)
            && forall i :: seen <= i < seen + n ==> sorted[i] == value
  {
    assert sorted == sorted[..seen] + sorted[seen..];
    assert value !in sorted[..seen];
    Block(sorted, seen, value, multiset(sorted)[value]);
  }

  /** The nearest-rank percentile is that order statistic of the values the histogram stands for.
      `sorted` is those values written out in order. */
  method Percentile(hist: multiset<real>, q: real, ghost sorted: seq<real>) returns (answer: Answer)
    requires Sorted(sorted) && multiset(sorted) == hist
    ensures answer ==
            if |hist| == 0 then EmptyHistogram
            else if !(0.0 < q <= 100.0) then BadQ
            else Value(sorted[Rank(q, |hist|) - 1])
    ensures answer.Value? ==> IsPercentile(sorted, q, answer.value)
  {
    var total := |hist|;
    if total == 0 {
      return EmptyHistogram;
    }
    if !(0.0 < q <= 100.0) {
      return BadQ;
    }
    assert |sorted| == total;
    var rank := Rank(q, total);
    var seen: nat := 0;
    var rest := set v | v in hist;
    assert forall i :: 0 <= i < |sorted| ==> sorted[i] in multiset(sorted);
    while true
      invariant Passed(sorted, rest, seen) && seen < rank
      invariant forall v :: v in rest ==> v in hist
      decreases |rest|
    {
      assert sorted[seen] in rest;
      ghost var least := Smallest(rest);
      var value :| value in rest && forall v :: v in rest ==> value <= v;
      PassedNext(sorted, rest, seen, value);
      seen := seen + hist[value];
      rest := rest - {value};
      if seen >= rank {
        RankedIsPercentile(sorted, q);
        return Value(value);
      }
    }
  }

  // ---------------------------------------------------------------- buckets

  /** The upper edge of the `n`-th bucket. */
  function UpTo(n: int, bucket: real): real {
    n as real * bucket
  }

  /** What a value may exceed an edge by, in buckets, and still be counted below it. */
  const SLACK := 0.000000001

  /** Python's `round`: to the nearest integer, and to the even one of two. */
  function Round(y: real): int {
    var part := y - y.Floor as real;
    if part < 0.5 || (part == 0.5 && y.Floor % 2 == 0) then y.Floor else y.Floor + 1
  }

  /** `round(x, 6)`. */
  function Round6(x: real): real {
    Round(x * 1000000.0) as real / 1000000.0
  }

  const HALF := 0.0000005

  lemma RoundIsMonotone(a: real, b: real)
    requires a <= b
    ensures Round(a) <= Round(b)
  {
  }

  lemma Round6IsNear(x: real)
    ensures x - HALF <= Round6(x) <= x + HALF
  {
    var y := x * 1000000.0;
    assert y - 0.5 <= Round(y) as real <= y + 0.5;
  }

  /** The key of a value: the upper edge of the bucket it falls in. */
  function Edge(v: real, bucket: real): real
    requires 0.0 < bucket
  {
    Round6(UpTo(Ceil(v / bucket - SLACK), bucket))
  }

  /** At most this far below its value, and less than a bucket above, but for the rounding. */
  predicate IsCloseTo(edge: real, v: real, bucket: real) {
    v - SLACK * bucket - HALF <= edge < v - SLACK * bucket + bucket + HALF
  }

  lemma EdgeIsClose(v: real, bucket: real)
    requires 0.0 < bucket
    ensures IsCloseTo(Edge(v, bucket), v, bucket)
  {
    var less := v - SLACK * bucket;
    assert less / bucket == v / bucket - SLACK;
    UpToIsClose(less, Ceil(less / bucket), bucket);
    Round6IsNear(UpTo(Ceil(less / bucket), bucket));
  }

  lemma UpToIsClose(v: real, n: int, bucket: real)
    requires 0.0 < bucket && v / bucket <= n as real < v / bucket + 1.0
    ensures v <= UpTo(n, bucket) < v + bucket
  {
    AtLeastOver(n as real, v, bucket);
    LessOver(n as real - 1.0, v, bucket);
    OneLess(n as real, bucket);
  }

  /** The bucket is a whole number of millionths, so that rounding an edge changes nothing. */
  predicate OnGrid(bucket: real) {
    (bucket * 1000000.0).Floor as real == bucket * 1000000.0
  }

  lemma EdgeOnGrid(n: int, bucket: real)
    requires OnGrid(bucket)
    ensures Round6(UpTo(n, bucket)) == UpTo(n, bucket)
  {
    var m := (bucket * 1000000.0).Floor;
    Millionths(n as real, bucket);
    Products(n, m);
    WholeMillionths(UpTo(n, bucket), n * m);
  }

  lemma Products(n: int, m: int)
    ensures n as real * m as real == (n * m) as real
  {
  }

  lemma WholeMillionths(u: real, k: int)
    requires u * 1000000.0 == k as real
    ensures Round6(u) == u
  {
    assert Round(k as real) == k;
  }

  lemma Millionths(a: real, bucket: real)
    ensures a * bucket * 1000000.0 == a * (bucket * 1000000.0)
  {
  }

  /** Where rounding changes nothing, it is less than a bucket above. */
  predicate IsWithinBucket(edge: real, v: real, bucket: real) {
    v - SLACK * bucket <= edge < v - SLACK * bucket + bucket
  }

  ghost predicate IsEdge(x: real, bucket: real) {
    exists n :: x == UpTo(n, bucket)
  }

  /** A value's key is the one edge within a bucket above it. */
  lemma EdgeWithinBucket(v: real, bucket: real)
    requires 0.0 < bucket && OnGrid(bucket)
    ensures IsEdge(Edge(v, bucket), bucket) && IsWithinBucket(Edge(v, bucket), v, bucket)
  {
    var less := v - SLACK * bucket;
    assert less / bucket == v / bucket - SLACK;
    UpToIsClose(less, Ceil(less / bucket), bucket);
    EdgeOnGrid(Ceil(less / bucket), bucket);
  }

  /** A value is not just above an edge. */
  predicate IsClear(v: real, bucket: real)
    requires 0.0 < bucket
  {
    var part := v / bucket - (v / bucket).Floor as real;
    part == 0.0 || SLACK < part
  }

  /** The edge is not below its value, as `histogram` promises, exactly for the values that are not just
      above an edge. */
  lemma EdgeCoversIff(v: real, bucket: real)
    requires 0.0 < bucket && OnGrid(bucket)
    ensures v <= Edge(v, bucket) <==> IsClear(v, bucket)
  {
    EdgeOnGrid(Ceil(v / bucket - SLACK), bucket);
    Quotient(v, bucket);
    CoversIff(v / bucket, bucket);
  }

  lemma Quotient(v: real, bucket: real)
    requires 0.0 < bucket
    ensures v == v / bucket * bucket
  {
  }

  lemma CoversIff(x: real, bucket: real)
    requires 0.0 < bucket
    ensures x * bucket <= UpTo(Ceil(x - SLACK), bucket) <==> x == x.Floor as real || SLACK < x - x.Floor as real
  {
    CeilCoversIff(x, Ceil(x - SLACK));
    OrderKept(x, Ceil(x - SLACK) as real, bucket);
  }

  lemma CeilCoversIff(x: real, n: int)
    requires n == Ceil(x - SLACK)
    ensures x <= n as real <==> x == x.Floor as real || SLACK < x - x.Floor as real
  {
    if SLACK < x - x.Floor as real {
      CeilIs(x - SLACK, x.Floor + 1);
    } else {
      CeilIs(x - SLACK, x.Floor);
    }
  }

  lemma CeilIs(y: real, n: int)
    requires n as real - 1.0 < y <= n as real
    ensures Ceil(y) == n
  {
  }

  lemma OrderKept(a: real, b: real, bucket: real)
    requires 0.0 < bucket
    ensures a * bucket <= b * bucket <==> a <= b
  {
    if b < a {
      TimesLess(b, a, bucket);
    } else {
      Times(a, b, bucket);
    }
  }

  /** A value that is counted under an edge below it. */
  lemma JustAboveAnEdge()
    ensures Edge(0.10000000001, 0.1) == 0.1
  {
    assert 0.10000000001 / 0.1 == 1.0000000001;
    assert Ceil(1.0000000001 - SLACK) == 1;
    assert UpTo(1, 0.1) == 0.1;
    assert Round(100000.0) == 100000;
  }

  lemma LessOver(a: real, v: real, bucket: real)
    requires 0.0 < bucket && a < v / bucket
    ensures a * bucket < v
  {
    TimesLess(a, v / bucket, bucket);
  }

  lemma AtLeastOver(a: real, v: real, bucket: real)
    requires 0.0 < bucket && v / bucket <= a
    ensures v <= a * bucket
  {
    Times(v / bucket, a, bucket);
  }

  lemma OneLess(a: real, bucket: real)
    ensures (a - 1.0) * bucket == a * bucket - bucket
  {
  }

  lemma Times(a: real, b: real, bucket: real)
    requires a <= b && 0.0 < bucket
    ensures a * bucket <= b * bucket
  {
  }

  lemma TimesLess(a: real, b: real, bucket: real)
    requires a < b && 0.0 < bucket
    ensures a * bucket < b * bucket
  {
  }

  lemma Divided(a: real, b: real, bucket: real)
    requires a <= b && 0.0 < bucket
    ensures a / bucket <= b / bucket
  {
  }

  lemma Round6IsMonotone(a: real, b: real)
    requires a <= b
    ensures Round6(a) <= Round6(b)
  {
    RoundIsMonotone(a * 1000000.0, b * 1000000.0);
  }

  lemma CeilIsMonotone(a: real, b: real)
    requires a <= b
    ensures Ceil(a) <= Ceil(b)
  {
  }

  lemma EdgeIsMonotone(a: real, b: real, bucket: real)
    requires a <= b && 0.0 < bucket
    ensures Edge(a, bucket) <= Edge(b, bucket)
  {
    Divided(a, b, bucket);
    CeilIsMonotone(a / bucket - SLACK, b / bucket - SLACK);
    UpToIsMonotone(Ceil(a / bucket - SLACK), Ceil(b / bucket - SLACK), bucket);
    Round6IsMonotone(UpTo(Ceil(a / bucket - SLACK), bucket), UpTo(Ceil(b / bucket - SLACK), bucket));
  }

  lemma UpToIsMonotone(m: int, n: int, bucket: real)
    requires m <= n && 0.0 < bucket
    ensures UpTo(m, bucket) <= UpTo(n, bucket)
  {
    Times(m as real, n as real, bucket);
  }

  function Edges(values: seq<real>, bucket: real): (edges: seq<real>)
    requires 0.0 < bucket
    ensures |edges| == |values| && forall i :: 0 <= i < |values| ==> edges[i] == Edge(values[i], bucket)
  {
    if values == [] then [] else Edges(values[..|values| - 1], bucket) + [Edge(values[|values| - 1], bucket)]
  }

  lemma EdgesNext(values: seq<real>, i: nat, bucket: real)
    requires i < |values| && 0.0 < bucket
    ensures multiset(Edges(values[..i + 1], bucket)) == multiset(Edges(values[..i], bucket)) + multiset{Edge(values[i], bucket)}
  {
    assert values[..i + 1][..i] == values[..i];
    assert Edges(values[..i + 1], bucket) == Edges(values[..i], bucket) + [Edge(values[i], bucket)];
  }

  /** `histogram`. */
  method Histogram(values: seq<real>, bucket: real) returns (counts: multiset<real>)
    requires 0.0 < bucket
    ensures counts == multiset(Edges(values, bucket))
  {
    counts := multiset{};
    for i := 0 to |values|
      invariant counts == multiset(Edges(values[..i], bucket))
    {
      EdgesNext(values, i, bucket);
      counts := counts + multiset{Edge(values[i], bucket)};
    }
    assert values[..|values|] == values;
  }

  function Concat(lists: seq<seq<real>>): seq<real> {
    if lists == [] then [] else Concat(lists[..|lists| - 1]) + lists[|lists| - 1]
  }

  lemma {:induction false} EdgesConcat(a: seq<real>, b: seq<real>, bucket: real)
    requires 0.0 < bucket
    ensures Edges(a + b, bucket) == Edges(a, bucket) + Edges(b, bucket)
  {
  }

  /** `merge`: counts add up, so merged histograms are the histogram of all the values. */
  method Merge(hists: seq<multiset<real>>, ghost lists: seq<seq<real>>, ghost bucket: real) returns (total: multiset<real>)
    requires 0.0 < bucket && |hists| == |lists| && forall i :: 0 <= i < |hists| ==> hists[i] == multiset(Edges(lists[i], bucket))
    ensures total == multiset(Edges(Concat(lists), bucket))
  {
    total := multiset{};
    for i := 0 to |hists|
      invariant total == multiset(Edges(Concat(lists[..i]), bucket))
    {
      assert lists[..i + 1][..i] == lists[..i];
      EdgesConcat(Concat(lists[..i]), lists[i], bucket);
      total := total + hists[i];
    }
    assert lists[..|hists|] == lists;
  }

  // ---------------------------------------------------------------- never flatters

  /** Taking one value out takes its edge out. */
  lemma EdgesOut(before: seq<real>, x: real, after: seq<real>, bucket: real)
    requires 0.0 < bucket
    ensures multiset(Edges(before + [x] + after, bucket)) == multiset(Edges(before + after, bucket)) + multiset{Edge(x, bucket)}
    ensures multiset(before + [x] + after) == multiset(before + after) + multiset{x}
  {
    EdgesConcat(before + [x], after, bucket);
    EdgesConcat(before, [x], bucket);
    EdgesConcat(before, after, bucket);
    assert Edges([x], bucket) == [Edge(x, bucket)];
  }

  lemma {:induction false} EdgesAgree(a: seq<real>, b: seq<real>, bucket: real)
    requires 0.0 < bucket && multiset(a) == multiset(b)
    ensures multiset(Edges(a, bucket)) == multiset(Edges(b, bucket))
    decreases |a|
  {
    if a == [] {
      assert |b| == |multiset(b)| == 0;
    } else {
      var init, x := a[..|a| - 1], a[|a| - 1];
      assert a == init + [x];
      var before, after := Around(init, x, b);
      EdgesOut(before, x, after, bucket);
      EdgesAgree(init, before + after, bucket);
    }
  }

  lemma SameRest(a: multiset<real>, b: multiset<real>, x: real)
    requires a + multiset{x} == b + multiset{x}
    ensures a == b
  {
    assert a + multiset{x} - multiset{x} == a && b + multiset{x} - multiset{x} == b;
  }

  /** The `q`-th percentile read from the buckets is the upper edge of the true one's bucket. `sorted` is the
      values written out in order, which puts their edges in order. */
  lemma BucketedPercentile(values: seq<real>, sorted: seq<real>, bucket: real, q: real, truth: real)
    requires 0.0 < bucket && 0.0 < q <= 100.0 && 0 < |values| && IsPercentile(values, q, truth)
    requires Sorted(sorted) && multiset(sorted) == multiset(values)
    ensures Sorted(Edges(sorted, bucket)) && multiset(Edges(sorted, bucket)) == multiset(Edges(values, bucket))
    ensures |sorted| == |values| && sorted[Rank(q, |values|) - 1] == truth
    ensures IsPercentile(Edges(values, bucket), q, Edge(truth, bucket))
    ensures IsCloseTo(Edge(truth, bucket), truth, bucket)
    ensures OnGrid(bucket) ==> IsWithinBucket(Edge(truth, bucket), truth, bucket) && (truth <= Edge(truth, bucket) <==> IsClear(truth, bucket))
  {
    RankIsTruth(values, sorted, q, truth);
    EdgesAreSorted(sorted, bucket);
    EdgesAgree(sorted, values, bucket);
    PercentileExists(Edges(values, bucket), Edges(sorted, bucket), q);
    EdgeIsClose(truth, bucket);
    if OnGrid(bucket) {
      EdgeCoversIff(truth, bucket);
      EdgeWithinBucket(truth, bucket);
    }
  }

  lemma EdgesAreSorted(sorted: seq<real>, bucket: real)
    requires 0.0 < bucket && Sorted(sorted)
    ensures Sorted(Edges(sorted, bucket))
  {
    forall i, k | 0 <= i < k < |sorted| ensures Edges(sorted, bucket)[i] <= Edges(sorted, bucket)[k] {
      EdgeIsMonotone(sorted[i], sorted[k], bucket);
    }
  }

  /** There always is one: the value at the rank. */
  lemma PercentileExists(values: seq<real>, sorted: seq<real>, q: real)
    requires 0.0 < q <= 100.0 && 0 < |values| && Sorted(sorted) && multiset(sorted) == multiset(values)
    ensures |sorted| == |values| && IsPercentile(values, q, sorted[Rank(q, |values|) - 1])
  {
    assert |sorted| == |multiset(sorted)| == |multiset(values)| == |values|;
    var v := sorted[Rank(q, |sorted|) - 1];
    RankedIsPercentile(sorted, q);
    PercentilesAgree(sorted, values, q, v);
  }

  lemma RankIsTruth(values: seq<real>, sorted: seq<real>, q: real, truth: real)
    requires 0.0 < q <= 100.0 && 0 < |values| && IsPercentile(values, q, truth)
    requires Sorted(sorted) && multiset(sorted) == multiset(values)
    ensures |sorted| == |values| && sorted[Rank(q, |values|) - 1] == truth
  {
    PercentileExists(values, sorted, q);
    PercentileIsUnique(values, q, truth, sorted[Rank(q, |values|) - 1]);
  }

  /** The report's pipeline: bucket each list, merge, and read a percentile. The answer is the edge of the true
      percentile of all the values, and as close to it: not below it unless it is just above an edge. */
  method ReportedPercentile(lists: seq<seq<real>>, bucket: real, q: real, ghost sorted: seq<real>, ghost truth: real) returns (answer: real)
    requires 0.0 < bucket && 0.0 < q <= 100.0 && Concat(lists) != [] && IsPercentile(Concat(lists), q, truth)
    requires Sorted(sorted) && multiset(sorted) == multiset(Concat(lists))
    ensures answer == Edge(truth, bucket) && IsCloseTo(answer, truth, bucket)
    ensures OnGrid(bucket) ==> IsWithinBucket(answer, truth, bucket) && (truth <= answer <==> IsClear(truth, bucket))
  {
    var hists := HistogramEach(lists, bucket);
    var merged := Merge(hists, lists, bucket);
    BucketedPercentile(Concat(lists), sorted, bucket, q, truth);
    ghost var edges := Edges(sorted, bucket);
    assert |merged| == |edges|;
    var a := Percentile(merged, q, edges);
    answer := a.value;
  }

  method HistogramEach(lists: seq<seq<real>>, bucket: real) returns (hists: seq<multiset<real>>)
    requires 0.0 < bucket
    ensures |hists| == |lists| && forall k :: 0 <= k < |lists| ==> hists[k] == multiset(Edges(lists[k], bucket))
  {
    hists := [];
    for i := 0 to |lists|
      invariant |hists| == i && forall k :: 0 <= k < i ==> hists[k] == multiset(Edges(lists[k], bucket))
    {
      var h := Histogram(lists[i], bucket);
      hists := hists + [h];
    }
  }
}
