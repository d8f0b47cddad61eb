/** The two independently written aggregators, over the reals. */
module HistoricalStatistics {
  import opened Wrappers

  // ------------------------------------------------------------------ sorting

  ghost predicate Ascending(xs: seq<real>) {
    forall i, k :: 0 <= i <= k < |xs| ==> xs[i] <= xs[k]
  }

  function Insert(x: real, sorted: seq<real>): (r: seq<real>)
    ensures multiset(r) == multiset(sorted) + multiset{x}
  {
    if sorted == [] then [x]
    else if x < sorted[0] then [x] + sorted
    else
      assert sorted == [sorted[0]] + sorted[1..];
      [sorted[0]] + Insert(x, sorted[1..])
  }

  lemma {:induction false} InsertAbove(x: real, sorted: seq<real>, bound: real)
    requires bound <= x && forall k :: 0 <= k < |sorted| ==> bound <= sorted[k]
    ensures forall k :: 0 <= k < |Insert(x, sorted)| ==> bound <= Insert(x, sorted)[k]
  {
    if sorted != [] { InsertAbove(x, sorted[1..], bound); }
  }

  lemma InFront(head: real, rest: seq<real>)
    requires Ascending(rest) && forall k :: 0 <= k < |rest| ==> head <= rest[k]
    ensures Ascending([head] + rest)
  {
  }

  lemma {:induction false} InsertAscends(x: real, sorted: seq<real>)
    requires Ascending(sorted)
    ensures Ascending(Insert(x, sorted))
  {
    if sorted == [] {
    } else if x < sorted[0] {
      InFront(x, sorted);
    } else {
      InsertAscends(x, sorted[1..]);
      InsertAbove(x, sorted[1..], sorted[0]);
      InFront(sorted[0], Insert(x, sorted[1..]));
    }
  }

  /** `[...values].sort((a, b) => a - b)`. */
  function SortNumbers(values: seq<real>): (r: seq<real>)
    ensures multiset(r) == multiset(values) && |r| == |values|
  {
    if values == [] then []
    else
      assert values == values[..|values| - 1] + [values[|values| - 1]];
      var r := Insert(values[|values| - 1], SortNumbers(values[..|values| - 1]));
      assert |multiset(r)| == |multiset(values)|;
      r
  }

  lemma {:induction false} SortAscends(values: seq<real>)
    ensures Ascending(SortNumbers(values))
  {
    if values != [] {
      SortAscends(values[..|values| - 1]);
      InsertAscends(values[|values| - 1], SortNumbers(values[..|values| - 1]));
    }
  }

  // ------------------------------------------------------------------ percentiles

  /** Multiplication under a name, so that proofs can speak of a product without opening it. */
  function Times(a: real, b: real): real {
    a * b
  }

  function Rank(p: real, n: nat): real {
    Times(p / 100.0, (n - 1) as real)
  }

  function Ceil(x: real): int {
    if x.Floor as real == x then x.Floor else x.Floor + 1
  }

  lemma NonNegative(a: real, b: real)
    requires a >= 0.0 && b >= 0.0
    ensures a * b >= 0.0
  {
  }

  lemma Share(w: real, d: real)
    requires 0.0 <= w <= 1.0 && d >= 0.0
    ensures 0.0 <= Times(w, d) <= d
  {
    NonNegative(w, d);
    NonNegative(1.0 - w, d);
    assert (1.0 - w) * d == d - w * d;
  }

  lemma FloorInRange(x: real, k: int)
    requires 0.0 <= x <= k as real
    ensures 0 <= x.Floor <= Ceil(x) <= k
  {
  }

  lemma RankInRange(p: real, n: nat)
    requires 0.0 <= p <= 100.0 && n > 0
    ensures 0.0 <= Rank(p, n) <= (n - 1) as real
    ensures 0 <= Rank(p, n).Floor <= Ceil(Rank(p, n)) <= n - 1
  {
    hide Times;
    Share(p / 100.0, (n - 1) as real);
    FloorInRange(Rank(p, n), n - 1);
  }

  /** The primary aggregator's percentile; absent (`NaN`) on an empty list. */
  function Percentile(sorted: seq<real>, p: real): Option<real>
    requires 0.0 <= p <= 100.0
  {
    if |sorted| == 0 then None
    else if |sorted| == 1 then Some(sorted[0])
    else
      RankInRange(p, |sorted|);
      var rank := Rank(p, |sorted|);
      var lower, upper := rank.Floor, Ceil(rank);
      if lower == upper then Some(sorted[lower])
      else
        var weight := rank - lower as real;
        Some(Times(sorted[lower], 1.0 - weight) + Times(sorted[upper], weight))
  }

  /** The verifier's percentile; absent (`null`) on an empty list. */
  function ComputePercentile(sortedAscending: seq<real>, percentileRank: real): Option<real>
    requires 0.0 <= percentileRank <= 100.0
  {
    var count := |sortedAscending|;
    if count == 0 then None
    else if count == 1 then Some(sortedAscending[0])
    else
      RankInRange(percentileRank, count);
      var position := Rank(percentileRank, count);
      var lowerIndex, upperIndex := position.Floor, Ceil(position);
      var fraction := position - lowerIndex as real;
      Some(sortedAscending[lowerIndex] + Times(fraction, sortedAscending[upperIndex] - sortedAscending[lowerIndex]))
  }

  lemma Interpolations(a: real, b: real, w: real)
    ensures Times(a, 1.0 - w) + Times(b, w) == a + Times(w, b - a)
    ensures a == b ==> a + Times(w, b - a) == a
  {
    assert a * (1.0 - w) == a - a * w;
    assert w * (b - a) == w * b - w * a;
  }

  lemma PercentilesAgree(sorted: seq<real>, p: real)
    requires 0.0 <= p <= 100.0
    ensures Percentile(sorted, p) == ComputePercentile(sorted, p)
  {
    hide Rank, Times;
    if |sorted| > 1 {
      RankInRange(p, |sorted|);
      var rank := Rank(p, |sorted|);
      Interpolations(sorted[rank.Floor], sorted[Ceil(rank)], rank - rank.Floor as real);
    }
  }

  /** The value at a real-valued rank. */
  function AtRank(sorted: seq<real>, rank: real): real
    requires 0.0 <= rank <= (|sorted| - 1) as real
  {
    FloorInRange(rank, |sorted| - 1);
    var lower, upper := rank.Floor, Ceil(rank);
    sorted[lower] + Times(rank - lower as real, sorted[upper] - sorted[lower])
  }

  lemma PercentileAtRank(sorted: seq<real>, p: real)
    requires 0.0 <= p <= 100.0 && |sorted| > 0
    ensures 0.0 <= Rank(p, |sorted|) <= (|sorted| - 1) as real
    ensures Percentile(sorted, p) == Some(AtRank(sorted, Rank(p, |sorted|)))
  {
    hide Rank, Times;
    RankInRange(p, |sorted|);
    PercentilesAgree(sorted, p);
    if |sorted| == 1 { Interpolations(sorted[0], sorted[0], Rank(p, 1) - Rank(p, 1).Floor as real); }
  }

  /** Between two neighbours. */
  lemma AtRankBetween(sorted: seq<real>, rank: real)
    requires Ascending(sorted) && 0.0 <= rank <= (|sorted| - 1) as real
    ensures 0 <= rank.Floor <= Ceil(rank) < |sorted|
    ensures sorted[rank.Floor] <= AtRank(sorted, rank) <= sorted[Ceil(rank)]
  {
    hide Times;
    FloorInRange(rank, |sorted| - 1);
    Share(rank - rank.Floor as real, sorted[Ceil(rank)] - sorted[rank.Floor]);
  }

  lemma Steeper(w: real, v: real, d: real)
    requires w <= v && d >= 0.0
    ensures Times(w, d) <= Times(v, d)
  {
    NonNegative(v - w, d);
    assert (v - w) * d == v * d - w * d;
  }

  lemma AtRankMonotone(sorted: seq<real>, r: real, s: real)
    requires Ascending(sorted) && 0.0 <= r <= s <= (|sorted| - 1) as real
    ensures AtRank(sorted, r) <= AtRank(sorted, s)
  {
    hide Times;
    AtRankBetween(sorted, r);
    AtRankBetween(sorted, s);
    if r.Floor == s.Floor {
      if Ceil(r) == Ceil(s) {
        Steeper(r - r.Floor as real, s - s.Floor as real, sorted[Ceil(s)] - sorted[s.Floor]);
      } else {
        assert r == r.Floor as real;
      }
    } else {
      assert Ceil(r) <= s.Floor;
    }
  }

  /** Percentiles rise with the rank asked for, and never leave the range of the data. */
  lemma PercentileMonotone(values: seq<real>, p: real, q: real)
    requires values != [] && 0.0 <= p <= q <= 100.0
    ensures var s := SortNumbers(values);
            var a, b := Percentile(s, p), Percentile(s, q);
            a.Some? && b.Some? && s[0] <= a.value <= b.value <= s[|s| - 1]
  {
    hide SortNumbers, Percentile, AtRank, Times;
    var s := SortNumbers(values);
    var n := |s|;
    SortAscends(values);
    PercentileAtRank(s, p);
    PercentileAtRank(s, q);
    assert Rank(p, n) <= Rank(q, n) by { Steeper(p / 100.0, q / 100.0, (n - 1) as real); }
    AtRankMonotone(s, Rank(p, n), Rank(q, n));
    AtRankBetween(s, Rank(p, n));
    AtRankBetween(s, Rank(q, n));
    RankInRange(p, n);
    RankInRange(q, n);
  }

  lemma RankFrom(p: real, n: nat, x: real)
    requires p * (n - 1) as real == 100.0 * x
    ensures Rank(p, n) == x
  {
    assert p / 100.0 * (n - 1) as real == p * (n - 1) as real / 100.0;
  }

  lemma FloorOf(k: nat, w: real)
    requires 0.0 <= w < 1.0
    ensures (k as real + w).Floor == k && Ceil(k as real + w) == (if w == 0.0 then k else k + 1)
  {
  }

  lemma AtExactRank(sorted: seq<real>, p: real, k: nat, w: real)
    requires |sorted| > 1 && 0.0 <= p <= 100.0 && Rank(p, |sorted|) == k as real + w
    requires 0.0 <= w < 1.0 && k < |sorted| && (w > 0.0 ==> k + 1 < |sorted|)
    ensures Percentile(sorted, p) ==
              Some(if w == 0.0 then sorted[k] else Times(sorted[k], 1.0 - w) + Times(sorted[k + 1], w))
  {
    hide Rank, Ceil, Times;
    FloorOf(k, w);
    RankInRange(p, |sorted|);
  }

  /**
   * Where a percentile lies: of `n` sorted values, the one `w` of the way from value `k` to the next stands at the
   * percentage `100 (k + w) / (n - 1)`, so 0 is the least value, 100 the greatest, 50 the middle one of an odd list.
   */
  lemma PercentileInterpolates(sorted: seq<real>, p: real, k: nat, w: real)
    requires |sorted| > 1 && 0.0 <= p <= 100.0 && p * (|sorted| - 1) as real == 100.0 * (k as real + w)
    requires 0.0 <= w < 1.0 && k < |sorted| && (w > 0.0 ==> k + 1 < |sorted|)
    ensures Percentile(sorted, p) ==
              Some(if w == 0.0 then sorted[k] else sorted[k] * (1.0 - w) + sorted[k + 1] * w)
  {
    hide Rank, Ceil, Percentile;
    RankFrom(p, |sorted|, k as real + w);
    AtExactRank(sorted, p, k, w);
  }

  // ------------------------------------------------------------------ buckets

  datatype Buckets =
    | Buckets(under5m: nat, from5mTo1h: nat, from1hTo6h: nat, from6hTo24h: nat, over24h: nat, over48h: nat, over7d: nat)

  /** How many values lie at or above `lo` and below `hi`; an absent bound does not bound. */
  function CountFrom(values: seq<real>, lo: Option<real>, hi: Option<real>): nat {
    if values == [] then 0
    else
      var v := values[|values| - 1];
      CountFrom(values[..|values| - 1], lo, hi) +
      (if (lo.None? || lo.value <= v) && (hi.None? || v < hi.value) then 1 else 0)
  }

  function CountAbove(values: seq<real>, bound: real): nat {
    if values == [] then 0
    else CountAbove(values[..|values| - 1], bound) + (if values[|values| - 1] > bound then 1 else 0)
  }

  function CountEqual(values: seq<real>, x: real): nat {
    multiset(values)[x]
  }

  /** Four half-open ranges below a day, and three nested tails above one, two and seven days. */
  function BucketsOf(values: seq<real>): Buckets {
    Buckets(CountFrom(values, None, Some(300.0)), CountFrom(values, Some(300.0), Some(3600.0)),
            CountFrom(values, Some(3600.0), Some(21600.0)), CountFrom(values, Some(21600.0), Some(86400.0)),
            CountAbove(values, 86400.0), CountAbove(values, 172800.0), CountAbove(values, 604800.0))
  }

  method Bucketize(values: seq<real>) returns (counts: Buckets)
    ensures counts == BucketsOf(values)
  {
    counts := Buckets(0, 0, 0, 0, 0, 0, 0);
    for i := 0 to |values|
      invariant counts == BucketsOf(values[..i])
    {
      var v := values[i];
      assert values[..i + 1][..i] == values[..i];
      if v < 5.0 * 60.0 { counts := counts.(under5m := counts.under5m + 1); }
      else if v < 60.0 * 60.0 { counts := counts.(from5mTo1h := counts.from5mTo1h + 1); }
      else if v < 6.0 * 60.0 * 60.0 { counts := counts.(from1hTo6h := counts.from1hTo6h + 1); }
      else if v < 24.0 * 60.0 * 60.0 { counts := counts.(from6hTo24h := counts.from6hTo24h + 1); }

      if v > 24.0 * 60.0 * 60.0 { counts := counts.(over24h := counts.over24h + 1); }
      if v > 48.0 * 60.0 * 60.0 { counts := counts.(over48h := counts.over48h + 1); }
      if v > 7.0 * 24.0 * 60.0 * 60.0 { counts := counts.(over7d := counts.over7d + 1); }
    }
    assert values[..|values|] == values;
  }

  method ComputeBuckets(values: seq<real>) returns (out: Buckets)
    ensures out == BucketsOf(values)
  {
    var fiveMin, oneHour, sixHours, oneDay, twoDays, sevenDays := 300.0, 3600.0, 21600.0, 86400.0, 172800.0, 604800.0;
    out := Buckets(0, 0, 0, 0, 0, 0, 0);
    for i := 0 to |values|
      invariant out == BucketsOf(values[..i])
    {
      var v := values[i];
      assert values[..i + 1][..i] == values[..i];
      if v < fiveMin { out := out.(under5m := out.under5m + 1); }
      else if v < oneHour { out := out.(from5mTo1h := out.from5mTo1h + 1); }
      else if v < sixHours { out := out.(from1hTo6h := out.from1hTo6h + 1); }
      else if v < oneDay { out := out.(from6hTo24h := out.from6hTo24h + 1); }

      if v > oneDay { out := out.(over24h := out.over24h + 1); }
      if v > twoDays { out := out.(over48h := out.over48h + 1); }
      if v > sevenDays { out := out.(over7d := out.over7d + 1); }
    }
    assert values[..|values|] == values;
  }

  /**
   * Conservation: the four ranges below a day, the tail above it and the values that are exactly a day make up the
   * whole list, so the buckets alone do exactly when no value is exactly 86400; and the tails are nested.
   */
  lemma {:induction false} BucketsConserve(values: seq<real>)
    ensures var b := BucketsOf(values);
            && b.under5m + b.from5mTo1h + b.from1hTo6h + b.from6hTo24h + b.over24h + CountEqual(values, 86400.0) ==
                 |values|
            && (b.under5m + b.from5mTo1h + b.from1hTo6h + b.from6hTo24h + b.over24h == |values| <==> 86400.0 !in values)
            && b.over7d <= b.over48h <= b.over24h
  {
    if values != [] {
      BucketsConserve(values[..|values| - 1]);
      assert values == values[..|values| - 1] + [values[|values| - 1]];
    }
  }

  // ------------------------------------------------------------------ the two summaries

  datatype Stats = Stats(
    n: nat, mean: Option<real>, median: Option<real>, p75: Option<real>, p90: Option<real>, p95: Option<real>,
    max: Option<real>, min: Option<real>, buckets: Buckets)

  /** `reduce((a, b) => a + b, 0)`. */
  function Sum(values: seq<real>): real {
    if values == [] then 0.0 else Sum(values[..|values| - 1]) + values[|values| - 1]
  }

  function Mean(values: seq<real>): real
    requires values != []
  {
    Sum(values) / |values| as real
  }

  function Shifted(values: seq<real>, m: real): (r: seq<real>)
    ensures |r| == |values|
  {
    seq(|values|, i requires 0 <= i < |values| => values[i] - m)
  }

  lemma {:induction false} ShiftedSum(values: seq<real>, m: real)
    ensures Sum(Shifted(values, m)) == Sum(values) - Times(|values| as real, m)
  {
    if values != [] {
      var front := values[..|values| - 1];
      ShiftedSum(front, m);
      assert Shifted(values, m)[..|values| - 1] == Shifted(front, m);
      assert |values| as real * m == |front| as real * m + m;
    }
  }

  /** The mean is the one value from which the values' deviations cancel out. */
  lemma MeanBalances(values: seq<real>, m: real)
    requires values != []
    ensures Sum(Shifted(values, m)) == 0.0 <==> m == Mean(values)
  {
    hide Sum;
    ShiftedSum(values, m);
    assert m == Mean(values) <==> |values| as real * m == Sum(values);
  }

  method ComputeMean(values: seq<real>) returns (m: Option<real>)
    ensures m == if values == [] then None else Some(Mean(values))
  {
    if |values| == 0 { return None; }
    var total := 0.0;
    for i := 0 to |values|
      invariant total == Sum(values[..i])
    {
      assert values[..i + 1][..i] == values[..i];
      total := total + values[i];
    }
    assert values[..|values|] == values;
    m := Some(total / |values| as real);
  }

  /** What both summaries should be: a statement about the sorted values, in neither aggregator's words. */
  ghost predicate Describes(r: Stats, values: seq<real>) {
    var s := SortNumbers(values);
    && r.n == |values| && r.buckets == BucketsOf(s)
    && (values == [] ==>
          r.mean.None? && r.median.None? && r.p75.None? && r.p90.None? && r.p95.None? && r.max.None? && r.min.None?)
    && (values != [] ==>
          && r.mean == Some(Mean(s)) && r.min == Some(s[0]) && r.max == Some(s[|s| - 1])
          && r.median == Some(AtPercent(s, 50.0)) && r.p75 == Some(AtPercent(s, 75.0))
          && r.p90 == Some(AtPercent(s, 90.0)) && r.p95 == Some(AtPercent(s, 95.0)))
  }

  function AtPercent(sorted: seq<real>, p: real): real
    requires sorted != [] && 0.0 <= p <= 100.0
  {
    RankInRange(p, |sorted|);
    AtRank(sorted, Rank(p, |sorted|))
  }

  lemma TwinsAtPercent(sorted: seq<real>, p: real)
    requires sorted != [] && 0.0 <= p <= 100.0
    ensures Percentile(sorted, p) == Some(AtPercent(sorted, p)) &&
            ComputePercentile(sorted, p) == Some(AtPercent(sorted, p))
  {
    hide Rank, AtRank, Percentile, ComputePercentile;
    PercentileAtRank(sorted, p);
    PercentilesAgree(sorted, p);
  }

  method StatsFor(values: seq<real>) returns (r: Stats)
    ensures Describes(r, values)
  {
    hide Percentile, ComputePercentile, AtPercent, BucketsOf, SortNumbers, Sum;
    var sorted := SortNumbers(values);
    if sorted != [] {
      TwinsAtPercent(sorted, 50.0);
      TwinsAtPercent(sorted, 75.0);
      TwinsAtPercent(sorted, 90.0);
      TwinsAtPercent(sorted, 95.0);
    }
    var buckets := Bucketize(sorted);
    r := Stats(|sorted|,
               if |sorted| > 0 then Some(Mean(sorted)) else None,
               if |sorted| > 0 then Percentile(sorted, 50.0) else None,
               if |sorted| > 0 then Percentile(sorted, 75.0) else None,
               if |sorted| > 0 then Percentile(sorted, 90.0) else None,
               if |sorted| > 0 then Percentile(sorted, 95.0) else None,
               if |sorted| > 0 then Some(sorted[|sorted| - 1]) else None,
               if |sorted| > 0 then Some(sorted[0]) else None,
               buckets);
  }

  method Summarize(values: seq<real>) returns (r: Stats)
    ensures Describes(r, values)
  {
    hide Percentile, AtPercent, BucketsOf, SortNumbers, Sum;
    var sorted := SortNumbers(values);
    if sorted != [] {
      TwinsAtPercent(sorted, 50.0);
      TwinsAtPercent(sorted, 75.0);
      TwinsAtPercent(sorted, 90.0);
      TwinsAtPercent(sorted, 95.0);
    }
    var mean := ComputeMean(sorted);
    var buckets := ComputeBuckets(sorted);
    r := Stats(|sorted|, mean, ComputePercentile(sorted, 50.0), ComputePercentile(sorted, 75.0),
               ComputePercentile(sorted, 90.0), ComputePercentile(sorted, 95.0),
               if |sorted| > 0 then Some(sorted[|sorted| - 1]) else None,
               if |sorted| > 0 then Some(sorted[0]) else None,
               buckets);
  }

  /** The description leaves no freedom: the primary and the independent summary of one list are equal. */
  lemma SummariesAgree(primary: Stats, independent: Stats, values: seq<real>)
    requires Describes(primary, values) && Describes(independent, values)
    ensures primary == independent
  {
  }

  /** Run one after the other on any list, the two aggregators agree in every figure, and their figures are in order. */
  method Compare(values: seq<real>) returns (primary: Stats, independent: Stats)
    ensures primary == independent
    ensures values != [] ==>
              && primary.min.Some? && primary.median.Some? && primary.p75.Some?
              && primary.p90.Some? && primary.p95.Some? && primary.max.Some?
              && primary.min.value <= primary.median.value <= primary.p75.value
                   <= primary.p90.value <= primary.p95.value <= primary.max.value
  {
    hide Describes, Percentile, AtPercent, SortNumbers, BucketsOf;
    primary := StatsFor(values);
    independent := Summarize(values);
    SummariesAgree(primary, independent, values);
    if values != [] { FiguresInOrder(primary, values); }
  }

  lemma FiguresInOrder(r: Stats, values: seq<real>)
    requires Describes(r, values) && values != []
    ensures r.min.Some? && r.median.Some? && r.p75.Some? && r.p90.Some? && r.p95.Some? && r.max.Some?
    ensures r.min.value <= r.median.value <= r.p75.value <= r.p90.value <= r.p95.value <= r.max.value
  {
    hide Percentile, AtPercent, SortNumbers, BucketsOf, Sum;
    var s := SortNumbers(values);
    TwinsAtPercent(s, 50.0); TwinsAtPercent(s, 75.0); TwinsAtPercent(s, 90.0); TwinsAtPercent(s, 95.0);
    PercentileMonotone(values, 50.0, 75.0);
    PercentileMonotone(values, 75.0, 90.0);
    PercentileMonotone(values, 90.0, 95.0);
  }
}
