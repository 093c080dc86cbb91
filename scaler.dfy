/**
 * The scaler: the overall minimum and maximum of all series, the 10% padding
 * around them, and the mapping of each price onto an integer row.
 */
module Scaler {

  /** One named series, in the order the source's dictionary iterates. */
  type Series = (string, seq<real>)

  /** Python's `int()` on a float: truncation toward zero. */
  function Trunc(x: real): (n: int)
    ensures x >= 0.0 ==> n as real <= x < n as real + 1.0
    ensures x < 0.0 ==> n as real - 1.0 < x <= n as real
  {
    if x >= 0.0 then x.Floor else -((-x).Floor)
  }

  /** Truncation is monotone. */
  lemma TruncMonotone(x: real, y: real)
    requires x <= y
    ensures Trunc(x) <= Trunc(y)
  {
  }

  /** The row of one price for a non-degenerate range: the expression in the comprehension. */
  function Row(p: real, lo: real, hi: real, height: int): int
    requires lo != hi
  {
    Scaled(p - lo, hi - lo, (height - 1) as real)
  }

  /** `x / d * h`: a fraction of the range scaled to the rows. */
  function Ratio(x: real, d: real, h: real): real
    requires d != 0.0
  {
    x / d * h
  }

  /** `int(x / d * h)`. */
  function Scaled(x: real, d: real, h: real): int
    requires d != 0.0
  {
    Trunc(Ratio(x, d, h))
  }

  /** `normalize_prices`: every price mapped to its row, all rows 0 when the range is a point. */
  function NormalizePrices(prices: seq<real>, lo: real, hi: real, height: int): (r: seq<int>)
    ensures |r| == |prices|
    ensures hi == lo ==> forall i :: 0 <= i < |r| ==> r[i] == 0
    ensures hi != lo ==> forall i :: 0 <= i < |r| ==> r[i] == Row(prices[i], lo, hi, height)
  {
    if hi == lo then seq(|prices|, _ => 0)
    else seq(|prices|, i requires 0 <= i < |prices| => Row(prices[i], lo, hi, height))
  }

  /** Dividing by a positive number keeps the order. */
  lemma DivMonotone(x: real, y: real, d: real)
    requires x <= y && d > 0.0
    ensures x / d <= y / d
  {
    var q := (y - x) / d;
    assert q * d == y - x;
    assert y / d - x / d == q;
  }

  /** Multiplying by a non-negative number keeps the order. */
  lemma MulMonotone(x: real, y: real, h: real)
    requires x <= y && h >= 0.0
    ensures x * h <= y * h
  {
    assert (y - x) * h >= 0.0;
  }

  /** A fraction in [0, 1] of a non-negative h lies in [0, h]. */
  lemma ProductBounds(f: real, h: real)
    requires 0.0 <= f <= 1.0 && h >= 0.0
    ensures 0.0 <= f * h <= h
  {
    MulMonotone(0.0, f, h);
    MulMonotone(f, 1.0, h);
  }

  /** Truncating a value in [0, h] gives an integer in [0, h]. */
  lemma TruncBounds(x: real, h: real)
    requires 0.0 <= x <= h
    ensures 0 <= Trunc(x) && Trunc(x) as real <= h
  {
  }

  /** The fraction (p - lo) / (hi - lo) of a price inside the range lies in [0, 1]. */
  lemma FractionBounds(p: real, lo: real, hi: real)
    requires lo < hi && lo <= p <= hi
    ensures 0.0 <= (p - lo) / (hi - lo) <= 1.0
  {
    var d := hi - lo;
    DivMonotone(0.0, p - lo, d);
    DivMonotone(p - lo, d, d);
    DivSelf(d);
  }

  lemma DivSelf(d: real)
    requires d != 0.0
    ensures d / d == 1.0
  {
    var q := d / d;
    assert q * d == d;
    assert (q - 1.0) * d == 0.0;
  }

  /** A price inside a non-degenerate range lands on a row in [0, height - 1]. */
  lemma RowBounds(p: real, lo: real, hi: real, height: int)
    requires lo < hi && lo <= p <= hi && height >= 1
    ensures 0 <= Row(p, lo, hi, height) <= height - 1
  {
    var f := (p - lo) / (hi - lo);
    var h := (height - 1) as real;
    FractionBounds(p, lo, hi);
    ProductBounds(f, h);
    TruncBounds(f * h, h);
  }

  /** The bottom of the range is row 0 and the top is row height - 1. */
  lemma RowEnds(lo: real, hi: real, height: int)
    requires lo < hi
    ensures Row(lo, lo, hi, height) == 0
    ensures Row(hi, lo, hi, height) == height - 1
  {
    DivSelf(hi - lo);
  }

  /** Scaling by a positive divisor and a non-negative factor keeps the order. */
  lemma RatioMonotone(x: real, y: real, d: real, h: real)
    requires x <= y && d > 0.0 && h >= 0.0
    ensures Ratio(x, d, h) <= Ratio(y, d, h)
  {
    DivMonotone(x, y, d);
    MulMonotone(x / d, y / d, h);
  }

  /** Scaling, then truncating, keeps the order. */
  lemma ScaledMonotone(x: real, y: real, d: real, h: real)
    requires x <= y && d > 0.0 && h >= 0.0
    ensures Scaled(x, d, h) <= Scaled(y, d, h)
  {
    RatioMonotone(x, y, d, h);
    TruncMonotone(Ratio(x, d, h), Ratio(y, d, h));
  }

  /** A larger price never lands on a lower row. */
  lemma RowMonotone(a: real, b: real, lo: real, hi: real, height: int)
    requires lo < hi && a <= b && height >= 1
    ensures Row(a, lo, hi, height) <= Row(b, lo, hi, height)
  {
    ScaledMonotone(a - lo, b - lo, hi - lo, (height - 1) as real);
  }

  /** Every price inside [lo, hi] is normalized to a row in [0, height - 1], degenerate range included. */
  lemma NormalizeInRange(prices: seq<real>, lo: real, hi: real, height: int)
    requires lo <= hi && height >= 1
    requires forall i :: 0 <= i < |prices| ==> lo <= prices[i] <= hi
    ensures forall i :: 0 <= i < |prices| ==> 0 <= NormalizePrices(prices, lo, hi, height)[i] < height
  {
    if lo < hi {
      forall i | 0 <= i < |prices| ensures 0 <= NormalizePrices(prices, lo, hi, height)[i] < height {
        RowBounds(prices[i], lo, hi, height);
      }
    }
  }

  /** Normalization keeps the order of prices, for any fixed range with lo <= hi. */
  lemma NormalizeMonotone(prices: seq<real>, lo: real, hi: real, height: int, i: int, j: int)
    requires lo <= hi && height >= 1
    requires 0 <= i < |prices| && 0 <= j < |prices| && prices[i] <= prices[j]
    ensures NormalizePrices(prices, lo, hi, height)[i] <= NormalizePrices(prices, lo, hi, height)[j]
  {
    if lo < hi {
      RowMonotone(prices[i], prices[j], lo, hi, height);
    }
  }

  /** All the points of all series, in order: what the `extend` loop builds. */
  function Flatten(data: seq<Series>): seq<real>
    decreases |data|
  {
    if data == [] then [] else Flatten(data[..|data| - 1]) + data[|data| - 1].1
  }

  /** A value is among the flattened points exactly when it is a point of some series. */
  lemma {:induction false} FlattenMembers(data: seq<Series>, p: real)
    ensures p in Flatten(data) <==> exists k :: 0 <= k < |data| && p in data[k].1
    decreases |data|
  {
    if data != [] {
      var init := data[..|data| - 1];
      FlattenMembers(init, p);
      assert forall k :: 0 <= k < |init| ==> init[k] == data[k];
    }
  }

  /** With every series of length n, there are |data| * n points. */
  lemma {:induction false} FlattenLength(data: seq<Series>, n: nat)
    requires forall k :: 0 <= k < |data| ==> |data[k].1| == n
    ensures |Flatten(data)| == |data| * n
    decreases |data|
  {
    if data != [] {
      var init := data[..|data| - 1];
      FlattenLength(init, n);
      assert |Flatten(data)| == |Flatten(init)| + n;
      assert |init| * n + n == (|init| + 1) * n;
    }
  }

  /** The `extend` loop that gathers every point of every series. */
  method CollectPoints(data: seq<Series>) returns (all: seq<real>)
    ensures all == Flatten(data)
  {
    all := [];
    for k := 0 to |data|
      invariant all == Flatten(data[..k])
    {
      assert data[..k + 1][..k] == data[..k];
      all := all + data[k].1;
    }
    assert data[..|data|] == data;
  }

  /** Python's `max` on a non-empty list. */
  function MaxOf(s: seq<real>): (m: real)
    requires |s| > 0
    ensures m in s
    ensures forall i :: 0 <= i < |s| ==> s[i] <= m
  {
    if |s| == 1 then s[0]
    else
      var rest := MaxOf(s[1..]);
      if s[0] >= rest then s[0] else rest
  }

  /** Python's `min` on a non-empty list. */
  function MinOf(s: seq<real>): (m: real)
    requires |s| > 0
    ensures m in s
    ensures forall i :: 0 <= i < |s| ==> m <= s[i]
  {
    if |s| == 1 then s[0]
    else
      var rest := MinOf(s[1..]);
      if s[0] <= rest then s[0] else rest
  }

  /** The padded bounds: the raw minimum and maximum, each pushed out by a tenth of their distance. */
  function PaddedRange(all: seq<real>): (r: (real, real))
    requires |all| > 0
  {
    var hi := MaxOf(all);
    var lo := MinOf(all);
    var padding := (hi - lo) * 0.1;
    (lo - padding, hi + padding)
  }

  /** The padded bounds are `min - r/10` and `max + r/10` for the raw span `r`. */
  lemma PaddedRangeBounds(all: seq<real>)
    requires |all| > 0
    ensures PaddedRange(all).0 == MinOf(all) - (MaxOf(all) - MinOf(all)) / 10.0
    ensures PaddedRange(all).1 == MaxOf(all) + (MaxOf(all) - MinOf(all)) / 10.0
  {
  }

  /** Every point lies inside the padded range. */
  lemma PaddedRangeContains(all: seq<real>, i: int)
    requires 0 <= i < |all|
    ensures PaddedRange(all).0 <= all[i] <= PaddedRange(all).1
  {
    var lo, hi := MinOf(all), MaxOf(all);
    assert lo <= all[i] <= hi;
    PaddedRangeBounds(all);
  }

  /** The padded bounds coincide exactly when all points are equal. */
  lemma PaddedRangeDegenerate(all: seq<real>)
    requires |all| > 0
    ensures PaddedRange(all).0 == PaddedRange(all).1 <==> forall i :: 0 <= i < |all| ==> all[i] == all[0]
  {
    var lo, hi := MinOf(all), MaxOf(all);
    if PaddedRange(all).0 == PaddedRange(all).1 {
      assert hi - lo == 0.0;
    } else {
      assert lo < hi;
      var i :| 0 <= i < |all| && all[i] == hi;
      var j :| 0 <= j < |all| && all[j] == lo;
      assert all[i] != all[j];
    }
  }

  /** The per-series normalization loop that fills `normalized_data`, keys in the same order. */
  method NormalizeAll(data: seq<Series>, lo: real, hi: real, height: int) returns (normalized: seq<(string, seq<int>)>)
    ensures |normalized| == |data|
    ensures forall k :: 0 <= k < |data| ==>
      normalized[k] == (data[k].0, NormalizePrices(data[k].1, lo, hi, height))
  {
    normalized := [];
    for k := 0 to |data|
      invariant |normalized| == k
      invariant forall l :: 0 <= l < k ==>
        normalized[l] == (data[l].0, NormalizePrices(data[l].1, lo, hi, height))
    {
      normalized := normalized + [(data[k].0, NormalizePrices(data[k].1, lo, hi, height))];
    }
  }
}
