/**
 `_split_quantity`: a quantity in cents is shared out by random weights, each share is
 rounded, and the first part takes up the difference.
 */
module Quantities {

  predicate Weight(w: real) {
    0.8 <= w <= 1.4
  }

  /** Rounded to a whole cent; a tie may go either way. */
  predicate Nearest(x: real, v: int) {
    v as real - 0.5 <= x <= v as real + 0.5
  }

  function SumReal(s: seq<real>, n: nat): real
    requires n <= |s|
  {
    if n == 0 then 0.0 else SumReal(s, n - 1) + s[n - 1]
  }

  function Sum(s: seq<int>, n: nat): int
    requires n <= |s|
  {
    if n == 0 then 0 else Sum(s, n - 1) + s[n - 1]
  }

  ghost predicate Weights(weights: seq<real>) {
    forall i :: 0 <= i < |weights| ==> Weight(weights[i])
  }

  lemma {:induction false} SumBounds(weights: seq<real>, n: nat)
    requires Weights(weights) && n <= |weights|
    ensures 0.8 * n as real <= SumReal(weights, n) <= 1.4 * n as real
  {
    if n == 0 {
    } else {
      SumBounds(weights, n - 1);
      assert Weight(weights[n - 1]);
    }
  }

  /** What one part weighs against the whole. */
  lemma {:induction false} OneAgainstAll(weights: seq<real>, i: nat, n: nat)
    requires Weights(weights) && i < n <= |weights|
    ensures SumReal(weights, n) <= weights[i] + 1.4 * (n - 1) as real
  {
    assert Weight(weights[n - 1]);
    if i < n - 1 {
      OneAgainstAll(weights, i, n - 1);
    } else {
      SumBounds(weights, n - 1);
    }
  }

  function Portion(total: real, weight: real, all: real): real
    requires all > 0.0
  {
    total * weight / all
  }

  function Share(total: int, weights: seq<real>, i: nat): real
    requires i < |weights| && SumReal(weights, |weights|) > 0.0
  {
    Portion(total as real, weights[i], SumReal(weights, |weights|))
  }

  ghost predicate Rounded(total: int, weights: seq<real>, parts: seq<int>, n: nat)
    requires SumReal(weights, |weights|) > 0.0
  {
    n == |parts| <= |weights| && forall i :: 0 <= i < n ==> Nearest(Share(total, weights, i), parts[i])
  }

  lemma Cancel(x: real, y: real, all: real)
    requires all > 0.0 && x * all >= y * all
    ensures x >= y
  {}

  lemma Divide(total: real, w: real, all: real)
    requires total >= 0.0 && all > 0.0 && 9.0 * w >= 2.0 * all
    ensures Portion(total, w, all) >= total * 2.0 / 9.0
  {
    var x := Portion(total, w, all);
    assert x * all == total * w;
    assert total * (9.0 * w - 2.0 * all) >= 0.0;
    Cancel(9.0 * x, 2.0 * total, all);
  }

  /** No share of up to three is less than two ninths. */
  lemma ShareIsLarge(total: int, weights: seq<real>, i: nat)
    requires Weights(weights) && i < |weights| <= 3 && total >= 0
    requires SumReal(weights, |weights|) > 0.0
    ensures Share(total, weights, i) >= total as real * 2.0 / 9.0
  {
    var w, all := weights[i], SumReal(weights, |weights|);
    OneAgainstAll(weights, i, |weights|);
    assert Weight(w);
    hide Portion, SumReal, Weights;
    Divide(total as real, w, all);
  }

  function SumShares(total: int, weights: seq<real>, n: nat): real
    requires n <= |weights| && SumReal(weights, |weights|) > 0.0
  {
    if n == 0 then 0.0 else SumShares(total, weights, n - 1) + Share(total, weights, n - 1)
  }

  /** A share is to the total as its weight is to all of them. */
  lemma ShareTimes(total: int, weights: seq<real>, i: nat)
    requires i < |weights| && SumReal(weights, |weights|) > 0.0
    ensures Share(total, weights, i) * SumReal(weights, |weights|) == total as real * weights[i]
  {}

  lemma Spread(x: real, y: real, t: real, u: real, w: real, all: real)
    requires x * all == t * u && y * all == t * w
    ensures (x + y) * all == t * (u + w)
  {}

  lemma {:induction false} SharesTimes(total: int, weights: seq<real>, n: nat)
    requires n <= |weights| && SumReal(weights, |weights|) > 0.0
    ensures SumShares(total, weights, n) * SumReal(weights, |weights|) == total as real * SumReal(weights, n)
  {
    hide Share;
    if n == 0 {
    } else {
      SharesTimes(total, weights, n - 1);
      ShareTimes(total, weights, n - 1);
      Spread(SumShares(total, weights, n - 1), Share(total, weights, n - 1), total as real,
             SumReal(weights, n - 1), weights[n - 1], SumReal(weights, |weights|));
    }
  }

  lemma {:induction false} RoundingAddsUp(total: int, weights: seq<real>, parts: seq<int>, n: nat)
    requires n <= |parts| && SumReal(weights, |weights|) > 0.0 && Rounded(total, weights, parts, |parts|)
    ensures Sum(parts, n) as real - 0.5 * n as real <= SumShares(total, weights, n) <= Sum(parts, n) as real + 0.5 * n as real
  {
    hide Share;
    if n == 0 {
    } else {
      RoundingAddsUp(total, weights, parts, n - 1);
      assert Nearest(Share(total, weights, n - 1), parts[n - 1]);
    }
  }

  /** The shares make up the total, so rounding is off by at most half a cent a part. */
  lemma RoundingIsClose(total: int, weights: seq<real>, parts: seq<int>)
    requires |parts| == |weights| && SumReal(weights, |weights|) > 0.0 && Rounded(total, weights, parts, |parts|)
    ensures -0.5 * |parts| as real <= (total - Sum(parts, |parts|)) as real <= 0.5 * |parts| as real
  {
    hide SumShares, Share;
    SharesTimes(total, weights, |weights|);
    Cancel(SumShares(total, weights, |weights|), total as real, SumReal(weights, |weights|));
    Cancel(total as real, SumShares(total, weights, |weights|), SumReal(weights, |weights|));
    RoundingAddsUp(total, weights, parts, |parts|);
  }

  lemma {:induction false} SumUpdated(parts: seq<int>, d: int, n: nat)
    requires 1 <= n <= |parts|
    ensures Sum(parts[0 := parts[0] + d], n) == Sum(parts, n) + d
  {
    if n > 1 {
      SumUpdated(parts, d, n - 1);
    } else {
      assert Sum(parts, 1) == Sum(parts, 0) + parts[0];
      var t := parts[0 := parts[0] + d];
      assert Sum(t, 1) == Sum(t, 0) + t[0];
    }
  }

  /** With the first part taking up the difference the parts sum to the total, and each is
      positive for a total of at least a unit and up to three parts. */
  lemma SplitIsExact(total: int, weights: seq<real>, parts: seq<int>)
    requires Weights(weights) && 1 <= |weights| == |parts| && SumReal(weights, |weights|) > 0.0
    requires Rounded(total, weights, parts, |parts|)
    ensures var values := parts[0 := parts[0] + (total - Sum(parts, |parts|))];
      && Sum(values, |values|) == total
      && (total >= 100 && |values| <= 3 ==> forall i :: 0 <= i < |values| ==> values[i] >= 1)
  {
    hide Share;
    var d := total - Sum(parts, |parts|);
    SumUpdated(parts, d, |parts|);
    if total >= 100 && |parts| <= 3 {
      RoundingIsClose(total, weights, parts);
      forall i | 0 <= i < |parts| ensures parts[i] >= 21 {
        ShareIsLarge(total, weights, i);
        assert Nearest(Share(total, weights, i), parts[i]);
      }
    }
  }

  /** Every part but the first is its weight's share of the total, to the nearest cent. */
  ghost predicate Apportioned(total: int, weights: seq<real>, values: seq<int>) {
    && |values| == |weights| && SumReal(weights, |weights|) > 0.0
    && forall i :: 1 <= i < |values| ==> Nearest(Share(total, weights, i), values[i])
  }

  lemma RestIsApportioned(total: int, weights: seq<real>, parts: seq<int>, first: int)
    requires |parts| == |weights| && 1 <= |weights| && SumReal(weights, |weights|) > 0.0
    requires Rounded(total, weights, parts, |parts|)
    ensures Apportioned(total, weights, parts[0 := first])
  {
    hide Share;
  }

  method SplitQuantity(total: int, count: nat) returns (values: seq<int>)
    ensures |values| == if count <= 1 then 1 else count
    ensures Sum(values, |values|) == total
    ensures total >= 100 && count <= 3 ==> forall i :: 0 <= i < |values| ==> values[i] >= 1
    ensures count > 1 ==> exists weights :: |weights| == count && Weights(weights) && Apportioned(total, weights, values)
  {
    if count <= 1 {
      values := [total];
      assert Sum(values, 0) == 0;
      return;
    }
    hide Share;
    var weights: seq<real> := [];
    assert Weight(1.0);
    for i := 0 to count
      invariant |weights| == i && Weights(weights)
    {
      var w: real :| Weight(w);
      weights := weights + [w];
    }
    SumBounds(weights, count);
    var parts: seq<int> := [];
    for i := 0 to count
      invariant Rounded(total, weights, parts, i)
    {
      assert Nearest(Share(total, weights, i), (Share(total, weights, i) + 0.5).Floor);
      var v: int :| Nearest(Share(total, weights, i), v);
      parts := parts + [v];
    }
    SplitIsExact(total, weights, parts);
    values := parts[0 := parts[0] + (total - Sum(parts, |parts|))];
    RestIsApportioned(total, weights, parts, values[0]);
  }
}
