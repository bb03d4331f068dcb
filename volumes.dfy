/**
 * Volume distribution of the trailing-entry engine: `calculateOrderVolumes`
 * splits a total volume into `numOrders` parts by the even, normal or custom
 * policy. Numbers are exact reals instead of float64.
 */
module Volumes {
  import opened Types

  /** Steepness of the "normal" weights: the edge orders get 1 - 0.5 = half the middle weight. */
  const Steepness: real := 0.5

  function Abs(x: real): (r: real)
    ensures r >= 0.0 && (r == x || r == -x)
  {
    if x < 0.0 then -x else x
  }

  /** Sum of a sequence, accumulated from the front like the Go loops. */
  function Sum(s: seq<real>): real
  {
    if |s| == 0 then 0.0 else Sum(s[..|s| - 1]) + s[|s| - 1]
  }

  /** The middle index of an n-order ladder, (n - 1) / 2. */
  function Middle(n: int): real
  {
    (n - 1) as real / 2.0
  }

  /** Weight of order i under the normal policy: 1 - Steepness * |i - mid| / mid. */
  function NormalWeight(i: int, n: int): (w: real)
    requires n >= 2
    ensures w <= 1.0
    ensures w == 1.0 <==> i as real == Middle(n)
  {
    1.0 - (Abs(i as real - Middle(n)) / Middle(n)) * Steepness
  }

  function NormalWeights(n: nat): (ws: seq<real>)
    requires n != 1
    ensures |ws| == n
  {
    seq(n, i requires 0 <= i < n => NormalWeight(i, n))
  }

  /** One normalised volume: a weight divided by the weight sum, scaled to the total. */
  function Share(w: real, sum: real, total: real): real
    requires sum != 0.0
  {
    (w / sum) * total
  }

  /** Each weight divided by the weight sum, scaled to the total volume. */
  function Normalised(ws: seq<real>, total: real): (vs: seq<real>)
    requires |ws| == 0 || Sum(ws) != 0.0
    ensures |vs| == |ws|
  {
    seq(|ws|, i requires 0 <= i < |ws| => Share(ws[i], Sum(ws), total))
  }

  function EvenShares(total: real, n: nat): (vs: seq<real>)
    ensures |vs| == n
  {
    seq(n, i requires 0 <= i < n => total / n as real)
  }

  /**
   * The inputs for which the Go code computes without dividing zero by zero:
   * a non-negative order count (make panics otherwise), no one-order normal
   * ladder (its middle is 0) and no non-empty custom weights summing to 0.
   */
  predicate VolumesDefined(config: TrailingEntryConfig)
  {
    && config.numOrders >= 0
    && (config.distribution == NormalDistribution ==> config.numOrders != 1)
    && (config.distribution == CustomDistribution && |config.weights| == config.numOrders && config.numOrders > 0 ==>
          Sum(config.weights) != 0.0)
  }

  /** What `calculateOrderVolumes` returns, as a function of its configuration. */
  function OrderVolumes(config: TrailingEntryConfig): (vs: seq<real>)
    requires VolumesDefined(config)
    ensures |vs| == config.numOrders
  {
    var n := config.numOrders;
    if config.distribution == NormalDistribution then
      NormalWeightsSumPositive(n);
      Normalised(NormalWeights(n), config.totalVolume)
    else if config.distribution == CustomDistribution && |config.weights| == n then
      Normalised(config.weights, config.totalVolume)
    else
      EvenShares(config.totalVolume, n)
  }

  // ---------------------------------------------------------------------
  // The Go code: a slice filled by loops with a running sum.
  // ---------------------------------------------------------------------

  method CalculateOrderVolumes(config: TrailingEntryConfig) returns (volumes: seq<real>)
    requires VolumesDefined(config)
    ensures volumes == OrderVolumes(config)
  {
    var n := config.numOrders;
    var a := new real[n];
    if config.distribution == NormalDistribution {
      FillNormal(a, config.totalVolume);
    } else if config.distribution == CustomDistribution {
      if |config.weights| != n {
        FillEven(a, config.totalVolume);
        volumes := a[..];
        return;
      }
      FillCustom(a, config.weights, config.totalVolume);
    } else {
      FillEven(a, config.totalVolume);
    }
    volumes := a[..];
  }

  /** The normal branch: weights with a running sum, then a second pass normalising them. */
  method FillNormal(a: array<real>, total: real)
    requires a.Length != 1
    modifies a
    ensures a.Length > 0 ==> Sum(NormalWeights(a.Length)) > 0.0
    ensures a[..] == Normalised(NormalWeights(a.Length), total)
  {
    var sum := WriteNormalWeights(a);
    NormalWeightsSumPositive(a.Length);
    Normalise(a, NormalWeights(a.Length), sum, total);
  }

  /** The first loop of the normal branch: each slot gets its weight, and the weights are summed. */
  method WriteNormalWeights(a: array<real>) returns (sum: real)
    requires a.Length != 1
    modifies a
    ensures a[..] == NormalWeights(a.Length)
    ensures sum == Sum(NormalWeights(a.Length))
  {
    var n := a.Length;
    ghost var ws := NormalWeights(n);
    var middle := (n - 1) as real / 2.0;
    sum := 0.0;
    var i := 0;
    while i < n
      invariant 0 <= i <= n
      invariant forall k :: 0 <= k < i ==> a[k] == ws[k]
      invariant sum == Sum(ws[..i])
    {
      var distance := Abs(i as real - middle) / middle;
      var weight := 1.0 - distance * Steepness;
      assert weight == ws[i];
      a[i] := weight;
      sum := sum + weight;
      assert ws[..i + 1][..i] == ws[..i];
      i := i + 1;
    }
    assert ws[..n] == ws;
  }

  /** The custom branch with a matching weight count: sum the weights, then divide. */
  method FillCustom(a: array<real>, ws: seq<real>, total: real)
    requires |ws| == a.Length
    requires |ws| == 0 || Sum(ws) != 0.0
    modifies a
    ensures a[..] == Normalised(ws, total)
  {
    var n := a.Length;
    var sum := 0.0;
    var i := 0;
    while i < n
      invariant 0 <= i <= n
      invariant sum == Sum(ws[..i])
    {
      assert ws[..i + 1][..i] == ws[..i];
      sum := sum + ws[i];
      i := i + 1;
    }
    assert ws[..n] == ws;
    forall k | 0 <= k < n {
      a[k] := ws[k];
    }
    Normalise(a, ws, sum, total);
  }

  /** The shared second pass: a[i] := (a[i] / sum) * total for every i. */
  method Normalise(a: array<real>, ghost ws: seq<real>, sum: real, total: real)
    requires a[..] == ws
    requires sum == Sum(ws)
    requires |ws| == 0 || sum != 0.0
    modifies a
    ensures a[..] == Normalised(ws, total)
  {
    var i := 0;
    while i < a.Length
      invariant 0 <= i <= a.Length && |ws| == a.Length
      invariant forall k :: 0 <= k < i ==> a[k] == Share(ws[k], sum, total)
      invariant forall k :: i <= k < a.Length ==> a[k] == ws[k]
    {
      a[i] := (a[i] / sum) * total;
      i := i + 1;
    }
    assert forall k :: 0 <= k < a.Length ==> a[..][k] == Normalised(ws, total)[k];
  }

  /** The even split written into every slot of `a`. */
  method FillEven(a: array<real>, total: real)
    modifies a
    ensures a[..] == EvenShares(total, a.Length)
  {
    var i := 0;
    while i < a.Length
      invariant 0 <= i <= a.Length
      invariant forall k :: 0 <= k < i ==> a[k] == total / a.Length as real
    {
      a[i] := total / a.Length as real;
      i := i + 1;
    }
  }

  // ---------------------------------------------------------------------
  // Sums
  // ---------------------------------------------------------------------

  lemma {:induction false} SumOfConstant(s: seq<real>, c: real)
    requires forall i :: 0 <= i < |s| ==> s[i] == c
    ensures Sum(s) == |s| as real * c
  {
    if |s| > 0 {
      SumOfConstant(s[..|s| - 1], c);
    }
  }

  lemma {:induction false} SumAtLeast(s: seq<real>, c: real)
    requires forall i :: 0 <= i < |s| ==> s[i] >= c
    ensures Sum(s) >= |s| as real * c
  {
    if |s| > 0 {
      SumAtLeast(s[..|s| - 1], c);
    }
  }

  /** Dividing every element by d and multiplying by t scales the sum by t / d. */
  lemma {:induction false} SumOfScaled(ws: seq<real>, vs: seq<real>, d: real, t: real)
    requires d != 0.0
    requires |vs| == |ws|
    requires forall i :: 0 <= i < |ws| ==> vs[i] == (ws[i] / d) * t
    ensures Sum(vs) == (Sum(ws) / d) * t
  {
    if |ws| > 0 {
      var m := |ws| - 1;
      SumOfScaled(ws[..m], vs[..m], d, t);
      assert Sum(vs) == (Sum(ws[..m]) / d) * t + (ws[m] / d) * t;
      assert (Sum(ws[..m]) / d) * t + (ws[m] / d) * t == ((Sum(ws[..m]) + ws[m]) / d) * t;
    }
  }

  lemma NormalWeightsSumPositive(n: nat)
    requires n != 1
    ensures n > 0 ==> Sum(NormalWeights(n)) >= 0.5 * n as real > 0.0
  {
    if n > 0 {
      forall i | 0 <= i < n ensures NormalWeights(n)[i] >= 0.5 {
        NormalWeightBounds(i, n);
      }
      SumAtLeast(NormalWeights(n), 0.5);
    }
  }

  // ---------------------------------------------------------------------
  // Properties of the distribution
  // ---------------------------------------------------------------------

  /** Normalising a weight sequence with a non-zero sum preserves the total. */
  lemma NormalisedSum(ws: seq<real>, total: real)
    requires |ws| > 0 && Sum(ws) != 0.0
    ensures Sum(Normalised(ws, total)) == total
  {
    NormalisedAt(ws, total);
    ScaledToTotal(ws, Normalised(ws, total), total);
  }

  lemma ScaledToTotal(ws: seq<real>, vs: seq<real>, t: real)
    requires |vs| == |ws| && Sum(ws) != 0.0
    requires forall i :: 0 <= i < |ws| ==> vs[i] == Share(ws[i], Sum(ws), t)
    ensures Sum(vs) == t
  {
    SumOfScaled(ws, vs, Sum(ws), t);
    DivSelfTimes(Sum(ws), t);
  }

  lemma NormalisedAt(ws: seq<real>, total: real)
    requires |ws| == 0 || Sum(ws) != 0.0
    ensures forall i :: 0 <= i < |ws| ==> Normalised(ws, total)[i] == Share(ws[i], Sum(ws), total)
  {
  }

  lemma DivSelfTimes(d: real, t: real)
    requires d != 0.0
    ensures (d / d) * t == t
  {
    assert d / d == 1.0;
  }

  /** The volumes add up to the configured total (checked to 1e-3 by the Go tests). */
  lemma VolumesSumToTotal(config: TrailingEntryConfig)
    requires VolumesDefined(config)
    requires config.numOrders >= 1
    ensures Sum(OrderVolumes(config)) == config.totalVolume
  {
    var n := config.numOrders;
    if config.distribution == NormalDistribution {
      NormalWeightsSumPositive(n);
      NormalisedSum(NormalWeights(n), config.totalVolume);
    } else if config.distribution == CustomDistribution && |config.weights| == n {
      NormalisedSum(config.weights, config.totalVolume);
    } else {
      EvenSharesSum(config.totalVolume, n);
    }
  }

  lemma EvenSharesSum(total: real, n: nat)
    requires n > 0
    ensures Sum(EvenShares(total, n)) == total
  {
    SumOfConstant(EvenShares(total, n), total / n as real);
  }

  /**
   * Every order gets total / n exactly when the policy is not "normal" and not a
   * "custom" one whose weight count matches: "even", any unknown name (also ""),
   * and custom weights of the wrong length.
   */
  lemma EqualShares(config: TrailingEntryConfig)
    requires VolumesDefined(config)
    requires config.distribution != NormalDistribution
    requires config.distribution == CustomDistribution ==> |config.weights| != config.numOrders
    ensures forall i :: 0 <= i < config.numOrders ==>
      OrderVolumes(config)[i] == config.totalVolume / config.numOrders as real
  {
  }

  /** Normal and length-matching custom volumes are the normalised weights w_i / sum(w) * total. */
  lemma WeightedShares(config: TrailingEntryConfig)
    requires VolumesDefined(config)
    requires config.numOrders >= 1
    requires config.distribution == NormalDistribution ||
      (config.distribution == CustomDistribution && |config.weights| == config.numOrders)
    ensures var ws := if config.distribution == NormalDistribution then NormalWeights(config.numOrders)
                      else config.weights;
      && |ws| == config.numOrders && Sum(ws) != 0.0
      && forall i :: 0 <= i < config.numOrders ==>
           OrderVolumes(config)[i] == (ws[i] / Sum(ws)) * config.totalVolume
  {
    if config.distribution == NormalDistribution {
      NormalWeightsSumPositive(config.numOrders);
    }
  }

  /** Every normal weight lies in [0.5, 1]. */
  lemma NormalWeightBounds(i: int, n: int)
    requires n >= 2 && 0 <= i < n
    ensures 0.5 <= NormalWeight(i, n) <= 1.0
  {
    var mid := Middle(n);
    var d := Abs(i as real - mid);
    assert 0.0 <= d <= mid;
    DivAtMostOne(d, mid);
  }

  lemma DivAtMostOne(d: real, m: real)
    requires m > 0.0 && 0.0 <= d <= m
    ensures 0.0 <= d / m <= 1.0
  {
  }

  /** The normal weights are symmetric about the middle. */
  lemma NormalWeightSymmetric(i: int, n: int)
    requires n >= 2 && 0 <= i < n
    ensures NormalWeight(i, n) == NormalWeight(n - 1 - i, n)
  {
    assert Abs((n - 1 - i) as real - Middle(n)) == Abs(i as real - Middle(n));
  }

  /** An order nearer the middle never weighs less; the middle itself weighs most. */
  lemma NormalWeightPeaksAtMiddle(i: int, j: int, n: int)
    requires n >= 2 && 0 <= i < n && 0 <= j < n
    requires Abs(j as real - Middle(n)) <= Abs(i as real - Middle(n))
    ensures NormalWeight(i, n) <= NormalWeight(j, n)
  {
    DivMonotone(Abs(j as real - Middle(n)), Abs(i as real - Middle(n)), Middle(n));
  }

  lemma DivMonotone(a: real, b: real, m: real)
    requires m > 0.0 && a <= b
    ensures a / m <= b / m
  {
  }

  /** The normal volumes inherit the symmetry of their weights. */
  lemma NormalVolumesSymmetric(config: TrailingEntryConfig, i: int)
    requires VolumesDefined(config)
    requires config.distribution == NormalDistribution
    requires 0 <= i < config.numOrders
    ensures OrderVolumes(config)[i] == OrderVolumes(config)[config.numOrders - 1 - i]
  {
    NormalWeightSymmetric(i, config.numOrders);
  }

  // ---------------------------------------------------------------------
  // The four cases of TestCalculateOrderVolumes, exactly
  // ---------------------------------------------------------------------

  function TestConfig(n: int, distribution: string, weights: seq<real>): TrailingEntryConfig
  {
    TrailingEntryConfig("", "", 0.0, 0.0, 1.0, n, distribution, weights, "")
  }

  lemma EvenFourOrders()
    ensures OrderVolumes(TestConfig(4, EvenDistribution, [])) == [0.25, 0.25, 0.25, 0.25]
  {
  }

  lemma SumOfThree(a: real, b: real, c: real)
    ensures Sum([a, b, c]) == a + b + c
  {
    assert [a, b, c][..2] == [a, b];
    assert [a, b][..1] == [a];
    assert [a][..0] == [];
    assert Sum([a]) == a;
    assert Sum([a, b]) == a + b;
  }

  lemma NormalThreeOrders()
    ensures OrderVolumes(TestConfig(3, NormalDistribution, [])) == [0.25, 0.5, 0.25]
  {
    var ws := NormalWeights(3);
    assert ws == [0.5, 1.0, 0.5];
    SumOfThree(0.5, 1.0, 0.5);
  }

  lemma CustomOneTwoOne()
    ensures Sum([1.0, 2.0, 1.0]) == 4.0 &&
      OrderVolumes(TestConfig(3, CustomDistribution, [1.0, 2.0, 1.0])) == [0.25, 0.5, 0.25]
  {
    SumOfThree(1.0, 2.0, 1.0);
  }

  lemma CustomWrongLengthFallsBack()
    ensures OrderVolumes(TestConfig(3, CustomDistribution, [1.0, 2.0])) == [1.0 / 3.0, 1.0 / 3.0, 1.0 / 3.0]
  {
  }
}
