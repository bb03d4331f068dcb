/**
 * The trailing-entry engine as the Go code runs it (`ExecuteTrailingEntry`):
 * compute the volumes, lay a price ladder across the band and submit one limit
 * order per rung, in index order, stopping at the first failed submission.
 */
module Ladder {
  import opened Types
  import opened Volumes
  import opened Gateway

  const BuySide: string := "buy"

  /** The price distance between neighbouring rungs. */
  function PriceStep(upper: real, lower: real, n: int): real
    requires n != 1
  {
    (upper - lower) / (n - 1) as real
  }

  /** Rung i: buys descend from the upper band, every other side ascends from the lower band. */
  function LadderPrice(side: string, upper: real, lower: real, n: int, i: int): real
    requires n != 1
  {
    if side == BuySide then upper - i as real * PriceStep(upper, lower, n)
    else lower + i as real * PriceStep(upper, lower, n)
  }

  /** n - 1 steps span the band exactly. */
  lemma StepSpansBand(upper: real, lower: real, n: int)
    requires n >= 2
    ensures PriceStep(upper, lower, n) * (n - 1) as real == upper - lower
  {
  }

  lemma BuyLadderEndpoints(upper: real, lower: real, n: int)
    requires n >= 2
    ensures LadderPrice(BuySide, upper, lower, n, 0) == upper
    ensures LadderPrice(BuySide, upper, lower, n, n - 1) == lower
  {
    StepSpansBand(upper, lower, n);
  }

  lemma SellLadderEndpoints(side: string, upper: real, lower: real, n: int)
    requires n >= 2 && side != BuySide
    ensures LadderPrice(side, upper, lower, n, 0) == lower
    ensures LadderPrice(side, upper, lower, n, n - 1) == upper
  {
    StepSpansBand(upper, lower, n);
  }

  lemma StepPositive(upper: real, lower: real, n: int)
    requires n >= 2 && upper > lower
    ensures PriceStep(upper, lower, n) > 0.0
  {
  }

  lemma MulMonotone(i: int, j: int, step: real)
    requires i < j && step > 0.0
    ensures i as real * step < j as real * step
  {
    assert j as real * step - i as real * step == (j - i) as real * step;
  }

  /** With upper > lower the buy ladder strictly descends. */
  lemma BuyLadderDescending(upper: real, lower: real, n: int, i: int, j: int)
    requires n >= 2 && upper > lower
    requires 0 <= i < j < n
    ensures LadderPrice(BuySide, upper, lower, n, i) > LadderPrice(BuySide, upper, lower, n, j)
  {
    StepPositive(upper, lower, n);
    MulMonotone(i, j, PriceStep(upper, lower, n));
  }

  /** With upper > lower every other side's ladder strictly ascends. */
  lemma SellLadderAscending(side: string, upper: real, lower: real, n: int, i: int, j: int)
    requires n >= 2 && upper > lower && side != BuySide
    requires 0 <= i < j < n
    ensures LadderPrice(side, upper, lower, n, i) < LadderPrice(side, upper, lower, n, j)
  {
    StepPositive(upper, lower, n);
    MulMonotone(i, j, PriceStep(upper, lower, n));
  }

  /** The sell ladder is the buy ladder read backwards. */
  lemma LadderMirror(side: string, upper: real, lower: real, n: int, i: int)
    requires n >= 2 && side != BuySide && 0 <= i < n
    ensures LadderPrice(side, upper, lower, n, i) == LadderPrice(BuySide, upper, lower, n, n - 1 - i)
  {
    var step := PriceStep(upper, lower, n);
    StepSpansBand(upper, lower, n);
    assert (n - 1 - i) as real * step == (n - 1) as real * step - i as real * step;
  }

  /** Every rung lies inside the band. */
  lemma LadderWithinBand(side: string, upper: real, lower: real, n: int, i: int)
    requires n >= 2 && upper >= lower && 0 <= i < n
    ensures lower <= LadderPrice(side, upper, lower, n, i) <= upper
  {
    var step := PriceStep(upper, lower, n);
    StepSpansBand(upper, lower, n);
    assert step >= 0.0;
    assert i as real * step <= (n - 1) as real * step by {
      assert (n - 1) as real * step - i as real * step == (n - 1 - i) as real * step;
    }
    assert i as real * step >= 0.0;
  }

  // ---------------------------------------------------------------------
  // Sequential placement
  // ---------------------------------------------------------------------

  /**
   * The environment of a run: the order validator, the two FormatFloat calls
   * (8 and 2 decimals), the clock nonce of the k-th AddOrder call and the
   * transport's reply to it.
   */
  datatype Env = Env(
    creds: Credentials,
    validate: OrderRequest -> Option<string>,
    formatVolume: real -> string,
    formatPrice: real -> string,
    nonce: nat -> string,
    reply: nat -> Reply)

  /** What ExecuteTrailingEntry accepts: a computable volume split and no one-order ladder. */
  predicate RunDefined(config: TrailingEntryConfig)
  {
    VolumesDefined(config) && config.numOrders != 1
  }

  /** The limit order for rung i. */
  function RungRequest(env: Env, config: TrailingEntryConfig, i: nat): OrderRequest
    requires RunDefined(config) && i < config.numOrders
  {
    OrderRequest(config.pair, LimitOrder, config.side,
                 env.formatVolume(OrderVolumes(config)[i]),
                 env.formatPrice(LadderPrice(config.side, config.upperBand, config.lowerBand, config.numOrders, i)),
                 config.leverage)
  }

  /** The AddOrder call made for rung i (the i-th call of the run). */
  function RungCall(env: Env, config: TrailingEntryConfig, i: nat): Call
    requires RunDefined(config) && i < config.numOrders
  {
    AddOrder(env.creds, env.validate, RungRequest(env, config, i), env.nonce(i), env.reply(i))
  }

  /** What the AddOrder call for rung i returns. */
  function RungResult(env: Env, config: TrailingEntryConfig, i: nat): Result<OrderResponse, GatewayError>
    requires RunDefined(config) && i < config.numOrders
  {
    OrderOutcome(env.validate, RungRequest(env, config, i), env.reply(i))
  }

  predicate RungPlaced(env: Env, config: TrailingEntryConfig, i: nat)
    requires RunDefined(config) && i < config.numOrders
  {
    RungResult(env, config, i).Ok?
  }

  /**
   * ExecuteTrailingEntry. `submitted` lists the requests passed to AddOrder, in
   * order; `err` is the error of the call that stopped the run.
   */
  method ExecuteTrailingEntry(env: Env, config: TrailingEntryConfig)
    returns (err: Option<GatewayError>, submitted: seq<OrderRequest>)
    requires RunDefined(config)
    ensures |submitted| <= config.numOrders
    ensures submitted == RungRequests(env, config)[..|submitted|]
    ensures forall k :: 0 <= k < |submitted| - 1 ==> RungOutcomes(env, config)[k]
    ensures err.None? ==> |submitted| == config.numOrders
    ensures err.None? ==> forall k :: 0 <= k < config.numOrders ==> RungOutcomes(env, config)[k]
    ensures err.Some? ==> |submitted| > 0 && !RungOutcomes(env, config)[|submitted| - 1]
                          && RungResult(env, config, |submitted| - 1) == Err(err.value)
    ensures err.None? ==> SuccessCount(RungOutcomes(env, config), config.numOrders) == config.numOrders
    ensures err.Some? ==> |submitted| == SuccessCount(RungOutcomes(env, config), |submitted|) + 1
  {
    var volumes := CalculateOrderVolumes(config);
    err, submitted := PlaceRungs(env, config, volumes);
    if err.Some? {
      FailedRunCount(RungOutcomes(env, config), |submitted|);
    } else {
      AllSucceededCount(RungOutcomes(env, config), config.numOrders);
    }
  }

  /** The placement loop: rung after rung in index order, stopping at the first failed AddOrder. */
  method PlaceRungs(env: Env, config: TrailingEntryConfig, volumes: seq<real>)
    returns (err: Option<GatewayError>, submitted: seq<OrderRequest>)
    requires RunDefined(config)
    requires volumes == OrderVolumes(config)
    ensures |submitted| <= config.numOrders
    ensures submitted == RungRequests(env, config)[..|submitted|]
    ensures forall k :: 0 <= k < |submitted| - 1 ==> RungOutcomes(env, config)[k]
    ensures err.None? ==> |submitted| == config.numOrders
    ensures err.None? ==> forall k :: 0 <= k < config.numOrders ==> RungOutcomes(env, config)[k]
    ensures err.Some? ==> |submitted| > 0 && !RungOutcomes(env, config)[|submitted| - 1]
                          && RungResult(env, config, |submitted| - 1) == Err(err.value)
  {
    var n := config.numOrders;
    ghost var requests := RungRequests(env, config);
    ghost var ok := RungOutcomes(env, config);
    submitted := [];
    var i := 0;
    while i < n
      invariant 0 <= i <= n && submitted == requests[..i]
      invariant forall k :: 0 <= k < i ==> ok[k]
    {
      var req, call := PlaceRung(env, config, volumes, i);
      assert requests[..i + 1] == requests[..i] + [req];
      submitted := submitted + [req];
      if call.result.Err? {
        err := Some(call.result.error);
        return;
      }
      i := i + 1;
    }
    assert requests[..n] == requests;
    err := None;
  }

  /** One pass of the placement loop: build rung i's limit order and submit it. */
  method PlaceRung(env: Env, config: TrailingEntryConfig, volumes: seq<real>, i: nat)
    returns (req: OrderRequest, call: Call)
    requires RunDefined(config) && i < config.numOrders
    requires volumes == OrderVolumes(config)
    ensures req == RungRequest(env, config, i) && req == RungRequests(env, config)[i]
    ensures call == RungCall(env, config, i) && call.result == RungResult(env, config, i)
    ensures call.result.Ok? == RungOutcomes(env, config)[i]
  {
    var orderPrice := LadderPrice(config.side, config.upperBand, config.lowerBand, config.numOrders, i);
    req := OrderRequest(config.pair, LimitOrder, config.side,
                        env.formatVolume(volumes[i]), env.formatPrice(orderPrice), config.leverage);
    call := AddOrder(env.creds, env.validate, req, env.nonce(i), env.reply(i));
  }

  /** How many of the first m calls succeeded. */
  function SuccessCount(ok: seq<bool>, m: nat): nat
    requires m <= |ok|
  {
    if m == 0 then 0 else SuccessCount(ok, m - 1) + (if ok[m - 1] then 1 else 0)
  }

  lemma {:induction false} AllSucceededCount(ok: seq<bool>, m: nat)
    requires m <= |ok|
    requires forall k :: 0 <= k < m ==> ok[k]
    ensures SuccessCount(ok, m) == m
  {
    if m > 0 {
      AllSucceededCount(ok, m - 1);
    }
  }

  /** The limit orders of the whole ladder, rung 0 first. */
  function RungRequests(env: Env, config: TrailingEntryConfig): (rs: seq<OrderRequest>)
    requires RunDefined(config)
    ensures |rs| == config.numOrders
    ensures forall k :: 0 <= k < config.numOrders ==> rs[k] == RungRequest(env, config, k)
  {
    seq(config.numOrders, k requires 0 <= k < config.numOrders => RungRequest(env, config, k))
  }

  /** The outcome of every rung's AddOrder call, as a sequence. */
  function RungOutcomes(env: Env, config: TrailingEntryConfig): (ok: seq<bool>)
    requires RunDefined(config)
    ensures |ok| == config.numOrders
    ensures forall k :: 0 <= k < config.numOrders ==> ok[k] == RungPlaced(env, config, k)
  {
    seq(config.numOrders, k requires 0 <= k < config.numOrders => RungPlaced(env, config, k))
  }

  /** A run that stops at the first failure attempted exactly one call more than succeeded. */
  lemma FailedRunCount(ok: seq<bool>, attempted: nat)
    requires 0 < attempted <= |ok|
    requires forall k :: 0 <= k < attempted - 1 ==> ok[k]
    requires !ok[attempted - 1]
    ensures attempted == SuccessCount(ok, attempted) + 1
  {
    AllSucceededCount(ok, attempted - 1);
  }
}
