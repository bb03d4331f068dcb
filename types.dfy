/**
 * Record shapes shared by the order gateway and the trailing-entry engine
 * (pkg/kraken/types.go), plus the Option/Result wrappers the model uses for
 * the Go code's `(value, error)` returns.
 */
module Types {

  datatype Option<+T> = None | Some(value: T)

  datatype Result<+T, +E> = Ok(value: T) | Err(error: E)

  /** A REST order request. Every field is a string, as in the Go struct. */
  datatype OrderRequest = OrderRequest(
    pair: string,
    orderType: string,   // "market", "limit", ...
    side: string,        // "buy" or "sell"
    volume: string,
    price: string,       // "" when absent
    leverage: string)    // "" when absent

  /** The `descr` object of an AddOrder response. */
  datatype Description = Description(order: string, close: string)

  /** The `result` object of an AddOrder response. */
  datatype OrderResponse = OrderResponse(description: Description, transactionIds: seq<string>)

  /** The order type the trailing-entry engine submits. */
  const LimitOrder: string := "limit"

  /** The names of the three volume-distribution policies. */
  const EvenDistribution: string := "even"
  const NormalDistribution: string := "normal"
  const CustomDistribution: string := "custom"

  /**
   * Configuration of one trailing-entry run. `distribution` is a free string, as
   * in Go: every value other than "normal" and "custom" selects the even split.
   */
  datatype TrailingEntryConfig = TrailingEntryConfig(
    pair: string,
    side: string,
    upperBand: real,
    lowerBand: real,
    totalVolume: real,
    numOrders: int,
    distribution: string,
    weights: seq<real>,
    leverage: string)
}
