# kraken-trader client core, modelled in Dafny

A model of the Go client in `pkg/kraken/client.go` of kraken-trader, a trading
client for the Kraken exchange. It covers five pieces.

- **Volume distribution.** `calculateOrderVolumes` splits a total volume across N
  orders by the even, normal or custom policy. Reals stand in for float64.
- **Ladder and placement.** `ExecuteTrailingEntry` lays a price ladder across the
  band `[lower, upper]` and submits one limit order per rung, in index order. It
  stops at the first failed submission.
- **Order gateway.** `AddOrder` runs the validation gate, builds the form fields and
  signs them (`getSignature`), then classifies the decoded `{error, result}` envelope.
- **Connection state machine.** `setState`/`getState`, `ConnectWebSocket`,
  `reconnect`, `Close`, and the socket check of `SubscribeToTicker`.
- **Ticker decoding.** The frame shape test of the message handler, the read loop
  around it, and the `/`-stripping of the pair in the subscribe message.

Files and modules:

- `types.dfy` (`Types`): the record shapes `OrderRequest` and `OrderResponse`, the
  trailing-entry configuration, and Option/Result.
- `volumes.dfy` (`Volumes`): the spec function `OrderVolumes`, the loop-based method
  `CalculateOrderVolumes` proved equal to it, and lemmas about sums, shares and weights.
- `ladder.dfy` (`Ladder`): the price formula, its lemmas, and the placement loop
  `ExecuteTrailingEntry`.
- `gateway.dfy` (`Gateway`): the signature, the form, the reply classification and
  `AddOrder`.
- `connection.dfy` (`Connection`): class `Client` with fields `state`, `hasSocket`
  (`ws != nil`), `socketOpen`, and a ghost `history` of every state written.
  `Valid()` holds four facts:
  - the history starts at Disconnected and ends at the current state;
  - every move either enters Connecting or leaves Connecting;
  - Connected implies a socket is present;
  - an open socket is present.
- `ticker.dfy` (`Ticker`): a JSON value datatype, `TickerPrice`, the read loop
  `HandleMessages`, `StripSlashes` and the subscribe message.

How the environment is modelled:

- The SHA-256 (FIPS 180-4), HMAC-SHA-512 (RFC 2104) and base64 (RFC 4648
  section 4) calls, and `url.Values.Encode`, are free constructors of the datatype
  `Gateway.Term`. A signature is therefore the exact term of calls that produced it,
  and `SignedOver` reads back the arguments `getSignature` was given. `Concat` is a
  node of that term, so it keeps the boundary between nonce and body that Go's
  string concatenation loses (see "Left out").
- `OrderRequest.Validate` is a function parameter (`None` means valid). Its
  declaration is not in pkg/kraken/types.go. The predicate
  `AgreesWithValidatorTests` pins down only the outcomes asserted in
  pkg/kraken/types_test.go.
- Four things are inputs. The clock nonce and the transport reply of the k-th
  AddOrder call are functions of k. The two `strconv.FormatFloat` calls are
  functions. The dial outcomes and cancellation checks of `reconnect` are a sequence
  of `Attempt`s.
- The `TrailingEntryConfig` declaration and the `LimitOrder` constant are declared
  elsewhere in package kraken. Their fields and value are inferred from how
  client.go and cmd/trailing.go use them. The `Interval` field that
  cmd/trailing.go:72 sets is never read by client.go, so the model has no such field.
- cmd/trailing.go:65-73 never sets `Distribution` or `Weights`, although the
  `--distribution` flag is parsed (cmd/trailing.go:105-106). The command line
  therefore always takes the even branch, with an empty distribution
  (`Volumes.EqualShares` with "").

The trailing-entry strategy was designed with price-gated, de-duplicated placement
and a few other details that the code does differently. The model follows the code:

- The code places the whole ladder immediately. It does not watch prices and keeps
  no set of placed prices, so there is no price gating or de-duplication here.
- The normal steepness is the code's 0.5 (`Volumes.Steepness`).
- The ticker decoder never checks the "ticker" channel name (`ChannelNameIgnored`).
  It reads the payload at index 1. The sample frame in
  `TestClient_ParseTickerMessage` puts the payload at index 0, so the decoder
  ignores that frame (`SampleFrameIgnored`). That test never calls the decoder.
- The state check at the top of `reconnect` does not guard the whole retry loop.
  A failed dial sets the state to Disconnected while the loop sleeps, so a second
  `reconnect` can start then (`Reconnect`'s `state` ensures). A `reconnect` that is
  cancelled before its first dial leaves the state at Connecting for good, and every
  later `reconnect` then returns at once.

## Model

| member | source | states |
|---|---|---|
| Volumes.OrderVolumes | pkg/kraken/client.go:366-414 | the distribution returns exactly NumOrders volumes |
| Volumes.CalculateOrderVolumes | pkg/kraken/client.go:366-414 | the slice the Go loops fill equals the distribution `OrderVolumes(config)` for every policy, including the fallback for a custom weight count that does not match |
| Volumes.NormalWeight | pkg/kraken/client.go:372-379 | the normal weight of order i is at most 1, and exactly 1 at the middle index and nowhere else |
| Volumes.Normalised | pkg/kraken/client.go:384-387 | the normalising pass as a function: one volume (w_i / sum(w)) * total per weight; its total is stated by NormalisedSum |
| Volumes.EvenShares | pkg/kraken/client.go:407-410 | the even split as a function: n volumes of total / n; their sum is stated by EvenSharesSum |
| Volumes.FillNormal | pkg/kraken/client.go:370-387 | the weight loop with its running sum, then the normalising pass, yields w_i / sum(w) * total for the normal weights; the weight sum is positive |
| Volumes.WriteNormalWeights | pkg/kraken/client.go:370-382 | the weight loop writes the normal weights into the slice and returns their running sum |
| Volumes.FillCustom | pkg/kraken/client.go:398-405 | summing the custom weights and then dividing yields w_i / sum(w) * total |
| Volumes.FillEven | pkg/kraken/client.go:407-410 | every slot holds total / N |
| Volumes.Normalise | pkg/kraken/client.go:384-387 | the shared second pass turns every weight into (w_i / sum) * total |
| Volumes.VolumesSumToTotal | pkg/kraken/client.go:367-413 | for N >= 1 the volumes sum exactly to TotalVolume under every policy (the tests check this to 1e-3) |
| Volumes.NormalisedSum | pkg/kraken/client.go:384-387 | normalising weights with a non-zero sum preserves the total |
| Volumes.EvenSharesSum | pkg/kraken/client.go:407-410 | N shares of total / N sum to the total |
| Volumes.EqualShares | pkg/kraken/client.go:389-410 | every volume is total / N for "even", for any unknown policy name including "", and for custom weights of the wrong length |
| Volumes.WeightedShares | pkg/kraken/client.go:370-405 | normal and length-matching custom volumes are w_i / sum(w) * total, with sum(w) non-zero |
| Volumes.NormalWeightsSumPositive | pkg/kraken/client.go:373-381 | the normal weights sum to at least N/2, so normalisation never divides by zero |
| Volumes.NormalWeightBounds | pkg/kraken/client.go:372-379 | each normal weight lies in [0.5, 1] |
| Volumes.NormalWeightSymmetric | pkg/kraken/client.go:372-379 | w_i = w_(N-1-i) |
| Volumes.NormalWeightPeaksAtMiddle | pkg/kraken/client.go:372-379 | an index nearer the middle never has a smaller weight, so the middle weighs most |
| Volumes.NormalVolumesSymmetric | pkg/kraken/client.go:370-387 | normal volumes are symmetric about the middle order |
| Volumes.EvenFourOrders | pkg/kraken/client_test.go:171-178 | even split of 1.0 into 4 is exactly [0.25, 0.25, 0.25, 0.25] |
| Volumes.NormalThreeOrders | pkg/kraken/client_test.go:180-187 | normal split of 1.0 into 3 is exactly [0.25, 0.5, 0.25] |
| Volumes.CustomOneTwoOne | pkg/kraken/client_test.go:189-197 | custom weights [1,2,1] give exactly [0.25, 0.5, 0.25] |
| Volumes.CustomWrongLengthFallsBack | pkg/kraken/client_test.go:199-207 | custom weights [1,2] for 3 orders fall back to exactly [1/3, 1/3, 1/3] |
| Ladder.PriceStep | pkg/kraken/client.go:422 | the rung distance (upper - lower) / (N - 1); its span is stated by StepSpansBand |
| Ladder.LadderPrice | pkg/kraken/client.go:425-430 | the price of rung i: buys count down from the upper band, every other side counts up from the lower band; stated by the endpoint, order, mirror and band lemmas |
| Ladder.StepSpansBand | pkg/kraken/client.go:422 | step * (N - 1) = upper - lower |
| Ladder.BuyLadderEndpoints | pkg/kraken/client.go:426-427 | for buy, price(0) = upper and price(N-1) = lower |
| Ladder.SellLadderEndpoints | pkg/kraken/client.go:428-429 | for every side other than "buy", price(0) = lower and price(N-1) = upper |
| Ladder.BuyLadderDescending | pkg/kraken/client.go:422-427 | with upper > lower the buy prices strictly decrease with the index |
| Ladder.SellLadderAscending | pkg/kraken/client.go:422-429 | with upper > lower the non-buy prices strictly increase with the index |
| Ladder.LadderMirror | pkg/kraken/client.go:422-430 | the sell ladder is the buy ladder reversed: sell(i) = buy(N-1-i) |
| Ladder.LadderWithinBand | pkg/kraken/client.go:422-430 | every rung lies in [lower, upper] |
| Ladder.ExecuteTrailingEntry | pkg/kraken/client.go:416-450 | see the list under this table |
| Ladder.PlaceRungs | pkg/kraken/client.go:424-447 | the placement loop on its own: the same promises as ExecuteTrailingEntry except the success count |
| Ladder.PlaceRung | pkg/kraken/client.go:425-443 | one pass of the loop builds rung i's limit order and makes rung i's AddOrder call |
| Ladder.RungRequests | pkg/kraken/client.go:425-440 | the ladder's N limit orders, entry k being the order of rung k |
| Ladder.RungResult | pkg/kraken/client.go:441-443 | what rung i's AddOrder call returns (`OrderOutcome` of rung i's request and reply) |
| Ladder.RungOutcomes | pkg/kraken/client.go:441-443 | entry k is true exactly when rung k's AddOrder call succeeds |
| Ladder.SuccessCount | pkg/kraken/client.go:441-443 | the number of successful calls among the first m; applied to `RungOutcomes` by ExecuteTrailingEntry |
| Ladder.AllSucceededCount | pkg/kraken/client.go:424-447 | when the first m calls all succeed, the count is m |
| Ladder.FailedRunCount | pkg/kraken/client.go:441-443 | a run that stops at the first failure attempted exactly one order more than succeeded; ExecuteTrailingEntry applies it to its own outcomes |
| Gateway.GetSignature | pkg/kraken/client.go:79-94 | the signature as the term base64(HMAC-SHA-512(base64decode(secret), path ‖ SHA-256(nonce ‖ body))); stated by SignatureRoundTrip and SignatureBindsNonce |
| Gateway.SignatureRoundTrip | pkg/kraken/client.go:79-94 | the signature term is built from exactly the secret, path, nonce and body `getSignature` was given, composed in Go's order |
| Gateway.SignatureBindsNonce | pkg/kraken/client.go:79-94 | under one secret and over one body, equal signatures have equal paths and equal nonces, so a fresh nonce gives a fresh signature (ideal hashes) |
| Gateway.OrderForm | pkg/kraken/client.go:105-117 | the form always has nonce, ordertype, type (the side), volume and pair; it has price and leverage exactly when they are non-empty; every value is the request's |
| Gateway.FormRoundTrip | pkg/kraken/client.go:105-120 | the request and the nonce can be read back from the form, so the form loses nothing |
| Gateway.ClassifyReply | pkg/kraken/client.go:124-157 | success exactly when the envelope decoded with an empty `error` list; `result` is then returned unchanged; a non-empty list becomes an API error carrying the list; a transport failure is an error that is neither an API error nor an invalid order |
| Gateway.AddOrder | pkg/kraken/client.go:97-158 | see the list under this table |
| Gateway.SignedPost | pkg/kraken/client.go:102-130 | the POST of a valid request as a value: URL, key header, signature header, content type and form body; stated by PostCarriesRequest |
| Gateway.OrderOutcome | pkg/kraken/client.go:98-157 | what AddOrder returns as a function of the validator and the reply alone: the validation error, or else the classified reply |
| Gateway.PostCarriesRequest | pkg/kraken/client.go:102-130 | a valid request's POST goes to the base URL plus /0/private/AddOrder with the API key header; its form reads back as the request and carries the nonce; the body sent is the encoding of that form; the signature covers the same nonce and that body |
| Gateway.RejectedRequestsAreNotSent | pkg/kraken/client.go:98-100 | a limit order without price, an invalid side and an empty volume are never sent, whatever the transport would reply |
| Gateway.MockExchangeTxid | pkg/kraken/client_test.go:47-98 | the mock exchange's reply `txid ["ABCD-1234"]` comes back as exactly ["ABCD-1234"] |
| Gateway.MockExchangeInvalidKey | pkg/kraken/client_test.go:49-53 | the mock's `{"error":["EAPI:Invalid key"]}` is sent and returned as an API error with that list |
| Ticker.TickerPrice | pkg/kraken/client.go:321-333 | a price is taken only from a frame of the ticker shape (`CarriesPrice`); both directions are stated by TickerPriceIff |
| Ticker.TickerPriceIff | pkg/kraken/client.go:321-333 | see the list under this table |
| Ticker.ChannelNameIgnored | pkg/kraken/client.go:323-327 | the element at index 2 (the channel name) never affects the result |
| Ticker.SampleFrameIgnored | pkg/kraken/client_test.go:125-133 | the test's sample frame (payload at index 0) yields nothing; the same payload at index 1 yields "50000.0" |
| Ticker.PricesOf | pkg/kraken/client.go:321-333 | each message sends at most one price, and a price sent is the parsed price of a ticker frame |
| Ticker.Emitted | pkg/kraken/client.go:314-336 | the prices a run of frames sends, in arrival order; never more prices than frames |
| Ticker.HandleMessages | pkg/kraken/client.go:313-337 | the handler consumes messages up to the first read error and sends exactly `Emitted` of them |
| Ticker.EmittedAppend | pkg/kraken/client.go:314-336 | prices come out in frame order: the output of a concatenation is the concatenation of the outputs |
| Ticker.NonTickerFrameSkipped | pkg/kraken/client.go:321-335 | a frame without a ticker price, or whose price does not parse, is dropped silently: the output is as if it never arrived |
| Ticker.TickerFrameSent | pkg/kraken/client.go:321-333 | a ticker frame whose price parses to x sends exactly x, between the prices of the frames around it |
| Ticker.StripSlashes | pkg/kraken/client.go:342 | the normalised pair contains no "/" and is no longer than the input |
| Ticker.StripSlashesKeepsOthers | pkg/kraken/client.go:342 | every character other than "/" keeps its number of occurrences |
| Ticker.StripSlashesAppend | pkg/kraken/client.go:342 | stripping works piecewise, so the kept characters keep their order |
| Ticker.StripSlashesIdentity | pkg/kraken/client.go:342 | a pair without "/" is unchanged |
| Ticker.SlashAfterBase | pkg/kraken/client.go:342 | a slash after a slash-free base is dropped and the base is kept |
| Ticker.StripSlashesPair | pkg/kraken/client.go:342 | a pair BASE/QUOTE with slash-free parts, such as "XBT/USD", is sent as BASE + QUOTE ("XBTUSD") |
| Connection.FirstStop | pkg/kraken/client.go:243-253 | the retry loop runs until the first cancellation or successful dial: every earlier attempt is a failed dial |
| Connection.ReconnectBound | pkg/kraken/client.go:243-253 | if a successful dial comes by attempt j with no cancellation before it, reconnect stops at or before j, and it stops on a successful dial |
| Connection.FailedDials | pkg/kraken/client.go:243-253 | k failed dials write Connecting, Disconnected, k times over: even positions Connecting, odd positions Disconnected |
| Connection.Client.constructor | pkg/kraken/client.go:67-76 | a new client is Disconnected, has no socket, and holds the key, the secret and the exchange URL |
| Connection.Client.SetState | pkg/kraken/client.go:452-456 | the state becomes s and is appended to the history; an allowed move keeps `Valid()`, a forbidden one breaks it |
| Connection.Client.GetState | pkg/kraken/client.go:458-462 | returns the current state |
| Connection.Client.ConnectWebSocket | pkg/kraken/client.go:161-187 | see the list under this table |
| Connection.Client.Close | pkg/kraken/client.go:299-304 | closes the socket if one is present; it reports an error only when there is a socket and its close fails; the state is untouched |
| Connection.Client.Reconnect | pkg/kraken/client.go:232-254 | see the list under this table |
| Connection.Client.SubscribeToTicker | pkg/kraken/client.go:307-353 | fails without a socket; otherwise it sends the subscribe message for the slash-free pair and fails exactly when the write fails |
| Ticker.SubscribeMessage | pkg/kraken/client.go:340-346 | the subscribe message has exactly the keys event, pair and subscription; its event is "subscribe", its subscription is the object {name: "ticker"}, its pair is the slash-free pair, and a pair without "/" is sent as given |

The rows that point here state more than fits in a cell.

- **Ladder.ExecuteTrailingEntry.**
  - Orders are submitted in index order: the submitted requests are a prefix of
    `RungRequests`. Request k is the limit order with the config's pair, side and
    leverage, the formatted `OrderVolumes(config)[k]` and the formatted rung price k.
  - Every submission except the last one attempted succeeded.
  - A run without error submitted all N rungs and placed every one of them, so N
    calls succeeded.
  - On failure, the last submission failed and its error (`RungResult`, which is
    the result of that rung's `RungCall`) is the one returned. Exactly one call
    fewer than were attempted succeeded.
- **Gateway.AddOrder.**
  - No POST would be sent exactly when validation fails. The error then wraps
    the validator's reason. `post` is the POST the call would send (form,
    headers, signature); the transport steps after it, request creation
    (`CreateFailed`) included, are abstracted into the `Reply`.
  - The call succeeds exactly when the request is valid and the envelope has an
    empty error list.
  - On success, the response is the envelope's `result`.
  - For a valid request, the result is exactly `ClassifyReply` of the reply.
- **Ticker.TickerPriceIff.**
  - A frame yields price p exactly when all four hold: it is an array of more than
    one element, element 1 is an object, that object's "c" is a non-empty array,
    and the first element of "c" is the string p.
  - Every other frame yields nothing.
- **Connection.Client.ConnectWebSocket.**
  - The state passes through Connecting.
  - A successful dial stores an open socket and ends in Connected.
  - A failed dial ends in Disconnected with an error and leaves the socket field
    as it was.
  - `Valid()` is kept.
- **Connection.Client.Reconnect.**
  - When the state is Connecting it changes nothing.
  - Otherwise it sets Connecting, closes the socket, and dials until the first
    cancellation or successful dial.
  - A successful dial ends Connected with an open socket.
  - Cancellation ends in Connecting if no dial was tried, and in Disconnected
    otherwise.
  - The whole history of states written is given, and `Valid()` is kept.

## Left out

- Volumes.OrderVolumes: Go computes NaN or ±Inf in two cases: the normal policy
  with N = 1 (0/0), and custom weights of matching length that sum to 0. A negative
  N makes `make` panic. The model excludes these by `VolumesDefined` and does not
  represent NaN or the panic.
- Ladder.ExecuteTrailingEntry: requires N ≠ 1, because (upper − lower)/0 makes rung 0
  NaN in Go.
- Float64 rounding is not modelled, nor `strconv.FormatFloat` (8 and 2 decimals) or
  `ParseFloat`. Reals are used, and the formatters and the parser are function
  parameters.
- HTTP transport is not modelled: `NewRequestWithContext`, `Do` and `ReadAll`, the
  deadline, and the byte format of `url.Values.Encode`. Only which of these steps
  failed, or the decoded envelope, reaches the model, as a `Reply`.
- JSON encoding and decoding by the library is not modelled. Frames arrive already
  decoded into `Ticker.Json`, and None stands for a message that is not JSON.
- The cryptographic primitives and base64 are uninterpreted. Their collision
  freedom is an idealisation.
- Gateway.GetSignature: `Concat` is a node of the term, so the model keeps the
  boundary between nonce and body that Go's `nonce + postData` loses. Go signs
  nonce "1" with body "23" and nonce "12" with body "3" the same. So the model
  promises only what holds of Go, that the path and nonce are fixed for one secret
  and one body (`SignatureBindsNonce`). The error from decoding the secret, which the Go code
  ignores, is not modelled.
- The nonce comes from `time.Now().UnixNano()` and is an input here. The model
  does not show that nonces increase across calls.
- The `heartbeat` and `monitorConnection` goroutines are not modelled, nor the
  mutexes, the `done` channel, `time.Sleep`, or the context mechanics. These are
  concurrency and timing. Cancellation is an `Attempt` value, and the goroutines
  that a successful reconnect starts afresh are not represented.
- Ticker.HandleMessages: `frames` are only the frames the handler's own
  `ReadMessage` returns. `monitorConnection` (client.go:220-221) reads the same
  socket at the same time and discards what it reads, while the handler
  (client.go:315) takes no lock. Which frames each goroutine gets is not modelled.
- The body of `OrderRequest.Validate` is not part of this model. Only the outcomes
  the tests assert constrain it.
- `GetTickerPrice` is a hard-coded mock and is not modelled.
- `AddOrderWS` is message I/O over the shared socket and is not modelled.
- The price sending in `SubscribeToTicker` blocks on an unbuffered channel. The
  model has no channel: `HandleMessages` returns the sequence of prices sent.
- The command-line commands, configuration loading and the webhook adapter
  (cmd/*, pkg/kraken/testing.go, pkg/kraken/webhook.go) are not modelled. They are
  I/O adapters.
