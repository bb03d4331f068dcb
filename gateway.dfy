/**
 * The REST order gateway: `getSignature` and `AddOrder` of the Go client, with
 * the transport abstracted. The cryptographic primitives and the form encoder
 * are library calls whose bytes are not modelled; they are free constructors of
 * `Term`, so a signature is the exact composition of calls that produced it.
 */
module Gateway {
  import opened Types

  /** Byte strings built from Go strings and the library primitives. */
  datatype Term =
    | Text(s: string)                          // the bytes of a Go string
    | Concat(left: Term, right: Term)          // byte concatenation, a node that keeps its boundary
    | FormEncoded(fields: map<string, string>) // url.Values.Encode
    | Sha256(message: Term)                    // SHA-256 (FIPS 180-4)
    | HmacSha512(key: Term, message: Term)     // HMAC (RFC 2104) over SHA-512
    | Base64Decode(text: Term)                 // standard base64 (RFC 4648 section 4)
    | Base64Encode(data: Term)

  /** The REST endpoint of AddOrder. */
  const AddOrderPath: string := "/0/private/AddOrder"
  const FormContentType: string := "application/x-www-form-urlencoded"

  /** The fixed part of a client: key, base64 secret and base URL. */
  datatype Credentials = Credentials(apiKey: string, apiSecret: string, apiUrl: string)

  /**
   * The API-Sign value: base64(HMAC-SHA-512(key = base64decode(secret),
   * message = path || SHA-256(nonce || postData))).
   */
  function GetSignature(secret: string, path: string, nonce: string, postData: Term): Term
  {
    Base64Encode(HmacSha512(Base64Decode(Text(secret)), Concat(Text(path), Sha256(Concat(Text(nonce), postData)))))
  }

  datatype SignedInputs = SignedInputs(secret: string, path: string, nonce: string, postData: Term)

  /** Reads back what a signature was computed over, if it has the signature's shape. */
  function SignedOver(sign: Term): Option<SignedInputs>
  {
    match sign
    case Base64Encode(HmacSha512(Base64Decode(Text(secret)), Concat(Text(path), Sha256(Concat(Text(nonce), postData))))) =>
      Some(SignedInputs(secret, path, nonce, postData))
    case _ => None
  }

  /** The signature term is composed from exactly the arguments `getSignature` receives, in Go's order. */
  lemma SignatureRoundTrip(secret: string, path: string, nonce: string, postData: Term)
    ensures SignedOver(GetSignature(secret, path, nonce, postData)) == Some(SignedInputs(secret, path, nonce, postData))
  {
  }

  /**
   * Under one secret and over one body, the signature fixes the path and the nonce:
   * a fresh nonce gives a fresh signature. (The SHA-256 digest has a fixed length,
   * so the path is the part of the HMAC message before it, and with the body fixed
   * nonce + body determines the nonce.)
   */
  lemma SignatureBindsNonce(secret: string, p1: string, n1: string, p2: string, n2: string, postData: Term)
    requires GetSignature(secret, p1, n1, postData) == GetSignature(secret, p2, n2, postData)
    ensures p1 == p2 && n1 == n2
  {
    SignatureRoundTrip(secret, p1, n1, postData);
    SignatureRoundTrip(secret, p2, n2, postData);
  }

  // ---------------------------------------------------------------------
  // The form body
  // ---------------------------------------------------------------------

  /** The keys AddOrder always sets. */
  const RequiredKeys: set<string> := {"nonce", "ordertype", "type", "volume", "pair"}

  /** The url.Values AddOrder builds: price and leverage only when non-empty. */
  function OrderForm(req: OrderRequest, nonce: string): (form: map<string, string>)
    ensures form.Keys == RequiredKeys + (if req.price != "" then {"price"} else {})
                                      + (if req.leverage != "" then {"leverage"} else {})
    ensures form["nonce"] == nonce && form["ordertype"] == req.orderType && form["type"] == req.side
    ensures form["volume"] == req.volume && form["pair"] == req.pair
    ensures "price" in form ==> form["price"] == req.price
    ensures "leverage" in form ==> form["leverage"] == req.leverage
  {
    var required := map["nonce" := nonce, "ordertype" := req.orderType, "type" := req.side,
                        "volume" := req.volume, "pair" := req.pair];
    var withPrice := if req.price != "" then required["price" := req.price] else required;
    if req.leverage != "" then withPrice["leverage" := req.leverage] else withPrice
  }

  /** url.Values.Get: the value of a key, or "" when it is absent. */
  function FormGet(form: map<string, string>, key: string): string
  {
    if key in form then form[key] else ""
  }

  /** The order a form describes, read back field by field. */
  function RequestOfForm(form: map<string, string>): OrderRequest
  {
    OrderRequest(FormGet(form, "pair"), FormGet(form, "ordertype"), FormGet(form, "type"),
                 FormGet(form, "volume"), FormGet(form, "price"), FormGet(form, "leverage"))
  }

  /** The form loses nothing: the request and the nonce can be read back from it. */
  lemma {:induction false} FormRoundTrip(req: OrderRequest, nonce: string)
    ensures RequestOfForm(OrderForm(req, nonce)) == req
    ensures FormGet(OrderForm(req, nonce), "nonce") == nonce
  {
    var form := OrderForm(req, nonce);
    assert FormGet(form, "price") == req.price;
    assert FormGet(form, "leverage") == req.leverage;
  }

  // ---------------------------------------------------------------------
  // The reply and its classification
  // ---------------------------------------------------------------------

  /** The decoded `{error, result}` JSON envelope. */
  datatype Envelope = Envelope(errors: seq<string>, result: OrderResponse)

  /** What the transport produced for one POST, in the order the Go code checks it. */
  datatype Reply =
    | CreateFailed           // http.NewRequestWithContext failed
    | ExecuteFailed          // httpClient.Do failed (timeout, refused, cancelled)
    | ReadFailed             // io.ReadAll failed
    | ParseFailed            // json.Unmarshal failed
    | Decoded(envelope: Envelope)

  datatype GatewayError =
    | InvalidOrder(reason: string)
    | CreateRequestError
    | ExecuteRequestError
    | ReadResponseError
    | ParseResponseError
    | ApiError(errors: seq<string>)

  /** A transport failure or a non-empty `error` list is an error; otherwise `result` unchanged. */
  function ClassifyReply(reply: Reply): (r: Result<OrderResponse, GatewayError>)
    ensures r.Ok? <==> reply.Decoded? && |reply.envelope.errors| == 0
    ensures r.Ok? ==> r.value == reply.envelope.result
    ensures reply.Decoded? && |reply.envelope.errors| > 0 ==> r == Err(ApiError(reply.envelope.errors))
    ensures !reply.Decoded? ==> r.Err? && !r.error.ApiError? && !r.error.InvalidOrder?
  {
    match reply
    case CreateFailed => Err(CreateRequestError)
    case ExecuteFailed => Err(ExecuteRequestError)
    case ReadFailed => Err(ReadResponseError)
    case ParseFailed => Err(ParseResponseError)
    case Decoded(env) => if |env.errors| > 0 then Err(ApiError(env.errors)) else Ok(env.result)
  }

  // ---------------------------------------------------------------------
  // AddOrder
  // ---------------------------------------------------------------------

  /** The POST AddOrder issues: URL, headers and form body. */
  datatype Post = Post(url: string, apiKey: string, apiSign: Term, contentType: string,
                       form: map<string, string>, body: Term)

  /**
   * One AddOrder invocation: the POST it would send (form, headers, signature),
   * if any, and what it returned. A transport step that fails after the POST is
   * built (request creation included) shows up only in `result`.
   */
  datatype Call = Call(post: Option<Post>, result: Result<OrderResponse, GatewayError>)

  /** The POST built for a valid request with the given nonce. */
  function SignedPost(creds: Credentials, req: OrderRequest, nonce: string): Post
  {
    var form := OrderForm(req, nonce);
    var sign := GetSignature(creds.apiSecret, AddOrderPath, FormGet(form, "nonce"), FormEncoded(form));
    Post(creds.apiUrl + AddOrderPath, creds.apiKey, sign, FormContentType, form, FormEncoded(form))
  }

  /**
   * AddOrder. `validate` is OrderRequest.Validate (None = no error), `nonce` the
   * clock reading and `reply` what the transport returned for the POST.
   */
  function AddOrder(creds: Credentials, validate: OrderRequest -> Option<string>, req: OrderRequest,
                    nonce: string, reply: Reply): (c: Call)
    ensures c.post.None? <==> validate(req).Some?
    ensures validate(req).Some? ==> c.result == Err(InvalidOrder(validate(req).value))
    ensures c.result.Ok? <==> validate(req).None? && reply.Decoded? && |reply.envelope.errors| == 0
    ensures c.result.Ok? ==> c.result.value == reply.envelope.result
    ensures validate(req).None? ==> c.result == ClassifyReply(reply)
  {
    Call(if validate(req).Some? then None else Some(SignedPost(creds, req, nonce)),
         OrderOutcome(validate, req, reply))
  }

  /** What AddOrder returns: the validation error, or else the classified reply. */
  function OrderOutcome(validate: OrderRequest -> Option<string>, req: OrderRequest, reply: Reply)
    : Result<OrderResponse, GatewayError>
  {
    match validate(req)
    case Some(reason) => Err(InvalidOrder(reason))
    case None => ClassifyReply(reply)
  }

  /**
   * What a valid request sends: the URL is the base URL plus the endpoint, the
   * headers carry the key and the signature, the form carries every field of the
   * request and the nonce, and the signature covers that same nonce and that same body.
   */
  lemma {:induction false} PostCarriesRequest(creds: Credentials, validate: OrderRequest -> Option<string>,
                                              req: OrderRequest, nonce: string, reply: Reply)
    requires validate(req).None?
    ensures var c := AddOrder(creds, validate, req, nonce, reply);
      && c.post.Some?
      && c.post.value.url == creds.apiUrl + AddOrderPath
      && c.post.value.apiKey == creds.apiKey
      && c.post.value.contentType == FormContentType
      && RequestOfForm(c.post.value.form) == req
      && FormGet(c.post.value.form, "nonce") == nonce
      && c.post.value.body == FormEncoded(c.post.value.form)
      && SignedOver(c.post.value.apiSign) ==
           Some(SignedInputs(creds.apiSecret, AddOrderPath, nonce, c.post.value.body))
  {
    FormRoundTrip(req, nonce);
    var form := OrderForm(req, nonce);
    SignatureRoundTrip(creds.apiSecret, AddOrderPath, FormGet(form, "nonce"), FormEncoded(form));
  }

  /** A request that the validator rejects in the Go tests (types_test.go). */
  function RejectedTestRequests(): seq<OrderRequest>
  {
    [ OrderRequest("XBTUSD", LimitOrder, "buy", "1.0", "", ""),        // limit order without price
      OrderRequest("XBTUSD", LimitOrder, "invalid", "1.0", "50000", ""), // side other than buy/sell
      OrderRequest("XBTUSD", LimitOrder, "buy", "", "50000", "") ]       // empty volume
  }

  /** The validator outcomes asserted by the Go tests. */
  predicate AgreesWithValidatorTests(validate: OrderRequest -> Option<string>)
  {
    && validate(OrderRequest("XBTUSD", LimitOrder, "buy", "1.0", "50000", "")).None?
    && forall k :: 0 <= k < |RejectedTestRequests()| ==> validate(RejectedTestRequests()[k]).Some?
  }

  /** Requests the validator rejects never reach the network, whatever the transport would do. */
  lemma RejectedRequestsAreNotSent(creds: Credentials, validate: OrderRequest -> Option<string>,
                                   k: nat, nonce: string, reply: Reply)
    requires AgreesWithValidatorTests(validate)
    requires k < |RejectedTestRequests()|
    ensures AddOrder(creds, validate, RejectedTestRequests()[k], nonce, reply).post.None?
    ensures AddOrder(creds, validate, RejectedTestRequests()[k], nonce, reply).result.Err?
  {
  }

  /** TestClient_AddOrder: the mock exchange's `txid ["ABCD-1234"]` comes back unchanged. */
  lemma MockExchangeTxid(validate: OrderRequest -> Option<string>, nonce: string)
    requires AgreesWithValidatorTests(validate)
    ensures var resp := OrderResponse(Description("buy 1.00000000 XBTUSD @ limit 50000", ""), ["ABCD-1234"]);
      var c := AddOrder(Credentials("test", "test", "http://127.0.0.1"), validate,
                        OrderRequest("XBTUSD", LimitOrder, "buy", "1.0", "50000", ""), nonce,
                        Decoded(Envelope([], resp)));
      c.result.Ok? && c.result.value.transactionIds == ["ABCD-1234"]
  {
  }

  /** The mock exchange's answer to a wrong API key is an exchange-level error. */
  lemma MockExchangeInvalidKey(validate: OrderRequest -> Option<string>, nonce: string, resp: OrderResponse)
    requires AgreesWithValidatorTests(validate)
    ensures var c := AddOrder(Credentials("wrong", "test", "http://127.0.0.1"), validate,
                              OrderRequest("XBTUSD", LimitOrder, "buy", "1.0", "50000", ""), nonce,
                              Decoded(Envelope(["EAPI:Invalid key"], resp)));
      c.post.Some? && c.result == Err(ApiError(["EAPI:Invalid key"]))
  {
  }
}
