/**
 * The market-data side of `SubscribeToTicker`: the subscribe message, the
 * shape test that pulls a last-trade price string out of a decoded frame,
 * and the read loop that turns frames into prices.
 */
module Ticker {
  import opened Types

  /** A decoded JSON value (what encoding/json produces into interface{}). */
  datatype Json =
    | JNull
    | JBool(b: bool)
    | JNumber(n: real)
    | JString(s: string)
    | JArray(items: seq<Json>)
    | JObject(fields: map<string, Json>)

  /**
   * The price string of a ticker frame: the frame is an array of more than
   * one element, element 1 is an object, its "c" member is a non-empty array
   * and the first element of that is a string.
   */
  function TickerPrice(frame: Json): (r: Option<string>)
    ensures r.Some? ==> CarriesPrice(frame, r.value)
  {
    match frame
    case JArray(data) =>
      if |data| > 1 then
        match data[1]
        case JObject(tickerData) =>
          if "c" in tickerData then
            match tickerData["c"]
            case JArray(c) =>
              if |c| > 0 then
                match c[0]
                case JString(priceStr) => Some(priceStr)
                case _ => None
              else None
            case _ => None
          else None
        case _ => None
      else None
    case _ => None
  }

  /** The shape a frame must have to carry price p, stated as one conjunction. */
  predicate CarriesPrice(frame: Json, p: string)
  {
    && frame.JArray? && |frame.items| > 1
    && frame.items[1].JObject? && "c" in frame.items[1].fields
    && frame.items[1].fields["c"].JArray? && |frame.items[1].fields["c"].items| > 0
    && frame.items[1].fields["c"].items[0] == JString(p)
  }

  /** A frame yields a price exactly when it has the ticker shape; every other frame is ignored. */
  lemma TickerPriceIff(frame: Json, p: string)
    ensures TickerPrice(frame) == Some(p) <==> CarriesPrice(frame, p)
    ensures TickerPrice(frame).None? <==> forall q :: !CarriesPrice(frame, q)
  {
    if TickerPrice(frame).Some? {
      assert CarriesPrice(frame, TickerPrice(frame).value);
    }
  }

  /** The channel name is never looked at: any value at index 2 gives the same result. */
  lemma ChannelNameIgnored(items: seq<Json>, other: Json)
    requires |items| > 2
    ensures TickerPrice(JArray(items[2 := other])) == TickerPrice(JArray(items))
  {
  }

  /** The sample frame of TestClient_ParseTickerMessage, with the price object at index 0. */
  function SampleFrame(): Json
  {
    JArray([JObject(map["c" := JArray([JString("50000.0"), JString("1.0")])]),
            JString("ticker"), JString("XBT/USD")])
  }

  /** The decoder ignores the sample frame; the same payload at index 1 is accepted. */
  lemma SampleFrameIgnored()
    ensures TickerPrice(SampleFrame()) == None
    ensures TickerPrice(JArray([JNumber(42.0)] + SampleFrame().items)) == Some("50000.0")
  {
    var shifted := [JNumber(42.0)] + SampleFrame().items;
    assert shifted[1] == SampleFrame().items[0];
  }

  // ---------------------------------------------------------------------
  // The read loop
  // ---------------------------------------------------------------------

  /** One ReadMessage result: a read error, or a message and its JSON decoding (None = not JSON). */
  datatype Frame = ReadError | Message(decoded: Option<Json>)

  /** The prices a message contributes: the parsed ticker price, or nothing. */
  function PricesOf(decoded: Option<Json>, parseFloat: string -> Option<real>): (ps: seq<real>)
    ensures |ps| <= 1
    ensures |ps| == 1 ==>
      decoded.Some? && TickerPrice(decoded.value).Some? && parseFloat(TickerPrice(decoded.value).value) == Some(ps[0])
  {
    match decoded
    case None => []
    case Some(frame) =>
      match TickerPrice(frame)
      case None => []
      case Some(priceStr) =>
        match parseFloat(priceStr)
        case None => []
        case Some(price) => [price]
  }

  /** No read error among the frames. */
  predicate AllMessages(frames: seq<Frame>)
  {
    forall k :: 0 <= k < |frames| ==> frames[k].Message?
  }

  /**
   * The prices a run of messages sends to the channel, in arrival order. The
   * handler stops at a read error, so only error-free runs are given to it;
   * a read error contributes nothing here.
   */
  function Emitted(frames: seq<Frame>, parseFloat: string -> Option<real>): (prices: seq<real>)
    ensures |prices| <= |frames|
  {
    if |frames| == 0 then []
    else
      var last := frames[|frames| - 1];
      Emitted(frames[..|frames| - 1], parseFloat) + (if last.Message? then PricesOf(last.decoded, parseFloat) else [])
  }

  /**
   * The message-handler goroutine: read frames until the first read error,
   * sending every decodable price. `consumed` counts the messages handled.
   * `frames` are only the frames this handler's own ReadMessage returns: the
   * monitor goroutine reads the same socket and drops what it reads.
   */
  method HandleMessages(frames: seq<Frame>, parseFloat: string -> Option<real>)
    returns (prices: seq<real>, consumed: nat)
    ensures consumed <= |frames|
    ensures AllMessages(frames[..consumed])
    ensures consumed < |frames| ==> frames[consumed].ReadError?
    ensures prices == Emitted(frames[..consumed], parseFloat)
  {
    prices := [];
    consumed := 0;
    while consumed < |frames|
      invariant consumed <= |frames|
      invariant AllMessages(frames[..consumed])
      invariant prices == Emitted(frames[..consumed], parseFloat)
    {
      match frames[consumed]
      case ReadError =>
        return;
      case Message(decoded) =>
        prices := prices + PricesOf(decoded, parseFloat);
        assert frames[..consumed + 1][..consumed] == frames[..consumed];
        consumed := consumed + 1;
    }
  }

  /** Prices come out in the order their frames arrived, split anywhere. */
  lemma {:induction false} EmittedAppend(a: seq<Frame>, b: seq<Frame>, parseFloat: string -> Option<real>)
    ensures Emitted(a + b, parseFloat) == Emitted(a, parseFloat) + Emitted(b, parseFloat)
  {
    if |b| > 0 {
      var m := |b| - 1;
      assert (a + b)[..|a + b| - 1] == a + b[..m];
      EmittedAppend(a, b[..m], parseFloat);
    } else {
      assert a + b == a;
    }
  }

  /** A frame without a parseable ticker price is skipped silently: the stream is as if it never came. */
  lemma NonTickerFrameSkipped(a: seq<Frame>, decoded: Option<Json>, b: seq<Frame>, parseFloat: string -> Option<real>)
    requires decoded.None? || TickerPrice(decoded.value).None? || parseFloat(TickerPrice(decoded.value).value).None?
    ensures Emitted(a + [Message(decoded)] + b, parseFloat) == Emitted(a + b, parseFloat)
  {
    var m := [Message(decoded)];
    assert m[..0] == [];
    assert Emitted(m, parseFloat) == [];
    EmittedAppend(a, m, parseFloat);
    EmittedAppend(a + m, b, parseFloat);
    EmittedAppend(a, b, parseFloat);
  }

  /** A ticker frame whose price parses sends exactly that price, between the prices of its neighbours. */
  lemma TickerFrameSent(a: seq<Frame>, frame: Json, p: string, x: real, b: seq<Frame>,
                        parseFloat: string -> Option<real>)
    requires CarriesPrice(frame, p) && parseFloat(p) == Some(x)
    ensures Emitted(a + [Message(Some(frame))] + b, parseFloat) == Emitted(a, parseFloat) + [x] + Emitted(b, parseFloat)
  {
    TickerPriceIff(frame, p);
    var m := [Message(Some(frame))];
    assert m[..0] == [];
    assert Emitted(m, parseFloat) == [x];
    EmittedAppend(a, m, parseFloat);
    EmittedAppend(a + m, b, parseFloat);
  }

  // ---------------------------------------------------------------------
  // The subscribe message
  // ---------------------------------------------------------------------

  /** strings.ReplaceAll(pair, "/", ""). */
  function StripSlashes(pair: string): (r: string)
    ensures '/' !in r
    ensures |r| <= |pair|
  {
    if |pair| == 0 then ""
    else (if pair[0] == '/' then "" else [pair[0]]) + StripSlashes(pair[1..])
  }

  /** Only the slashes go: every other character keeps its number of occurrences. */
  lemma {:induction false} StripSlashesKeepsOthers(pair: string, c: char)
    requires c != '/'
    ensures multiset(StripSlashes(pair))[c] == multiset(pair)[c]
  {
    if |pair| > 0 {
      StripSlashesKeepsOthers(pair[1..], c);
      assert pair == [pair[0]] + pair[1..];
    }
  }

  /** Stripping works piecewise, so the characters that stay keep their order. */
  lemma {:induction false} StripSlashesAppend(a: string, b: string)
    ensures StripSlashes(a + b) == StripSlashes(a) + StripSlashes(b)
  {
    if |a| > 0 {
      assert (a + b)[1..] == a[1..] + b;
      StripSlashesAppend(a[1..], b);
    } else {
      assert a + b == b;
    }
  }

  /** A pair without slashes is sent unchanged. */
  lemma {:induction false} StripSlashesIdentity(pair: string)
    requires '/' !in pair
    ensures StripSlashes(pair) == pair
  {
    if |pair| > 0 {
      assert pair[0] in pair;
      StripSlashesIdentity(pair[1..]);
    }
  }

  /** A trailing slash is dropped from a slash-free base. */
  lemma SlashAfterBase(base: string)
    requires '/' !in base
    ensures StripSlashes(base + ['/']) == base
  {
    StripSlashesAppend(base, ['/']);
    StripSlashesIdentity(base);
    assert StripSlashes(['/']) == [];
  }

  /** A "BASE/QUOTE" pair such as "XBT/USD" is sent as BASE + QUOTE ("XBTUSD"). */
  lemma StripSlashesPair(base: string, quote: string)
    requires '/' !in base && '/' !in quote
    ensures StripSlashes(base + ['/'] + quote) == base + quote
  {
    StripSlashesAppend(base + ['/'], quote);
    SlashAfterBase(base);
    StripSlashesIdentity(quote);
  }

  /** The subscribe control message naming the pair without slashes. */
  function SubscribeMessage(pair: string): (m: Json)
    ensures m.JObject? && m.fields.Keys == {"event", "pair", "subscription"}
    ensures m.fields["event"] == JString("subscribe")
    ensures m.fields["subscription"] == JObject(map["name" := JString("ticker")])
    ensures m.fields["pair"] == JArray([JString(StripSlashes(pair))])
    ensures '/' !in pair ==> m.fields["pair"] == JArray([JString(pair)])
  {
    var m := JObject(map["event" := JString("subscribe"),
                         "pair" := JArray([JString(StripSlashes(pair))]),
                         "subscription" := JObject(map["name" := JString("ticker")])]);
    if '/' !in pair then StripSlashesIdentity(pair); m else m
  }
}
