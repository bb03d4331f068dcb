/**
 * The streaming client's connection state machine: `setState`/`getState`,
 * `ConnectWebSocket`, `reconnect`, `Close` and the socket check of
 * `SubscribeToTicker`. The dial, the close and the cancellation signal are
 * inputs; the goroutines, mutexes and sleeps are not modelled.
 */
module Connection {
  import opened Types
  import opened Gateway
  import opened Ticker

  datatype ConnectionState = Disconnected | Connecting | Connected

  /** The base URL NewClient stores. */
  const ApiUrl: string := "https://api.kraken.com"

  /**
   * The moves the state machine makes: anything may start a connection
   * attempt, and Connected and Disconnected are entered only from Connecting.
   */
  predicate Transition(from: ConnectionState, to: ConnectionState)
  {
    to == Connecting || from == Connecting
  }

  /** What one pass of reconnect's retry loop observes. */
  datatype Attempt = Cancelled | Dial(ok: bool)

  datatype ReconnectOutcome =
    | AlreadyConnecting   // another reconnect is in progress: returned at once
    | Reconnected         // a dial succeeded
    | GaveUp              // the cancellation signal was observed
    | StillRetrying       // every supplied attempt was a failed dial

  /** The index of the first attempt that ends the retry loop (cancellation or a successful dial). */
  function FirstStop(attempts: seq<Attempt>): (k: nat)
    ensures k <= |attempts|
    ensures forall j :: 0 <= j < k ==> attempts[j] == Dial(false)
    ensures k < |attempts| ==> attempts[k] != Dial(false)
  {
    if |attempts| == 0 || attempts[0] != Dial(false) then 0 else 1 + FirstStop(attempts[1..])
  }

  /** The states a run of k failed dials writes: Connecting, Disconnected, k times. */
  function FailedDials(k: nat): (h: seq<ConnectionState>)
    ensures |h| == 2 * k
    ensures forall j :: 0 <= j < |h| ==> h[j] == (if j % 2 == 0 then Connecting else Disconnected)
  {
    if k == 0 then [] else FailedDials(k - 1) + [Connecting, Disconnected]
  }

  class Client {
    const credentials: Credentials
    var state: ConnectionState
    /** `ws != nil` */
    var hasSocket: bool
    /** the socket `ws` points to has not been closed */
    var socketOpen: bool
    /** every state written by setState, oldest first */
    ghost var history: seq<ConnectionState>

    ghost predicate Valid()
      reads this
    {
      && |history| > 0 && history[0] == Disconnected && history[|history| - 1] == state
      && (forall k :: 0 <= k < |history| - 1 ==> Transition(history[k], history[k + 1]))
      && (state == Connected ==> hasSocket)
      && (socketOpen ==> hasSocket)
    }

    /** NewClient: disconnected, no socket. */
    constructor (apiKey: string, apiSecret: string)
      ensures Valid()
      ensures credentials == Credentials(apiKey, apiSecret, ApiUrl)
      ensures state == Disconnected && !hasSocket && !socketOpen && history == [Disconnected]
    {
      credentials := Credentials(apiKey, apiSecret, ApiUrl);
      state := Disconnected;
      hasSocket, socketOpen := false, false;
      history := [Disconnected];
    }

    method SetState(s: ConnectionState)
      modifies this`state, this`history
      ensures state == s && history == old(history) + [s]
      ensures old(Valid()) && Transition(old(state), s) && (s == Connected ==> hasSocket) ==> Valid()
      ensures old(Valid()) && !Transition(old(state), s) ==> !Valid()
    {
      state := s;
      history := history + [s];
      assert history[..|history| - 1] == old(history);
    }

    method GetState() returns (s: ConnectionState)
      ensures s == state
    {
      s := state;
    }

    /**
     * ConnectWebSocket with the dial's outcome given. The state goes to
     * Connecting, then to Connected with the new socket stored, or to
     * Disconnected with an error and the old socket field untouched.
     */
    method ConnectWebSocket(dialOk: bool) returns (err: bool)
      requires Valid()
      modifies this`state, this`history, this`hasSocket, this`socketOpen
      ensures Valid()
      ensures err == !dialOk
      ensures state == (if dialOk then Connected else Disconnected)
      ensures history == old(history) + [Connecting, state]
      ensures dialOk ==> hasSocket && socketOpen
      ensures !dialOk ==> hasSocket == old(hasSocket) && socketOpen == old(socketOpen)
    {
      SetState(Connecting);
      if !dialOk {
        SetState(Disconnected);
        return true;
      }
      hasSocket, socketOpen := true, true;
      SetState(Connected);
      err := false;
    }

    /** Close: closes the socket if there is one (the field keeps pointing at it). */
    method Close(closeFails: bool) returns (err: bool)
      requires Valid()
      modifies this`socketOpen
      ensures Valid()
      ensures !socketOpen && err == (hasSocket && closeFails)
    {
      if hasSocket {
        socketOpen := false;
        return closeFails;
      }
      return false;
    }

    /**
     * reconnect with the loop's observations given in order. A reconnect that
     * finds the state Connecting does nothing. Otherwise it sets Connecting,
     * closes the socket and dials until a dial succeeds or cancellation is
     * observed; `consumed` counts the attempts it used.
     */
    method Reconnect(attempts: seq<Attempt>) returns (outcome: ReconnectOutcome, consumed: nat)
      requires Valid()
      modifies this`state, this`history, this`hasSocket, this`socketOpen
      ensures Valid()
      ensures old(state) == Connecting ==>
        outcome == AlreadyConnecting && consumed == 0 && state == old(state) && history == old(history)
        && hasSocket == old(hasSocket) && socketOpen == old(socketOpen)
      ensures old(state) != Connecting ==>
        var stop := FirstStop(attempts);
        && consumed == (if stop < |attempts| then stop + 1 else stop)
        && outcome == (if stop == |attempts| then StillRetrying
                       else if attempts[stop] == Cancelled then GaveUp else Reconnected)
        && history == old(history) + [Connecting] + FailedDials(stop)
                      + (if outcome == Reconnected then [Connecting, Connected] else [])
        && state == (if outcome == Reconnected then Connected
                     else if stop == 0 then Connecting else Disconnected)
        && (outcome == Reconnected <==> socketOpen)
        && (outcome == Reconnected ==> hasSocket)
      ensures outcome != Reconnected ==> hasSocket == old(hasSocket)
    {
      var current := GetState();
      if current == Connecting {
        return AlreadyConnecting, 0;
      }
      SetState(Connecting);
      var _ := Close(false);
      ghost var start := history;
      var i := 0;
      while i < |attempts|
        invariant 0 <= i <= FirstStop(attempts)
        invariant Valid() && !socketOpen && hasSocket == old(hasSocket)
        invariant history == start + FailedDials(i)
        invariant state == (if i == 0 then Connecting else Disconnected)
      {
        match attempts[i]
        case Cancelled =>
          return GaveUp, i + 1;
        case Dial(ok) =>
          var err := ConnectWebSocket(ok);
          if !err {
            return Reconnected, i + 1;
          }
          // the Go code sleeps ReconnectDelay here
          i := i + 1;
      }
      return StillRetrying, i;
    }

    /**
     * SubscribeToTicker's synchronous part: without a socket it fails at once;
     * otherwise it writes the subscribe message, failing if the write fails.
     */
    method SubscribeToTicker(pair: string, writeFails: bool) returns (err: bool, sent: Option<Json>)
      ensures err <==> !hasSocket || writeFails
      ensures sent.Some? <==> hasSocket
      ensures sent.Some? ==> sent.value == SubscribeMessage(pair)
    {
      if !hasSocket {
        return true, None;
      }
      sent := Some(SubscribeMessage(pair));
      err := writeFails;
    }
  }

  /**
   * With a dialer that answers within j attempts and no cancellation before it,
   * reconnect stops at or before attempt j with a successful dial.
   */
  lemma {:induction false} ReconnectBound(attempts: seq<Attempt>, j: nat)
    requires j < |attempts| && attempts[j] == Dial(true)
    requires forall i :: 0 <= i < j ==> attempts[i] != Cancelled
    ensures FirstStop(attempts) <= j
    ensures attempts[FirstStop(attempts)] == Dial(true)
  {
    if attempts[0] == Dial(false) {
      ReconnectBound(attempts[1..], j - 1);
    } else if j > 0 {
      assert attempts[0] != Cancelled;
    }
  }
}
