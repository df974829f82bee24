/**
 * The browser's live-auction connection: one socket at a time, opened with
 * the stored login token for one product, subscribing to that product's
 * updates once open, and reconnecting after a close with a delay that
 * doubles per attempt, for at most five attempts. Socket events (open,
 * message, error, close) and timer expiries are method calls; each socket
 * is a number, and its handlers remember the product it was opened for.
 */
module WebSocketClient {
  import opened Common

  datatype Status = Connected | Connecting | Disconnected | Error

  /** WebSocket.readyState. */
  datatype ReadyState = Opening | Open | Closing | Closed

  /** What the client sends: {type: 'subscribe' | 'subscribe_rankings', productId}. */
  datatype ClientMessage = Subscribe(productId: string) | SubscribeRankings(productId: string)

  datatype Sent = Sent(socket: nat, message: ClientMessage)

  /** A parsed server message: its type and optional product id (its data is not modelled). */
  datatype ServerMessage = ServerMessage(kind: string, productId: Option<string>)

  /** A socket that was made: its ready state and the product its handlers were made for. */
  datatype Socket = Socket(state: ReadyState, product: string)

  /** reconnectTimer: no id, or the id of a timer that is still pending or has fired. */
  datatype Timer = NoTimer | Held(pending: bool)

  /**
   * What lies outside the service: every socket made and the next number,
   * the messages sent, what the status and message callbacks were handed,
   * the pending timers whose id was overwritten, and every reconnect wait
   * scheduled.
   */
  datatype Env = Env(
    sockets: map<nat, Socket>, nextSocket: nat, sent: seq<Sent>,
    reports: seq<Status>, received: seq<ServerMessage>, strays: nat, delays: seq<nat>)

  const MaxReconnectAttempts: nat := 5
  const ReconnectDelay: nat := 1000

  function Pow2(n: nat): (p: nat)
    ensures p >= 1
  {
    if n == 0 then 1 else 2 * Pow2(n - 1)
  }

  /** The wait before the n-th reconnect (n >= 1): 1000 * 2^(n-1) ms. */
  function BackoffDelay(n: nat): (d: nat)
    requires n >= 1
    ensures d >= ReconnectDelay
  {
    ReconnectDelay * Pow2(n - 1)
  }

  /** Each wait is twice the one before. */
  lemma BackoffDoubles(n: nat)
    requires n >= 1
    ensures BackoffDelay(n + 1) == 2 * BackoffDelay(n)
    ensures BackoffDelay(1) == 1000 && BackoffDelay(MaxReconnectAttempts) == 16000
  {
  }

  /** A JavaScript string is truthy when it is not empty. */
  predicate Truthy(s: Option<string>)
  {
    s.Some? && s.value != ""
  }

  /** updateToken: `user.token || null`, an empty token counting as none. */
  function NormalizeToken(stored: Option<string>): (t: Option<string>)
    ensures t.Some? <==> Truthy(stored)
    ensures t.Some? ==> t == stored
  {
    if Truthy(stored) then stored else None
  }

  /**
   * What the status callback hears when setStatus is called with each of
   * `steps` in turn, starting from `from`: only the calls that change it.
   */
  function Notified(from: Status, steps: seq<Status>): seq<Status>
    decreases |steps|
  {
    if steps == [] then [] else (if steps[0] != from then [steps[0]] else []) + Notified(steps[0], steps[1..])
  }

  /**
   * The callback never hears the status it already had, never hears the
   * same status twice in a row, and hears the last status set whenever
   * anything changed.
   */
  lemma {:induction false} NotifiedOnlyChanges(from: Status, steps: seq<Status>)
    decreases |steps|
    ensures var r := Notified(from, steps);
            && |r| <= |steps|
            && (r != [] ==> r[0] != from)
            && (forall i :: 0 <= i < |r| - 1 ==> r[i] != r[i + 1])
            && (r != [] ==> r[|r| - 1] == steps[|steps| - 1])
            && (steps != [] && steps[|steps| - 1] != from ==> r != [])
  {
    if steps != [] {
      var rest := Notified(steps[0], steps[1..]);
      NotifiedOnlyChanges(steps[0], steps[1..]);
      var r := Notified(from, steps);
      if steps[0] != from {
        assert r == [steps[0]] + rest;
        forall i | 0 <= i < |r| - 1 ensures r[i] != r[i + 1] {
          if i > 0 { assert r[i] == rest[i - 1] && r[i + 1] == rest[i]; }
        }
      } else {
        assert r == rest;
      }
      if |steps| > 1 {
        assert steps[1..][|steps[1..]| - 1] == steps[|steps| - 1];
      }
    }
  }

  /** One setStatus call from `from` to `to`: the callback, if set, hears a change. */
  function Hear(e: Env, hooked: bool, from: Status, to: Status): (r: Env)
    ensures r.(reports := e.reports) == e
    ensures r.reports == e.reports + (if hooked then Notified(from, [to]) else [])
  {
    e.(reports := e.reports + (if hooked && from != to then [to] else []))
  }

  /** Two setStatus calls in a row are heard as Notified of the two. */
  lemma HearTwice(e: Env, hooked: bool, from: Status, a: Status, b: Status)
    ensures Hear(Hear(e, hooked, from, a), hooked, a, b).reports
            == e.reports + (if hooked then Notified(from, [a, b]) else [])
  {
    assert [a, b][1..] == [b];
  }

  /** ws.close(): a connecting or open socket starts closing. */
  function CloseSocket(ss: map<nat, Socket>, s: nat): (r: map<nat, Socket>)
    requires s in ss
    ensures r.Keys == ss.Keys
    ensures r[s].product == ss[s].product
    ensures r[s].state == (if ss[s].state == Opening || ss[s].state == Open then Closing else ss[s].state)
    ensures forall t :: t in ss && t != s ==> r[t] == ss[t]
  {
    if ss[s].state == Opening || ss[s].state == Open then ss[s := ss[s].(state := Closing)] else ss
  }

  /** disconnect's effect on the world: the current socket, if any, is asked to close. */
  function CloseCurrent(e: Env, ws: Option<nat>): (r: Env)
    requires ws.Some? ==> ws.value in e.sockets
    ensures r.(sockets := e.sockets) == e
    ensures r.sockets.Keys == e.sockets.Keys
    ensures ws.None? ==> r == e
  {
    if ws.Some? then e.(sockets := CloseSocket(e.sockets, ws.value)) else e
  }

  /** `new WebSocket(url)`: the next number becomes a connecting socket for the product. */
  function OpenNew(e: Env, pid: string): (r: Env)
    ensures r.(sockets := e.sockets, nextSocket := e.nextSocket) == e
    ensures r.nextSocket == e.nextSocket + 1
    ensures r.sockets == e.sockets[e.nextSocket := Socket(Opening, pid)]
  {
    e.(sockets := e.sockets[e.nextSocket := Socket(Opening, pid)], nextSocket := e.nextSocket + 1)
  }

  /** Every socket number is below the next one. */
  ghost predicate Numbered(e: Env)
  {
    forall s :: s in e.sockets ==> s < e.nextSocket
  }

  /** Opening a socket keeps the numbering. */
  lemma OpenNewNumbered(e: Env, pid: string)
    requires Numbered(e)
    ensures Numbered(OpenNew(e, pid)) && e.nextSocket !in e.sockets
  {
  }

  /**
   * The service. Its fields are those of the source's class; the callbacks
   * are modelled by whether one is set, and what they hear is kept in `env`.
   */
  class Service {
    var ws: Option<nat>
    var token: Option<string>
    var productId: Option<string>
    var reconnectAttempts: nat
    var reconnectTimer: Timer
    var status: Status
    var statusHooked: bool
    var messageHooked: bool
    var env: Env

    /** The current socket was made, the numbering holds, and attempts never pass the bound. */
    ghost predicate Valid()
      reads this
    {
      && (ws.Some? ==> ws.value in env.sockets)
      && Numbered(env)
      && reconnectAttempts <= MaxReconnectAttempts
    }

    /** A fresh service with the token read from storage: disconnected, no socket, no timer. */
    constructor(storedToken: Option<string>)
      ensures Valid()
      ensures ws.None? && token == NormalizeToken(storedToken) && productId.None?
      ensures reconnectAttempts == 0 && reconnectTimer == NoTimer && status == Disconnected
      ensures !statusHooked && !messageHooked
      ensures env == Env(map[], 0, [], [], [], 0, [])
    {
      ws := None;
      token := NormalizeToken(storedToken);
      productId := None;
      reconnectAttempts := 0;
      reconnectTimer := NoTimer;
      status := Disconnected;
      statusHooked, messageHooked := false, false;
      env := Env(map[], 0, [], [], [], 0, []);
    }

    /** onStatusChange. */
    method OnStatusChange()
      modifies this
      ensures statusHooked && messageHooked == old(messageHooked) && env == old(env)
      ensures ws == old(ws) && token == old(token) && productId == old(productId)
      ensures reconnectAttempts == old(reconnectAttempts) && reconnectTimer == old(reconnectTimer) && status == old(status)
    {
      statusHooked := true;
    }

    /** onMessage. */
    method OnMessageHook()
      modifies this
      ensures messageHooked && statusHooked == old(statusHooked) && env == old(env)
      ensures ws == old(ws) && token == old(token) && productId == old(productId)
      ensures reconnectAttempts == old(reconnectAttempts) && reconnectTimer == old(reconnectTimer) && status == old(status)
    {
      messageHooked := true;
    }

    /** getStatus. */
    function GetStatus(): (s: Status)
      reads this
      ensures s == status
    {
      status
    }

    /** setStatus: the callback hears only an actual change. */
    method SetStatus(s: Status)
      modifies this
      ensures status == s && env == Hear(old(env), statusHooked, old(status), s)
      ensures statusHooked == old(statusHooked) && messageHooked == old(messageHooked)
      ensures ws == old(ws) && token == old(token) && productId == old(productId)
      ensures reconnectAttempts == old(reconnectAttempts) && reconnectTimer == old(reconnectTimer)
    {
      if status != s {
        status := s;
        if statusHooked {
          env := env.(reports := env.reports + [s]);
        }
      }
    }

    /**
     * disconnect: clear the held reconnect timer, close and drop the
     * socket, forget the product and set 'disconnected'. A timer whose id
     * was overwritten keeps running.
     */
    method Disconnect()
      requires Valid()
      modifies this
      ensures Valid()
      ensures ws.None? && productId.None? && status == Disconnected && reconnectTimer == NoTimer
      ensures env == Hear(CloseCurrent(old(env), old(ws)), statusHooked, old(status), Disconnected)
      ensures token == old(token) && reconnectAttempts == old(reconnectAttempts)
      ensures statusHooked == old(statusHooked) && messageHooked == old(messageHooked)
    {
      reconnectTimer := NoTimer;
      env := CloseCurrent(env, ws);
      ws := None;
      productId := None;
      SetStatus(Disconnected);
    }

    /**
     * Opens a socket for the product: set 'connecting', and a new socket
     * bound to the product becomes the current one. Only `connect`
     * (resetAttempts) sets the attempt count back to 0.
     */
    method OpenSocket(pid: string, resetAttempts: bool)
      requires Valid()
      modifies this
      ensures Valid()
      ensures ws == Some(old(env).nextSocket) && status == Connecting
      ensures env == OpenNew(Hear(old(env), statusHooked, old(status), Connecting), pid)
      ensures reconnectAttempts == if resetAttempts then 0 else old(reconnectAttempts)
      ensures token == old(token) && productId == old(productId) && reconnectTimer == old(reconnectTimer)
      ensures statusHooked == old(statusHooked) && messageHooked == old(messageHooked)
    {
      SetStatus(Connecting);
      if resetAttempts {
        reconnectAttempts := 0;
      }
      OpenNewNumbered(env, pid);
      ws := Some(env.nextSocket);
      env := OpenNew(env, pid);
    }

    /** Whether `connect(pid)` returns at once: an open socket already serves that product. */
    predicate Serving(pid: string)
      reads this
    {
      ws.Some? && ws.value in env.sockets && env.sockets[ws.value].state == Open && productId == Some(pid)
    }

    /**
     * connect, and the reconnect path when `resetAttempts` is false. It
     * does nothing while an open socket serves the same product; otherwise
     * it disconnects, takes the product and re-reads the token, and
     * without a token sets 'error' and opens nothing.
     */
    method ConnectWith(pid: string, storedToken: Option<string>, resetAttempts: bool)
      requires Valid()
      modifies this
      ensures Valid()
      ensures old(Serving(pid)) ==>
                && ws == old(ws) && token == old(token) && productId == old(productId) && status == old(status)
                && reconnectAttempts == old(reconnectAttempts) && reconnectTimer == old(reconnectTimer) && env == old(env)
      ensures !old(Serving(pid)) ==>
                && productId == Some(pid) && token == NormalizeToken(storedToken) && reconnectTimer == NoTimer
                && var closed := Hear(CloseCurrent(old(env), old(ws)), statusHooked, old(status), Disconnected);
                && (token.None? ==>
                      && ws.None? && status == Error && reconnectAttempts == old(reconnectAttempts)
                      && env == Hear(closed, statusHooked, Disconnected, Error))
                && (token.Some? ==>
                      && ws == Some(old(env).nextSocket) && status == Connecting
                      && reconnectAttempts == (if resetAttempts then 0 else old(reconnectAttempts))
                      && env == OpenNew(Hear(closed, statusHooked, Disconnected, Connecting), pid))
      ensures statusHooked == old(statusHooked) && messageHooked == old(messageHooked)
    {
      if Serving(pid) {
        return;
      }
      Disconnect();
      productId := Some(pid);
      token := NormalizeToken(storedToken);
      if token.None? {
        SetStatus(Error);
        return;
      }
      OpenSocket(pid, resetAttempts);
    }

    /** connect(productId), with the token now in storage: connectWith that resets the attempts. */
    method Connect(pid: string, storedToken: Option<string>)
      requires Valid()
      modifies this
      ensures Valid()
      ensures old(Serving(pid)) ==>
                && ws == old(ws) && token == old(token) && productId == old(productId) && status == old(status)
                && reconnectAttempts == old(reconnectAttempts) && reconnectTimer == old(reconnectTimer) && env == old(env)
      ensures !old(Serving(pid)) ==>
                && productId == Some(pid) && token == NormalizeToken(storedToken) && reconnectTimer == NoTimer
                && var closed := Hear(CloseCurrent(old(env), old(ws)), statusHooked, old(status), Disconnected);
                && (token.None? ==>
                      && ws.None? && status == Error && reconnectAttempts == old(reconnectAttempts)
                      && env == Hear(closed, statusHooked, Disconnected, Error))
                && (token.Some? ==>
                      && ws == Some(old(env).nextSocket) && status == Connecting && reconnectAttempts == 0
                      && env == OpenNew(Hear(closed, statusHooked, Disconnected, Connecting), pid))
                && env.reports == old(env).reports
                     + (if statusHooked then Notified(old(status), [Disconnected, if token.None? then Error else Connecting]) else [])
      ensures statusHooked == old(statusHooked) && messageHooked == old(messageHooked)
    {
      ghost var e0, s0 := env, status;
      ConnectWith(pid, storedToken, true);
      if !old(Serving(pid)) {
        HearTwice(CloseCurrent(e0, old(ws)), statusHooked, s0, Disconnected, if token.None? then Error else Connecting);
      }
    }

    /** subscribe: on the current socket, if it is open, subscribe then subscribe_rankings. */
    method SubscribeTo(pid: string)
      modifies this
      ensures env.sent == old(env).sent + (if ws.Some? && ws.value in env.sockets && env.sockets[ws.value].state == Open
                                           then [Sent(ws.value, Subscribe(pid)), Sent(ws.value, SubscribeRankings(pid))] else [])
      ensures env == old(env).(sent := env.sent)
      ensures ws == old(ws) && token == old(token) && productId == old(productId) && status == old(status)
      ensures reconnectAttempts == old(reconnectAttempts) && reconnectTimer == old(reconnectTimer)
      ensures statusHooked == old(statusHooked) && messageHooked == old(messageHooked)
    {
      if ws.None? || ws.value !in env.sockets || env.sockets[ws.value].state != Open {
        return;
      }
      env := env.(sent := env.sent + [Sent(ws.value, Subscribe(pid)), Sent(ws.value, SubscribeRankings(pid))]);
    }

    /**
     * onopen of socket s: it is open; set 'connected', reset the attempts
     * and subscribe, for the product s was opened for, on whatever socket
     * is current.
     */
    method OnOpen(s: nat)
      requires Valid() && s in env.sockets && env.sockets[s].state == Opening
      modifies this
      ensures Valid()
      ensures status == Connected && reconnectAttempts == 0
      ensures env.sockets == old(env).sockets[s := Socket(Open, old(env).sockets[s].product)]
      ensures env.reports == Hear(old(env), statusHooked, old(status), Connected).reports
      ensures var pid := old(env).sockets[s].product;
              env.sent == old(env).sent + (if ws.Some? && env.sockets[ws.value].state == Open
                                           then [Sent(ws.value, Subscribe(pid)), Sent(ws.value, SubscribeRankings(pid))] else [])
      ensures env == old(env).(sockets := env.sockets, sent := env.sent, reports := env.reports)
      ensures ws == old(ws) && token == old(token) && productId == old(productId) && reconnectTimer == old(reconnectTimer)
      ensures statusHooked == old(statusHooked) && messageHooked == old(messageHooked)
    {
      var pid := env.sockets[s].product;
      env := env.(sockets := env.sockets[s := Socket(Open, pid)]);
      SetStatus(Connected);
      reconnectAttempts := 0;
      SubscribeTo(pid);
    }

    /** onmessage of socket s: a message that parsed is handed to the message callback, if one is set. */
    method OnMessage(s: nat, parsed: Option<ServerMessage>)
      requires s in env.sockets && (env.sockets[s].state == Open || env.sockets[s].state == Closing)
      modifies this
      ensures env == old(env).(received := old(env).received + (if messageHooked && parsed.Some? then [parsed.value] else []))
      ensures ws == old(ws) && token == old(token) && productId == old(productId) && status == old(status)
      ensures reconnectAttempts == old(reconnectAttempts) && reconnectTimer == old(reconnectTimer)
      ensures statusHooked == old(statusHooked) && messageHooked == old(messageHooked)
    {
      if parsed.Some? && messageHooked {
        env := env.(received := env.received + [parsed.value]);
      }
    }

    /** onerror of socket s: set 'error'. */
    method OnError(s: nat)
      requires s in env.sockets && env.sockets[s].state != Closed
      modifies this
      ensures status == Error && env == Hear(old(env), statusHooked, old(status), Error)
      ensures ws == old(ws) && token == old(token) && productId == old(productId)
      ensures reconnectAttempts == old(reconnectAttempts) && reconnectTimer == old(reconnectTimer)
      ensures statusHooked == old(statusHooked) && messageHooked == old(messageHooked)
    {
      SetStatus(Error);
    }

    /**
     * onclose of socket s: it is closed; set 'disconnected' and drop the
     * current socket, whichever it is. While a product is held and fewer
     * than five attempts were made, count an attempt and schedule a
     * reconnect after 1000 * 2^(attempts - 1) ms; a still-pending held
     * timer then becomes a stray.
     */
    method OnClose(s: nat)
      requires Valid() && s in env.sockets && env.sockets[s].state != Closed
      modifies this
      ensures Valid()
      ensures ws.None? && status == Disconnected
      ensures var retry := Truthy(productId) && old(reconnectAttempts) < MaxReconnectAttempts;
              var closed := Hear(old(env), statusHooked, old(status), Disconnected)
                              .(sockets := old(env).sockets[s := Socket(Closed, old(env).sockets[s].product)]);
              && (retry ==>
                    && reconnectAttempts == old(reconnectAttempts) + 1 && reconnectTimer == Held(true)
                    && env == closed.(delays := closed.delays + [BackoffDelay(reconnectAttempts)],
                                      strays := closed.strays + (if old(reconnectTimer) == Held(true) then 1 else 0)))
              && (!retry ==>
                    && reconnectAttempts == old(reconnectAttempts) && reconnectTimer == old(reconnectTimer)
                    && env == closed)
      ensures token == old(token) && productId == old(productId)
      ensures statusHooked == old(statusHooked) && messageHooked == old(messageHooked)
    {
      env := env.(sockets := env.sockets[s := Socket(Closed, env.sockets[s].product)]);
      SetStatus(Disconnected);
      ws := None;
      if Truthy(productId) && reconnectAttempts < MaxReconnectAttempts {
        reconnectAttempts := reconnectAttempts + 1;
        var delay := ReconnectDelay * Pow2(reconnectAttempts - 1);
        var stray := if reconnectTimer == Held(true) then 1 else 0;
        reconnectTimer := Held(true);
        env := env.(delays := env.delays + [delay], strays := env.strays + stray);
      }
    }

    /**
     * A scheduled reconnect fires: while a product is held, connect to it
     * again. `held` says whether it is the timer whose id the service holds
     * or one whose id was overwritten.
     */
    method ReconnectFires(held: bool, storedToken: Option<string>)
      requires Valid()
      requires if held then reconnectTimer == Held(true) else env.strays > 0
      modifies this
      ensures Valid()
      ensures env.delays == old(env).delays && env.sent == old(env).sent
      ensures !Truthy(old(productId)) ==>
                && ws == old(ws) && productId == old(productId) && status == old(status)
                && reconnectAttempts == old(reconnectAttempts) && env.sockets == old(env).sockets
      ensures Truthy(old(productId)) ==>
                && productId == old(productId)
                && (old(Serving(productId.value)) ==> ws == old(ws) && env.sockets == old(env).sockets)
                && (!old(Serving(productId.value)) && Truthy(storedToken) ==>
                      && ws == Some(old(env).nextSocket) && status == Connecting && reconnectAttempts == 0
                      && env.sockets[ws.value] == Socket(Opening, productId.value))
    {
      if held {
        reconnectTimer := Held(false);
      } else {
        env := env.(strays := env.strays - 1);
      }
      if Truthy(productId) {
        Connect(productId.value, storedToken);
      }
    }

    /**
     * The reconnect timer's callback as evidently intended: connect again
     * without setting the attempt count back to 0, so that the waits keep
     * doubling and the fifth failed attempt is the last.
     */
    method ReconnectFiresCorrected(held: bool, storedToken: Option<string>)
      requires Valid()
      requires if held then reconnectTimer == Held(true) else env.strays > 0
      modifies this
      ensures Valid()
      ensures reconnectAttempts == old(reconnectAttempts) && productId == old(productId)
      ensures env.delays == old(env).delays
      ensures !Truthy(old(productId)) ==> ws == old(ws) && status == old(status) && env.sockets == old(env).sockets
      ensures Truthy(old(productId)) && !old(Serving(productId.value)) && Truthy(storedToken) ==>
                && ws == Some(old(env).nextSocket) && status == Connecting && reconnectTimer == NoTimer
                && env.sockets[ws.value] == Socket(Opening, old(productId).value)
    {
      if held {
        reconnectTimer := Held(false);
      } else {
        env := env.(strays := env.strays - 1);
      }
      if Truthy(productId) {
        ConnectWith(productId.value, storedToken, false);
      }
    }

    /**
     * onclose as evidently intended: a socket that is no longer the current
     * one is only marked closed; it neither drops the current socket nor
     * schedules a reconnect.
     */
    method OnCloseCorrected(s: nat)
      requires Valid() && s in env.sockets && env.sockets[s].state != Closed
      modifies this
      ensures Valid()
      ensures old(ws) != Some(s) ==>
                && env == old(env).(sockets := old(env).sockets[s := Socket(Closed, old(env).sockets[s].product)])
                && ws == old(ws) && status == old(status)
                && reconnectAttempts == old(reconnectAttempts) && reconnectTimer == old(reconnectTimer)
      ensures old(ws) == Some(s) ==>
                && ws.None? && status == Disconnected
                && env.sockets == old(env).sockets[s := Socket(Closed, old(env).sockets[s].product)]
                && (Truthy(productId) && old(reconnectAttempts) < MaxReconnectAttempts ==>
                      reconnectAttempts == old(reconnectAttempts) + 1 && reconnectTimer == Held(true)
                      && env.delays == old(env).delays + [BackoffDelay(reconnectAttempts)])
      ensures token == old(token) && productId == old(productId)
      ensures statusHooked == old(statusHooked) && messageHooked == old(messageHooked)
    {
      if ws != Some(s) {
        env := env.(sockets := env.sockets[s := Socket(Closed, env.sockets[s].product)]);
        return;
      }
      OnClose(s);
    }
  }

  /**
   * As written, a connection that keeps failing is retried forever, always
   * after 1000 ms: each retry goes through connect, which sets the attempt
   * count back to 0 before the next close counts it up to 1 again.
   */
  method ReconnectsAsWritten(n: nat) returns (svc: Service)
    ensures svc.Valid() && svc.ws.Some? && svc.reconnectAttempts == 0
    ensures |svc.env.delays| == n
    ensures forall i :: 0 <= i < n ==> svc.env.delays[i] == ReconnectDelay
  {
    svc := new Service(Some("token"));
    svc.Connect("p", Some("token"));
    var i := 0;
    while i < n
      invariant i <= n
      invariant svc.Valid() && svc.ws.Some? && svc.env.sockets[svc.ws.value].state == Opening
      invariant svc.productId == Some("p") && svc.reconnectAttempts == 0
      invariant |svc.env.delays| == i
      invariant forall j :: 0 <= j < i ==> svc.env.delays[j] == ReconnectDelay
    {
      svc.OnClose(svc.ws.value);
      svc.ReconnectFires(true, Some("token"));
      i := i + 1;
    }
  }

  /**
   * With the count kept across retries, the waits double from 1000 ms and
   * the close after the fifth failed attempt schedules nothing more.
   */
  method ReconnectsCorrected(n: nat) returns (svc: Service)
    ensures svc.Valid()
    ensures |svc.env.delays| == MinInt(n, MaxReconnectAttempts)
    ensures forall i :: 0 <= i < |svc.env.delays| ==> svc.env.delays[i] == BackoffDelay(i + 1)
    ensures n >= MaxReconnectAttempts ==>
              svc.ws.None? && svc.status == Disconnected && svc.reconnectTimer == NoTimer
  {
    svc := new Service(Some("token"));
    svc.Connect("p", Some("token"));
    var i := 0;
    while i < n && i < MaxReconnectAttempts
      invariant i <= n && i <= MaxReconnectAttempts
      invariant svc.Valid() && svc.ws.Some? && svc.env.sockets[svc.ws.value].state == Opening
      invariant svc.productId == Some("p") && svc.reconnectAttempts == i && svc.reconnectTimer == NoTimer
      invariant |svc.env.delays| == i
      invariant forall j :: 0 <= j < i ==> svc.env.delays[j] == BackoffDelay(j + 1)
    {
      svc.OnClose(svc.ws.value);
      svc.ReconnectFiresCorrected(true, Some("token"));
      i := i + 1;
    }
    if n >= MaxReconnectAttempts {
      svc.OnClose(svc.ws.value);
    }
  }

  /**
   * As written, switching products leaves the new socket unsubscribed: the
   * old socket's close handler, running after the switch, drops the new
   * socket from the service, so when the new socket opens the status says
   * connected but nothing is subscribed on it, and a reconnect is scheduled.
   */
  method SwitchProductAsWritten() returns (svc: Service)
    ensures svc.status == Connected && svc.productId == Some("b")
    ensures svc.ws.None? && 1 in svc.env.sockets && svc.env.sockets[1] == Socket(Open, "b")
    ensures svc.env.sent == [Sent(0, Subscribe("a")), Sent(0, SubscribeRankings("a"))]
    ensures svc.reconnectTimer == Held(true) && svc.reconnectAttempts == 0
  {
    svc := new Service(Some("token"));
    svc.Connect("a", Some("token"));
    svc.OnOpen(0);
    svc.Connect("b", Some("token"));
    svc.OnClose(0);
    svc.OnOpen(1);
  }

  /** With the stale close ignored, the new socket stays current and subscribes to the new product. */
  method SwitchProductCorrected() returns (svc: Service)
    ensures svc.status == Connected && svc.productId == Some("b") && svc.ws == Some(1)
    ensures svc.env.sent == [Sent(0, Subscribe("a")), Sent(0, SubscribeRankings("a")),
                             Sent(1, Subscribe("b")), Sent(1, SubscribeRankings("b"))]
    ensures svc.reconnectTimer == NoTimer
  {
    svc := new Service(Some("token"));
    svc.Connect("a", Some("token"));
    svc.OnOpen(0);
    svc.Connect("b", Some("token"));
    svc.OnCloseCorrected(0);
    svc.OnOpen(1);
  }
}
