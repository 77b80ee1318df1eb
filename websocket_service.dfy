/** The real-time transactions channel: one process-wide service that opens a
    socket.io connection with the current token, tracks whether it is
    connected, keeps an ordered list of transaction listeners and, on every
    pushed `transactions_update`, refreshes the `cachedTransactions` cache
    entry and notifies the listeners.

    The callbacks that `connect()` registers on the socket are modelled as
    the event methods `OnConnect`, `OnDisconnect` and `OnTransactionsUpdate`,
    which the environment calls when the transport reports those events. */
module WebSocket {
  import opened Wrappers
  import opened JsValues
  import opened Http
  import opened Storage

  const SocketPath := "/socket.io"
  const RootNamespace := "/"
  const ReconnectionAttempts := 5
  const ReconnectionDelayMs := 1000
  const ConnectTimeoutMs := 20000
  const CachedTransactionsKey := "cachedTransactions"
  const SubscribeTransactions := "subscribe_transactions"

  /** A socket.io `Manager` as configured by `connect()`; its reconnection
      behaviour belongs to the library and is not modelled. */
  datatype Manager = Manager(
    url: string,
    transports: seq<string>,
    path: string,
    reconnection: bool,
    reconnectionAttempts: nat,
    reconnectionDelay: nat,
    timeout: nat,
    queryToken: Option<string>,
    extraHeaders: Headers)

  /** A socket obtained from the manager, with the events emitted on it. */
  datatype Socket = Socket(namespace: string, emitted: seq<string>)

  /** A registered callback, compared by reference as `!==` does. */
  datatype Listener = Listener(handle: nat)

  /** One invocation of a listener with a payload. */
  datatype Call = Call(listener: Listener, transactions: seq<JsObject>)

  /** The manager `connect()` creates for `url` and the current token: the
      token travels as a query parameter, and as a bearer header when truthy. */
  function ConfiguredManager(url: string, token: Option<string>): (m: Manager)
    ensures m.url == url && m.queryToken == token && m.path == SocketPath
    ensures AuthorizationHeader in m.extraHeaders <==> Truthy(token)
    ensures Truthy(token) ==> m.extraHeaders == map[AuthorizationHeader := "Bearer " + token.value]
    ensures !Truthy(token) ==> m.extraHeaders == map[]
  {
    Manager(url, ["websocket", "polling"], SocketPath, true,
            ReconnectionAttempts, ReconnectionDelayMs, ConnectTimeoutMs,
            token, WithBearer(map[], token))
  }

  /** `listeners.filter(l => l !== listener)`. */
  function Without(listeners: seq<Listener>, listener: Listener): (r: seq<Listener>)
    ensures forall x :: multiset(r)[x] == if x == listener then 0 else multiset(listeners)[x]
  {
    if listeners == [] then []
    else
      assert listeners == [listeners[0]] + listeners[1..];
      (if listeners[0] == listener then [] else [listeners[0]]) + Without(listeners[1..], listener)
  }

  /** Filtering works element by element, so the kept listeners stay in
      their original order. */
  lemma {:induction false} WithoutConcat(a: seq<Listener>, b: seq<Listener>, listener: Listener)
    ensures Without(a + b, listener) == Without(a, listener) + Without(b, listener)
  {
    if a != [] {
      assert (a + b)[1..] == a[1..] + b;
      WithoutConcat(a[1..], b, listener);
    } else {
      assert a + b == b;
    }
  }

  /** Removing a listener that is not registered leaves the list as it was. */
  lemma {:induction false} WithoutAbsent(listeners: seq<Listener>, listener: Listener)
    requires listener !in listeners
    ensures Without(listeners, listener) == listeners
  {
    if listeners != [] {
      WithoutAbsent(listeners[1..], listener);
    }
  }

  /** Adding a listener that was not registered and then removing it restores
      the list. */
  lemma AddThenRemove(listeners: seq<Listener>, listener: Listener)
    requires listener !in listeners
    ensures Without(listeners + [listener], listener) == listeners
  {
    WithoutConcat(listeners, [listener], listener);
    WithoutAbsent(listeners, listener);
    assert Without([listener], listener) == [];
  }

  /** The `forEach` notification as written: listeners are called in list
      order with the payload, and the first one that throws ends the loop
      (the exception propagates; later listeners are not called). */
  ghost predicate DeliveredInOrder(listeners: seq<Listener>, transactions: seq<JsObject>,
                                   throwing: set<Listener>, calls: seq<Call>, raised: bool)
  {
    && |calls| <= |listeners|
    && (forall i :: 0 <= i < |calls| ==> calls[i] == Call(listeners[i], transactions))
    && (raised <==> exists i :: 0 <= i < |listeners| && listeners[i] in throwing)
    && (!raised ==> |calls| == |listeners|)
    && (raised ==> 0 < |calls| && listeners[|calls| - 1] in throwing)
    && (forall i :: 0 <= i < |calls| - 1 ==> listeners[i] !in throwing)
  }

  function Callees(calls: seq<Call>): (r: seq<Listener>)
    ensures |r| == |calls|
    ensures forall i :: 0 <= i < |calls| ==> r[i] == calls[i].listener
  {
    if calls == [] then [] else [calls[0].listener] + Callees(calls[1..])
  }

  /** When no listener throws, every registered listener is called exactly as
      many times as it is registered, in registration order, each time with
      the payload. */
  lemma AllNotifiedWhenNoneThrows(listeners: seq<Listener>, transactions: seq<JsObject>,
                                  calls: seq<Call>, raised: bool)
    requires DeliveredInOrder(listeners, transactions, {}, calls, raised)
    ensures !raised
    ensures Callees(calls) == listeners
    ensures forall i :: 0 <= i < |calls| ==> calls[i].transactions == transactions
  {
  }

  class WebSocketService {
    var socket: Option<Socket>
    var manager: Option<Manager>
    var transactionsListeners: seq<Listener>
    var connected: bool
    const serverUrl: string
    var token: Option<string>
    /** The AsyncStorage instance the update handler writes. */
    const cache: Store<Cached>
    /** How many transports `connect()` has opened so far; every one of them
        keeps its event handlers registered. */
    ghost var transportsOpened: nat
    /** How many of them are still live: `disconnect()` tears down the current
        one, and a torn-down socket reports no further events. Only a live
        transport can deliver the events below. */
    ghost var liveTransports: nat

    ghost predicate Valid()
      reads this
    {
      && (socket.Some? ==> manager.Some?)
      && (manager.Some? <==> transportsOpened > 0)
      && (connected ==> transportsOpened > 0)
      && liveTransports <= transportsOpened
      && (socket.Some? ==> liveTransports > 0)
    }

    constructor (serverUrl: string, cache: Store<Cached>)
      ensures Valid()
      ensures this.serverUrl == serverUrl && this.cache == cache
      ensures socket == None && manager == None && transactionsListeners == []
      ensures !connected && token == None && transportsOpened == 0 && liveTransports == 0
    {
      this.serverUrl := serverUrl;
      this.cache := cache;
      socket, manager, transactionsListeners := None, None, [];
      connected, token := false, None;
      transportsOpened, liveTransports := 0, 0;
    }

    /** Records the token for the next handshake; opens nothing. */
    method SetToken(token: Option<string>)
      requires Valid()
      modifies this`token
      ensures Valid()
      ensures this.token == token
    {
      this.token := token;
    }

    /** Guards only on `connected`: a call while a socket is still connecting
        opens a second transport. The new socket is not connected until its
        connect event fires. */
    method Connect()
      requires Valid()
      modifies this`socket, this`manager, this`transportsOpened, this`liveTransports
      ensures Valid()
      ensures old(connected) ==> socket == old(socket) && manager == old(manager)
                                 && transportsOpened == old(transportsOpened)
                                 && liveTransports == old(liveTransports)
      ensures !old(connected) ==> && manager == Some(ConfiguredManager(serverUrl, token))
                                  && socket == Some(Socket(RootNamespace, []))
                                  && transportsOpened == old(transportsOpened) + 1
                                  && liveTransports == old(liveTransports) + 1
    {
      if connected {
        return;
      }
      manager := Some(ConfiguredManager(serverUrl, token));
      socket := Some(Socket(RootNamespace, []));
      transportsOpened := transportsOpened + 1;
      liveTransports := liveTransports + 1;
    }

    /** The `connect` event of any socket this service opened. */
    method OnConnect()
      requires Valid() && liveTransports > 0
      modifies this`connected
      ensures Valid()
      ensures connected
    {
      connected := true;
    }

    /** The `disconnect` event of any socket this service opened. */
    method OnDisconnect()
      requires Valid() && liveTransports > 0
      modifies this`connected
      ensures Valid()
      ensures !connected
    {
      connected := false;
    }

    /** The `transactions_update` event: the payload replaces the
        `cachedTransactions` entry, then the listeners are notified as
        `DeliveredInOrder` says. The cache write is not awaited: when it
        fails (`writeFails`) the old entry stays and the listeners still run. */
    method OnTransactionsUpdate(data: seq<JsObject>, writeFails: bool, throwing: set<Listener>)
      returns (calls: seq<Call>, raised: bool)
      requires Valid() && liveTransports > 0
      modifies cache
      ensures !writeFails ==> cache.entries == old(cache.entries)[CachedTransactionsKey := Json(data)]
      ensures writeFails ==> cache.entries == old(cache.entries)
      ensures DeliveredInOrder(transactionsListeners, data, throwing, calls, raised)
    {
      if !writeFails {
        cache.SetItem(CachedTransactionsKey, Json(data));
      }
      calls, raised := NotifyTransactionsListeners(data, throwing);
    }

    /** Drops the current socket, if any; the manager and the listeners stay. */
    method Disconnect()
      requires Valid()
      modifies this`socket, this`connected, this`liveTransports
      ensures Valid()
      ensures socket == None
      ensures old(socket).Some? ==> !connected && liveTransports == old(liveTransports) - 1
      ensures old(socket).None? ==> connected == old(connected) && liveTransports == old(liveTransports)
    {
      if socket.Some? {
        socket := None;
        connected := false;
        liveTransports := liveTransports - 1;
      }
    }

    /** Calls `connect()` when there is no socket or it is not connected, then
        emits `subscribe_transactions` on the socket if there is one. */
    method SubscribeToTransactions()
      requires Valid()
      modifies this`socket, this`manager, this`transportsOpened, this`liveTransports
      ensures Valid()
      ensures old(socket).Some? && old(connected) ==>
                && socket == Some(old(socket).value.(emitted := old(socket).value.emitted + [SubscribeTransactions]))
                && manager == old(manager) && transportsOpened == old(transportsOpened)
                && liveTransports == old(liveTransports)
      ensures !old(connected) ==>
                && socket == Some(Socket(RootNamespace, [SubscribeTransactions]))
                && manager == Some(ConfiguredManager(serverUrl, token))
                && transportsOpened == old(transportsOpened) + 1
                && liveTransports == old(liveTransports) + 1
      ensures old(socket).None? && old(connected) ==>
                && socket == None && manager == old(manager)
                && transportsOpened == old(transportsOpened) && liveTransports == old(liveTransports)
    {
      if socket.None? || !connected {
        Connect();
      }
      if socket.Some? {
        assert !old(connected) ==> socket.value.emitted == [];
        socket := Some(socket.value.(emitted := socket.value.emitted + [SubscribeTransactions]));
        assert !old(connected) ==> socket.value.emitted == [SubscribeTransactions];
      }
    }

    /** `push`: appends, keeping duplicates. */
    method AddTransactionsListener(listener: Listener)
      requires Valid()
      modifies this`transactionsListeners
      ensures Valid()
      ensures transactionsListeners == old(transactionsListeners) + [listener]
    {
      transactionsListeners := transactionsListeners + [listener];
    }

    /** Reassigns the list to the filtered one: every occurrence goes. */
    method RemoveTransactionsListener(listener: Listener)
      requires Valid()
      modifies this`transactionsListeners
      ensures Valid()
      ensures transactionsListeners == Without(old(transactionsListeners), listener)
    {
      transactionsListeners := Without(transactionsListeners, listener);
    }

    /** The `forEach` loop over the listeners. `throwing` is the set of
        listeners whose invocation throws. */
    method NotifyTransactionsListeners(transactions: seq<JsObject>, throwing: set<Listener>)
      returns (calls: seq<Call>, raised: bool)
      ensures DeliveredInOrder(transactionsListeners, transactions, throwing, calls, raised)
    {
      var listeners := transactionsListeners;
      calls, raised := [], false;
      var i := 0;
      while i < |listeners| && !raised
        invariant 0 <= i <= |listeners|
        invariant |calls| == i
        invariant forall k :: 0 <= k < i ==> calls[k] == Call(listeners[k], transactions)
        invariant raised <==> 0 < i && listeners[i - 1] in throwing
        invariant forall k :: 0 <= k < i - 1 ==> listeners[k] !in throwing
      {
        calls := calls + [Call(listeners[i], transactions)];
        raised := listeners[i] in throwing;
        i := i + 1;
      }
    }

    method IsConnected() returns (b: bool)
      ensures b == connected
    {
      b := connected;
    }
  }

  /** A consequence of guarding `connect()` on `connected` alone: a second
      `connect()` while the first socket is pending orphans that socket, whose
      handlers stay live. After `disconnect()` drops the newer socket and the
      orphan then connects, the service reports itself connected with no
      socket, and `subscribeToTransactions()` emits nothing. */
  method OrphanedSocketScenario() returns (reportsConnected: bool, hasSocket: bool)
    ensures reportsConnected && !hasSocket
  {
    var cache := new Store<Cached>(map[]);
    var service := new WebSocketService("http://server", cache);
    service.SetToken(Some("jwt"));
    service.Connect();
    service.Connect();
    assert service.transportsOpened == 2 && service.liveTransports == 2;
    service.Disconnect();
    // only the orphaned first socket is still live to report `connect`
    assert service.liveTransports == 1;
    service.OnConnect();
    service.SubscribeToTransactions();
    reportsConnected := service.IsConnected();
    hasSocket := service.socket.Some?;
  }
}
