/**
 * The browser-side subscription manager of src/lib/multiClientSync.ts: one
 * event stream per tab, shared by every listener of the current board, with
 * reconnect-with-backoff and self-filtering by client id.
 *
 * The browser's callbacks (`onopen`, `onmessage`, `onerror`) and the firing
 * of the reconnect timer are methods that the environment calls. A pending
 * timer is represented by its delay. Whether `new EventSource(...)` throws is
 * the caller-supplied flag `openFails`, whether the page has a `window` the
 * constant `inBrowser`.
 */
module MultiClientSync {
  import opened Wrappers
  import opened Inboxes

  type ListenerId = nat

  const MaxReconnectAttempts: nat := 5
  const BaseDelay: nat := 1000
  const MaxDelay: nat := 30000

  function Pow2(n: nat): (r: nat)
    ensures r >= 1
  {
    if n == 0 then 1 else 2 * Pow2(n - 1)
  }

  /** `Math.min(1000 * Math.pow(2, attempts), 30000)`, in milliseconds. */
  function BackoffDelay(attempts: nat): nat {
    if BaseDelay * Pow2(attempts) < MaxDelay then BaseDelay * Pow2(attempts) else MaxDelay
  }

  lemma {:induction false} Pow2Monotone(a: nat, b: nat)
    requires a <= b
    ensures Pow2(a) <= Pow2(b)
    decreases b
  {
    if a < b {
      Pow2Monotone(a, b - 1);
    }
  }

  /**
   * The delay never falls as the attempt number grows, never exceeds the cap,
   * and for the first attempt (the counter is incremented before the delay
   * is computed) is two seconds.
   */
  lemma BackoffDelayBounds(a: nat, b: nat)
    requires a <= b
    ensures BackoffDelay(a) <= BackoffDelay(b) <= MaxDelay
    ensures a >= 1 ==> BackoffDelay(a) >= 2 * BaseDelay
  {
    Pow2Monotone(a, b);
    if a >= 1 {
      Pow2Monotone(1, a);
    }
  }

  /** Each attempt doubles the previous delay until the cap is reached. */
  lemma BackoffDelayDoubles(n: nat)
    ensures BackoffDelay(n + 1)
            == if 2 * BackoffDelay(n) < MaxDelay then 2 * BackoffDelay(n) else MaxDelay
  {
  }

  /** The delays of attempts one to five. */
  lemma BackoffSchedule()
    ensures [BackoffDelay(1), BackoffDelay(2), BackoffDelay(3), BackoffDelay(4), BackoffDelay(5)]
            == [2000, 4000, 8000, 16000, 30000]
  {
    assert Pow2(5) == 32;
  }

  /** The stream endpoint of a board. */
  function SubscribeUrl(boardId: string): string {
    "/api/subscribe/" + boardId
  }

  /** JavaScript truthiness of a `string | null`: present and non-empty. */
  predicate Truthy(o: Option<string>) {
    o.Some? && o.value != ""
  }

  /** A parsed stream message; only its `clientId` matters to the manager. */
  datatype Update = Update(clientId: Option<string>, body: string)

  /** The fields of the manager that its methods update. */
  datatype SyncState = SyncState(
    eventSource: Option<string>,     // the URL of the open EventSource
    listeners: set<ListenerId>,
    boardId: Option<string>,
    reconnectAttempts: nat,
    reconnectTimeout: Option<nat>,   // the delay of the pending reconnect timer
    isConnected: bool)

  const Initial := SyncState(None, {}, None, 0, None, false)

  /**
   * What every reachable state satisfies. In particular the attempt counter
   * stays within the cap, a pending timer always carries the delay of the
   * current attempt, and with a truthy board id the counter never gets past 1.
   */
  ghost predicate Inv(s: SyncState) {
    && s.reconnectAttempts <= MaxReconnectAttempts
    && (s.reconnectTimeout.Some? ==>
          && s.boardId.Some?
          && 1 <= s.reconnectAttempts
          && s.reconnectTimeout.value == BackoffDelay(s.reconnectAttempts))
    && (s.eventSource.Some? ==> s.boardId.Some? && s.eventSource.value == SubscribeUrl(s.boardId.value))
    && (s.isConnected ==> s.eventSource.Some?)
    && (Truthy(s.boardId) ==>
          s.reconnectAttempts <= 1 && (s.reconnectAttempts == 1 ==> s.reconnectTimeout.Some?))
  }

  lemma InitialInv()
    ensures Inv(Initial)
  {
  }

  /** `disconnect`: nothing open, nothing pending, counter reset, board forgotten. */
  function Disconnected(s: SyncState): (r: SyncState)
    ensures r.eventSource.None? && r.reconnectTimeout.None? && !r.isConnected
    ensures r.reconnectAttempts == 0 && r.boardId.None?
    ensures r.listeners == s.listeners
    ensures Inv(r)
  {
    s.(eventSource := None, reconnectTimeout := None, isConnected := false,
       reconnectAttempts := 0, boardId := None)
  }

  lemma DisconnectedIdempotent(s: SyncState)
    ensures Disconnected(Disconnected(s)) == Disconnected(s)
  {
  }

  /**
   * `attemptReconnect`: gives up at the cap, does nothing while a timer is
   * pending, and otherwise counts one more attempt and schedules exactly one
   * timer with that attempt's delay.
   */
  function Reconnecting(s: SyncState): (r: SyncState)
    ensures s.reconnectAttempts >= MaxReconnectAttempts || s.reconnectTimeout.Some? ==> r == s
    ensures s.reconnectAttempts < MaxReconnectAttempts && s.reconnectTimeout.None? ==>
              && r.reconnectAttempts == s.reconnectAttempts + 1
              && r.reconnectTimeout == Some(BackoffDelay(r.reconnectAttempts))
              && r == s.(reconnectAttempts := r.reconnectAttempts, reconnectTimeout := r.reconnectTimeout)
    ensures Inv(s) && s.boardId.Some? ==> Inv(r)
  {
    if s.reconnectAttempts >= MaxReconnectAttempts then s
    else if s.reconnectTimeout.Some? then s
    else
      var attempts := s.reconnectAttempts + 1;
      s.(reconnectAttempts := attempts, reconnectTimeout := Some(BackoffDelay(attempts)))
  }

  /**
   * `connect`: always disconnects first, then remembers the board; in a
   * browser it opens the board's stream, or schedules a retry if opening throws.
   */
  function Connecting(s: SyncState, boardId: string, inBrowser: bool, openFails: bool): (r: SyncState)
    ensures r.boardId == Some(boardId) && r.listeners == s.listeners && !r.isConnected
    ensures r.eventSource == (if inBrowser && !openFails then Some(SubscribeUrl(boardId)) else None)
    ensures r.reconnectAttempts == (if inBrowser && openFails then 1 else 0)
    ensures r.reconnectTimeout == (if inBrowser && openFails then Some(BackoffDelay(1)) else None)
    ensures Inv(r)
  {
    var d := Disconnected(s).(boardId := Some(boardId));
    if !inBrowser then d
    else if openFails then Reconnecting(d)
    else d.(eventSource := Some(SubscribeUrl(boardId)))
  }

  /**
   * `subscribe`: adds the listener, and connects only when no stream is open
   * or the board differs from the current one.
   */
  function Subscribed(s: SyncState, boardId: string, listener: ListenerId, inBrowser: bool, openFails: bool)
    : (r: SyncState)
    ensures r.listeners == s.listeners + {listener}
    ensures s.eventSource.Some? && s.boardId == Some(boardId) ==> r == s.(listeners := r.listeners)
    ensures s.eventSource.None? || s.boardId != Some(boardId) ==>
              r == Connecting(s.(listeners := r.listeners), boardId, inBrowser, openFails)
    ensures Inv(s) ==> Inv(r)
  {
    var s1 := s.(listeners := s.listeners + {listener});
    if s1.eventSource.None? || s1.boardId != Some(boardId) then Connecting(s1, boardId, inBrowser, openFails)
    else s1
  }

  /**
   * The closure returned by `subscribe`: removes its own listener only, and
   * disconnects exactly when no listener is left.
   */
  function Unsubscribed(s: SyncState, listener: ListenerId): (r: SyncState)
    ensures r.listeners == s.listeners - {listener}
    ensures r.listeners == {} ==> r == Disconnected(s).(listeners := {})
    ensures r.listeners != {} ==> r == s.(listeners := r.listeners)
    ensures Inv(s) ==> Inv(r)
  {
    var s1 := s.(listeners := s.listeners - {listener});
    if |s1.listeners| == 0 then Disconnected(s1) else s1
  }

  /** `onopen`: connected, counter reset, any pending reconnect cancelled. */
  function Opened(s: SyncState): (r: SyncState)
    ensures r.isConnected && r.reconnectAttempts == 0 && r.reconnectTimeout.None?
    ensures r.eventSource == s.eventSource && r.boardId == s.boardId && r.listeners == s.listeners
    ensures Inv(s) && s.eventSource.Some? ==> Inv(r)
  {
    s.(isConnected := true, reconnectAttempts := 0, reconnectTimeout := None)
  }

  /** `onerror`: no longer connected, then a reconnect attempt. */
  function Errored(s: SyncState): (r: SyncState)
    ensures !r.isConnected
    ensures r == Reconnecting(s.(isConnected := false))
    ensures Inv(s) && s.eventSource.Some? ==> Inv(r)
  {
    Reconnecting(s.(isConnected := false))
  }

  /**
   * The reconnect timer firing: it forgets itself, and reconnects to the
   * remembered board only when that board id is truthy.
   */
  function TimerFired(s: SyncState, inBrowser: bool, openFails: bool): (r: SyncState)
    ensures Truthy(s.boardId) ==>
              r == Connecting(s.(reconnectTimeout := None), s.boardId.value, inBrowser, openFails)
    ensures !Truthy(s.boardId) ==> r == s.(reconnectTimeout := None)
    ensures Inv(s) ==> Inv(r)
  {
    var s1 := s.(reconnectTimeout := None);
    if Truthy(s1.boardId) then Connecting(s1, s1.boardId.value, inBrowser, openFails) else s1
  }

  /** `forceReconnect`: disconnect, then connect to the given board. */
  function ForceReconnected(s: SyncState, boardId: string, inBrowser: bool, openFails: bool)
    : (r: SyncState)
    ensures r == Connecting(s, boardId, inBrowser, openFails)
    ensures Inv(r)
  {
    Connecting(Disconnected(s), boardId, inBrowser, openFails)
  }

  /**
   * Because `connect` begins with `disconnect`, a reconnect driven by the
   * timer puts the attempt counter back to 0 (or to 1 with a fresh first
   * delay, if opening the stream throws): the backoff sequence restarts.
   */
  lemma TimerRestartsBackoff(s: SyncState, inBrowser: bool, openFails: bool)
    requires Truthy(s.boardId)
    ensures var r := TimerFired(s, inBrowser, openFails);
            && r.reconnectAttempts == (if inBrowser && openFails then 1 else 0)
            && r.reconnectTimeout == (if inBrowser && openFails then Some(2 * BaseDelay) else None)
  {
    BackoffDelayBounds(1, 1);
  }

  /**
   * With a truthy board id every reconnect that an error schedules waits the
   * first delay, two seconds; the doubling never takes effect.
   */
  lemma ErrorDelayWithBoard(s: SyncState)
    requires Inv(s) && Truthy(s.boardId) && s.eventSource.Some?
    ensures var r := Errored(s);
            r.reconnectTimeout.Some? ==> r.reconnectTimeout.value == 2 * BaseDelay
  {
  }

  /**
   * One transport error in a browser, followed by the firing of the timer it
   * scheduled (if any), where the fresh stream opens without throwing.
   */
  function ErrorCycle(s: SyncState): SyncState {
    var e := Errored(s);
    if e.reconnectTimeout.Some? && s.reconnectTimeout.None? then TimerFired(e, true, false) else e
  }

  /** The delays of the timers that `n` successive error cycles schedule. */
  function RetryDelays(s: SyncState, n: nat): seq<nat>
    decreases n
  {
    if n == 0 then []
    else
      var e := Errored(s);
      (if e.reconnectTimeout.Some? && s.reconnectTimeout.None? then [e.reconnectTimeout.value] else [])
      + RetryDelays(ErrorCycle(s), n - 1)
  }

  /**
   * With a truthy board id and an open stream, each of any number of
   * consecutive error cycles schedules a retry, and every one of them after
   * the same two seconds.
   */
  lemma {:induction false} RetryDelaysWithBoard(s: SyncState, n: nat)
    requires Inv(s) && Truthy(s.boardId) && s.eventSource.Some? && s.reconnectTimeout.None?
    ensures RetryDelays(s, n) == seq(n, _ => 2 * BaseDelay)
    decreases n
  {
    if n > 0 {
      var c := ErrorCycle(s);
      assert c.boardId == s.boardId && c.eventSource.Some? && c.reconnectTimeout.None? && Inv(c);
      RetryDelaysWithBoard(c, n - 1);
      assert RetryDelays(s, n) == [2 * BaseDelay] + RetryDelays(c, n - 1);
    }
  }

  /**
   * With the empty string as board id the timer never reconnects, the stream
   * keeps failing, and the delays double up to the cap; after the fifth
   * attempt no retry is scheduled any more.
   */
  lemma RetryDelaysWithEmptyBoard(s: SyncState)
    requires s.boardId == Some("") && s.reconnectAttempts == 0 && s.reconnectTimeout.None?
    ensures RetryDelays(s, 6) == [2000, 4000, 8000, 16000, 30000]
  {
    BackoffSchedule();
    var s1 := ErrorCycle(s);
    var s2 := ErrorCycle(s1);
    var s3 := ErrorCycle(s2);
    var s4 := ErrorCycle(s3);
    var s5 := ErrorCycle(s4);
    assert s5.reconnectAttempts == 5 && s5.reconnectTimeout.None?;
    assert RetryDelays(s5, 1) == [];
    assert RetryDelays(s4, 2) == [30000];
    assert RetryDelays(s3, 3) == [16000, 30000];
    assert RetryDelays(s2, 4) == [8000, 16000, 30000];
    assert RetryDelays(s1, 5) == [4000, 8000, 16000, 30000];
  }

  /** Whether a message reaches the listeners: parsed, and not stamped with our own id. */
  predicate Delivers(message: Option<Update>, ownId: string) {
    message.Some? && message.value.clientId != Some(ownId)
  }

  /** The snapshot `getConnectionStatus` returns. */
  datatype ConnectionStatus = ConnectionStatus(
    connected: bool, boardId: Option<string>, clientId: string, reconnectAttempts: nat)

  /** MultiClientSubscriptionManager. */
  class SubscriptionManager {
    var eventSource: Option<string>
    var listeners: set<ListenerId>
    var boardId: Option<string>
    const clientId: string
    var reconnectAttempts: nat
    var reconnectTimeout: Option<nat>
    var isConnected: bool
    const inBrowser: bool
    /** For every listener, the updates it has been called with. */
    var received: Inbox<ListenerId, Update>

    function State(): SyncState
      reads this
    {
      SyncState(eventSource, listeners, boardId, reconnectAttempts, reconnectTimeout, isConnected)
    }

    ghost predicate Valid()
      reads this
    {
      Inv(State())
    }

    /** `clientId` stands for the id the source draws from the clock and `Math.random`. */
    constructor (clientId: string, inBrowser: bool)
      ensures Valid()
      ensures State() == Initial && received == map[]
      ensures this.clientId == clientId && this.inBrowser == inBrowser
    {
      eventSource := None;
      listeners := {};
      boardId := None;
      this.clientId := clientId;
      reconnectAttempts := 0;
      reconnectTimeout := None;
      isConnected := false;
      this.inBrowser := inBrowser;
      received := map[];
    }

    method Subscribe(boardId: string, listener: ListenerId, openFails: bool)
      requires Valid()
      modifies this
      ensures Valid()
      ensures State() == Subscribed(old(State()), boardId, listener, inBrowser, openFails)
      ensures received == old(received)
    {
      listeners := listeners + {listener};
      if eventSource.None? || this.boardId != Some(boardId) {
        Connect(boardId, openFails);
      }
    }

    /** The unsubscribe function that `subscribe` returns for `listener`. */
    method Unsubscribe(listener: ListenerId)
      requires Valid()
      modifies this
      ensures Valid()
      ensures State() == Unsubscribed(old(State()), listener)
      ensures received == old(received)
    {
      listeners := listeners - {listener};
      if |listeners| == 0 {
        Disconnect();
      }
    }

    method Connect(boardId: string, openFails: bool)
      modifies this
      ensures State() == Connecting(old(State()), boardId, inBrowser, openFails)
      ensures received == old(received)
    {
      Disconnect();
      this.boardId := Some(boardId);
      if !inBrowser {
        return;
      }
      if openFails {
        AttemptReconnect();
      } else {
        eventSource := Some(SubscribeUrl(boardId));
      }
    }

    /** The stream's `onopen` handler. */
    method OnOpen()
      requires Valid() && eventSource.Some?
      modifies this
      ensures Valid()
      ensures State() == Opened(old(State()))
      ensures received == old(received)
    {
      isConnected := true;
      reconnectAttempts := 0;
      if reconnectTimeout.Some? {
        reconnectTimeout := None;
      }
    }

    /**
     * The stream's `onmessage` handler. `None` is a message that does not
     * parse; it is swallowed. A message stamped with this manager's own id
     * is dropped. Any other is handed to every listener. An exception a
     * listener throws is caught and logged per listener, so it changes
     * nothing and stops neither the loop nor the other listeners.
     */
    method OnMessage(message: Option<Update>)
      requires Valid() && eventSource.Some?
      modifies this`received
      ensures received == if Delivers(message, clientId)
                          then Appended(old(received), listeners, message.value)
                          else old(received)
    {
      if message.None? {
        return;
      }
      var data := message.value;
      if data.clientId == Some(clientId) {
        return;
      }
      var pending := listeners;
      while pending != {}
        invariant pending <= listeners
        invariant received == Appended(old(received), listeners - pending, data)
        decreases pending
      {
        var listener :| listener in pending;
        AppendedStep(old(received), listeners - pending, listener, data);
        received := received[listener := Received(received, listener) + [data]];
        pending := pending - {listener};
        assert listeners - pending == (listeners - (pending + {listener})) + {listener};
      }
      assert listeners - pending == listeners;
    }

    /** The stream's `onerror` handler. */
    method OnError()
      requires Valid() && eventSource.Some?
      modifies this
      ensures Valid()
      ensures State() == Errored(old(State()))
      ensures received == old(received)
    {
      isConnected := false;
      AttemptReconnect();
    }

    method AttemptReconnect()
      modifies this
      ensures State() == Reconnecting(old(State()))
      ensures received == old(received)
    {
      if reconnectAttempts >= MaxReconnectAttempts {
        return;
      }
      if reconnectTimeout.Some? {
        return;
      }
      reconnectAttempts := reconnectAttempts + 1;
      var delay := BackoffDelay(reconnectAttempts);
      reconnectTimeout := Some(delay);
    }

    /** The callback of the pending reconnect timer. */
    method OnReconnectTimer(openFails: bool)
      requires Valid() && reconnectTimeout.Some?
      modifies this
      ensures Valid()
      ensures State() == TimerFired(old(State()), inBrowser, openFails)
      ensures received == old(received)
    {
      reconnectTimeout := None;
      if Truthy(boardId) {
        Connect(boardId.value, openFails);
      }
    }

    method Disconnect()
      modifies this
      ensures State() == Disconnected(old(State()))
      ensures received == old(received)
    {
      if eventSource.Some? {
        eventSource := None;
      }
      if reconnectTimeout.Some? {
        reconnectTimeout := None;
      }
      isConnected := false;
      reconnectAttempts := 0;
      boardId := None;
    }

    /** `forceDisconnect`, and the page's `beforeunload` handler. */
    method ForceDisconnect()
      requires Valid()
      modifies this
      ensures Valid()
      ensures State() == Disconnected(old(State()))
      ensures received == old(received)
    {
      Disconnect();
    }

    method ForceReconnect(boardId: string, openFails: bool)
      requires Valid()
      modifies this
      ensures Valid()
      ensures State() == ForceReconnected(old(State()), boardId, inBrowser, openFails)
      ensures received == old(received)
    {
      Disconnect();
      Connect(boardId, openFails);
    }

    method GetConnectionStatus() returns (status: ConnectionStatus)
      requires Valid()
      ensures status == ConnectionStatus(isConnected, boardId, clientId, reconnectAttempts)
      ensures status.reconnectAttempts <= MaxReconnectAttempts
      ensures status.connected ==> status.boardId.Some?
      ensures Truthy(status.boardId) ==> status.reconnectAttempts <= 1
    {
      status := ConnectionStatus(isConnected, boardId, clientId, reconnectAttempts);
    }
  }
}
