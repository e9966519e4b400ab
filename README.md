# Kanban board real-time sync core, in Dafny

This project models the three stateful pieces of the kanban board's
multi-client synchronisation layer and proves what they promise.

- **The broadcast relay** (`SseManager`, from `src/lib/sseManager.ts`). The
  server keeps a table from board id to the set of open event-stream
  controllers of that board. Adding a controller creates the board's set
  lazily. Removing one drops the board's entry once the set is empty. A
  broadcast frames one Server-Sent Events message (`data: <payload>` and a
  blank line, section 9.2 of the WHATWG HTML Living Standard). It offers
  the frame to every controller of the board and then removes exactly the
  controllers whose `enqueue` threw. Controllers are opaque ids. The
  controllers that throw are a set the caller supplies. What each stream
  accepted is kept in a per-controller inbox.
- **The client subscription manager** (`MultiClientSync`, from
  `src/lib/multiClientSync.ts`). One event stream per tab is shared by all
  listeners of the current board. It reconnects with backoff
  (`min(1000 * 2^attempts, 30000)` ms, at most 5 attempts) and drops
  messages stamped with its own client id. The browser callbacks
  (`onopen`, `onmessage`, `onerror`) and the reconnect timer are methods
  called by the environment. They have the same preconditions the browser
  gives them. A stream callback runs only while its stream is open, because
  `disconnect` closes the stream before dropping it. The timer callback runs
  only while its timer is pending, because `clearTimeout` cancels it. Each
  method is proved against a pure
  transition function on `SyncState`, and the lemmas are stated about those
  functions.
- **The shared local store** (`SharedState`, from `src/lib/sharedState.ts`).
  Boards with flat card lists live in one storage slot. An empty slot is
  seeded with a default board on first read. A periodic tick tells
  subscribers when the stored top-level timestamp changed.

`Inboxes` holds the one notion the relay and the client share: handing one
value to every member of a set of receivers.

The client allows at most 5 reconnect attempts
(src/lib/multiClientSync.ts:8) and waits `min(1000 * 2^attempts, 30000)`
milliseconds before each (src/lib/multiClientSync.ts:116). Read alone,
that is a 2 s, 4 s, 8 s, 16 s, 30 s schedule. The rest of the class
makes it behave otherwise. `connect` always begins with `disconnect`, and
`disconnect` zeroes the attempt counter. So a reconnect driven by the
timer restarts the sequence. With a non-empty board id, every retry waits
2 s and the counter never passes 1 (`RetryDelaysWithBoard`,
`TimerRestartsBackoff`). The doubling and the cap of 5 take effect only
when the board id is the empty string. That id is falsy in JavaScript, so
the timer never reconnects and if the stream keeps reporting errors, nothing retries it
(`RetryDelaysWithEmptyBoard`).

## Model

| member | source | states |
|---|---|---|
| `SseManager.Added` | src/lib/sseManager.ts:5-10 | after adding, the controller is in the board's set; the set grows by one only if the controller was new; other boards are untouched; no empty set is ever stored |
| `SseManager.Pruned` | src/lib/sseManager.ts:12-20 | removal takes exactly the given controllers out of the board's set; the entry exists afterwards iff some controller is left; other boards are untouched; no empty set is ever stored |
| `SseManager.PrunedAbsent` | src/lib/sseManager.ts:13-14 | removing a controller that is not registered, or from an unknown board, leaves the whole table unchanged |
| `SseManager.PrunedStep` | src/lib/sseManager.ts:41-43 | removing failed controllers one at a time is removing the set of them at once |
| `SseManager.PrunedRegistered` | src/lib/sseManager.ts:29-37 | only the board's own controllers among the failing ones affect the result |
| `SseManager.FrameDataIff` | src/lib/sseManager.ts:26 | the event-stream frame reads back as exactly its payload, and only frames of payloads without a line feed read back at all |
| `SseManager.TotalSizeSplit` | src/lib/sseManager.ts:50-56 | the total of all set sizes splits at any board, whatever order the boards are summed in |
| `SseManager.TotalSizeUpdate` | src/lib/sseManager.ts:52-54 | replacing one board's set changes the total by the difference of the sizes |
| `SseManager.TotalZeroIffEmpty` | src/lib/sseManager.ts:16-18 | since no empty set is stored, the total is zero exactly when no board has an entry |
| `SseManager.TotalAfterAdd` | src/lib/sseManager.ts:5-10 | adding grows the total by one, or by zero for a controller already registered |
| `SseManager.TotalAfterPrune` | src/lib/sseManager.ts:12-20 | removing shrinks the total by the number of removed controllers that were registered |
| `SseManager.ConnectionManager.constructor` | src/lib/sseManager.ts:3 | the relay starts with no boards and no queued frames |
| `SseManager.ConnectionManager.AddConnection` | src/lib/sseManager.ts:5-10 | the table becomes `Added` of the old one, keeping the no-empty-set invariant |
| `SseManager.ConnectionManager.RemoveConnection` | src/lib/sseManager.ts:12-20 | the table becomes `Pruned` by the one controller, keeping the invariant |
| `SseManager.ConnectionManager.BroadcastToBoard` | src/lib/sseManager.ts:22-44 | an unknown board changes nothing; otherwise every non-failing controller of the board gets the same frame appended, and the board's set loses exactly the failing controllers (dropped when none survive) |
| `SseManager.ConnectionManager.EnqueueEach` | src/lib/sseManager.ts:29-38 | one enqueue per controller whether or not earlier ones threw; the failed list holds exactly the failing controllers |
| `SseManager.ConnectionManager.RemoveEach` | src/lib/sseManager.ts:40-43 | removing each failed controller yields the table pruned by all of them |
| `SseManager.ConnectionManager.GetConnectionCount` | src/lib/sseManager.ts:46-48 | the size of the board's set, 0 for an unknown board |
| `SseManager.ConnectionManager.GetTotalConnections` | src/lib/sseManager.ts:50-56 | the sum of the sizes of all boards' sets |
| `Inboxes.AppendedReceived` | src/lib/sseManager.ts:31-38 | every target receives exactly the one value at the end of what it had; every other receiver is unchanged |
| `Inboxes.AppendedNone` | src/lib/sseManager.ts:23-24 | delivering to nobody changes nothing |
| `Inboxes.AppendedStep` | src/lib/multiClientSync.ts:79-85 | delivering to one more receiver extends a delivery loop by one step |
| `MultiClientSync.Pow2Monotone` | src/lib/multiClientSync.ts:116 | `2^a <= 2^b` for `a <= b` |
| `MultiClientSync.BackoffDelayBounds` | src/lib/multiClientSync.ts:116 | the delay never falls as attempts grow, never exceeds 30000 ms, and is at least 2000 ms from the first attempt on |
| `MultiClientSync.BackoffDelayDoubles` | src/lib/multiClientSync.ts:116 | each attempt doubles the previous delay until the cap |
| `MultiClientSync.BackoffSchedule` | src/lib/multiClientSync.ts:115-116 | attempts 1 to 5 wait 2000, 4000, 8000, 16000 and 30000 ms |
| `MultiClientSync.InitialInv` | src/lib/multiClientSync.ts:3-10 | the initial field values satisfy the manager's invariant |
| `MultiClientSync.Disconnected` | src/lib/multiClientSync.ts:128-144 | no source, no pending timer, not connected, counter 0, board null, listeners kept; the invariant holds |
| `MultiClientSync.DisconnectedIdempotent` | src/lib/multiClientSync.ts:128-144 | disconnecting twice is disconnecting once |
| `MultiClientSync.Reconnecting` | src/lib/multiClientSync.ts:105-126 | nothing at the cap or with a timer pending; otherwise the counter grows by exactly 1 and one timer with that attempt's delay is scheduled; the invariant is kept |
| `MultiClientSync.Connecting` | src/lib/multiClientSync.ts:43-103 | connect resets everything, remembers the board, opens its stream in a browser, or schedules the first retry if opening throws |
| `MultiClientSync.Subscribed` | src/lib/multiClientSync.ts:24-31 | the listener is added; connect runs only when no source is open or the board differs; the invariant is kept |
| `MultiClientSync.Unsubscribed` | src/lib/multiClientSync.ts:33-40 | only this listener is removed; disconnect happens exactly when none is left |
| `MultiClientSync.Opened` | src/lib/multiClientSync.ts:56-66 | connected, counter 0, pending timer cancelled |
| `MultiClientSync.Errored` | src/lib/multiClientSync.ts:91-97 | not connected, then `attemptReconnect` |
| `MultiClientSync.TimerFired` | src/lib/multiClientSync.ts:120-125 | the timer clears itself and reconnects only when the board id is truthy; the invariant is kept |
| `MultiClientSync.ForceReconnected` | src/lib/multiClientSync.ts:152-156 | the same as a plain connect to the board |
| `MultiClientSync.TimerRestartsBackoff` | src/lib/multiClientSync.ts:45 | a timer-driven reconnect puts the counter back to 0, or to 1 with a 2000 ms delay when opening throws |
| `MultiClientSync.ErrorDelayWithBoard` | src/lib/multiClientSync.ts:105-117 | with a truthy board id, any retry an error schedules waits 2000 ms |
| `MultiClientSync.RetryDelaysWithBoard` | src/lib/multiClientSync.ts:142 | with a truthy board id, any number of error-then-timer cycles each schedule a retry after 2000 ms |
| `MultiClientSync.RetryDelaysWithEmptyBoard` | src/lib/multiClientSync.ts:122 | with board id `""`, six error cycles schedule retries after 2000, 4000, 8000, 16000 and 30000 ms and then none |
| `MultiClientSync.SubscriptionManager.constructor` | src/lib/multiClientSync.ts:12-22 | no source, no listeners, no board, counter 0, no timer, not connected |
| `MultiClientSync.SubscriptionManager.Subscribe` | src/lib/multiClientSync.ts:24-31 | the new state is `Subscribed` of the old one |
| `MultiClientSync.SubscriptionManager.Unsubscribe` | src/lib/multiClientSync.ts:33-40 | the new state is `Unsubscribed` of the old one |
| `MultiClientSync.SubscriptionManager.Connect` | src/lib/multiClientSync.ts:43-103 | the new state is `Connecting` of the old one |
| `MultiClientSync.SubscriptionManager.OnOpen` | src/lib/multiClientSync.ts:56-66 | the new state is `Opened` of the old one |
| `MultiClientSync.SubscriptionManager.OnMessage` | src/lib/multiClientSync.ts:68-89 | an unparseable message or one carrying the manager's own client id changes nothing; any other is handed once to every listener, throwing listeners included |
| `MultiClientSync.SubscriptionManager.OnError` | src/lib/multiClientSync.ts:91-97 | the new state is `Errored` of the old one |
| `MultiClientSync.SubscriptionManager.AttemptReconnect` | src/lib/multiClientSync.ts:105-126 | the new state is `Reconnecting` of the old one |
| `MultiClientSync.SubscriptionManager.OnReconnectTimer` | src/lib/multiClientSync.ts:120-125 | the new state is `TimerFired` of the old one |
| `MultiClientSync.SubscriptionManager.Disconnect` | src/lib/multiClientSync.ts:128-144 | the new state is `Disconnected` of the old one |
| `MultiClientSync.SubscriptionManager.ForceDisconnect` | src/lib/multiClientSync.ts:147-149 | the same as `disconnect` |
| `MultiClientSync.SubscriptionManager.ForceReconnect` | src/lib/multiClientSync.ts:152-156 | the new state is `ForceReconnected` of the old one |
| `MultiClientSync.SubscriptionManager.GetConnectionStatus` | src/lib/multiClientSync.ts:189-196 | the status reports the fields; the counter is at most 5, connected implies a board, a truthy board implies a counter of at most 1 |
| `SharedState.ReadSeedsThenStable` | src/lib/sharedState.ts:66-106 | reading an empty slot seeds and stores one board with two cards; a second read returns the stored state and stores nothing new |
| `SharedState.FirstBoard` | src/lib/sharedState.ts:146 | the index of the first board with the id, none iff no board has it |
| `SharedState.FindBoard` | src/lib/sharedState.ts:114-117 | the first board of the list with that id, null iff there is none |
| `SharedState.FindCardIndex` | src/lib/sharedState.ts:128 | the index of the first card with the id, -1 iff no card has it |
| `SharedState.PatchedOverrides` | src/lib/sharedState.ts:130-134 | an empty patch only refreshes the timestamp; the timestamp is always the new clock value; the id survives a patch without one; patching twice with the same fields is patching once |
| `SharedState.UpdatedStateEffect` | src/lib/sharedState.ts:124-142 | board and card counts are unchanged; in each board only the first card with the id becomes the patched card; a board without it is untouched; the top-level timestamp is always bumped |
| `SharedState.FindCardIndexAfterPatch` | src/lib/sharedState.ts:128-134 | a patch that keeps the id leaves the patched card the first one with that id |
| `SharedState.UpdatedStateTwice` | src/lib/sharedState.ts:124-142 | applying the same id-preserving update twice is applying it once at the later time |
| `SharedState.WithCardEffect` | src/lib/sharedState.ts:144-162 | creation appends exactly one card at the end of the first board with the id and touches no other board; a fresh id is then found by card lookup at the new last index |
| `SharedState.SecondTickQuiet` | src/lib/sharedState.ts:47-54 | after a tick has recorded the stored timestamp, a second tick with no write in between notifies nobody |
| `SharedState.SharedStateManager.constructor` | src/lib/sharedState.ts:24-37 | no listeners, empty last-sync time, the sync running only in a browser |
| `SharedState.SharedStateManager.HandleStorageChange` | src/lib/sharedState.ts:30-44 | registered only in a browser; listeners are notified, up to the first that throws, exactly when the event's key is the store's key, and the exception then leaves the handler |
| `SharedState.SharedStateManager.SyncTick` | src/lib/sharedState.ts:47-54 | listeners are notified, up to the first that throws, exactly when the stored timestamp differs from the last one seen; that timestamp is recorded before the listeners run, so it stays recorded when one throws |
| `SharedState.FirstThrowing` | src/lib/sharedState.ts:57-59 | the position of the first listener that throws: every earlier one returns normally |
| `SharedState.NotifiedCalls` | src/lib/sharedState.ts:57-59 | with no exception handling, each listener up to and including the first that throws is called once, and each later one not at all |
| `SharedState.Without` | src/lib/sharedState.ts:63 | deleting from an insertion-ordered set removes exactly that listener and keeps the rest distinct |
| `SharedState.SharedStateManager.NotifyListeners` | src/lib/sharedState.ts:57-59 | the listeners are called in insertion order until one throws; it reports whether one did |
| `SharedState.SharedStateManager.Subscribe` | src/lib/sharedState.ts:61-62 | the listener is appended unless already present, where it keeps its place; listeners stay distinct |
| `SharedState.SharedStateManager.Unsubscribe` | src/lib/sharedState.ts:63 | only that listener is removed, the others keep their order, and it reports whether it was there |
| `SharedState.SharedStateManager.GetSharedState` | src/lib/sharedState.ts:66-106 | the stored state, or the default state seeded into an empty slot, or an empty state without a window |
| `SharedState.SharedStateManager.SaveSharedState` | src/lib/sharedState.ts:108-112 | the slot holds the state, in a browser only |
| `SharedState.SharedStateManager.GetBoard` | src/lib/sharedState.ts:114-117 | the first board with the id or null; the boards are not changed |
| `SharedState.SharedStateManager.GetBoards` | src/lib/sharedState.ts:119-122 | the boards of the read state |
| `SharedState.SharedStateManager.UpdateCard` | src/lib/sharedState.ts:124-142 | the slot holds `UpdatedState` of the read state, saved even when no card matched |
| `SharedState.SharedStateManager.CreateCard` | src/lib/sharedState.ts:144-165 | on a known board the new card is returned and appended to the first board with the id, then saved; on an unknown board the result is null and nothing is saved |
| `SharedState.SharedStateManager.Cleanup` | src/lib/sharedState.ts:167-171 | the periodic sync stops |

## Left out

- `broadcastUpdate` (src/lib/multiClientSync.ts:159-187) is a fire-and-forget HTTP POST whose errors are only logged. It is network I/O. Its request carries the body `{type, data}` and the `x-client-id` header.
- The route handlers that open streams and accept publishes (the `connected` greeting, the 30-second heartbeat, the 400 on a missing `type` or `data`) sit outside the three core classes.
- `EventSource`, `setTimeout`/`clearTimeout`, `setInterval`, window event listeners, `localStorage`, `JSON`, `Date` and `Math.random` are browser and runtime facilities. They become fields, parameters (`openFails`, `now`, `freshId`, `clientId`, `failing`) and methods called by the environment. The browser's own automatic retry of a failed `EventSource` shows only as repeated `onerror` calls.
- Payloads are passed already serialised. `JSON.stringify` and `JSON.parse` are the identity. An unparseable stream message is `None`.
- A JavaScript `Set` is iterated in insertion order. The relay's controller sets and the client's listener set are iterated in an arbitrary order: every member is visited there whatever the order, because sends that fail are collected and client listeners' exceptions are caught. The shared store's listeners are kept in insertion order, because a throwing listener there stops the later ones.
- The source calls `new Date()` afresh for each timestamp, so the card, board and top-level timestamps of one operation can differ by a few milliseconds. The model uses one clock value per operation.
- A `Partial<SharedCard>` whose keys are present with the value `undefined` is not modelled. Such a key would overwrite the card's field with `undefined`.
- Console logging is left out.
- Concurrent request handlers calling the relay are left out. Each relay method is atomic.
- The card-move handling, the column-id mapping and the per-board column-order storage slots are UI code in src/app/boards/[id]/page.tsx, outside the three classes modelled here, and they are not part of this model.
