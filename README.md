# Bluetooth LE device session and scan coordinator, in Dafny

This project models the JavaScript core of a React Native Bluetooth Low Energy
library and proves properties of that model.

- **The device session** of `js/BluetoothDevice.js` is the class
  `DeviceSession.BluetoothDevice`. It models:
  - the connection flags;
  - the two request queues (reads and writes). In the model's atomic steps
    each queue has at most one request at the native driver at a time; the
    source's interleaved `async` calls can break this (see "Left out");
  - chunked characteristic writes;
  - the table of enabled notifications, which shutdown visits in
    `Object.keys` order: array-index keys such as "1818" first, ascending, then
    the other keys in insertion order;
  - the read/write timer;
  - the failure handler;
  - the one-way shutdown, which refuses every later operation.
- **The scan coordinator** of `js/Bluetooth.js` is the class
  `ScanCoordinator.Bluetooth`. It models:
  - the scan-started flag;
  - the list of discovered devices, filled up to a cap and without repeated
    device ids;
  - the clamping of the scan duration;
  - the race that ends `startScan`.
- **The earlier device** in the root `BluetoothDevice.js` is the class
  `EarlyDevice.BluetoothDevice`. It has the same two queues, a chunked write
  that copies each piece, and listener bindings that track the `connected`
  flag.

Both device versions are also checked against shared value-level models:

- `RequestQueue`: the queue discipline (FIFO order, one request in flight);
- `Chunking`: the cutting of a value into pieces;
- `Notifications`: the notification table.

The native module (`NativeModules.SimpleBluetoothManager`) is the class
`Gatt.Driver`:

- It keeps a ghost log of every call made to it.
- Whether the k-th call is rejected is a fixed oracle, `rejects(k, call)`.
  So every method's outcome depends only on the old state and the oracle.

Each stateful method is proved against a heap-free outcome function, in the
form `(new state, driver calls, result)`. Lemmas then state what each outcome
means:

- what changes and what is left alone;
- the error paths;
- the link to the queue, chunking and table models.

Each public method and each driver event is one atomic step. The waits that
the source does on timers are separate steps:

- `ScanCoordinator.Bluetooth.EndRace` ends a `startScan` race.
- `DeviceSession.BluetoothDevice.TimerFired` is a read/write timer firing.
- `DeviceSession.BluetoothDevice.ShutdownWaitEnded` is the end of the wait
  that `shutdown()` does for pending requests.

`setMaxDeviceCountToStore` stores any value. `__onScanResult` compares the
list length to the cap with `===`, so a cap that is already below the list
length never stops admission (`ScanCoordinator.CapBelowListIgnored`).

## Model

| member | source | states |
|---|---|---|
| RequestQueue.Fifo | js/BluetoothDevice.js:365-424 | After any history in which the driver reports completions only while a request is in flight, the queue holds the submitted requests from the c-th on (c completions), and the driver was handed exactly the first c+1 of them (or all), in submission order |
| RequestQueue.FifoSubmit | js/BluetoothDevice.js:395-421 | A submission keeps the FIFO invariant: a submission to an empty queue is dispatched; any other is only appended |
| RequestQueue.FifoComplete | js/BluetoothDevice.js:372-374 | A completion keeps the FIFO invariant: the head leaves and the next request, if any, is dispatched |
| RequestQueue.OneInFlight | js/BluetoothDevice.js:395-421 | What was dispatched is a prefix of what was submitted; exactly one dispatched request awaits completion while the queue is non-empty, and none otherwise |
| Chunking.ChunksConcat | js/BluetoothDevice.js:268-274 | The pieces that repeated `splice(0, chunkSize)` cuts off, joined in order, give back the whole value |
| Chunking.ChunksCount | js/BluetoothDevice.js:270-271 | The loop runs ceil(length / chunkSize) times |
| Chunking.ChunksSizes | js/BluetoothDevice.js:271 | Every piece is non-empty and at most chunkSize long; every piece but the last is exactly chunkSize long |
| Chunking.ChunkAt | js/BluetoothDevice.js:271 | The k-th piece is the slice of the value from k times chunkSize up to the next multiple or the end |
| Notifications.IndexOf | js/BluetoothDevice.js:135 | The position found holds the service; when nothing is found, no entry has that service |
| Notifications.EnableSpec | js/BluetoothDevice.js:148-154 | Enabling appends the characteristic to the service's list, creating the list if needed; the table stays well formed; other services are unchanged |
| Notifications.DisableSpec | js/BluetoothDevice.js:134-144 | Disabling fails exactly when the service has no entry; otherwise it removes the first occurrence of the characteristic and deletes an entry left empty; other services are unchanged |
| Notifications.DisableDeletes | js/BluetoothDevice.js:140-142 | Removing the last characteristic of a service deletes its entry and keeps the rest of the table in order |
| Notifications.DisableShrinks | js/BluetoothDevice.js:137-139 | Removing a characteristic from a longer list keeps the entry, shortened by one occurrence |
| Notifications.EnableThenDisable | js/BluetoothDevice.js:134-154 | Enabling a characteristic that was not enabled and then disabling it gives back the original table |
| Notifications.EnableTwiceDisableOnce | js/BluetoothDevice.js:134-154 | The table counts: after two enables and one disable, the characteristic is still listed |
| Notifications.RemoveFirstCount | js/BluetoothDevice.js:135-138 | `indexOf` followed by `splice(position, 1)` removes exactly one copy when there is one, and changes nothing when there is none |
| Notifications.KeyOrderSpec | js/BluetoothDevice.js:213 | `Object.keys` lists every service once: first the array-index keys, by ascending value, then every other key in insertion order |
| Notifications.NumeralInjective | js/BluetoothDevice.js:213 | Two array-index keys with the same value are the same key, so the ascending order is strict among distinct services |
| Notifications.NamedKeyLast | js/BluetoothDevice.js:213 | A service whose key is not an array index, recorded last, is visited last |
| Notifications.NamedEntriesAppend | js/BluetoothDevice.js:213 | The keys that are not array indices keep their insertion order |
| Notifications.FiltersSplit | js/BluetoothDevice.js:213 | The array-index keys and the other keys together are all the keys, each once |
| Notifications.SortByIndexPermutes | js/BluetoothDevice.js:213 | Ordering the array-index keys keeps the same entries |
| Notifications.SortByIndexAscending | js/BluetoothDevice.js:213 | Ordering the array-index keys puts them in ascending numeric order |
| Notifications.PairsSpec | js/BluetoothDevice.js:213-214 | Shutdown visits a (service, characteristic) pair exactly when the characteristic is listed under the service |
| Notifications.IndexKeysFirst | js/BluetoothDevice.js:213-214 | With "180D" enabled before "1818", shutdown visits "1818" first |
| DeviceSession.WithDefaults | js/BluetoothDevice.js:157-171 | `autoConnect` is on only when it is given as true; every other option is on unless it is given as false |
| DeviceSession.ChunkRequestAt | js/BluetoothDevice.js:381-393 | The j-th chunk request targets the caller's service and characteristic, has no descriptor, carries the call's timeout and the j-th piece, and is the last chunk exactly when j is the last index |
| DeviceSession.ChunkRequestsFirst | js/BluetoothDevice.js:268-273 | The first loop round cuts the front piece and builds its request; the remaining rounds work on what is left of the value |
| DeviceSession.BluetoothDevice.constructor | js/BluetoothDevice.js:10-29 | A new device is disconnected and has no discovered services, no shutdown, empty queues and an empty notification table; the listeners are attached and the connection options are the defaults |
| DeviceSession.BluetoothDevice.SubmitFollowsQueueModel | js/BluetoothDevice.js:381-421 | A submission changes its queue as `RequestQueue.Enqueue` does, calls the driver exactly when the queue model dispatches, and fails exactly when that dispatch is rejected |
| DeviceSession.BluetoothDevice.SubmitToBusyQueue | js/BluetoothDevice.js:395-421 | With a request in flight, a submission only appends and calls nothing |
| DeviceSession.BluetoothDevice.SubmitToIdleQueue | js/BluetoothDevice.js:395-421 | On an empty queue the request is dispatched at once: if the driver rejects it, nothing is queued and the error propagates; otherwise it is queued and a timer is armed when its timeout is positive |
| DeviceSession.BluetoothDevice.CompleteFollowsQueueModel | js/BluetoothDevice.js:372-419 | A completion shifts its queue as `RequestQueue.Advance` does and dispatches the next request, if any. It succeeds unless that dispatch is rejected, and then it returns the finished request's `lastChunk` flag |
| DeviceSession.BluetoothDevice.Submit | js/BluetoothDevice.js:365-424 | `_safeReadWrite` with arguments: the new state, the driver calls and the result are those of `SubmitOutcome`, with the payload read from the caller's object at the time of the call |
| DeviceSession.BluetoothDevice.Complete | js/BluetoothDevice.js:372-419 | `_safeReadWrite` without arguments: the new state, the calls and the result are those of `CompleteOutcome`, with the next request's payload read at dispatch time |
| DeviceSession.BluetoothDevice.Dispatch | js/BluetoothDevice.js:395-419 | One driver call, made to the descriptor or the characteristic variant as the request says; a timer is armed only when the call was accepted and the timeout is positive |
| DeviceSession.BluetoothDevice.Shift | js/BluetoothDevice.js:373-380 | Takes the head off the queue and clears the shared timer id |
| DeviceSession.BluetoothDevice.TimerFired | js/BluetoothDevice.js:412-417 | A live timer goes away and signals the timeout handler only if one is set; a cleared timer does nothing |
| DeviceSession.BluetoothDevice.FlushRequests | js/BluetoothDevice.js:68-76 | Without an argument both queues are emptied; a truthy argument empties only the read queue, a falsy one only the write queue; nothing else changes |
| DeviceSession.BluetoothDevice.SetConnectionOptions | js/BluetoothDevice.js:157-171 | Replaces every connection option by the given value or its default; nothing else changes |
| DeviceSession.BluetoothDevice.SetReadWriteTimeoutHandler | js/BluetoothDevice.js:179-183 | Records whether a timeout handler is set; nothing else changes |
| DeviceSession.BluetoothDevice.SetShutdownTimeout | js/BluetoothDevice.js:185-189 | Records the shutdown wait; nothing else changes |
| DeviceSession.BluetoothDevice.Pass | js/BluetoothDevice.js:35-66 | A public pass-through refuses after shutdown and otherwise makes exactly its one driver call |
| DeviceSession.BluetoothDevice.Issue | js/BluetoothDevice.js:289-295 | The unguarded close and disconnect make exactly one driver call and return its outcome |
| DeviceSession.BluetoothDevice.ConnectGatt | js/BluetoothDevice.js:47-54 | Refuses after shutdown; otherwise calls the driver's `connectGatt` with the configured `autoConnect` |
| DeviceSession.BluetoothDevice.Connect | js/BluetoothDevice.js:41-45 | Refuses after shutdown; otherwise calls `connect` |
| DeviceSession.BluetoothDevice.Disconnect | js/BluetoothDevice.js:56-60 | Refuses after shutdown; otherwise calls `disconnect` |
| DeviceSession.BluetoothDevice.CloseGatt | js/BluetoothDevice.js:35-39 | Refuses after shutdown; otherwise calls `closeGatt` |
| DeviceSession.BluetoothDevice.DiscoverServices | js/BluetoothDevice.js:62-66 | Refuses after shutdown; otherwise calls `discoverServices` with the given cache flag |
| DeviceSession.BluetoothDevice.OpenConnection | js/BluetoothDevice.js:94-98 | `connectGatt` first; then `connect` only on Android with `invokeBTGattConnect`, and only if `connectGatt` succeeded |
| DeviceSession.BluetoothDevice.ReadCharacteristic | js/BluetoothDevice.js:100-104 | Refuses after shutdown; otherwise submits a read request with no descriptor, no timeout and the caller's options |
| DeviceSession.BluetoothDevice.ReadDescriptor | js/BluetoothDevice.js:106-115 | As `ReadCharacteristic`, with the descriptor set |
| DeviceSession.BluetoothDevice.WriteDescriptor | js/BluetoothDevice.js:278-287 | Refuses after shutdown; otherwise submits a write request with the descriptor set and the caller's object |
| DeviceSession.BluetoothDevice.Completion | js/BluetoothDevice.js:342-354 | A completion event runs the completion path; its error (such as an empty queue) goes to the failure handler, and the finished request's `lastChunk` is passed on only when there was no error |
| DeviceSession.BluetoothDevice.HandleConnected | js/BluetoothDevice.js:306-315 | Sets `connected` to the absence of an error, then discovers services when connected and `autoDiscoverServices` is on |
| DeviceSession.BluetoothDevice.HandleDisconnected | js/BluetoothDevice.js:317-333 | Clears both flags and both queues; after a shutdown it also removes the inner listener and closes GATT on Android |
| DeviceSession.BluetoothDevice.Handle | js/BluetoothDevice.js:304-354 | The `switch` of the listener, with its errors sent to the failure handler |
| DeviceSession.BluetoothDevice.OnEvent | js/BluetoothDevice.js:297-363 | The inner listener: the new state and the driver calls are those of `EventOutcome`, and the driver log only grows |
| DeviceSession.BluetoothDevice.Notify | js/BluetoothDevice.js:426-442 | The driver's `setCharacteristicNotification`, then, on Android only and only if that succeeded, a write of `[enable, 0]` to the client-configuration descriptor |
| DeviceSession.BluetoothDevice.SetCharacteristicNotification | js/BluetoothDevice.js:126-155 | Refuses after shutdown. A disable edits the table before the driver call; an enable adds to the table only after the driver call succeeded |
| DeviceSession.BluetoothDevice.SetNotificationKeepsTable | js/BluetoothDevice.js:126-155 | The notification table stays well formed: keys are distinct and no list is empty |
| DeviceSession.BluetoothDevice.NotifyKeepsTable | js/BluetoothDevice.js:426-442 | The driver call and its descriptor write leave the table alone |
| DeviceSession.BluetoothDevice.SubmitKeepsTable | js/BluetoothDevice.js:365-424 | Queueing leaves the notification table alone |
| DeviceSession.BluetoothDevice.ChunkedWrite | js/BluetoothDevice.js:263-274 | A chunked write behind a busy write queue only appends one request per piece. On an idle queue, the first piece is dispatched: if it is rejected, nothing is queued; otherwise all the piece requests are queued |
| DeviceSession.BluetoothDevice.FirstToBusyQueue | js/BluetoothDevice.js:268-274 | The first piece behind a busy queue is only appended, so the remaining pieces follow it |
| DeviceSession.BluetoothDevice.FirstToIdleQueue | js/BluetoothDevice.js:268-274 | The first piece on an idle queue is dispatched at once, and the write fails exactly when the driver rejects it |
| DeviceSession.BluetoothDevice.SubmitChunks | js/BluetoothDevice.js:268-274 | The splice loop: its outcome is `ChunkedOutcome`, the caller's array is drained, and as written the caller's object ends up holding the last piece, not a copy per piece |
| DeviceSession.BluetoothDevice.AppendChunks | js/BluetoothDevice.js:270-274 | Behind a busy queue, the loop appends one request per remaining piece and calls nothing |
| DeviceSession.BluetoothDevice.SubmitPiece | js/BluetoothDevice.js:271-273 | One loop round: cuts the front piece off the caller's array and submits its request |
| DeviceSession.BluetoothDevice.WriteCharacteristic | js/BluetoothDevice.js:244-276 | Refuses after shutdown. A write that is not split goes through one request. A split write with chunkSize at most 0 throws. Otherwise the value is cut into pieces, all sharing the caller's object as written |
| DeviceSession.BluetoothDevice.WriteCharacteristicCopying | js/BluetoothDevice.js:244-276 | The same write with a fresh object per piece, so each queued request sends its own piece |
| DeviceSession.BluetoothDevice.DisableAllShape | js/BluetoothDevice.js:213-221 | A shutdown makes one disabling call per (service, characteristic) pair, in the order given; each rejection becomes one reported failure, and every accepted pair is one of the table's pairs |
| DeviceSession.BluetoothDevice.DisableNotifications | js/BluetoothDevice.js:213-221 | The disabling loop makes exactly the calls of `DisableAll`, sends its rejections to the failure handler, and returns the accepted pairs |
| DeviceSession.BluetoothDevice.DisableOne | js/BluetoothDevice.js:215-219 | One disabling call, whose rejection is reported as a failure |
| DeviceSession.BluetoothDevice.ResetDescriptors | js/BluetoothDevice.js:426-442 | On Android, the descriptor writes that follow the accepted disabling calls, one per pair, as `CccdAll` says |
| DeviceSession.BluetoothDevice.ResetOne | js/BluetoothDevice.js:434-441 | One descriptor write of a shutdown, through the write queue, with its error reported |
| DeviceSession.BluetoothDevice.Shutdown | js/BluetoothDevice.js:191-242 | The new state, the driver calls and the result are those of `ShutdownOutcome` |
| DeviceSession.BluetoothDevice.ShutdownConnected | js/BluetoothDevice.js:212-241 | The connected branch of shutdown: disabling calls, then a wait while requests are pending or an immediate teardown, then the Android descriptor writes |
| DeviceSession.BluetoothDevice.TeardownWhenConnected | js/BluetoothDevice.js:229-240 | Closes GATT on iOS, disconnects when `invokeBTGattDisconnect` is on, or otherwise removes the inner listener and closes GATT; any error goes to the failure handler |
| DeviceSession.BluetoothDevice.TeardownWhenDisconnected | js/BluetoothDevice.js:198-211 | Disconnects on Android with `invokeBTGattDisconnect`, then closes GATT; the first error stops the sequence and goes to the failure handler |
| DeviceSession.BluetoothDevice.ShutdownWaitEnded | js/BluetoothDevice.js:224-241 | At the end of the shutdown wait, the teardown that was postponed runs |
| DeviceSession.BluetoothDevice.ConnectedShutdownSteps | js/BluetoothDevice.js:212-241 | The connected shutdown is disabling, then settling, then the Android continuations, with the driver log split accordingly |
| DeviceProperties.SubmitLeavesTheRest | js/BluetoothDevice.js:381-421 | A submission touches only its own queue and the timers: the other queue, the flags, the table, the listeners and the failures are unchanged |
| DeviceProperties.CompleteLeavesTheRest | js/BluetoothDevice.js:372-419 | A completion touches only its own queue and the timers |
| DeviceProperties.ShutdownGuards | js/BluetoothDevice.js:444-448 | Once shutdown was requested, every guarded operation (pass-throughs, `openConnection`, reads and writes, notification changes and a second shutdown) throws and changes nothing |
| DeviceProperties.ShutdownLatch | js/BluetoothDevice.js:191-196 | After `shutdown()` the latch is set and, on a first call, the outer listeners are removed. It succeeds exactly when no shutdown was requested before, and failures are only added |
| DeviceProperties.LatchStays | js/BluetoothDevice.js:297-363 | No event clears the shutdown latch |
| DeviceProperties.DrainKeepsLatch | js/BluetoothDevice.js:224-241 | Nor does the end of the shutdown wait |
| DeviceProperties.EventFilter | js/BluetoothDevice.js:297-300 | An event about another device, or one arriving after the inner listener was removed, changes nothing and calls nothing |
| DeviceProperties.ConnectedEvent | js/BluetoothDevice.js:306-362 | CONNECTED sets `connected` to the absence of an error and leaves the queues alone. Services are discovered exactly when connected, `autoDiscoverServices` is on and no shutdown was requested. The listeners get the event while they are attached |
| DeviceProperties.DisconnectedEvent | js/BluetoothDevice.js:317-362 | DISCONNECTED clears both flags and both queues. The inner listener stays unless a shutdown was requested, and GATT is closed exactly when a shutdown was requested on Android |
| DeviceProperties.ServicesDiscoveredEvent | js/BluetoothDevice.js:335-340 | SERVICES_DISCOVERED sets the flag to the absence of an error and changes nothing else that matters |
| DeviceProperties.CompletionHandledSpec | js/BluetoothDevice.js:342-380 | A completion empties or shifts its queue, dispatches the next request if there is one, and leaves the other queue alone. Its error reaches the failure handler, and `lastChunk` is passed on exactly when there was no error |
| DeviceProperties.CompletionEvent | js/BluetoothDevice.js:342-362 | Read and write completion events (characteristic or descriptor) run the completion of their kind and give the listeners its `lastChunk` |
| DeviceProperties.ShutdownWhenDisconnected | js/BluetoothDevice.js:198-211 | A disconnected shutdown calls `closeGatt`, preceded on Android with `invokeBTGattDisconnect` by `disconnect`, stopping at the first rejection. It always resolves and reports the rejection |
| DeviceProperties.ShutdownWhenConnected | js/BluetoothDevice.js:212-241 | A connected shutdown first disables every enabled notification, services in `Object.keys` order (`Notifications.Pairs`). With requests pending it waits; otherwise the teardown call follows at once |
| DeviceProperties.ConnectedShutdownCalls | js/BluetoothDevice.js:213-240 | The first calls of a connected shutdown are the disabling calls, and without pending requests the next one is the teardown call |
| DeviceProperties.VisitingKeeps | js/BluetoothDevice.js:212-241 | A connected shutdown keeps the latch and the listening flag, only adds failures, and waits when requests are pending, whatever order it visits the pairs in |
| DeviceProperties.ChunkedRequestsShape | js/BluetoothDevice.js:252-393 | A chunked write gives one request per piece, ceil(length / chunkSize) of them, each non-empty and at most chunkSize long, with the pieces joining back to the value. Only the last request has `lastChunk` set |
| DeviceProperties.SetNotificationTable | js/BluetoothDevice.js:126-155 | `setCharacteristicNotification` keeps the table well formed and changes only its service's entry. An accepted enable appends; a refused enable leaves the table alone. A disable for an unknown service throws before any driver call; otherwise it removes one occurrence and deletes an empty entry |
| ChunkAliasing.AliasedChunksSendLastPiece | js/BluetoothDevice.js:252-388 | When the caller's object holds the last piece, every queued chunk request resolves to that last piece |
| ChunkAliasing.AliasedWriteLosesData | js/BluetoothDevice.js:268-274 | Writing [1,2,3,4,5,6] in chunks of 2 behind no other write sends [1,2], [5,6], [5,6], which does not join back to the value |
| ChunkAliasing.CopiedChunksSendEachPiece | js/BluetoothDevice.js:268-274 | With a fresh object per piece, the j-th request sends the j-th piece, and the pieces join back to the value |
| ScanCoordinator.ClampSpec | js/Bluetooth.js:65-67 | A negative duration is kept; any other is raised to at least the minimum, and is the duration or the minimum |
| ScanCoordinator.ClampIdempotent | js/Bluetooth.js:65-67 | Clamping twice with the same minimum is clamping once |
| ScanCoordinator.AdmitAppends | js/Bluetooth.js:155-164 | Scan results are only appended: the old list is a prefix of the new, and what is added is a subsequence of the results, in order |
| ScanCoordinator.AdmitCap | js/Bluetooth.js:157-159 | A list at or below a non-negative cap stays at or below it |
| ScanCoordinator.CapBelowListIgnored | js/Bluetooth.js:157 | A cap already below the list length is never met by `===` and behaves as no cap |
| ScanCoordinator.AdmitDistinct | js/Bluetooth.js:161-163 | Without duplicates allowed, no device id is stored twice |
| ScanCoordinator.AdmitComplete | js/Bluetooth.js:155-164 | Every reported device ends up in the list unless the cap was reached |
| ScanCoordinator.RaceCanEnd | js/Bluetooth.js:91-123 | Every race can end: by its timer when one was set, by the count poll when the cap is reached, and by the stop poll once the scan is stopped |
| ScanCoordinator.StopSpec | js/Bluetooth.js:131-149 | `stopScan` calls the driver exactly when the scan is running and returns true exactly when it stopped it. A stopped scan throws only with `throwIfStopped`. The list is unchanged |
| ScanCoordinator.StartSpec | js/Bluetooth.js:77-128 | A running scan throws without calling the driver. Otherwise the list is cleared and the driver's `startScan` is called; the flag is set only if that succeeded. It returns at once without a duration or a cap, and otherwise races |
| ScanCoordinator.EndSpec | js/Bluetooth.js:123-128 | When a race ends on a running scan, the scan is stopped and the list is returned. When the scan was already stopped elsewhere, it calls nothing and returns nothing |
| ScanCoordinator.Bluetooth.constructor | js/Bluetooth.js:13-28 | The initial fields: an empty list, no cap (-1), a scan of 5000 ms with a minimum of 2000 ms, and no scan running |
| ScanCoordinator.Bluetooth.GetDiscoveredDevices | js/Bluetooth.js:34-36 | Returns a copy of the list, which never holds a device id twice |
| ScanCoordinator.Bluetooth.SetMaxDeviceCountToStore | js/Bluetooth.js:61-63 | Stores the cap as given; nothing else changes |
| ScanCoordinator.Bluetooth.SetScanMinMillis | js/Bluetooth.js:69-71 | Stores the minimum as given; nothing else changes |
| ScanCoordinator.Bluetooth.SetScanOptions | js/Bluetooth.js:73-75 | Stores the options; nothing else changes |
| ScanCoordinator.Bluetooth.SetScanMillis | js/Bluetooth.js:65-67 | Stores the duration clamped against the current minimum; nothing else changes |
| Wrappers.Max | js/Bluetooth.js:66 | `Math.max` is an upper bound that is one of its arguments |
| ScanCoordinator.Bluetooth.OnScanResult | js/Bluetooth.js:155-164 | The loop admits the results in order, as `Admit` says: it stops at the cap and skips known ids |
| ScanCoordinator.Bluetooth.Contains | js/Bluetooth.js:161 | `find` by device id succeeds exactly when some stored result has that id |
| ScanCoordinator.Bluetooth.StopScan | js/Bluetooth.js:131-149 | The new state, the driver calls and the result are those of `StopOutcome` |
| ScanCoordinator.Bluetooth.StartScan | js/Bluetooth.js:77-122 | The new state, the driver calls and the result are those of `StartOutcome` |
| ScanCoordinator.Bluetooth.EndRace | js/Bluetooth.js:123-128 | A branch that can win ends its race with the outcome of `EndOutcome` |
| EarlyDevice.FlushVariants | BluetoothDevice.js:73-81 | With `==`: undefined empties both queues, true only the read queue, false only the write queue; a value loosely equal to none of them (another number, another object) empties nothing; the flag and the deliveries are untouched |
| EarlyDevice.SlicesShape | BluetoothDevice.js:117-124 | The slice loop gives one request per piece, ceil(length / chunkSize) of them, each with its own copy of a non-empty piece at most chunkSize long, and the pieces join back to the value |
| EarlyDevice.SliceRequestAt | BluetoothDevice.js:118-123 | The j-th slice request carries the j-th piece |
| EarlyDevice.BluetoothDevice.constructor | BluetoothDevice.js:51-63 | A new device is not connected, has empty queues, and has one inner listener per binding |
| EarlyDevice.BluetoothDevice.SubmitFollowsQueueModel | BluetoothDevice.js:131-150 | A submission follows `RequestQueue.Enqueue`: it is dispatched exactly on an empty queue, and it is not queued when that call is rejected |
| EarlyDevice.BluetoothDevice.CompleteFollowsQueueModel | BluetoothDevice.js:135-147 | The completion path shifts its queue as `RequestQueue.Advance` does and dispatches the next request; on an empty queue it does nothing |
| EarlyDevice.BluetoothDevice.SubmitAllToBusyQueue | BluetoothDevice.js:117-149 | Behind a busy write queue, every slice is appended and nothing is called |
| EarlyDevice.BluetoothDevice.SubmitAllToIdleQueue | BluetoothDevice.js:117-149 | On an idle write queue, the first slice is dispatched. A rejection stops the loop with nothing queued; otherwise all slices are queued |
| EarlyDevice.BluetoothDevice.EventFlags | BluetoothDevice.js:152-162 | An event for another device changes nothing. For this device, a CONNECTED binding sets `connected`, a DISCONNECTED binding clears it, whatever the error; the queues are untouched and the listener is called |
| EarlyDevice.BluetoothDevice.SecondRequestWaits | BluetoothDevice.js:131-162 | After an accepted first request and any event, a second request of the same kind calls nothing and waits behind the first |
| EarlyDevice.BluetoothDevice.FlushRequests | BluetoothDevice.js:73-81 | The new state is `FlushOutcome` of the argument |
| EarlyDevice.BluetoothDevice.OnEvent | BluetoothDevice.js:152-162 | The listener bound to binding b: the new state is `EventOutcome` |
| EarlyDevice.BluetoothDevice.Submit | BluetoothDevice.js:131-150 | `_safeReadWrite` with arguments: the outcome of `SubmitOutcome`, with the payload read at the call |
| EarlyDevice.BluetoothDevice.Complete | BluetoothDevice.js:131-150 | `_safeReadWrite` with no arguments: the outcome of `CompleteOutcome` |
| EarlyDevice.BluetoothDevice.ReadCharacteristic | BluetoothDevice.js:99-101 | Submits a read request with its options |
| EarlyDevice.BluetoothDevice.WriteCharacteristic | BluetoothDevice.js:103-125 | An unsplit write goes through one request holding the caller's object. A split write with chunkSize at most 0 throws. Otherwise each slice is submitted in turn, stopping at the first rejection |
| EarlyDevice.BluetoothDevice.SubmitSlices | BluetoothDevice.js:117-124 | The slice loop has the outcome of `SubmitAll` over the pieces of the value |

## Left out

- Timers and wall-clock time are not modelled. A read/write timer is an id in a set, and it fires through `TimerFired`. The shutdown wait and the scan race end through separate methods, whose order against other events is free.
- The native module is the `Gatt.Driver` class with its `rejects` oracle. What the native side does with a call, and the events it sends back, are left out. An event is modelled only when some caller delivers it through `OnEvent`.
- The concurrency of `async` methods is left out: each method runs atomically up to the waits named above. A completion event that arrives while a chunked write is between two `await`s is therefore not modelled. Nor are two submissions that start before the first one's dispatch settles: `_safeReadWrite` awaits the native call before it pushes the request (js/BluetoothDevice.js:410-421), so both reach the driver and the first completion dispatches the second again. The source's own Android shutdown does this, since its disables are not awaited (js/BluetoothDevice.js:213-219) and each one submits a descriptor write (js/BluetoothDevice.js:435-440). The model's one-request-at-the-driver property holds only for its atomic steps.
- DeviceSession.BluetoothDevice.OnEvent: the listeners' own code and what they do with an event are left out. Only the delivery (event name, error flag, `lastChunk`) is recorded.
- Console logging, `_withError`, `readSerialNumber`, `isValid`, `isEnabled`, `isKnownDeviceId`, the listener-registration helpers, `removeAllListeners`, `setCommonScanOptions`, `__onScanFailed` (logging only), `BluetoothDeviceQueue.js`, `index.js` and the native Android and iOS code are not part of this model.
- `setFailureHandler` is left out: the failure handler is the list `failures` of what it received.
- Device ids and UUIDs are strings, compared exactly. Read options and scan options are opaque tags. A write's other keys are one opaque tag.
- EarlyDevice.BluetoothDevice.WriteCharacteristic: a null or missing `dataAndOptions` is not modelled, because a write object is always present in the model. A fractional `chunkSize` is not modelled either: the size is an integer, while `slice(i, i += 2.5)` on five elements would send pieces of 2 and 3.
- DeviceSession.BluetoothDevice.WriteCharacteristic: a null or missing `dataAndOptions` is not modelled; the source throws a `TypeError` when it reads `chunkSize` (js/BluetoothDevice.js:258). A fractional `chunkSize` is not modelled: the size is an integer, while the source compares the length against 2.5 and `splice(0, 2.5)` takes 2 elements.
- DeviceSession.BluetoothDevice.DiscoverServices: the default `useCache = true` of a call without arguments is not modelled; callers always pass the flag.
- EarlyDevice.BluetoothDevice.constructor: the `Builder` is reduced to its id and the list of event types its listeners are bound to. The early `connectGatt`, `discoverServices`, `closeGatt`, `isValid` and `removeAllListeners` pass-throughs are not modelled.
- EarlyDevice.BluetoothDevice.Complete: nothing in the early file calls `_safeReadWrite` without arguments (see Findings). The model offers it as a method, and it does not model `readCharacteristic()` called with no arguments at all, which would reach the same path.
- EarlyDevice.FlushVariants: loose equality is modelled only for the values `FlushArg` tells apart. Objects whose `valueOf` converts to 0 or 1 count as `Number`.
- DeviceSession.BluetoothDevice.FlushRequests: the argument is modelled by its truthiness. An explicit `undefined` is falsy and clears only the write queue, because `arguments.length` is 1.
- ScanCoordinator.Bluetooth.OnScanResult: `__allowDuplicates` is a constant of the object, because the source has no setter for it.
- ScanCoordinator.Bluetooth.StartScan: the polls every 100 ms are not modelled. A race branch may end whenever its condition can hold (`CanWin`).
- Integers are unbounded: JavaScript numbers are doubles, but no value in the core comes near 2^53.

## Findings

| source | as written | input that shows it | evidently intended | confidence | as-written member | corrected member |
|---|---|---|---|---|---|---|
| js/BluetoothDevice.js:252-256,268-274,381-388 | Every chunk request of a split write queues the same `dataAndOptions` object. Its `value` is replaced by each new piece, and a queued request is read only when it is dispatched. So every chunk that waited in the queue sends the last piece | `writeCharacteristic(s, c, {value: [1,2,3,4,5,6], chunkSize: 2})` on an idle write queue: the driver receives [1,2], then [5,6], then [5,6] | Each chunk request sends its own piece, so the pieces join back to the value | high, not executed | ChunkAliasing.AliasedWriteLosesData | ChunkAliasing.CopiedChunksSendEachPiece |
| BluetoothDevice.js:131-162 | Nothing in the file advances a queue by itself: the listener only sets `connected` and calls the user's listener. Unless the app calls `readCharacteristic()` or `writeCharacteristic()` with no arguments on each completion event (BluetoothDevice.js:99-109 reach the completion path), a request queued behind another one is never sent | `readCharacteristic` twice, with a CHARACTERISTIC_READ event for the device in between and no argument-less call: the second read is never handed to the driver | The completion events run the completion path and dispatch the next request, as js/BluetoothDevice.js:342-350 does | low, not executed | EarlyDevice.BluetoothDevice.SecondRequestWaits | DeviceProperties.CompletionEvent |
