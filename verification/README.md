# connectivity_listener: the adapter watchers as a state machine

The `connectivity_listener` Flutter plugin streams Wi-Fi and Bluetooth adapter
state changes from Android to a Dart client. Each stream is served by a
watcher. The watcher registers a broadcast receiver when the stream is
listened to, delivers an immediate snapshot `{previousState: null, currentState: s}`,
and then delivers `{previousState, currentState}` for each state-change
broadcast. It unregisters when the stream is cancelled. Detaching the plugin
from the engine is meant to unregister both receivers, but as written it only
clears the receiver fields and leaves both receivers registered with the host
(see "## Findings"). Before it registers anything, the Bluetooth watcher
checks a permission and guards the initial query against a `SecurityException`.
It also drops broadcasts that report the `BluetoothAdapter.ERROR` sentinel.

This project models that logic as a pure, deterministic step function.

- `Watcher.State` holds a watcher's two fields: whether its receiver is set, and
  the stored last state.
- `WifiWatcher` and `BluetoothWatcher` give each watcher's step function over
  `Listen`, `Cancel` and `Receive(intent)`.
- `ConnectivityPlugin` runs both watchers side by side over channel calls,
  broadcasts and `Detach`. It returns one trace per stream.
- `Events` defines the delivered items and the previous/current chain that a
  trace should form.
- `Android` holds the host constants and the broadcast `Intent`.

The host queries become oracle values carried by the inputs:
- the Wi-Fi state query returns `None` when there is no `WifiManager`;
- the permission check is a boolean;
- the Bluetooth query returns no adapter, a state, or a thrown `SecurityException`.

The sentinels `WIFI_STATE_UNKNOWN` and `BluetoothAdapter.ERROR` are constants
whose values are left unspecified. No proof depends on them.

One subtlety governs the Bluetooth results. The receiver stores the reported
state before it checks for ERROR
(`ConnectivityListenerPlugin.kt` lines 165-166). So after a dropped broadcast,
the next delivered event has ERROR as its previous state, not the state that
was last delivered. The Wi-Fi chain holds unconditionally. The Bluetooth chain
holds only when no ERROR broadcast arrives. Whatever arrives, a Bluetooth
event's previous state is either the preceding current state or ERROR.
`BluetoothWatcher.ChainBreaksAfterDroppedError` shows the event
`{ERROR -> OFF}` that the code delivers after `ON, ERROR, OFF`.

## Model

| member | source | states |
|---|---|---|
| Watcher.Unregister | android/src/main/kotlin/dev/Prince2347X/connectivity_listener/ConnectivityListenerPlugin.kt:126-131 | unregistering leaves no receiver set, keeps the stored state, and is a no-op when no receiver is set (so it is idempotent) |
| WifiWatcher.Register | android/src/main/kotlin/dev/Prince2347X/connectivity_listener/ConnectivityListenerPlugin.kt:97-123 | with a receiver set, a listen changes nothing and delivers nothing; otherwise it delivers exactly one snapshot with no previous state and then stores the queried state (UNKNOWN without a manager) with the receiver set |
| WifiWatcher.OnReceive | android/src/main/kotlin/dev/Prince2347X/connectivity_listener/ConnectivityListenerPlugin.kt:108-120 | a registered receiver delivers exactly one `(Some(old), new)` record for every Wi-Fi state-change broadcast, duplicates included, and stores `new` (UNKNOWN if the extra is missing); other actions, or an unregistered receiver, deliver nothing and change nothing |
| WifiWatcher.RunConsistent | android/src/main/kotlin/dev/Prince2347X/connectivity_listener/ConnectivityListenerPlugin.kt:97-131 | every input sequence keeps the chain intact and keeps a registered watcher's stored state equal to the last delivered current state |
| WifiWatcher.ChainAlwaysHolds | android/src/main/kotlin/dev/Prince2347X/connectivity_listener/ConnectivityListenerPlugin.kt:109-118 | from the plugin's initial fields, any inputs give a trace whose every previous state equals the preceding event's current state, and whose first event is a snapshot |
| WifiWatcher.RegisteredReceivesCount | android/src/main/kotlin/dev/Prince2347X/connectivity_listener/ConnectivityListenerPlugin.kt:110-118 | while registered, N state-change broadcasts among any broadcasts deliver exactly N state-change records and the receiver stays set |
| WifiWatcher.SessionCount | android/src/main/kotlin/dev/Prince2347X/connectivity_listener/ConnectivityListenerPlugin.kt:97-123 | a listen from unregistered followed by broadcasts with N state changes delivers N+1 records, the first the snapshot `(None, queried or UNKNOWN)` |
| WifiWatcher.RegisteredContinuous | android/src/main/kotlin/dev/Prince2347X/connectivity_listener/ConnectivityListenerPlugin.kt:109-118 | while registered, any broadcasts extend a session trace ending in the stored state so that every record continues the one before it |
| WifiWatcher.UnregisteredIgnoresReceives | android/src/main/kotlin/dev/Prince2347X/connectivity_listener/ConnectivityListenerPlugin.kt:126-131 | with no receiver set, broadcasts deliver nothing and leave the watcher unchanged |
| WifiWatcher.ListenIdempotent | android/src/main/kotlin/dev/Prince2347X/connectivity_listener/ConnectivityListenerPlugin.kt:97-98 | listening twice is the same as listening once: same state, same delivered trace |
| WifiWatcher.CancelThenListen | android/src/main/kotlin/dev/Prince2347X/connectivity_listener/ConnectivityListenerPlugin.kt:126-131 | cancelling twice equals cancelling once and delivers nothing; a listen after a cancel starts over with a fresh `(None, s)` snapshot |
| WifiWatcher.ThreeStateScenario | android/src/main/kotlin/dev/Prince2347X/connectivity_listener/ConnectivityListenerPlugin.kt:101-117 | a listen seeing `a` then state-change broadcasts `b`, `c` delivers exactly `(None, a)`, `(a, b)`, `(b, c)` and leaves `c` stored, with no filtering of repeated states |
| BluetoothWatcher.Register | android/src/main/kotlin/dev/Prince2347X/connectivity_listener/ConnectivityListenerPlugin.kt:133-177 | with a receiver set a listen is a no-op; without permission it delivers one PERMISSION_DENIED and nothing else; a throwing query delivers one PERMISSION_ERROR with the exception message; in both failures nothing is stored or registered; otherwise the snapshot is delivered unfiltered, even when it is ERROR |
| BluetoothWatcher.OnReceive | android/src/main/kotlin/dev/Prince2347X/connectivity_listener/ConnectivityListenerPlugin.kt:160-174 | a registered receiver stores every reported Bluetooth state (ERROR if the extra is missing); it delivers `(Some(old), new)` exactly when `new` is not ERROR, and nothing otherwise; other actions change nothing |
| BluetoothWatcher.RunConsistent | android/src/main/kotlin/dev/Prince2347X/connectivity_listener/ConnectivityListenerPlugin.kt:160-174 | inputs without an ERROR state-change broadcast keep the exact chain and the stored state equal to the last delivered current state |
| BluetoothWatcher.RunLooselyConsistent | android/src/main/kotlin/dev/Prince2347X/connectivity_listener/ConnectivityListenerPlugin.kt:160-174 | any inputs keep every previous state equal to the preceding current state or to ERROR, and the stored state equal to the last delivered one or to ERROR |
| BluetoothWatcher.ChainHoldsWithoutErrorBroadcasts | android/src/main/kotlin/dev/Prince2347X/connectivity_listener/ConnectivityListenerPlugin.kt:161-171 | from the initial fields, with no ERROR state-change broadcast, the Bluetooth trace forms the unbroken previous/current chain |
| BluetoothWatcher.ChainHoldsUpToError | android/src/main/kotlin/dev/Prince2347X/connectivity_listener/ConnectivityListenerPlugin.kt:161-171 | from the initial fields, for any inputs, each previous state is the preceding current state or ERROR |
| BluetoothWatcher.ChainBreaksAfterDroppedError | android/src/main/kotlin/dev/Prince2347X/connectivity_listener/ConnectivityListenerPlugin.kt:163-171 | listen with state s, then broadcasts ERROR and u, delivers exactly `(None, s)` and `(Some(ERROR), u)`, which is not a chain |
| BluetoothWatcher.RegisteredReceivesCount | android/src/main/kotlin/dev/Prince2347X/connectivity_listener/ConnectivityListenerPlugin.kt:161-171 | while registered, delivered records plus dropped ERROR broadcasts equal the state-change broadcasts, and the receiver stays set |
| BluetoothWatcher.SessionCount | android/src/main/kotlin/dev/Prince2347X/connectivity_listener/ConnectivityListenerPlugin.kt:147-171 | a successful listen followed by broadcasts with M state changes, D of them ERROR, delivers 1 + M - D records, the first the snapshot of the queried state (ERROR without an adapter); every later record is a state change whose previous state is the current state of the record before it or ERROR, and always the former when no broadcast reports ERROR |
| BluetoothWatcher.RegisteredContinuous | android/src/main/kotlin/dev/Prince2347X/connectivity_listener/ConnectivityListenerPlugin.kt:161-171 | while registered and with no ERROR broadcast, any broadcasts extend a session trace so that every record continues the one before it |
| BluetoothWatcher.RegisteredContinuousOrError | android/src/main/kotlin/dev/Prince2347X/connectivity_listener/ConnectivityListenerPlugin.kt:161-171 | while registered, any broadcasts extend a session trace so that every record's previous state is the preceding current state or ERROR |
| BluetoothWatcher.UnregisteredIgnoresReceives | android/src/main/kotlin/dev/Prince2347X/connectivity_listener/ConnectivityListenerPlugin.kt:180-185 | with no receiver set, broadcasts deliver nothing and leave the watcher unchanged |
| BluetoothWatcher.FailedListenRegistersNothing | android/src/main/kotlin/dev/Prince2347X/connectivity_listener/ConnectivityListenerPlugin.kt:142-158 | a denied or throwing listen, then any broadcasts, delivers exactly one failure of the matching code, no state change, and leaves the watcher exactly as it was |
| BluetoothWatcher.RetryAfterDenial | android/src/main/kotlin/dev/Prince2347X/connectivity_listener/ConnectivityListenerPlugin.kt:133-158 | after a denied listen, a permitted listen retries the whole sequence: PERMISSION_DENIED, then a fresh `(None, s)` snapshot with the receiver set |
| BluetoothWatcher.ListenIdempotent | android/src/main/kotlin/dev/Prince2347X/connectivity_listener/ConnectivityListenerPlugin.kt:133-134 | once a listen has set the receiver, a second listen changes nothing and delivers nothing, whatever the permission and query say |
| ConnectivityPlugin.Teardown | android/src/main/kotlin/dev/Prince2347X/connectivity_listener/ConnectivityListenerPlugin.kt:88-95 | the intended teardown (see "## Findings"): both receivers are unregistered, both stored states are kept, and it is a no-op when neither is registered |
| ConnectivityPlugin.Step | android/src/main/kotlin/dev/Prince2347X/connectivity_listener/ConnectivityListenerPlugin.kt:50-95 | detaching applies the intended teardown and delivers nothing on either stream; a Wi-Fi channel call never touches the Bluetooth watcher or stream, and the reverse |
| ConnectivityPlugin.RunProjects | android/src/main/kotlin/dev/Prince2347X/connectivity_listener/ConnectivityListenerPlugin.kt:50-95 | each stream's trace and each watcher's final state equal what that watcher alone produces from its own channel calls, the broadcasts and the teardowns |
| ConnectivityPlugin.WifiStreamChained | android/src/main/kotlin/dev/Prince2347X/connectivity_listener/ConnectivityListenerPlugin.kt:97-131 | the plugin's Wi-Fi stream always forms the previous/current chain |
| ConnectivityPlugin.BluetoothStreamChained | android/src/main/kotlin/dev/Prince2347X/connectivity_listener/ConnectivityListenerPlugin.kt:133-185 | the plugin's Bluetooth stream forms the chain when no broadcast reports ERROR |
| ConnectivityPlugin.DetachSilencesBroadcasts | android/src/main/kotlin/dev/Prince2347X/connectivity_listener/ConnectivityListenerPlugin.kt:88-95 | with the intended teardown, detaching twice equals detaching once, and after a detach broadcasts reach neither sink and change nothing (the corrected half of the finding) |
| ConnectivityPlugin.DetachAsWritten | android/src/main/kotlin/dev/Prince2347X/connectivity_listener/ConnectivityListenerPlugin.kt:88-95 | as written, detaching leaves each receiver that was set live with the host, with the stored states unchanged |
| ConnectivityPlugin.OrphansActAsRegistered | android/src/main/kotlin/dev/Prince2347X/connectivity_listener/ConnectivityListenerPlugin.kt:108-118 | an orphaned live receiver runs the same `onReceive`: broadcasts deliver, and update the stored state, exactly as for a watcher whose receiver is still set |
| ConnectivityPlugin.DetachAsWrittenSilencesNothing | android/src/main/kotlin/dev/Prince2347X/connectivity_listener/ConnectivityListenerPlugin.kt:88-95 | after the as-written detach, broadcasts deliver to both streams exactly what they would have delivered without the detach, while both fields read as cleared |
| ConnectivityPlugin.DetachLeaksReceivers | android/src/main/kotlin/dev/Prince2347X/connectivity_listener/ConnectivityListenerPlugin.kt:89-94 | listen on Wi-Fi with state `a`, detach, broadcast `b`: as written the sink still gets `(a, b)` and `b` is stored; the intended teardown delivers nothing and keeps `a` |

## Left out

- Flutter channel plumbing (lines 43-81) is not modelled: the `MethodChannel`/`EventChannel` construction, `setStreamHandler`, and the per-handler `eventSink` fields. The fields are written but never read. Each stream's sink is modelled as an output trace.
- `onListen` with a null sink (lines 54 and 71) is not modelled. Every `Listen` input carries a sink.
- `onMethodCall` (line 85) is not modelled. It only answers "not implemented" and has no state.
- `onAttachedToEngine` is not modelled as an input. In the main model, which uses the intended teardown, a `Listen` after `Detach` stands for a listen after the plugin is re-attached; the source keeps the stored states across that, and so does the model. A re-attach after the as-written detach is not modelled: there, a new listen would add a second live receiver beside the orphaned one, both writing the one stored state. The as-written model covers only broadcasts between the detach and a re-attach.
- Android host calls are not modelled: `getSystemService`, `registerReceiver`/`unregisterReceiver`, `ContextCompat.checkSelfPermission` and the lazy `bluetoothAdapter` lookup (lines 36-39). Their results are oracle values carried by the inputs. The source looks the Bluetooth adapter up once and caches it, while the model's query oracle may answer differently at each listen, so the model admits more behaviours than the source. The choice between BLUETOOTH_CONNECT and BLUETOOTH by SDK version (lines 136-140) only picks which permission is checked, so it is folded into the permission boolean.
- A null application context while attached is not modelled. In the source, `applicationContext?.` would skip the host registration and `!!` would crash. The one place the context is null on purpose, `onDetachedFromEngine`, is modelled under "## Findings".
- The human-readable failure message is not modelled as a string. `PERMISSION_DENIED` and `PERMISSION_ERROR` each pass one fixed message, so the message is determined by the code. `Events.Event.Error` carries the code and the `details` value: null for a denied permission, the exception's message for a throwing query.
- The concrete values of `WIFI_STATE_UNKNOWN` and `BluetoothAdapter.ERROR` are not modelled. They are unspecified constants.
- Concurrency is not modelled, because there is none: all callbacks run on the host's main looper.
- ConnectivityPlugin.DetachSilencesBroadcasts: states the intended teardown, not the source's; as written the receivers outlive the detach, which `ConnectivityPlugin.DetachLeaksReceivers` and `ConnectivityPlugin.DetachAsWrittenSilencesNothing` show.

## Findings

| source | as written | input that shows it | evidently intended | confidence | as-written member | corrected member |
|---|---|---|---|---|---|---|
| android/src/main/kotlin/dev/Prince2347X/connectivity_listener/ConnectivityListenerPlugin.kt:88-95 | `onDetachedFromEngine` sets `applicationContext = null` (line 89) before calling the unregister functions (lines 93-94), so their `applicationContext?.unregisterReceiver` calls (lines 128, 182) do nothing and both receivers stay registered with the host, still writing the stored states and calling their captured sinks | Wi-Fi listen seeing state `a`, detach, Wi-Fi state-change broadcast reporting `b`: the sink receives `(a, b)` and `b` is stored | detaching unregisters both receivers, so no later broadcast reaches a sink or changes a stored state | medium, not executed | ConnectivityPlugin.DetachLeaksReceivers | ConnectivityPlugin.DetachSilencesBroadcasts |
