# AndroidChannel connectivity bridge, in Dafny

This project models the part of gRPC-Java's `AndroidChannelBuilder.AndroidChannel`
that has logic of its own. It is a wrapper around a delegate `ManagedChannel` that
listens to the Android device's network state and turns connectivity changes into
two recovery calls on the delegate: `enterIdle()` and `resetConnectBackoff()`.
It also keeps one "unregister" action that the first `shutdown()` or `shutdownNow()`
runs and clears.

Files:

- `options.dfy`: `Option`, standing for a Java reference that may be null.
- `connectivity.dfy`: module `Connectivity`, the behaviour as pure functions, with the lemmas.
  - The modern backend (`DefaultNetworkCallback`, API level 24+) is `ModernStep` for one
    event and `ModernRun` for a sequence of `Available`/`Lost` events.
  - The legacy backend (`NetworkReceiver`) is `LegacyStep` and `LegacyRun`. Each legacy
    event is represented by what the active-network query reports at that broadcast.
  - The delegate is observed through the list of `Call`s made on it
    (`EnterIdle`, `ResetConnectBackoff`, `Shutdown`, `ShutdownNow`).
  - Configuration is `Configure` and `StoredAction`. The unregister slot is `Slot`:
    the stored action plus a count of how many times an action was run.
    `ShutdownTrace` runs any sequence of `shutdown`/`shutdownNow` calls over it.
- `android_channel.dfy`: module `AndroidChannels`, the same objects as the Java code,
  mutated in place.
  - `RecordingChannel` is the delegate. It appends every call it receives to `log`.
  - `DefaultNetworkCallback` and `NetworkReceiver` each hold the mutable `isConnected`
    flag. Each handler is proved to update that flag and the delegate's log exactly as
    the matching step function says.
  - `AndroidChannel` holds `unregisterAction` and `unregisterRuns`. Its constructor
    performs the configuration. `Shutdown`/`ShutdownNow` are proved to perform one
    `Unregister` step on the slot and to forward one call.
  - `DeliverModernEvents`, `DeliverBroadcasts` and `ShutdownAll` call these methods over a
    whole sequence. They are proved to leave each object in exactly the state the
    sequence-level function describes.
- `scenarios.dfy`: client methods that build channels and walk the documented scenarios.
  The scenarios are: start disconnected then available; start connected then available;
  lost twice; legacy "still connected"; shutdown twice; no context or refused query.
  They use only the contracts above.

The platform is represented by values passed in:
- `Context(sdkInt, query)` is the API level and the answer to the initial
  active-network query. That answer is either `SecurityDenied` or the active network,
  which may be absent.
- Each `onReceive` takes the active network the query returns at that broadcast.

## Model

| member | source | states |
|---|---|---|
| `Connectivity.ModernStep` | android/src/main/java/io/grpc/android/AndroidChannelBuilder.java:266-279 | "available" makes exactly one call: `EnterIdle` iff the remembered flag was connected, `ResetConnectBackoff` iff it was not, and the flag becomes connected. "lost" makes no call and clears the flag |
| `Connectivity.ModernRun` | android/src/main/java/io/grpc/android/AndroidChannelBuilder.java:266-279 | over any event sequence, the total number of delegate calls is at most the number of events (the exact count per event is `ModernEventAt` with `ModernStep`) |
| `Connectivity.ModernRunFinal` | android/src/main/java/io/grpc/android/AndroidChannelBuilder.java:273-278 | after any non-empty sequence the flag is "connected" iff the last event was "available"; with no events it is the seeded value |
| `Connectivity.ModernRunLength` | android/src/main/java/io/grpc/android/AndroidChannelBuilder.java:266-279 | the number of delegate calls equals the number of "available" events |
| `Connectivity.ModernRunSplit` | android/src/main/java/io/grpc/android/AndroidChannelBuilder.java:260-279 | handling `a + b` equals handling `a`, then `b` from the flag `a` left; the calls are concatenated |
| `Connectivity.ModernEventAt` | android/src/main/java/io/grpc/android/AndroidChannelBuilder.java:267-278 | the k-th event sets the flag and appends calls exactly as its own step does from the flag the earlier events left. With `ModernStep` this gives: `enterIdle` iff the preceding remembered state was connected, `resetConnectBackoff` iff it was not |
| `Connectivity.ModernRunRecoveryOnly` | android/src/main/java/io/grpc/android/AndroidChannelBuilder.java:266-279 | every call the modern observer makes is `EnterIdle` or `ResetConnectBackoff`, never `Shutdown`/`ShutdownNow` |
| `Connectivity.ModernResetsFollowLosses` | android/src/main/java/io/grpc/android/AndroidChannelBuilder.java:267-279 | backoff resets ≤ "lost" events, plus one if the observer started disconnected |
| `Connectivity.ModernLossesAreSilent` | android/src/main/java/io/grpc/android/AndroidChannelBuilder.java:276-279 | a sequence with no "available" makes no call and (if non-empty) leaves the flag cleared |
| `Connectivity.LegacyStep` | android/src/main/java/io/grpc/android/AndroidChannelBuilder.java:286-296 | a broadcast sets the flag to what the query reports. It makes exactly one call, `ResetConnectBackoff`, iff now connected and not previously connected, and no call otherwise; never `EnterIdle` |
| `Connectivity.LegacyRun` | android/src/main/java/io/grpc/android/AndroidChannelBuilder.java:283-296 | over any broadcasts every call is `ResetConnectBackoff`, the total number of calls is at most the number of broadcasts, and the final flag is the last report (or the initial flag if none) |
| `Connectivity.LegacyRunSplit` | android/src/main/java/io/grpc/android/AndroidChannelBuilder.java:284-296 | handling `a + b` equals handling `a`, then `b` from the flag `a` left |
| `Connectivity.LegacyRunStep` | android/src/main/java/io/grpc/android/AndroidChannelBuilder.java:286-296 | the k-th broadcast sets the flag and appends calls exactly as `LegacyStep` does from the flag the earlier broadcasts left |
| `Connectivity.LegacyBroadcastAt` | android/src/main/java/io/grpc/android/AndroidChannelBuilder.java:291-295 | edge-triggered: broadcast k sets the flag to its report and adds one reset iff it reports connected and the previous broadcast (or, for the first, the initial flag) did not |
| `Connectivity.LegacyResetsFollowDisconnects` | android/src/main/java/io/grpc/android/AndroidChannelBuilder.java:291-295 | resets ≤ "not connected" reports, plus one if starting disconnected |
| `Connectivity.LegacySteadyConnectionIsSilent` | android/src/main/java/io/grpc/android/AndroidChannelBuilder.java:291-295 | from "connected", repeated "still connected" broadcasts make no call |
| `Connectivity.Configure` | android/src/main/java/io/grpc/android/AndroidChannelBuilder.java:127-188 | no monitoring iff there is no context or the initial query is refused. Modern backend iff the query succeeds at API level ≥ 24, seeded with "active network non-null and connected"; otherwise legacy |
| `Connectivity.StoredAction` | android/src/main/java/io/grpc/android/AndroidChannelBuilder.java:161-186 | an unregister action is stored iff monitoring was configured; it undoes the default-network callback iff the modern backend was chosen |
| `Connectivity.ShutdownTrace` | android/src/main/java/io/grpc/android/AndroidChannelBuilder.java:190-219 | any sequence of shutdowns runs the stored action at most once, and forwards one `Shutdown`/`ShutdownNow` per call to the delegate, in order. A non-empty sequence runs the action exactly once if one was stored and leaves the slot empty; an empty one leaves the slot as it was |
| `Connectivity.Unregister` | android/src/main/java/io/grpc/android/AndroidChannelBuilder.java:190-197 | one unregisterNetworkListener: the slot is empty afterwards, and the action-run count goes up by one iff an action was stored |
| `Connectivity.ShutdownTraceSnoc` | android/src/main/java/io/grpc/android/AndroidChannelBuilder.java:190-219 | one more shutdown after any sequence is one more unregister step on the slot and one more forwarded call at the end of the log |
| `Connectivity.UnmonitoredNeverUnregisters` | android/src/main/java/io/grpc/android/AndroidChannelBuilder.java:131-153 | with no context or a refused query, no sequence of shutdowns runs an unregister action |
| `Connectivity.MonitoredUnregistersOnce` | android/src/main/java/io/grpc/android/AndroidChannelBuilder.java:157-203 | with a successful query, any non-empty sequence of shutdowns runs the action exactly once and empties the slot |
| `AndroidChannels.DefaultNetworkCallback.constructor` | android/src/main/java/io/grpc/android/AndroidChannelBuilder.java:262-264 | the callback starts with the flag it is given |
| `AndroidChannels.DefaultNetworkCallback.OnAvailable` | android/src/main/java/io/grpc/android/AndroidChannelBuilder.java:266-274 | the flag and the delegate log change exactly as `ModernStep(old flag, Available)` says |
| `AndroidChannels.DefaultNetworkCallback.OnLost` | android/src/main/java/io/grpc/android/AndroidChannelBuilder.java:276-279 | the flag changes as `ModernStep(old flag, Lost)` says; the log is unchanged |
| `AndroidChannels.NetworkReceiver.constructor` | android/src/main/java/io/grpc/android/AndroidChannelBuilder.java:283-284 | the receiver starts disconnected, so a first "connected" broadcast resets the backoff once |
| `AndroidChannels.NetworkReceiver.OnReceive` | android/src/main/java/io/grpc/android/AndroidChannelBuilder.java:286-296 | the flag and the log change exactly as `LegacyStep(old flag, query result)` says |
| `AndroidChannels.AndroidChannel.constructor` | android/src/main/java/io/grpc/android/AndroidChannelBuilder.java:127-188 | the slot holds `StoredAction(Configure(context))` with no runs. A fresh modern callback is registered iff `Configure` says modern, seeded with the queried state. A fresh legacy receiver is registered iff it says legacy, starting disconnected. Construction succeeds in every case |
| `AndroidChannels.AndroidChannel.UnregisterNetworkListener` | android/src/main/java/io/grpc/android/AndroidChannelBuilder.java:190-197 | runs the stored action once if present, then clears the slot; with an empty slot nothing happens |
| `AndroidChannels.AndroidChannel.Shutdown` | android/src/main/java/io/grpc/android/AndroidChannelBuilder.java:199-203 | one `Unregister` step on the slot, then exactly one `Shutdown` appended to the delegate log |
| `AndroidChannels.AndroidChannel.ShutdownNow` | android/src/main/java/io/grpc/android/AndroidChannelBuilder.java:215-219 | one `Unregister` step on the slot, then exactly one `ShutdownNow` appended to the delegate log |
| `AndroidChannels.DeliverModernEvents` | android/src/main/java/io/grpc/android/AndroidChannelBuilder.java:266-279 | after a registered modern callback receives any sequence of "available"/"lost" callbacks, its flag and the delegate log are exactly `ModernRun` of that sequence from the flag it had |
| `AndroidChannels.DeliverBroadcasts` | android/src/main/java/io/grpc/android/AndroidChannelBuilder.java:286-296 | after a registered legacy receiver gets any sequence of broadcasts, its flag and the delegate log are exactly `LegacyRun` of the query results from the flag it had |
| `AndroidChannels.ShutdownAll` | android/src/main/java/io/grpc/android/AndroidChannelBuilder.java:190-219 | after any sequence of `shutdown`/`shutdownNow` calls on one channel, its slot and the delegate log are exactly `ShutdownTrace` of that sequence. So the object runs its unregister action at most once; after a non-empty sequence it has run it exactly once if one was stored, and its slot is empty |

## Left out

- Android platform calls are not modelled: `getSystemService`, `registerDefaultNetworkCallback`, `registerReceiver` with its `IntentFilter`, `unregisterNetworkCallback`, `unregisterReceiver`. Registration is represented by which observer the channel holds. Unregistration is represented by running the stored action, which increments `unregisterRuns`.
- The channel keeps its registered observer in `callback`/`receiver` so that events can be delivered in the model. In the Java code, the observer is reachable only through the platform registration and the unregister closure.
- Platform event delivery is modelled only as `DeliverModernEvents` and `DeliverBroadcasts`, which call an observer's handlers in order. Events delivered after unregistration are not modelled, and neither is the interleaving of callbacks with `shutdown`.
- `AndroidChannels.AndroidChannel.constructor`: a null `ConnectivityManager` from `getSystemService` is not modelled. In the source it would throw at line 145 before the `!= null` test at line 157, so the model always has a manager.
- The lock, `@GuardedBy` and callback threading are left out. Every operation is one sequential, atomic step.
- The `Log.w` warning on a refused query is I/O and is left out; only its effect is modelled: no monitoring, and construction continues.
- A `SecurityException` thrown by the query inside `onReceive` is not modelled, because the source does not catch it there.
- The builder (`forTarget`, `forAddress`, `context`, `build`) is not modelled. Neither is the reflective lookup of the OkHttp builder, nor its failure exceptions. These are reflection and library wiring, and `GrpcUtil.authorityFromHostAndPort` is not part of this model.
- The pure forwarding methods are not modelled: `isShutdown`, `isTerminated`, `awaitTermination`, `newCall`, `authority`, `getState`, `notifyWhenStateChanged`, `resetConnectBackoff`, `enterIdle`. They pass straight to the delegate and have no logic.
- `AndroidChannels.AndroidChannel.Shutdown`: the `ManagedChannel` that `shutdown()`/`shutdownNow()` return from the delegate is not modelled; only the forwarded call is recorded.
- `AndroidChannels.AndroidChannel.ShutdownNow`: same as `Shutdown`; the returned channel is not modelled.
