# BlueDevil device handle, modelled in Dafny

This project models `BlueDevil::Device` from libbluedevil, a Qt binding for the
BlueZ Bluetooth daemon. A `Device` is a local handle for one remote Bluetooth
device. It is built with an immutable hardware address and the properties the
adapter already knows (name, icon, class, alias, legacy pairing, paired). It
binds to the device's D-Bus object only when first needed, by asking its
adapter to look the device up and falling back to asking it to create it. On
the first read of a remote-only property (connected, trusted, blocked, service
UUIDs) it reads one `GetProperties` snapshot and marks its cache fetched. It
updates its cache from `PropertyChanged` events and emits one Qt signal per
update. Setters forward a `SetProperty` call once bound and never touch the
cache.

Files:

- `remote.dfy` (module `Remote`): the remote side. It holds property values as
  a small tagged `Variant`, the adapter's `findDevice`/`createDevice` and the
  device object's `GetProperties`/`DiscoverServices` as given functions
  (`Adapter`, `Bus`), the `Call` entries of the remote-call log, and the
  `Notification` signals.
- `device_spec.dfy` (module `DeviceSpec`): the handle's abstract `State`
  (identity, cache, binding). Each operation is a function from the state
  before to a `Step`: its result, the state after, the remote calls issued in
  order, and the signals emitted in order. `Inv` is the invariant every
  reachable handle keeps.
- `device.dfy` (module `BlueDevil`): the class `Device`. Its fields are updated
  in place by methods with `modifies` frames. The UUID list is filled by a
  loop. The remote calls go to a ghost log `calls`, and the signals to an
  appended sequence `emitted`. Every state-changing method is proved to do
  exactly what the matching `DeviceSpec` function says.
- `session.dfy` (module `Session`): any sequence of public calls and delivered
  change events (`Op`, `Apply`, `Run`). It holds the lemmas that hold over
  every such sequence: the identity never changes, a binding is never lost or
  redone, the snapshot is read at most once, and the cache changes only by a
  fetch or an event.

After a failed binding, every later read of a remote-only field finds the
fetched flag still false and tries lookup and creation again
(`Session.FailedBindingIsRetried`). Such a later attempt can succeed
(`Session.FailedBindingCanLaterSucceed`).

## Model

| member | source | states |
|---|---|---|
| `DeviceSpec.NewDevice` | bluedevildevice.cpp:64-81 | a new handle is unbound and not fetched; connected, trusted and blocked are false and the UUID list is empty; address, name, icon, class, alias, legacy pairing and paired are the constructor's arguments; the invariant holds |
| `BlueDevil.Device.constructor` | bluedevildevice.cpp:149-158 | the constructed object's state is `NewDevice` of its arguments, it keeps its adapter, and no call or signal has happened |
| `DeviceSpec.Bind` | bluedevildevice.cpp:83-106 | if already bound: success, no call, nothing changes. Otherwise lookup is always called first, and create is called exactly when lookup answers the empty path. It succeeds iff one of them answers a non-empty path. It binds to lookup's path whenever that is non-empty, and to create's path otherwise. On failure the state is unchanged. Only the binding ever changes |
| `BlueDevil.Device.EnsureDeviceCreated` | bluedevildevice.cpp:83-106 | the class method does what `Bind` says to the binding and the call log, and keeps the invariant; a bound handle stays bound with no call |
| `BlueDevil.Device.RegisterDevice` | bluedevildevice.cpp:165-168 | `registerDevice` is exactly `Bind` |
| `DeviceSpec.Fetch` | bluedevildevice.cpp:108-125 | if binding fails, the state is unchanged and only the binding attempt is logged. Otherwise one `GetProperties` on the bound path follows the binding calls. Connected, trusted and blocked take the snapshot's values (false when absent), the snapshot's UUIDs are appended, and the fetched flag is set. Identity, paired and alias are untouched and nothing is emitted |
| `BlueDevil.Device.FetchProperties` | bluedevildevice.cpp:108-125 | the class method does exactly what `Fetch` says and keeps the invariant |
| `BlueDevil.Device.AppendUuids` | bluedevildevice.cpp:119-122 | the loop appends the text of every listed UUID, in order, to the cached list |
| `DeviceSpec.EnsureFetched` | bluedevildevice.cpp:27-29 | a remote-only read fetches only when the fetched flag is false; otherwise nothing happens and no call is made |
| `DeviceSpec.Uuids` | bluedevildevice.cpp:190-194 | returns the UUID list as cached after `EnsureFetched`. On a fetched handle it changes nothing and calls nothing. When this read does the fetch, on a handle satisfying the invariant, the list returned is exactly the snapshot's UUIDs, in order |
| `DeviceSpec.IsConnected` | bluedevildevice.cpp:201-205 | returns the connected flag as cached after `EnsureFetched`. On a fetched handle it changes nothing and calls nothing. When this read does the fetch, it returns the snapshot's value (false when absent) |
| `DeviceSpec.IsTrusted` | bluedevildevice.cpp:207-211 | returns the trusted flag as cached after `EnsureFetched`. On a fetched handle it changes nothing and calls nothing. When this read does the fetch, it returns the snapshot's value (false when absent) |
| `DeviceSpec.IsBlocked` | bluedevildevice.cpp:221-225 | returns the blocked flag as cached after `EnsureFetched`. On a fetched handle it changes nothing and calls nothing. When this read does the fetch, it returns the snapshot's value (false when absent) |
| `BlueDevil.Device.Uuids` | bluedevildevice.cpp:190-194 | the class method returns and changes exactly what `DeviceSpec.Uuids` says |
| `BlueDevil.Device.IsConnected` | bluedevildevice.cpp:201-205 | the class method returns and changes exactly what `DeviceSpec.IsConnected` says |
| `BlueDevil.Device.IsTrusted` | bluedevildevice.cpp:207-211 | the class method returns and changes exactly what `DeviceSpec.IsTrusted` says |
| `BlueDevil.Device.IsBlocked` | bluedevildevice.cpp:221-225 | the class method returns and changes exactly what `DeviceSpec.IsBlocked` says |
| `DeviceSpec.PropertyChanged` | bluedevildevice.cpp:127-145 | "Paired", "Connected", "Trusted", "Blocked" and "Alias" each overwrite exactly their own cache slot and emit exactly one matching signal carrying the new value. Any other name, "UUIDs" included, changes nothing and emits nothing. No event makes a remote call, touches the fetched flag, the UUID list, the binding or the identity |
| `BlueDevil.Device.PropertyChanged` | bluedevildevice.cpp:127-145 | the slot changes the cache and the signal sequence exactly as `DeviceSpec.PropertyChanged` says |
| `DeviceSpec.Write` | bluedevildevice.cpp:213-219 | a setter binds first. On failure only the binding attempt is logged. On success exactly one `SetProperty` with the given name and value follows on the bound path. The cache and identity never change and nothing is emitted |
| `BlueDevil.Device.SetTrusted` | bluedevildevice.cpp:213-219 | `setTrusted(b)` is `Write` of "Trusted" with `b` |
| `BlueDevil.Device.SetBlocked` | bluedevildevice.cpp:227-233 | `setBlocked(b)` is `Write` of "Blocked" with `b` |
| `BlueDevil.Device.SetAlias` | bluedevildevice.cpp:240-246 | `setAlias(a)` is `Write` of "Alias" with `a` |
| `DeviceSpec.DiscoverServices` | bluedevildevice.cpp:258-264 | binds first. It returns the empty map when binding fails. Otherwise it returns the remote discovery's answer for the bound path and pattern, logged after the binding calls. The cache is never touched |
| `BlueDevil.Device.DiscoverServices` | bluedevildevice.cpp:258-264 | the class method returns and changes exactly what `DeviceSpec.DiscoverServices` says |
| `DeviceSpec.CancelDiscovery` | bluedevildevice.cpp:266-271 | never binds and never changes the state. It logs one `CancelDiscovery` on the bound path iff already bound, and nothing otherwise |
| `BlueDevil.Device.CancelDiscovery` | bluedevildevice.cpp:266-271 | the class method changes only the call log, as `DeviceSpec.CancelDiscovery` says |
| `DeviceSpec.Disconnect` | bluedevildevice.cpp:273-278 | never binds and never changes the state. It logs one `Disconnect` on the bound path iff already bound, and nothing otherwise |
| `BlueDevil.Device.Disconnect` | bluedevildevice.cpp:273-278 | the class method changes only the call log, as `DeviceSpec.Disconnect` says |
| `BlueDevil.Device.Address` | bluedevildevice.cpp:170-173 | returns the address; no `modifies` clause, so it cannot bind, fetch or log a call |
| `BlueDevil.Device.Name` | bluedevildevice.cpp:175-178 | returns the name without any side effect |
| `BlueDevil.Device.Icon` | bluedevildevice.cpp:180-183 | returns the icon without any side effect |
| `BlueDevil.Device.DeviceClass` | bluedevildevice.cpp:185-188 | returns the device class without any side effect |
| `BlueDevil.Device.IsPaired` | bluedevildevice.cpp:196-199 | returns the cached paired flag without any side effect |
| `BlueDevil.Device.Alias` | bluedevildevice.cpp:235-238 | returns the cached alias without any side effect |
| `BlueDevil.Device.ParentAdapter` | bluedevildevice.cpp:248-251 | returns the adapter given at construction without any side effect |
| `BlueDevil.Device.HasLegacyPairing` | bluedevildevice.cpp:253-256 | returns the legacy-pairing flag without any side effect |
| `Session.RunPreservesInv` | bluedevildevice.cpp:83-125 | after any sequence of calls and events: a binding is never to the empty path, the cache is fetched only once bound, and the UUID list stays empty until the fetch |
| `Session.RunKeepsIdentity` | bluedevildevice.cpp:64-81 | no sequence of calls and events changes the address, name, icon, class or legacy-pairing flag |
| `Session.RunKeepsBinding` | bluedevildevice.cpp:85-105 | once bound, the handle stays bound to the same path through any sequence, with no further lookup or create call |
| `Session.RunFetchesAtMostOnce` | bluedevildevice.cpp:108-125 | over any sequence, the fetched flag is never reset. There is exactly one `GetProperties` if the sequence sets the flag, and none otherwise. So a handle reads its snapshot at most once, and never after it is fetched |
| `Session.RunCacheChangesOnlyByFetchOrEvent` | bluedevildevice.cpp:108-145 | a sequence with no remote-only read and no change event leaves the whole cache, fetched flag included, as it was, and emits nothing |
| `Session.EventsNeverFetch` | bluedevildevice.cpp:127-145 | a sequence of change events makes no remote call and leaves the fetched flag, UUID list and binding unchanged. On a bound handle it emits exactly one signal per event with a known name |
| `Session.LastEventWins` | bluedevildevice.cpp:127-145 | two events for one property leave the cache as the second alone would, and emit two signals when the name is known |
| `Session.WriteIsNotReflected` | bluedevildevice.cpp:213-219 | on a fetched handle, reading trusted right after `setTrusted` returns the value cached before the write |
| `Session.FailedBindingIsRetried` | bluedevildevice.cpp:108-112 | while lookup and create both fail, each of n reads of `isConnected` logs one lookup and one create, and leaves the state unchanged |
| `Session.FailedBindingCanLaterSucceed` | bluedevildevice.cpp:83-112 | when the first read fails to bind and the adapter knows the device at the second read, the second read binds to the found path and fetches: lookup, create, lookup, then one `GetProperties` |
| `Session.FirstReadFetchesOnce` | bluedevildevice.cpp:201-211 | for a known device whose snapshot says connected: the first `isConnected` logs one lookup and one `GetProperties`, answers true and marks the cache fetched. A following `isTrusted` answers false with no call |

## Left out

- D-Bus transport and proxy construction (`OrgBluezDeviceInterface`, the system bus, `waitForFinished`) are foreign library calls. The proxy is modelled as the bound object path, and each remote call as an entry in the ghost call log. The device object's remote behaviour (`Bus`) is passed to the constructor, where the code reaches it through the global system bus.
- The `connect` calls that wire `DisconnectRequested` and `PropertyChanged` are Qt plumbing and are not modelled. `Session.Apply` only reflects that events reach the slot once the handle is bound, because the subscription is made while binding. The slot itself is unguarded, as in the code.
- Meta-type registration in the constructor has no behaviour to state.
- QVariant conversions are reduced to a tagged `Variant`. `ToBool` is true only for a boolean true. `ToText` gives a string's text or "true"/"false" for a boolean. `ToList` gives a list's elements. Anything else reads as false, empty text or the empty list. Qt's conversions between other types (a string read as a boolean, say) are not modelled.
- What `DiscoverServices`, `CancelDiscovery` and `Disconnect` do remotely is not modelled; only that they are invoked. `DiscoverServices`' answer is a given function of path and pattern. The failure of a bound remote call (an error reply) is not modelled: the code does not inspect it.
- `findDevice`, `createDevice` and `GetProperties` are given functions. In `Session.Run` the adapter may answer differently at every step, so a failed binding can later succeed. The bus is fixed for a whole sequence; this matters only for `DiscoverServices`, because the snapshot is read at most once.
- BlueDevil.Device: the class keeps one fixed `Adapter` value, so its lookup and creation answers cannot change over the object's lifetime. A single object cannot show a failed binding that later succeeds; `Session.Run` shows it on the abstract state.
- The destructor and ownership by the parent adapter are memory management, with no behaviour of the handle to state.
- `bluedevil/bluedevilmanager.h` holds only declarations (a singleton accessor, adapter listing, signals), with no logic to model.
- Asynchronous event delivery, threading, blocking and timeouts are not modelled. Events and calls are interleaved in one sequence (`Session.Run`).
