/** The behaviour of one `BlueDevil::Device` handle as functions on its abstract
    state: each operation maps the state before the call to a `Step` holding its
    result, the state after it, the remote calls it issued and the notifications
    it emitted. The class in module BlueDevil is proved to follow these. */
module DeviceSpec {
  import opened Remote

  datatype Option<T> = None | Some(value: T)

  /** The address and the fields supplied at construction that nothing in the
      handle ever changes. */
  datatype Identity = Identity(
    address: string,
    name: string,
    icon: string,
    deviceClass: uint32,
    legacyPairing: bool)

  /** The cached properties: paired and alias are supplied at construction and
      kept up by change events; connected, trusted, blocked and the UUID list
      are remote-only and filled by the one fetch; `fetched` records that fetch. */
  datatype Cache = Cache(
    paired: bool,
    alias: string,
    connected: bool,
    trusted: bool,
    blocked: bool,
    uuids: seq<string>,
    fetched: bool)

  /** Everything a device handle holds, with the binding to the remote object
      (the path of its proxy, once created). */
  datatype State = State(id: Identity, cache: Cache, binding: Option<ObjectPath>)

  /** What one operation does: its result, the new state, the remote calls in
      the order issued and the notifications in the order emitted. */
  datatype Step<T> = Step(result: T, state: State, calls: seq<Call>, emitted: seq<Notification>)

  /** The property names a change event updates the cache for. */
  const KnownProperties: set<string> := {"Paired", "Connected", "Trusted", "Blocked", "Alias"}

  /** The invariant every reachable handle keeps: a binding is never to the
      empty path, the cache is only marked fetched once bound, and the UUID list
      stays empty until the one fetch fills it. */
  predicate Inv(s: State)
  {
    (s.binding.Some? ==> s.binding.value != "") &&
    (s.cache.fetched ==> s.binding.Some?) &&
    (!s.cache.fetched ==> s.cache.uuids == [])
  }

  /** A freshly constructed handle. */
  function NewDevice(address: string, alias: string, deviceClass: uint32, icon: string,
                     legacyPairing: bool, name: string, paired: bool): (s: State)
    ensures Inv(s)
    ensures s.binding.None? && !s.cache.fetched
    ensures !s.cache.connected && !s.cache.trusted && !s.cache.blocked && s.cache.uuids == []
    ensures s.id.address == address && s.id.deviceClass == deviceClass && s.id.icon == icon
    ensures s.id.legacyPairing == legacyPairing && s.id.name == name
    ensures s.cache.alias == alias && s.cache.paired == paired
  {
    State(Identity(address, name, icon, deviceClass, legacyPairing),
          Cache(paired, alias, false, false, false, [], false),
          None)
  }

  /** Bind on demand (`ensureDeviceCreated`): look the device up by address and
      fall back to creating it; fail when both answer the empty path. Only the
      binding can change. */
  function Bind(s: State, adapter: Adapter): (r: Step<bool>)
    ensures r.emitted == []
    ensures r.state.id == s.id && r.state.cache == s.cache
    ensures r.result <==> r.state.binding.Some?
    ensures r.result <==> (s.binding.Some? || adapter.findDevice(s.id.address) != "" ||
                           adapter.createDevice(s.id.address) != "")
    ensures !r.result ==> r.state == s
    ensures s.binding.Some? ==> r.state == s && r.calls == []
    ensures s.binding.None? ==> 1 <= |r.calls| <= 2 && r.calls[0] == Call.FindDevice(s.id.address)
    ensures s.binding.None? ==> (|r.calls| == 2 <==> adapter.findDevice(s.id.address) == "")
    ensures |r.calls| == 2 ==> r.calls[1] == Call.CreateDevice(s.id.address)
    ensures s.binding.None? && r.result ==>
              var found := adapter.findDevice(s.id.address);
              r.state.binding == Some(if found != "" then found else adapter.createDevice(s.id.address))
  {
    if s.binding.Some? then Step(true, s, [], [])
    else
      var address := s.id.address;
      var found := adapter.findDevice(address);
      if found != "" then
        Step(true, s.(binding := Some(found)), [Call.FindDevice(address)], [])
      else
        var created := adapter.createDevice(address);
        var calls := [Call.FindDevice(address), Call.CreateDevice(address)];
        if created != "" then Step(true, s.(binding := Some(created)), calls, [])
        else Step(false, s, calls, [])
  }

  /** The cache after reading a property snapshot: connected, trusted and
      blocked take the snapshot's values (false when absent), the snapshot's
      UUIDs are appended, and the cache is marked fetched. */
  function Filled(c: Cache, props: PropertyMap): (filled: Cache)
  {
    c.(connected := ToBool(Value(props, "Connected")),
       trusted := ToBool(Value(props, "Trusted")),
       blocked := ToBool(Value(props, "Blocked")),
       uuids := c.uuids + Texts(ToList(Value(props, "UUIDs"))),
       fetched := true)
  }

  /** Fill the remote-only fields from one property snapshot (`fetchProperties`):
      bind first; if that fails nothing but the log changes. */
  function Fetch(s: State, adapter: Adapter, bus: Bus): (r: Step<()>)
    ensures r.emitted == [] && r.state.id == s.id
    ensures var b := Bind(s, adapter);
            !b.result ==> r.state == s && r.calls == b.calls
    ensures var b := Bind(s, adapter);
            b.result ==>
              var path := b.state.binding.value;
              r.state == State(s.id, Filled(s.cache, bus.getProperties(path)), b.state.binding) &&
              r.calls == b.calls + [Call.GetProperties(path)]
  {
    var b := Bind(s, adapter);
    if !b.result then Step((), b.state, b.calls, [])
    else
      var path := b.state.binding.value;
      Step((), b.state.(cache := Filled(b.state.cache, bus.getProperties(path))),
           b.calls + [Call.GetProperties(path)], [])
  }

  /** What a read of a remote-only field does first: fetch unless already fetched. */
  function EnsureFetched(s: State, adapter: Adapter, bus: Bus): (r: Step<()>)
    ensures s.cache.fetched ==> r == Step((), s, [], [])
    ensures !s.cache.fetched ==> r == Fetch(s, adapter, bus)
  {
    if s.cache.fetched then Step((), s, [], []) else Fetch(s, adapter, bus)
  }

  /** `UUIDs()`: the cached service UUIDs, fetched on first use. */
  function Uuids(s: State, adapter: Adapter, bus: Bus): (r: Step<seq<string>>)
    ensures r.result == r.state.cache.uuids
    ensures s.cache.fetched ==> r == Step(s.cache.uuids, s, [], [])
    ensures Inv(s) && !s.cache.fetched && r.state.cache.fetched ==>
              r.state.binding.Some? &&
              r.result == Texts(ToList(Value(bus.getProperties(r.state.binding.value), "UUIDs")))
    ensures var f := EnsureFetched(s, adapter, bus);
            r.state == f.state && r.calls == f.calls && r.emitted == []
  {
    var f := EnsureFetched(s, adapter, bus);
    Step(f.state.cache.uuids, f.state, f.calls, f.emitted)
  }

  /** `isConnected()`: the cached connected flag, fetched on first use. */
  function IsConnected(s: State, adapter: Adapter, bus: Bus): (r: Step<bool>)
    ensures r.result == r.state.cache.connected
    ensures s.cache.fetched ==> r == Step(s.cache.connected, s, [], [])
    ensures !s.cache.fetched && r.state.cache.fetched ==>
              r.state.binding.Some? &&
              r.result == ToBool(Value(bus.getProperties(r.state.binding.value), "Connected"))
    ensures var f := EnsureFetched(s, adapter, bus);
            r.state == f.state && r.calls == f.calls && r.emitted == []
  {
    var f := EnsureFetched(s, adapter, bus);
    Step(f.state.cache.connected, f.state, f.calls, f.emitted)
  }

  /** `isTrusted()`: the cached trusted flag, fetched on first use. */
  function IsTrusted(s: State, adapter: Adapter, bus: Bus): (r: Step<bool>)
    ensures r.result == r.state.cache.trusted
    ensures s.cache.fetched ==> r == Step(s.cache.trusted, s, [], [])
    ensures !s.cache.fetched && r.state.cache.fetched ==>
              r.state.binding.Some? &&
              r.result == ToBool(Value(bus.getProperties(r.state.binding.value), "Trusted"))
    ensures var f := EnsureFetched(s, adapter, bus);
            r.state == f.state && r.calls == f.calls && r.emitted == []
  {
    var f := EnsureFetched(s, adapter, bus);
    Step(f.state.cache.trusted, f.state, f.calls, f.emitted)
  }

  /** `isBlocked()`: the cached blocked flag, fetched on first use. */
  function IsBlocked(s: State, adapter: Adapter, bus: Bus): (r: Step<bool>)
    ensures r.result == r.state.cache.blocked
    ensures s.cache.fetched ==> r == Step(s.cache.blocked, s, [], [])
    ensures !s.cache.fetched && r.state.cache.fetched ==>
              r.state.binding.Some? &&
              r.result == ToBool(Value(bus.getProperties(r.state.binding.value), "Blocked"))
    ensures var f := EnsureFetched(s, adapter, bus);
            r.state == f.state && r.calls == f.calls && r.emitted == []
  {
    var f := EnsureFetched(s, adapter, bus);
    Step(f.state.cache.blocked, f.state, f.calls, f.emitted)
  }

  /** The change-event slot (`_k_propertyChanged`): a known property name
      overwrites its one cache slot and emits one notification carrying the new
      value; any other name is ignored. Nothing but the cache changes, and
      never the fetched flag or the UUID list. */
  function PropertyChanged(s: State, property: string, value: Variant): (r: Step<()>)
    ensures r.calls == [] && r.state.id == s.id && r.state.binding == s.binding
    ensures r.state.cache.fetched == s.cache.fetched && r.state.cache.uuids == s.cache.uuids
    ensures property !in KnownProperties <==> r.emitted == []
    ensures property !in KnownProperties ==> r.state == s
    ensures property == "Paired" ==>
              r.state.cache == s.cache.(paired := ToBool(value)) && r.emitted == [PairedChanged(ToBool(value))]
    ensures property == "Connected" ==>
              r.state.cache == s.cache.(connected := ToBool(value)) && r.emitted == [ConnectedChanged(ToBool(value))]
    ensures property == "Trusted" ==>
              r.state.cache == s.cache.(trusted := ToBool(value)) && r.emitted == [TrustedChanged(ToBool(value))]
    ensures property == "Blocked" ==>
              r.state.cache == s.cache.(blocked := ToBool(value)) && r.emitted == [BlockedChanged(ToBool(value))]
    ensures property == "Alias" ==>
              r.state.cache == s.cache.(alias := ToText(value)) && r.emitted == [AliasChanged(ToText(value))]
  {
    var c := s.cache;
    if property == "Paired" then
      var v := ToBool(value); Step((), s.(cache := c.(paired := v)), [], [PairedChanged(v)])
    else if property == "Connected" then
      var v := ToBool(value); Step((), s.(cache := c.(connected := v)), [], [ConnectedChanged(v)])
    else if property == "Trusted" then
      var v := ToBool(value); Step((), s.(cache := c.(trusted := v)), [], [TrustedChanged(v)])
    else if property == "Blocked" then
      var v := ToBool(value); Step((), s.(cache := c.(blocked := v)), [], [BlockedChanged(v)])
    else if property == "Alias" then
      var v := ToText(value); Step((), s.(cache := c.(alias := v)), [], [AliasChanged(v)])
    else
      Step((), s, [], [])
  }

  /** A setter (`setTrusted`, `setBlocked`, `setAlias`): bind, then forward one
      `SetProperty`; the local cache is left alone. */
  function Write(s: State, adapter: Adapter, property: string, value: Variant): (r: Step<()>)
    ensures r.emitted == [] && r.state.id == s.id && r.state.cache == s.cache
    ensures var b := Bind(s, adapter);
            r.state == b.state &&
            (b.result ==> r.calls == b.calls + [SetProperty(b.state.binding.value, property, value)]) &&
            (!b.result ==> r.calls == b.calls)
  {
    var b := Bind(s, adapter);
    if !b.result then Step((), b.state, b.calls, [])
    else Step((), b.state, b.calls + [SetProperty(b.state.binding.value, property, value)], [])
  }

  /** `discoverServices(pattern)`: bind, then forward the discovery; an empty
      map when binding fails. */
  function DiscoverServices(s: State, adapter: Adapter, bus: Bus, pattern: string): (r: Step<ServiceMap>)
    ensures r.emitted == [] && r.state.id == s.id && r.state.cache == s.cache
    ensures var b := Bind(s, adapter);
            r.state == b.state &&
            (!b.result ==> r.result == map[] && r.calls == b.calls) &&
            (b.result ==>
              r.result == bus.discoverServices(b.state.binding.value, pattern) &&
              r.calls == b.calls + [Call.DiscoverServices(b.state.binding.value, pattern)])
  {
    var b := Bind(s, adapter);
    if !b.result then Step(map[], b.state, b.calls, [])
    else
      var path := b.state.binding.value;
      Step(bus.discoverServices(path, pattern), b.state, b.calls + [Call.DiscoverServices(path, pattern)], [])
  }

  /** `cancelDiscovery()`: forwarded only when already bound; never binds. */
  function CancelDiscovery(s: State): (r: Step<()>)
    ensures r.state == s && r.emitted == []
    ensures s.binding.None? <==> r.calls == []
    ensures s.binding.Some? ==> r.calls == [Call.CancelDiscovery(s.binding.value)]
  {
    match s.binding
    case None => Step((), s, [], [])
    case Some(path) => Step((), s, [Call.CancelDiscovery(path)], [])
  }

  /** `disconnect()`: forwarded only when already bound; never binds. */
  function Disconnect(s: State): (r: Step<()>)
    ensures r.state == s && r.emitted == []
    ensures s.binding.None? <==> r.calls == []
    ensures s.binding.Some? ==> r.calls == [Call.Disconnect(s.binding.value)]
  {
    match s.binding
    case None => Step((), s, [], [])
    case Some(path) => Step((), s, [Call.Disconnect(path)], [])
  }
}
