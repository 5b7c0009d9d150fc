/** `BlueDevil::Device`: a local handle for one remote Bluetooth device. It is
    built unbound with its address and the properties the adapter already knows,
    binds to the remote object on demand, fills its remote-only fields from one
    property snapshot on first read, keeps its cache up to date from change
    events, and forwards writes. Every method is proved to do what the matching
    function of DeviceSpec says. */
module BlueDevil {
  import opened Remote
  import S = DeviceSpec

  class Device {
    // Identity and properties fixed at construction.
    const address: string
    const name: string
    const icon: string
    const deviceClass: uint32
    const legacyPairing: bool

    // The parent adapter and the bus the remote object is reached through.
    const adapter: Adapter
    const bus: Bus

    // The proxy for the remote object, absent until bound.
    var bluezDevice: S.Option<ObjectPath>

    // Cached properties.
    var uuids: seq<string>
    var paired: bool
    var connected: bool
    var trusted: bool
    var blocked: bool
    var alias: string
    var propertiesFetched: bool

    // Signals emitted, in order.
    var emitted: seq<Notification>

    // Remote calls issued, in order.
    ghost var calls: seq<Call>

    /** The handle's state as DeviceSpec sees it. */
    function Abstract(): S.State
      reads this
    {
      S.State(S.Identity(address, name, icon, deviceClass, legacyPairing),
              S.Cache(paired, alias, connected, trusted, blocked, uuids, propertiesFetched),
              bluezDevice)
    }

    ghost predicate Valid()
      reads this
    {
      S.Inv(Abstract())
    }

    constructor (address: string, alias: string, deviceClass: uint32, icon: string,
                 legacyPairing: bool, name: string, paired: bool, adapter: Adapter, bus: Bus)
      ensures Valid()
      ensures Abstract() == S.NewDevice(address, alias, deviceClass, icon, legacyPairing, name, paired)
      ensures bluezDevice.None? && !propertiesFetched
      ensures !connected && !trusted && !blocked && uuids == []
      ensures this.adapter == adapter && this.bus == bus
      ensures calls == [] && emitted == []
    {
      this.address := address;
      this.name := name;
      this.icon := icon;
      this.deviceClass := deviceClass;
      this.alias := alias;
      this.paired := paired;
      this.connected := false;
      this.trusted := false;
      this.blocked := false;
      this.legacyPairing := legacyPairing;
      this.propertiesFetched := false;
      this.uuids := [];
      this.bluezDevice := S.None;
      this.adapter := adapter;
      this.bus := bus;
      this.emitted := [];
      this.calls := [];
    }

    /** Bind on demand: look up, fall back to create, fail if both find nothing. */
    method EnsureDeviceCreated() returns (ok: bool)
      requires Valid()
      modifies this`bluezDevice, this`calls
      ensures Valid()
      ensures var r := S.Bind(old(Abstract()), adapter);
              ok == r.result && Abstract() == r.state && calls == old(calls) + r.calls
      ensures old(bluezDevice).Some? ==> ok && bluezDevice == old(bluezDevice) && calls == old(calls)
      ensures !ok ==> bluezDevice.None?
    {
      if bluezDevice.None? {
        var devicePath := adapter.findDevice(address);
        calls := calls + [Call.FindDevice(address)];
        if devicePath == "" {
          devicePath := adapter.createDevice(address);
          calls := calls + [Call.CreateDevice(address)];
        }
        if devicePath == "" {
          return false;
        }
        bluezDevice := S.Some(devicePath);
      }
      return true;
    }

    /** Fill connected, trusted, blocked and the UUID list from one snapshot. */
    method FetchProperties()
      requires Valid()
      modifies this`bluezDevice, this`calls, this`connected, this`trusted, this`blocked,
               this`uuids, this`propertiesFetched
      ensures Valid()
      ensures var r := S.Fetch(old(Abstract()), adapter, bus);
              Abstract() == r.state && calls == old(calls) + r.calls
    {
      ghost var s0 := Abstract();
      var ok := EnsureDeviceCreated();
      if !ok {
        return;
      }
      ghost var b := S.Bind(s0, adapter);
      ghost var r := S.Fetch(s0, adapter, bus);
      var path := bluezDevice.value;
      var properties := bus.getProperties(path);
      assert r.calls == b.calls + [Call.GetProperties(path)];
      calls := calls + [Call.GetProperties(path)];
      connected := ToBool(Value(properties, "Connected"));
      trusted := ToBool(Value(properties, "Trusted"));
      blocked := ToBool(Value(properties, "Blocked"));
      var list := ToList(Value(properties, "UUIDs"));
      AppendUuids(list);
      propertiesFetched := true;
      assert Abstract() == r.state;
    }

    /** Append the text of each listed UUID to the cached list, in order. */
    method AppendUuids(list: seq<Variant>)
      modifies this`uuids
      ensures uuids == old(uuids) + Texts(list)
    {
      var i := 0;
      while i < |list|
        invariant 0 <= i <= |list|
        invariant uuids == old(uuids) + Texts(list[..i])
      {
        assert Texts(list[..i + 1]) == Texts(list[..i]) + [ToText(list[i])];
        uuids := uuids + [ToText(list[i])];
        i := i + 1;
      }
      assert list[..|list|] == list;
    }

    /** The change-event slot: overwrite one known slot and emit its signal. */
    method PropertyChanged(property: string, value: Variant)
      requires Valid()
      modifies this`paired, this`connected, this`trusted, this`blocked, this`alias, this`emitted
      ensures Valid()
      ensures var r := S.PropertyChanged(old(Abstract()), property, value);
              Abstract() == r.state && emitted == old(emitted) + r.emitted
    {
      if property == "Paired" {
        paired := ToBool(value);
        emitted := emitted + [PairedChanged(paired)];
      } else if property == "Connected" {
        connected := ToBool(value);
        emitted := emitted + [ConnectedChanged(connected)];
      } else if property == "Trusted" {
        trusted := ToBool(value);
        emitted := emitted + [TrustedChanged(trusted)];
      } else if property == "Blocked" {
        blocked := ToBool(value);
        emitted := emitted + [BlockedChanged(blocked)];
      } else if property == "Alias" {
        alias := ToText(value);
        emitted := emitted + [AliasChanged(alias)];
      }
    }

    /** Bind now; true when bound. */
    method RegisterDevice() returns (ok: bool)
      requires Valid()
      modifies this`bluezDevice, this`calls
      ensures Valid()
      ensures var r := S.Bind(old(Abstract()), adapter);
              ok == r.result && Abstract() == r.state && calls == old(calls) + r.calls
    {
      ok := EnsureDeviceCreated();
    }

    method Address() returns (r: string)
      ensures r == address
    {
      return address;
    }

    method Name() returns (r: string)
      ensures r == name
    {
      return name;
    }

    method Icon() returns (r: string)
      ensures r == icon
    {
      return icon;
    }

    method DeviceClass() returns (r: uint32)
      ensures r == deviceClass
    {
      return deviceClass;
    }

    /** The service UUIDs, fetched on first use. */
    method Uuids() returns (r: seq<string>)
      requires Valid()
      modifies this`bluezDevice, this`calls, this`connected, this`trusted, this`blocked,
               this`uuids, this`propertiesFetched
      ensures Valid()
      ensures var st := S.Uuids(old(Abstract()), adapter, bus);
              r == st.result && Abstract() == st.state && calls == old(calls) + st.calls
    {
      if !propertiesFetched {
        FetchProperties();
      }
      return uuids;
    }

    method IsPaired() returns (r: bool)
      ensures r == paired
    {
      return paired;
    }

    /** The connected flag, fetched on first use. */
    method IsConnected() returns (r: bool)
      requires Valid()
      modifies this`bluezDevice, this`calls, this`connected, this`trusted, this`blocked,
               this`uuids, this`propertiesFetched
      ensures Valid()
      ensures var st := S.IsConnected(old(Abstract()), adapter, bus);
              r == st.result && Abstract() == st.state && calls == old(calls) + st.calls
    {
      if !propertiesFetched {
        FetchProperties();
      }
      return connected;
    }

    /** The trusted flag, fetched on first use. */
    method IsTrusted() returns (r: bool)
      requires Valid()
      modifies this`bluezDevice, this`calls, this`connected, this`trusted, this`blocked,
               this`uuids, this`propertiesFetched
      ensures Valid()
      ensures var st := S.IsTrusted(old(Abstract()), adapter, bus);
              r == st.result && Abstract() == st.state && calls == old(calls) + st.calls
    {
      if !propertiesFetched {
        FetchProperties();
      }
      return trusted;
    }

    /** Ask the remote object to set Trusted; the cache waits for the event. */
    method SetTrusted(trusted: bool)
      requires Valid()
      modifies this`bluezDevice, this`calls
      ensures Valid()
      ensures var r := S.Write(old(Abstract()), adapter, "Trusted", Bool(trusted));
              Abstract() == r.state && calls == old(calls) + r.calls
    {
      var ok := EnsureDeviceCreated();
      if !ok {
        return;
      }
      calls := calls + [SetProperty(bluezDevice.value, "Trusted", Bool(trusted))];
    }

    /** The blocked flag, fetched on first use. */
    method IsBlocked() returns (r: bool)
      requires Valid()
      modifies this`bluezDevice, this`calls, this`connected, this`trusted, this`blocked,
               this`uuids, this`propertiesFetched
      ensures Valid()
      ensures var st := S.IsBlocked(old(Abstract()), adapter, bus);
              r == st.result && Abstract() == st.state && calls == old(calls) + st.calls
    {
      if !propertiesFetched {
        FetchProperties();
      }
      return blocked;
    }

    /** Ask the remote object to set Blocked; the cache waits for the event. */
    method SetBlocked(blocked: bool)
      requires Valid()
      modifies this`bluezDevice, this`calls
      ensures Valid()
      ensures var r := S.Write(old(Abstract()), adapter, "Blocked", Bool(blocked));
              Abstract() == r.state && calls == old(calls) + r.calls
    {
      var ok := EnsureDeviceCreated();
      if !ok {
        return;
      }
      calls := calls + [SetProperty(bluezDevice.value, "Blocked", Bool(blocked))];
    }

    method Alias() returns (r: string)
      ensures r == alias
    {
      return alias;
    }

    /** Ask the remote object to set Alias; the cache waits for the event. */
    method SetAlias(alias: string)
      requires Valid()
      modifies this`bluezDevice, this`calls
      ensures Valid()
      ensures var r := S.Write(old(Abstract()), adapter, "Alias", Text(alias));
              Abstract() == r.state && calls == old(calls) + r.calls
    {
      var ok := EnsureDeviceCreated();
      if !ok {
        return;
      }
      calls := calls + [SetProperty(bluezDevice.value, "Alias", Text(alias))];
    }

    method ParentAdapter() returns (r: Adapter)
      ensures r == adapter
    {
      return adapter;
    }

    method HasLegacyPairing() returns (r: bool)
      ensures r == legacyPairing
    {
      return legacyPairing;
    }

    /** Bind, then run a remote service discovery; empty when binding fails. */
    method DiscoverServices(pattern: string) returns (services: ServiceMap)
      requires Valid()
      modifies this`bluezDevice, this`calls
      ensures Valid()
      ensures var r := S.DiscoverServices(old(Abstract()), adapter, bus, pattern);
              services == r.result && Abstract() == r.state && calls == old(calls) + r.calls
    {
      var ok := EnsureDeviceCreated();
      if !ok {
        return map[];
      }
      var path := bluezDevice.value;
      services := bus.discoverServices(path, pattern);
      calls := calls + [Call.DiscoverServices(path, pattern)];
    }

    /** Cancel a running discovery, only if already bound. */
    method CancelDiscovery()
      modifies this`calls
      ensures var r := S.CancelDiscovery(old(Abstract()));
              Abstract() == r.state && calls == old(calls) + r.calls
    {
      if bluezDevice.Some? {
        calls := calls + [Call.CancelDiscovery(bluezDevice.value)];
      }
    }

    /** Disconnect the device, only if already bound. */
    method Disconnect()
      modifies this`calls
      ensures var r := S.Disconnect(old(Abstract()));
              Abstract() == r.state && calls == old(calls) + r.calls
    {
      if bluezDevice.Some? {
        calls := calls + [Call.Disconnect(bluezDevice.value)];
      }
    }
  }
}
