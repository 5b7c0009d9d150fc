/** The remote side of a BlueDevil device handle: the values BlueZ sends over the
    bus, the adapter's lookup and creation capabilities, the per-device bus calls,
    and the log entries that record each remote call the handle issues. */
module Remote {

  /** A D-Bus object path; the empty path means "no such object". */
  type ObjectPath = string

  /** An unsigned 32-bit integer (`quint32`). */
  type uint32 = x: int | 0 <= x < 0x1_0000_0000

  /** A property value as it arrives from the bus, reduced to the shapes the
      device reads. `Invalid` is what a lookup of a missing key yields. */
  datatype Variant = Invalid | Bool(b: bool) | Text(s: string) | List(items: seq<Variant>)

  /** The snapshot `GetProperties` returns. */
  type PropertyMap = map<string, Variant>

  /** The result of `DiscoverServices`: service record handle to record text. */
  type ServiceMap = map<uint32, string>

  /** The value stored under `key`, `Invalid` when the key is absent. */
  function Value(m: PropertyMap, key: string): (v: Variant)
  {
    if key in m then m[key] else Invalid
  }

  /** Boolean reading of a value; anything but a boolean reads as false. */
  function ToBool(v: Variant): (b: bool)
  {
    match v
    case Bool(b) => b
    case _ => false
  }

  /** Text reading of a value. */
  function ToText(v: Variant): (text: string)
  {
    match v
    case Text(s) => s
    case Bool(b) => if b then "true" else "false"
    case _ => ""
  }

  /** List reading of a value; anything but a list reads as the empty list. */
  function ToList(v: Variant): (items: seq<Variant>)
  {
    match v
    case List(items) => items
    case _ => []
  }

  /** The text reading of every element, in order. */
  function Texts(items: seq<Variant>): (texts: seq<string>)
  {
    seq(|items|, i requires 0 <= i < |items| => ToText(items[i]))
  }

  /** The parent adapter's capabilities: resolve an existing device object by
      address, or ask the daemon to create one. Either may answer the empty path. */
  datatype Adapter = Adapter(findDevice: string -> ObjectPath, createDevice: string -> ObjectPath)

  /** The calls a bound device proxy forwards to its remote object. */
  datatype Bus = Bus(
    getProperties: ObjectPath -> PropertyMap,
    discoverServices: (ObjectPath, string) -> ServiceMap)

  /** One remote call issued by a device handle, in the order issued. */
  datatype Call =
    | FindDevice(address: string)
    | CreateDevice(address: string)
    | GetProperties(path: ObjectPath)
    | SetProperty(path: ObjectPath, property: string, value: Variant)
    | DiscoverServices(path: ObjectPath, pattern: string)
    | CancelDiscovery(path: ObjectPath)
    | Disconnect(path: ObjectPath)

  /** A notification (Qt signal) emitted by a device handle. */
  datatype Notification =
    | PairedChanged(paired: bool)
    | ConnectedChanged(connected: bool)
    | TrustedChanged(trusted: bool)
    | BlockedChanged(blocked: bool)
    | AliasChanged(alias: string)
}
