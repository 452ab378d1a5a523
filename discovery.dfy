/** `list_muses` and `find_muse`: which discovery path a backend request takes,
    what the listing is on each path, and the name-or-first lookup over it.
    The host (whether `bluetoothctl` is installed, what `helper.resolve_backend`
    does, what the adapter scan and `bluetoothctl devices` report) is a parameter. */
module Discovery {
  import opened Devices
  import Bluetoothctl

  /** A backend token, as requested or as resolved. `OtherBackend` carries any
      other token: one that is none of "auto", "gatt", "bluemuse", "bleak" and
      "bgapi" (the named tokens have their own constructors). */
  datatype Backend = Auto | Gatt | BlueMuse | Bleak | Bgapi | OtherBackend(token: OtherToken)

  /** A token that is not one of the named backends. */
  predicate IsOtherToken(token: string)
  {
    token !in {"auto", "gatt", "bluemuse", "bleak", "bgapi"}
  }

  type OtherToken = t: string | IsOtherToken(t) witness "muse"

  /** The adapter objects `list_muses` can construct. */
  datatype Adapter =
    | GattTool(interface: string)
    | BleakAdapter
    | BgapiAdapter(serialPort: Option<string>)

  /** Where a discovery request goes. `Unbound` is a resolved backend for which no
      branch assigns `adapter`, so the following `adapter.start()` fails. */
  datatype DiscoveryRoute =
    | UseBluetoothctl
    | LaunchBlueMuse
    | ScanWith(adapter: Adapter)
    | Unbound(backend: Backend)

  /** What `start`, `scan` and `stop` on the adapter produce together. */
  datatype ScanOutcome = Scanned(devices: seq<Device>) | ScanFailed

  /** The host as discovery observes it. `resolve` stands for `helper.resolve_backend`. */
  datatype Host = Host(
    bluetoothctlPresent: bool,
    resolve: Backend -> Backend,
    scan: ScanOutcome,
    devicesOutput: seq<string>)

  datatype ListError = BleError | AdapterUndefined

  /** The value of `list_muses`: a list, `None` (BlueMuse lists devices in its own
      window), or an exception that propagates. */
  datatype Listing = Muses(devices: seq<Device>) | NoListing | Raised(error: ListError)

  /** `interface or 'hci0'`. */
  function GattInterface(interface: Option<string>): (name: string)
    ensures interface.Some? && interface.value != "" ==> name == interface.value
    ensures interface.None? || interface.value == "" ==> name == "hci0"
  {
    match interface
    case Some(i) => if i != "" then i else "hci0"
    case None => "hci0"
  }

  /** The branch structure of `list_muses` before the scan. */
  function Route(requested: Backend, interface: Option<string>, host: Host): (r: DiscoveryRoute)
    ensures requested == Auto && host.bluetoothctlPresent <==> r == UseBluetoothctl
    ensures r.ScanWith? && r.adapter.GattTool? <==>
      !(requested == Auto && host.bluetoothctlPresent) && host.resolve(requested) == Gatt
    ensures r.ScanWith? && r.adapter.GattTool? ==> r.adapter.interface == GattInterface(interface)
    ensures r.ScanWith? && r.adapter.BgapiAdapter? ==> r.adapter.serialPort == interface
    ensures !(requested == Auto && host.bluetoothctlPresent) ==>
      && (r == LaunchBlueMuse <==> host.resolve(requested) == BlueMuse)
      && (r == ScanWith(BleakAdapter) <==> host.resolve(requested) == Bleak)
      && (r == ScanWith(BgapiAdapter(interface)) <==> host.resolve(requested) == Bgapi)
      && (r.Unbound? <==> host.resolve(requested) !in {Gatt, BlueMuse, Bleak, Bgapi})
    ensures r.Unbound? ==> r.backend == host.resolve(requested) && r.backend !in {Gatt, BlueMuse, Bleak, Bgapi}
  {
    if requested == Auto && host.bluetoothctlPresent then UseBluetoothctl
    else
      var backend := host.resolve(requested);
      match backend
      case Gatt => ScanWith(GattTool(GattInterface(interface)))
      case BlueMuse => LaunchBlueMuse
      case Bleak => ScanWith(BleakAdapter)
      case Bgapi => ScanWith(BgapiAdapter(interface))
      case _ => Unbound(backend)
  }

  /** The adapter `list_muses` constructs, if any. */
  function AdapterBuilt(route: DiscoveryRoute): Option<Adapter>
  {
    if route.ScanWith? then Some(route.adapter) else None
  }

  /** `list_muses(backend, interface)` on the given host. */
  function ListMuses(requested: Backend, interface: Option<string>, host: Host): (r: Listing)
    ensures r == NoListing <==> Route(requested, interface, host) == LaunchBlueMuse
    ensures r == Raised(AdapterUndefined) <==> Route(requested, interface, host).Unbound?
    ensures r == Raised(BleError) <==>
      && Route(requested, interface, host).ScanWith?
      && !Route(requested, interface, host).adapter.GattTool?
      && host.scan == ScanFailed
    ensures Route(requested, interface, host) == UseBluetoothctl ==>
      r == Muses(Bluetoothctl.ParsedDevices(host.devicesOutput))
    ensures Route(requested, interface, host).ScanWith? && host.scan.Scanned? ==>
      r == Muses(MuseFilter(host.scan.devices))
  {
    match Route(requested, interface, host)
    case UseBluetoothctl => Muses(Bluetoothctl.ParsedDevices(host.devicesOutput))
    case LaunchBlueMuse => NoListing
    case Unbound(_) => Raised(AdapterUndefined)
    case ScanWith(adapter) =>
      match host.scan
      case Scanned(devices) => Muses(MuseFilter(devices))
      case ScanFailed =>
        if adapter.GattTool? then Muses(Bluetoothctl.ParsedDevices(host.devicesOutput))
        else Raised(BleError)
  }

  /** With `auto` and `bluetoothctl` installed, discovery parses `bluetoothctl`
      output and constructs no adapter, whatever the resolver or a scan would do. */
  lemma AutoPrefersBluetoothctl(interface: Option<string>, host: Host)
    requires host.bluetoothctlPresent
    ensures AdapterBuilt(Route(Auto, interface, host)) == None
    ensures ListMuses(Auto, interface, host) == Muses(Bluetoothctl.ParsedDevices(host.devicesOutput))
  {
  }

  /** A failed scan falls back to `bluetoothctl` exactly when the resolved backend
      is `gatt`; on every other adapter the BLE error propagates. */
  lemma ScanFailureFallback(requested: Backend, interface: Option<string>, host: Host)
    requires Route(requested, interface, host).ScanWith?
    requires host.scan == ScanFailed
    ensures host.resolve(requested) == Gatt ==>
      ListMuses(requested, interface, host) == Muses(Bluetoothctl.ParsedDevices(host.devicesOutput))
    ensures host.resolve(requested) != Gatt ==> ListMuses(requested, interface, host) == Raised(BleError)
  {
  }

  /** Every device any path of `list_muses` returns has a non-empty name that
      contains "Muse"; on the adapter path no Muse device of the scan is dropped. */
  lemma ListedDevicesAreMuses(requested: Backend, interface: Option<string>, host: Host)
    ensures ListMuses(requested, interface, host).Muses? ==>
      forall d :: d in ListMuses(requested, interface, host).devices ==> IsMuseName(d.name)
    ensures Route(requested, interface, host).ScanWith? && host.scan.Scanned? ==>
      forall d :: d in host.scan.devices && IsMuseName(d.name) ==>
        d in ListMuses(requested, interface, host).devices
  {
    var parsed := Bluetoothctl.ParsedDevices(host.devicesOutput);
    Bluetoothctl.ParsedDevicesWellFormed(host.devicesOutput);
    forall d | d in parsed ensures IsMuseName(d.name) {
      Bluetoothctl.WellFormedIsMuseName(d);
    }
  }

  /** The index of the first device named `name` at or after `from`, or `|muses|`. */
  function FirstNamedFrom(muses: seq<Device>, name: string, from: nat): (k: nat)
    requires from <= |muses|
    decreases |muses| - from
    ensures from <= k <= |muses|
    ensures k < |muses| ==> muses[k].name == Some(name)
    ensures forall j :: from <= j < k ==> muses[j].name != Some(name)
  {
    if from == |muses| || muses[from].name == Some(name) then from
    else FirstNamedFrom(muses, name, from + 1)
  }

  /** The loop and the early returns of `find_muse` over one list: with a
      (non-empty) name, the first device of that exact name; without one, the
      first device. */
  function Lookup(name: Option<string>, muses: seq<Device>): (r: Option<Device>)
    ensures r.Some? ==> r.value in muses
    ensures r.Some? && name.Some? && name.value != "" ==> r.value.name == name
    ensures (name.None? || name.value == "") ==> (r.Some? <==> muses != [])
  {
    if name.Some? && name.value != "" then
      var k := FirstNamedFrom(muses, name.value, 0);
      if k < |muses| then Some(muses[k]) else None
    else if muses != [] then Some(muses[0])
    else None
  }

  /** With a name, the lookup finds a device exactly when one has that name, and
      it finds the first such device; without a name it finds the head of the list. */
  lemma LookupSpec(name: Option<string>, muses: seq<Device>)
    ensures name.Some? && name.value != "" ==>
      (Lookup(name, muses).Some? <==> exists d :: d in muses && d.name == name)
    ensures name.Some? && name.value != "" && Lookup(name, muses).Some? ==>
      exists k :: 0 <= k < |muses| && muses[k] == Lookup(name, muses).value && muses[k].name == name &&
        forall j :: 0 <= j < k ==> muses[j].name != name
    ensures (name.None? || name.value == "") ==>
      Lookup(name, muses) == if muses == [] then None else Some(muses[0])
  {
  }

  datatype FindError = ListingFailed(error: ListError) | NotIterable

  datatype FindResult = Found(device: Device) | NotFound | FindFailed(error: FindError)

  /** `find_muse(name, backend)`: `list_muses(backend)` (no interface) followed by
      the lookup. When BlueMuse lists the devices the listing is `None`: the loop
      over it raises with a name, the emptiness test fails without one. */
  function FindMuse(name: Option<string>, backend: Backend, host: Host): (r: FindResult)
    ensures ListMuses(backend, None, host).Raised? ==>
      r == FindFailed(ListingFailed(ListMuses(backend, None, host).error))
    ensures r.Found? ==> ListMuses(backend, None, host).Muses? && r.device in ListMuses(backend, None, host).devices
    ensures r.Found? ==> IsMuseName(r.device.name)
    ensures r.Found? && name.Some? && name.value != "" ==> r.device.name == name
    ensures ListMuses(backend, None, host).Muses? ==>
      r == match Lookup(name, ListMuses(backend, None, host).devices)
           case Some(d) => Found(d)
           case None => NotFound
    ensures ListMuses(backend, None, host).NoListing? ==>
      r == if name.Some? && name.value != "" then FindFailed(NotIterable) else NotFound
  {
    ListedDevicesAreMuses(backend, None, host);
    match ListMuses(backend, None, host)
    case Raised(e) => FindFailed(ListingFailed(e))
    case NoListing => if name.Some? && name.value != "" then FindFailed(NotIterable) else NotFound
    case Muses(muses) =>
      match Lookup(name, muses)
      case Some(d) => LookupSpec(name, muses); Found(d)
      case None => NotFound
  }
}
