# muselsl streaming core, modelled in Dafny

`muselsl/stream.py` finds a Muse headband over Bluetooth Low Energy and republishes its
sensor data as Lab Streaming Layer (LSL) outlets. This project models the decision logic
inside that plumbing and proves what it promises:

- **Discovery** (`discovery.dfy`, `devices.dfy`):
  - `list_muses` picks a discovery path from the requested backend, whether `bluetoothctl`
    is installed and what `helper.resolve_backend` answers, then keeps the devices whose
    name mentions "Muse";
  - `find_muse` takes the first device with the exact requested name, or the first device
    when no name is given.
- **`bluetoothctl devices` parser** (`bluetoothctl.dfy`): the two regular expressions of the
  line parser are written out as string scans. Predicates state which leftmost match
  Python's `re.search` returns, and the scans are proved to return it.
- **Sample router** (`router.dfy`): `fixed_push` turns one batch (a 2-D array, another array,
  a list or a single value) into `push_sample` calls on an outlet. The outlet (`lsl.dfy`) is a
  class that logs every push.
- **Stream controller** (`session.dfy`) covers `stream`:
  - the "nothing to stream" guard;
  - the outlet dictionary filled one modality at a time, with each modality's fixed channel
    table;
  - callback binding;
  - the device session (a class that records `connect`, `start`, `stop` and `disconnect`);
  - the supervisor loop and its stop rule;
  - the teardown in its `finally` block.

External effects enter as plain values:
- the host (`Discovery.Host`) carries four things:
  - whether `bluetoothctl` is installed;
  - `helper.resolve_backend`, as a function;
  - the adapter scan's outcome;
  - the lines `bluetoothctl devices` printed;
- the clock, the session's `last_timestamp` and the operator's interrupt are one
  `Session.Reading` per loop iteration;
- whether the device accepts the connection is a flag;
- `AUTO_DISCONNECT_DELAY` and the values of `constants.py` are parameters.

Some behaviours of the code are easy to miss; the model keeps them:
- When the connection fails the code does not close the outlets, and neither does the model.
- `stream` calls `find_muse(name, backend)` without the interface, so discovery always
  uses the default interface. The model does the same.
- `list_muses` assigns no adapter when the resolved backend is none of `gatt`, `bluemuse`,
  `bleak` and `bgapi`. The later `adapter.start()` then fails, and the model returns
  `Raised(AdapterUndefined)`.
- On the BlueMuse path `list_muses` returns `None`, so `find_muse` with a name fails when it
  iterates over it (`FindFailed(NotIterable)`). Without a name it finds nothing.

## Model

| member | source | states |
|---|---|---|
| Devices.MuseFilter | muselsl/stream.py:64 | a device is kept exactly when it was scanned and its name is present, non-empty and contains "Muse"; nothing is added |
| Devices.MuseFilterAppend | muselsl/stream.py:64 | filtering a concatenation is concatenating the filtered parts: the filter keeps scan order |
| Devices.MuseFilterKeepsMuses | muselsl/stream.py:64 | a list of Muse devices only passes the filter unchanged |
| Devices.MuseFilterIdempotent | muselsl/stream.py:64 | filtering twice equals filtering once |
| Devices.ContainsIffFound | muselsl/stream.py:130 | the substring test `'Muse' in line` holds exactly when the leftmost search finds an occurrence |
| Bluetoothctl.NameMatch | muselsl/stream.py:133 | a name match exists iff the line contains "Muse"; it is the longest whitespace-free run starting at the leftmost "Muse" |
| Bluetoothctl.NameMatchUnique | muselsl/stream.py:133 | there is only one such leftmost-longest name match |
| Bluetoothctl.FirstMacFrom | muselsl/stream.py:134 | finds the leftmost index from which six hex pairs separated by `:` or `-` (either case) follow, or proves there is none |
| Bluetoothctl.AddressMatch | muselsl/stream.py:134 | an address match exists iff the line contains a MAC address; it is the leftmost one |
| Bluetoothctl.ParseLine | muselsl/stream.py:130-140 | a device comes only from a line containing "Muse" and holds the name and address matches; a line is skipped when either match is missing |
| Bluetoothctl.ParseLineSpec | muselsl/stream.py:130-140 | a line yields a device iff it contains "Muse" and a MAC address; the device holds both leftmost matches |
| Bluetoothctl.ParseDeviceLines | muselsl/stream.py:128-145 | the parser loop returns exactly the devices of the parsable lines, in line order |
| Bluetoothctl.ParsedDevicesAppend | muselsl/stream.py:129-140 | parsing two blocks of lines is concatenating their results: output order follows line order |
| Bluetoothctl.ParsedDevicesOrigin | muselsl/stream.py:129-140 | every device comes from a line that contains "Muse" and parses to it, and every parsable line contributes its device |
| Bluetoothctl.ParsedDevicesWellFormed | muselsl/stream.py:133-140 | every parsed name starts with "Muse" and has no whitespace, and every parsed address is MAC-shaped |
| Bluetoothctl.WellFormedIsMuseName | muselsl/stream.py:64 | a parsed device is a Muse device in the sense of the adapter filter |
| Discovery.GattInterface | muselsl/stream.py:40 | a non-empty interface is kept; a missing or empty one becomes "hci0" |
| Discovery.Route | muselsl/stream.py:33-49 | bluetoothctl is used iff the request is `auto` and bluetoothctl is installed; the GATT tool adapter is used iff otherwise the resolver answers `gatt`, on the given or default interface; otherwise `bluemuse` launches BlueMuse, `bleak` scans with Bleak and `bgapi` with BGAPI on the interface as serial port, each iff the resolver answers that backend; the route is `Unbound` (no adapter, and no BlueMuse launch) iff the resolved backend is none of the four, and carries that backend |
| Discovery.ListMuses | muselsl/stream.py:31-67 | the listing is `None` iff BlueMuse is launched, the unbound-adapter error iff the route has no adapter, and the BLE error iff a non-GATT scan fails; after a successful adapter scan the listing is exactly `MuseFilter` of the scanned devices, and on the bluetoothctl route it is exactly the parse of `bluetoothctl devices`, so the properties of those two carry over |
| Discovery.AutoPrefersBluetoothctl | muselsl/stream.py:33-35 | with `auto` and bluetoothctl installed, no adapter is built and the listing is the bluetoothctl parse |
| Discovery.ScanFailureFallback | muselsl/stream.py:51-62 | a failed scan falls back to bluetoothctl exactly when the resolved backend is `gatt`, and raises the BLE error otherwise |
| Discovery.ListedDevicesAreMuses | muselsl/stream.py:33-67 | every device listed on any path has a non-empty name containing "Muse"; on the adapter path no scanned Muse device is dropped |
| Discovery.FirstNamedFrom | muselsl/stream.py:154-156 | returns the first position holding a device of exactly that name, or the end of the list |
| Discovery.Lookup | muselsl/stream.py:153-158 | the device found is listed and has the requested name when one is given; without a name something is found iff the list is non-empty (the exact choice is in `LookupSpec`) |
| Discovery.LookupSpec | muselsl/stream.py:153-158 | with a name, a device is found iff one has that exact name, and it is the first such device; without a name, the head of the list or nothing |
| Discovery.FindMuse | muselsl/stream.py:151-158 | a listing error propagates; on a listing, the result is the lookup's (the first device of the requested name, or the head without a name, as `LookupSpec` proves), so a found device is a listed Muse device carrying the requested name; on the BlueMuse path it fails with a name and finds nothing without one |
| Lsl.Outlet.PushSample | muselsl/stream.py:171 | one `push_sample` appends exactly one push to the outlet's log |
| Router.Column | muselsl/stream.py:171 | `data[:, i].tolist()` has one entry per row, the row's i-th value |
| Router.FixedPush | muselsl/stream.py:164-192 | the outlet's log grows by exactly the routed pushes of the batch |
| Router.MatrixPushes | muselsl/stream.py:167-173 | a 2-D batch of N columns gives N pushes in column order; column i carries `timestamps[i]` when i < len(timestamps) and no timestamp otherwise |
| Router.ListPushes | muselsl/stream.py:180-186 | a list gives one push per element, paired positionally with the timestamps |
| Router.SinglePush | muselsl/stream.py:174-192 | another array or a single value gives exactly one push, which carries `timestamps[0]` iff there are timestamps |
| Router.CountStampedPrefix | muselsl/stream.py:164-192 | a log whose first m entries, and only those, are stamped has min(length, m) stamped entries |
| Router.StampedPushCount | muselsl/stream.py:164-192 | exactly min(#samples, #timestamps) pushes carry a timestamp |
| Session.EnabledSet | muselsl/stream.py:240-294 | a modality is in the set iff its switch enables it |
| Session.NoSourceEnabledIffEmpty | muselsl/stream.py:224-226 | the early-return guard fires exactly when no modality is enabled |
| Session.AppendChannels | muselsl/stream.py:246-250 | the channel loop appends one channel per label, in label order, with the modality's unit and type |
| Session.DescribeOutlet | muselsl/stream.py:241-250 | builds the stream description of the modality, name "Muse", source id "Muse" followed by the address |
| Session.InfoLayout | muselsl/stream.py:241-292 | fixed channel tables: EEG has TP9, AF7, AF8, TP10, Right AUX in microvolts, type EEG; PPG has PPG1-PPG3 in mmHg, type PPG; ACC has X, Y, Z in g, type accelerometer; GYRO has X, Y, Z in dps, type gyroscope; stream types EEG, PPG, ACC, GYRO, format float32, name and manufacturer "Muse", source id "Muse" followed by the address |
| Session.OpenIfEnabled | muselsl/stream.py:240-252 | one `if` block adds a new, empty outlet for its modality exactly when that modality is enabled, and keeps the others |
| Session.OpenOutlets | muselsl/stream.py:238-294 | after the four blocks, every enabled modality, and only those, has a new, empty outlet described for it |
| Session.AllOpened | muselsl/stream.py:238-294 | the outlet keys are exactly the enabled modalities, each outlet carrying its modality's description and chunk size |
| Session.BindCallbacks | muselsl/stream.py:297-300 | a callback is bound exactly for each enabled modality, to that modality's outlet |
| Session.ExitAt | muselsl/stream.py:328-334 | an iteration stops on an interrupt; otherwise on any other exception; otherwise on a stale link (now - last > delay, strict) when there is a last timestamp, or after 300 s (strict) without one; otherwise not |
| Session.SilentLimitOnlyWithoutTimestamp | muselsl/stream.py:328-334 | once a last timestamp exists, the 300 s limit never stops the loop |
| Session.FirstExit | muselsl/stream.py:324-336 | the loop stops at the first reading that ends it, and no earlier reading ends it |
| Session.Supervise | muselsl/stream.py:322-339 | the `while True` loop ends in the state `FirstExit` specifies |
| Session.Muse.Connect | muselsl/stream.py:307 | records the `connect` call and reports whether the link came up |
| Session.Muse.Start | muselsl/stream.py:311 | appends exactly one `start` to the session's call log |
| Session.Muse.Stop | muselsl/stream.py:341 | appends exactly one `stop` to the session's call log |
| Session.Muse.Disconnect | muselsl/stream.py:342 | appends exactly one `disconnect` to the session's call log |
| Session.TeardownExactlyOnce | muselsl/stream.py:307-346 | whatever ended the loop, `stop` and then `disconnect` run exactly once each, after one `start`; a failed connection is never started, stopped or disconnected |
| Session.ResolveTarget | muselsl/stream.py:229-236 | a given address is used as is with the given name; otherwise the target is resolved iff `find_muse` finds a device, and is then that device's address and name; when it is not resolved, the reason is `find_muse`'s result |
| Session.RunSession | muselsl/stream.py:238-346 | opens exactly the enabled outlets, binds their callbacks to a new session, and leaves the session with the calls `SessionCalls` lists for the connection and loop results |
| Session.Stream | muselsl/stream.py:208-346 | rejects exactly the requests with nothing enabled, before any outlet or session exists; hands `bluemuse` over; returns early when no device is found; otherwise behaves as `RunSession` on the resolved target (the enabled outlets with their descriptions and chunk sizes, the bound callbacks, the call log), and nothing is pushed |

## Left out

- The subprocess handling of `bluetoothctl scan on/off`, with its sleeps and timeouts (muselsl/stream.py:81-125), is not modelled. The parser starts from the lines `bluetoothctl devices` printed, and a failed listing is an empty line list.
- The BlueMuse `start` URI launches (muselsl/stream.py:44 and 351-354) are operating-system calls and are not modelled.
- The `bluemuse` branch of `stream` (muselsl/stream.py:349-366) also builds a device session with no callbacks, calls `connect` and then `start`, and never calls `stop` or `disconnect`. This session is not modelled: `Stream` returns `HandedToBlueMuse` with no outlets, and `muse == null` stands for that session.
- The adapters (pygatt, Bleak, BGAPI) and the `Muse` device class live in files that are not part of this model. A scan is one outcome value. The session class only records the calls made on it, and `Connect` takes the connection result as a flag.
- `helper.resolve_backend` is a function parameter of the host.
- The exception fallback of `fixed_push` (muselsl/stream.py:194-204) is not modelled. It re-pushes partway through a batch with wall-clock `time()` stamps.
- A 2-D numpy array is a `Matrix` batch, and every other dimension is an `Array` batch, since `data.tolist()` is pushed as one sample. Arrays of three or more dimensions are not given their nested shape, and a 0-d array, whose `tolist()` is a scalar, is still pushed as a list of values.
- Timestamps and clock readings are integers, not floats. `time()` and `local_clock()`, and the `lsl_time` switch between them, are not modelled. A push without a timestamp records `None`.
- Session.Supervise: the loop runs over a finite sequence of readings. When they run out it reports `StillRunning`, which stands for a loop that has not ended yet. `backends.sleep(1)` is not modelled.
- The keyboard interrupt, and any other exception raised by the clock or the sleep, is a flag checked at the top of each iteration. One raised during the sleep shows up at the next iteration. After the teardown that follows an `Errored` exit, the exception propagates out of `stream`. The model records this as the exit itself and does not model the propagation.
- `print` output, logging, `log_level`, `preset`, `disable_light` and the other arguments `stream` passes straight through to the device session are not modelled.
- The constant values of `constants.py` are parameters (`Session.Constants`, and `delay` for `AUTO_DISCONNECT_DELAY`).
- The `try`/`except` around the regular-expression parsing (muselsl/stream.py:131, 141-144) is not modelled, because the two searches cannot raise on a string.
- Calls the device session makes to the callbacks, which happen on another thread, and pushes after `disconnect` are not modelled. The outlets therefore stay empty in the model of `stream`.
