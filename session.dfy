/** `stream`: the "nothing to stream" check, the outlet map, the callback
    binding, the supervised streaming loop and the teardown that follows it.
    The device session is an object that records the calls made on it; the
    clock, the session's last-sample timestamp and the operator's interrupt are
    given as a sequence of readings. */
module Session {
  import opened Devices
  import opened Lsl
  import Discovery

  datatype Modality = EEG | PPG | ACC | GYRO

  /** The data-source switches of `stream`. EEG is on unless disabled; the
      others are off unless enabled. */
  datatype Request = Request(ppgEnabled: bool, accEnabled: bool, gyroEnabled: bool, eegDisabled: bool)

  predicate Enabled(req: Request, m: Modality)
  {
    match m
    case EEG => !req.eegDisabled
    case PPG => req.ppgEnabled
    case ACC => req.accEnabled
    case GYRO => req.gyroEnabled
  }

  function EnabledSet(req: Request): (s: set<Modality>)
    ensures forall m :: m in s <==> Enabled(req, m)
  {
    (if !req.eegDisabled then {EEG} else {}) +
    (if req.ppgEnabled then {PPG} else {}) +
    (if req.accEnabled then {ACC} else {}) +
    (if req.gyroEnabled then {GYRO} else {})
  }

  /** The guard at the top of `stream`. */
  predicate NoSourceEnabled(req: Request)
  {
    req.eegDisabled && !req.ppgEnabled && !req.accEnabled && !req.gyroEnabled
  }

  /** The guard rejects a request exactly when it enables no modality. */
  lemma NoSourceEnabledIffEmpty(req: Request)
    ensures NoSourceEnabled(req) <==> EnabledSet(req) == {}
  {
  }

  /** The values of `constants.py` the streams are described with. */
  datatype Constants = Constants(
    channelCount: Modality -> nat,
    samplingRate: Modality -> nat,
    chunkSize: Modality -> nat)

  function StreamType(m: Modality): string
  {
    match m
    case EEG => "EEG"
    case PPG => "PPG"
    case ACC => "ACC"
    case GYRO => "GYRO"
  }

  function ChannelLabels(m: Modality): seq<string>
  {
    match m
    case EEG => ["TP9", "AF7", "AF8", "TP10", "Right AUX"]
    case PPG => ["PPG1", "PPG2", "PPG3"]
    case ACC => ["X", "Y", "Z"]
    case GYRO => ["X", "Y", "Z"]
  }

  function ChannelUnit(m: Modality): string
  {
    match m
    case EEG => "microvolts"
    case PPG => "mmHg"
    case ACC => "g"
    case GYRO => "dps"
  }

  function ChannelKind(m: Modality): string
  {
    match m
    case EEG => "EEG"
    case PPG => "PPG"
    case ACC => "accelerometer"
    case GYRO => "gyroscope"
  }

  /** The `channels` children appended one label at a time. */
  function ChannelsFor(labels: seq<string>, unit: string, kind: string): seq<Channel>
  {
    seq(|labels|, i requires 0 <= i < |labels| => Channel(labels[i], unit, kind))
  }

  /** The description of the outlet of one modality. */
  function Info(m: Modality, address: string, consts: Constants): StreamInfo
  {
    StreamInfo("Muse", StreamType(m), consts.channelCount(m), consts.samplingRate(m), "float32",
               "Muse" + address, "Muse", ChannelsFor(ChannelLabels(m), ChannelUnit(m), ChannelKind(m)))
  }

  /** The loop that appends one `channel` child per label to the `channels` node. */
  method AppendChannels(labels: seq<string>, unit: string, kind: string) returns (channels: seq<Channel>)
    ensures channels == ChannelsFor(labels, unit, kind)
  {
    channels := [];
    for i := 0 to |labels|
      invariant channels == ChannelsFor(labels[..i], unit, kind)
    {
      channels := channels + [Channel(labels[i], unit, kind)];
    }
    assert labels[..|labels|] == labels;
  }

  /** `StreamInfo(...)` and its `desc()` children for one modality. */
  method DescribeOutlet(m: Modality, address: string, consts: Constants) returns (info: StreamInfo)
    ensures info == Info(m, address, consts)
  {
    var channels := AppendChannels(ChannelLabels(m), ChannelUnit(m), ChannelKind(m));
    info := StreamInfo("Muse", StreamType(m), consts.channelCount(m), consts.samplingRate(m), "float32",
                       "Muse" + address, "Muse", channels);
  }

  /** The fixed channel table: EEG has TP9, AF7, AF8, TP10 and Right AUX in
      microvolts, PPG has PPG1 to PPG3 in mmHg, ACC and GYRO have X, Y and Z in
      g and in degrees per second; every stream is a "Muse" stream whose source
      id is "Muse" followed by the address. */
  lemma InfoLayout(m: Modality, address: string, consts: Constants)
    ensures Info(m, address, consts).name == "Muse" && Info(m, address, consts).manufacturer == "Muse"
    ensures Info(m, address, consts).sourceId == "Muse" + address
    ensures |Info(m, address, consts).channels| == |ChannelLabels(m)|
    ensures forall i :: 0 <= i < |ChannelLabels(m)| ==>
      Info(m, address, consts).channels[i] == Channel(ChannelLabels(m)[i], ChannelUnit(m), ChannelKind(m))
    ensures m == EEG ==>
      && ChannelLabels(m) == ["TP9", "AF7", "AF8", "TP10", "Right AUX"]
      && ChannelUnit(m) == "microvolts" && ChannelKind(m) == "EEG" && StreamType(m) == "EEG"
    ensures m == PPG ==>
      && ChannelLabels(m) == ["PPG1", "PPG2", "PPG3"]
      && ChannelUnit(m) == "mmHg" && ChannelKind(m) == "PPG" && StreamType(m) == "PPG"
    ensures m == ACC ==>
      && ChannelLabels(m) == ["X", "Y", "Z"]
      && ChannelUnit(m) == "g" && ChannelKind(m) == "accelerometer" && StreamType(m) == "ACC"
    ensures m == GYRO ==>
      && ChannelLabels(m) == ["X", "Y", "Z"]
      && ChannelUnit(m) == "dps" && ChannelKind(m) == "gyroscope" && StreamType(m) == "GYRO"
    ensures Info(m, address, consts).kind == StreamType(m) && Info(m, address, consts).format == "float32"
  {
  }

  /** The position of a modality in the order `stream` opens outlets. */
  function Rank(m: Modality): nat
  {
    match m
    case EEG => 0
    case PPG => 1
    case ACC => 2
    case GYRO => 3
  }

  /** The outlet map after the first `n` of the four blocks that open outlets:
      one outlet for each enabled modality among them, described by `Info`. */
  ghost predicate OpenedUpTo(req: Request, outlets: map<Modality, Outlet<real>>, address: string,
                             consts: Constants, n: nat)
  {
    && (forall m :: m in outlets <==> Enabled(req, m) && Rank(m) < n)
    && (forall m :: m in outlets ==> Describes(outlets[m], m, address, consts))
  }

  /** `outlet` was opened for modality `m` of the device at `address`. */
  predicate Describes(outlet: Outlet<real>, m: Modality, address: string, consts: Constants)
  {
    outlet.info == Info(m, address, consts) && outlet.chunkSize == consts.chunkSize(m)
  }

  /** The `n`-th `if <modality enabled>: outlets[<modality>] = StreamOutlet(...)`
      block, the one for `m`: adds a new, empty outlet for `m` when `m` is enabled. */
  method OpenIfEnabled(req: Request, outlets: map<Modality, Outlet<real>>, m: Modality, n: nat,
                       address: string, consts: Constants)
    returns (r: map<Modality, Outlet<real>>)
    requires Rank(m) == n
    requires OpenedUpTo(req, outlets, address, consts, n)
    ensures OpenedUpTo(req, r, address, consts, n + 1)
    ensures forall k :: k in outlets ==> k in r && r[k] == outlets[k]
    ensures forall k :: k in r && k !in outlets ==> fresh(r[k]) && r[k].pushes == []
  {
    r := outlets;
    if Enabled(req, m) {
      var info := DescribeOutlet(m, address, consts);
      var outlet := new Outlet(info, consts.chunkSize(m));
      r := r[m := outlet];
    }
  }

  /** One outlet per enabled modality, opened in the order EEG, PPG, ACC, GYRO,
      each new and not yet pushed to. */
  method OpenOutlets(req: Request, address: string, consts: Constants) returns (outlets: map<Modality, Outlet<real>>)
    ensures OpenedUpTo(req, outlets, address, consts, 4)
    ensures forall m :: m in outlets ==> fresh(outlets[m]) && outlets[m].pushes == []
  {
    outlets := map[];
    outlets := OpenIfEnabled(req, outlets, EEG, 0, address, consts);
    outlets := OpenIfEnabled(req, outlets, PPG, 1, address, consts);
    outlets := OpenIfEnabled(req, outlets, ACC, 2, address, consts);
    outlets := OpenIfEnabled(req, outlets, GYRO, 3, address, consts);
  }

  /** Once all four blocks have run, the outlets are keyed by exactly the
      enabled modalities, each described by its modality's stream info. */
  lemma AllOpened(req: Request, outlets: map<Modality, Outlet<real>>, address: string, consts: Constants)
    requires OpenedUpTo(req, outlets, address, consts, 4)
    ensures outlets.Keys == EnabledSet(req)
    ensures forall m :: m in outlets ==>
      outlets[m].info == Info(m, address, consts) && outlets[m].chunkSize == consts.chunkSize(m)
  {
  }

  /** The four callbacks handed to the device session; `Some(o)` stands for
      `partial(fixed_push, outlet=o)`. */
  datatype Callbacks = Callbacks(
    eeg: Option<Outlet<real>>,
    ppg: Option<Outlet<real>>,
    acc: Option<Outlet<real>>,
    gyro: Option<Outlet<real>>)

  function CallbackFor(cb: Callbacks, m: Modality): Option<Outlet<real>>
  {
    match m
    case EEG => cb.eeg
    case PPG => cb.ppg
    case ACC => cb.acc
    case GYRO => cb.gyro
  }

  /** A callback is bound exactly for each enabled modality, to that modality's outlet. */
  function BindCallbacks(req: Request, outlets: map<Modality, Outlet<real>>): (cb: Callbacks)
    requires forall m :: Enabled(req, m) ==> m in outlets
    ensures forall m :: CallbackFor(cb, m).Some? <==> Enabled(req, m)
    ensures forall m :: Enabled(req, m) ==> CallbackFor(cb, m) == Some(outlets[m])
  {
    Callbacks(
      if Enabled(req, EEG) then Some(outlets[EEG]) else None,
      if Enabled(req, PPG) then Some(outlets[PPG]) else None,
      if Enabled(req, ACC) then Some(outlets[ACC]) else None,
      if Enabled(req, GYRO) then Some(outlets[GYRO]) else None)
  }

  /** What one iteration of the loop observes: whether the operator interrupted
      before it (`KeyboardInterrupt`), whether another exception was raised before
      it (by the clock or by the sleep), the clock, and the session's last-sample
      timestamp if it has one. */
  datatype Reading = Reading(cancelled: bool, failed: bool, now: int, lastTimestamp: Option<int>)

  /** Why the loop ended, and at which reading. `Errored` is an exception other
      than `KeyboardInterrupt`: the `finally` block still runs, and the exception
      then propagates out of `stream`. */
  datatype Exit = StaleLink(at: nat) | SilentTimeout(at: nat) | Interrupted(at: nat) | Errored(at: nat)

  /** The loop's state after the readings: ended, or still polling. */
  datatype LoopState = Stopped(exit: Exit) | StillRunning

  /** The stop limit in seconds while the session has no last-sample timestamp. */
  const SILENT_LIMIT: int := 300

  /** How reading `i` ends the loop, if it does. */
  function ExitAt(start: int, r: Reading, delay: int, i: nat): (e: Option<Exit>)
    ensures e.Some? ==> e.value.at == i
    ensures e.Some? && e.value.Interrupted? <==> r.cancelled
    ensures e.Some? && e.value.Errored? <==> !r.cancelled && r.failed
    ensures e.Some? && e.value.StaleLink? <==>
      !r.cancelled && !r.failed && r.lastTimestamp.Some? && r.now - r.lastTimestamp.value > delay
    ensures e.Some? && e.value.SilentTimeout? <==>
      !r.cancelled && !r.failed && r.lastTimestamp.None? && r.now - start > SILENT_LIMIT
  {
    if r.cancelled then Some(Interrupted(i))
    else if r.failed then Some(Errored(i))
    else match r.lastTimestamp
      case Some(last) => if r.now - last > delay then Some(StaleLink(i)) else None
      case None => if r.now - start > SILENT_LIMIT then Some(SilentTimeout(i)) else None
  }

  /** Once the session has a last-sample timestamp, the silence limit never ends
      the loop, however long it has run. */
  lemma SilentLimitOnlyWithoutTimestamp(start: int, r: Reading, delay: int, i: nat)
    requires r.lastTimestamp.Some?
    ensures ExitAt(start, r, delay, i).Some? ==> !ExitAt(start, r, delay, i).value.SilentTimeout?
  {
  }

  /** The loop's state after the readings from `from` on: the first reading that
      ends it, or still running. */
  function FirstExit(start: int, readings: seq<Reading>, delay: int, from: nat): (s: LoopState)
    requires from <= |readings|
    decreases |readings| - from
    ensures s.Stopped? ==> from <= s.exit.at < |readings|
    ensures s.Stopped? ==> ExitAt(start, readings[s.exit.at], delay, s.exit.at) == Some(s.exit)
    ensures forall j :: from <= j < |readings| && (s.StillRunning? || j < s.exit.at) ==>
      ExitAt(start, readings[j], delay, j) == None
  {
    if from == |readings| then StillRunning
    else match ExitAt(start, readings[from], delay, from)
      case Some(e) => Stopped(e)
      case None => FirstExit(start, readings, delay, from + 1)
  }

  /** The `while True` loop of `stream`, over the readings observed. */
  method Supervise(start: int, readings: seq<Reading>, delay: int) returns (state: LoopState)
    ensures state == FirstExit(start, readings, delay, 0)
  {
    var i := 0;
    while i < |readings|
      invariant i <= |readings|
      invariant FirstExit(start, readings, delay, i) == FirstExit(start, readings, delay, 0)
    {
      var reading := readings[i];
      if reading.cancelled {
        return Stopped(Interrupted(i));
      }
      if reading.failed {
        return Stopped(Errored(i));
      }
      var currentTime := reading.now;
      match reading.lastTimestamp {
        case Some(last) =>
          if currentTime - last > delay {
            return Stopped(StaleLink(i));
          }
        case None =>
          if currentTime - start > SILENT_LIMIT {
            return Stopped(SilentTimeout(i));
          }
      }
      i := i + 1;
    }
    return StillRunning;
  }

  /** A call made on the device session after it is constructed. */
  datatype Call = Connect(retries: int) | Start | Stop | Disconnect

  /** The device session (`Muse`): what it was constructed with and the calls made on it. */
  class Muse {
    const address: string
    const name: Option<string>
    const callbacks: Callbacks
    var calls: seq<Call>

    constructor (address: string, name: Option<string>, callbacks: Callbacks)
      ensures this.address == address && this.name == name && this.callbacks == callbacks
      ensures calls == []
    {
      this.address := address;
      this.name := name;
      this.callbacks := callbacks;
      calls := [];
    }

    /** `linkUp` is whether the device accepts the connection within the retries. */
    method Connect(retries: int, linkUp: bool) returns (ok: bool)
      modifies this
      ensures ok == linkUp && calls == old(calls) + [Call.Connect(retries)]
    {
      calls := calls + [Call.Connect(retries)];
      ok := linkUp;
    }

    method Start()
      modifies this
      ensures calls == old(calls) + [Call.Start]
    {
      calls := calls + [Call.Start];
    }

    method Stop()
      modifies this
      ensures calls == old(calls) + [Call.Stop]
    {
      calls := calls + [Call.Stop];
    }

    method Disconnect()
      modifies this
      ensures calls == old(calls) + [Call.Disconnect]
    {
      calls := calls + [Call.Disconnect];
    }
  }

  /** The calls made on a session that connected (or not) and whose loop reached `state`. */
  function SessionCalls(retries: int, linkUp: bool, state: LoopState): seq<Call>
  {
    if !linkUp then [Connect(retries)]
    else [Connect(retries), Start] + (if state.Stopped? then [Stop, Disconnect] else [])
  }

  /** Once the loop has ended, whatever ended it, `stop` and then `disconnect`
      have run exactly once each, after one `start`; a session that failed to
      connect is never started, stopped or disconnected. */
  lemma TeardownExactlyOnce(retries: int, linkUp: bool, state: LoopState)
    ensures !linkUp ==>
      var calls := multiset(SessionCalls(retries, linkUp, state));
      calls[Call.Start] == 0 && calls[Call.Stop] == 0 && calls[Call.Disconnect] == 0
    ensures linkUp && state.Stopped? ==>
      var calls := SessionCalls(retries, linkUp, state);
      && multiset(calls)[Call.Start] == 1 && multiset(calls)[Call.Stop] == 1
      && multiset(calls)[Call.Disconnect] == 1
      && calls[|calls| - 2] == Call.Stop && calls[|calls| - 1] == Call.Disconnect
    ensures linkUp && state.StillRunning? ==>
      var calls := multiset(SessionCalls(retries, linkUp, state));
      calls[Call.Start] == 1 && calls[Call.Stop] == 0 && calls[Call.Disconnect] == 0
  {
  }

  /** Where the device address comes from. */
  datatype Target = Target(address: string, name: Option<string>)

  datatype Resolution = Resolved(target: Target) | Unresolved(why: Discovery.FindResult)

  /** `if not address: found_muse = find_muse(name, backend) ...`. */
  function ResolveTarget(address: Option<string>, name: Option<string>, backend: Discovery.Backend,
                         host: Discovery.Host): (r: Resolution)
    ensures address.Some? && address.value != "" ==> r == Resolved(Target(address.value, name))
    ensures !(address.Some? && address.value != "") ==>
      && (r.Resolved? <==> Discovery.FindMuse(name, backend, host).Found?)
      && (r.Resolved? ==> r.target == Target(Discovery.FindMuse(name, backend, host).device.address,
                                             Discovery.FindMuse(name, backend, host).device.name))
      && (r.Unresolved? ==> r.why == Discovery.FindMuse(name, backend, host))
    ensures r.Unresolved? ==> !r.why.Found?
  {
    if address.Some? && address.value != "" then Resolved(Target(address.value, name))
    else match Discovery.FindMuse(name, backend, host)
      case Found(d) => Resolved(Target(d.address, d.name))
      case other => Unresolved(other)
  }

  datatype StreamOutcome =
    | Rejected
    | HandedToBlueMuse
    | DeviceNotFound
    | DiscoveryFailed(error: Discovery.FindError)
    | ConnectFailed
    | Streamed(state: LoopState)

  /** The part of `stream` after the address is known: the outlets, the device
      session with its callbacks, the connection, the supervisor loop and the teardown. */
  method RunSession(req: Request, target: Target, retries: int, consts: Constants,
                    linkUp: bool, start: int, readings: seq<Reading>, delay: int)
    returns (outcome: StreamOutcome, outlets: map<Modality, Outlet<real>>, muse: Muse)
    ensures fresh(muse) && muse.address == target.address && muse.name == target.name
    ensures outlets.Keys == EnabledSet(req)
    ensures forall m :: m in outlets ==>
      && fresh(outlets[m])
      && outlets[m].info == Info(m, target.address, consts)
      && outlets[m].chunkSize == consts.chunkSize(m)
      && outlets[m].pushes == []
    ensures muse.callbacks == BindCallbacks(req, outlets)
    ensures outcome == if linkUp then Streamed(FirstExit(start, readings, delay, 0)) else ConnectFailed
    ensures muse.calls == SessionCalls(retries, linkUp, FirstExit(start, readings, delay, 0))
  {
    outlets := OpenOutlets(req, target.address, consts);
    AllOpened(req, outlets, target.address, consts);
    var callbacks := BindCallbacks(req, outlets);
    muse := new Muse(target.address, target.name, callbacks);
    var didConnect := muse.Connect(retries, linkUp);
    if didConnect {
      muse.Start();
      var state := Supervise(start, readings, delay);
      if state.Stopped? {
        muse.Stop();
        muse.Disconnect();
      }
      outcome := Streamed(state);
    } else {
      outcome := ConnectFailed;
    }
  }

  /** `stream(...)`, from the modality check to the teardown. */
  method Stream(req: Request, address: Option<string>, backend: Discovery.Backend, name: Option<string>,
                retries: int, host: Discovery.Host, consts: Constants,
                linkUp: bool, start: int, readings: seq<Reading>, delay: int)
    returns (outcome: StreamOutcome, outlets: map<Modality, Outlet<real>>, muse: Muse?)
    ensures NoSourceEnabled(req) <==> outcome == Rejected
    ensures !NoSourceEnabled(req) && backend == Discovery.BlueMuse ==> outcome == HandedToBlueMuse
    ensures outcome in {Rejected, HandedToBlueMuse, DeviceNotFound} || outcome.DiscoveryFailed? ==>
      outlets == map[] && muse == null
    ensures !NoSourceEnabled(req) && backend != Discovery.BlueMuse ==>
      match ResolveTarget(address, name, backend, host)
      case Unresolved(why) =>
        outcome == (if why.NotFound? then DeviceNotFound else DiscoveryFailed(why.error))
      case Resolved(target) =>
        && muse != null && fresh(muse)
        && muse.address == target.address && muse.name == target.name
        && outlets.Keys == EnabledSet(req)
        && (forall m :: m in outlets ==>
              && fresh(outlets[m])
              && outlets[m].info == Info(m, target.address, consts)
              && outlets[m].chunkSize == consts.chunkSize(m))
        && muse.callbacks == BindCallbacks(req, outlets)
        && outcome == (if linkUp then Streamed(FirstExit(start, readings, delay, 0)) else ConnectFailed)
        && muse.calls == SessionCalls(retries, linkUp, FirstExit(start, readings, delay, 0))
    ensures forall m :: m in outlets ==> outlets[m].pushes == []
  {
    outlets := map[];
    muse := null;
    if NoSourceEnabled(req) {
      return Rejected, outlets, muse;
    }
    if backend == Discovery.BlueMuse {
      return HandedToBlueMuse, outlets, muse;
    }
    match ResolveTarget(address, name, backend, host) {
      case Unresolved(why) =>
        outcome := if why.NotFound? then DeviceNotFound else DiscoveryFailed(why.error);
      case Resolved(target) =>
        outcome, outlets, muse := RunSession(req, target, retries, consts, linkUp, start, readings, delay);
    }
  }
}
