/** The debug configuration provider of the DeviceScript VS Code extension
    (vscode/src/debugger.ts): the launch configuration it mutates, the calls
    and messages it issues, the two resolution steps as specification
    functions on values, and the provider class whose methods perform them
    in place on a configuration object. */
module Debugger {
  import opened Wrappers
  import opened Jacdac

  // ---------------------------------------------------------------------
  // The launch configuration
  // ---------------------------------------------------------------------

  /** The value of a `DeviceScriptDebugConfiguration`: every attribute the
      provider reads or writes. `sessionType` is the `type` attribute.
      `serviceInstance` is the attribute the default-device branch writes;
      `serviceIndex` is the one the service lookup reads. */
  datatype Config = Config(
    sessionType: Option<string>,
    request: Option<string>,
    name: Option<string>,
    program: Option<string>,
    stopOnEntry: Option<bool>,
    deviceId: Option<string>,
    serviceIndex: Option<int>,
    serviceInstance: Option<int>)

  /** JavaScript falsiness of an optional string attribute. */
  predicate Falsy(o: Option<string>) {
    o == None || o == Some("")
  }

  /** JavaScript falsiness of an optional number attribute. */
  predicate FalsyIndex(o: Option<int>) {
    o == None || o == Some(0)
  }

  /** `o || 0`: since a falsy number is 0 or absent, this is the index when
      one is given and 0 otherwise. */
  function IndexOrZero(o: Option<int>): (r: int)
    ensures r == if o.Some? then o.value else 0
  {
    if FalsyIndex(o) then 0 else o.value
  }

  /** The launch configuration object, updated in place by the provider. */
  class DebugConfiguration {
    var sessionType: Option<string>
    var request: Option<string>
    var name: Option<string>
    var program: Option<string>
    var stopOnEntry: Option<bool>
    var deviceId: Option<string>
    var serviceIndex: Option<int>
    var serviceInstance: Option<int>

    function Value(): Config
      reads this
    {
      Config(sessionType, request, name, program, stopOnEntry, deviceId, serviceIndex, serviceInstance)
    }

    constructor (v: Config)
      ensures Value() == v
    {
      sessionType, request, name, program := v.sessionType, v.request, v.name, v.program;
      stopOnEntry, deviceId := v.stopOnEntry, v.deviceId;
      serviceIndex, serviceInstance := v.serviceIndex, v.serviceInstance;
    }
  }

  // ---------------------------------------------------------------------
  // What the provider does to the outside world, and what it hears back
  // ---------------------------------------------------------------------

  /** One call to a collaborator or to the VS Code window, in the order made. */
  datatype Event =
    | ResolveDeviceScriptManager                                // extensionState.resolveDeviceScriptManager()
    | FindShortIdDevice(shortId: string)                        // bus.devices({ serviceClass }).find(...)
    | LookupDevice(deviceId: string)                            // bus.device(deviceId, true)
    | CheckRuntimeVersion(runtimeVersion: string, service: Service)
    | Build(program: Option<string>, deviceId: string)
    | ShowErrorMessage(text: string)
    | ShowInformationMessage(text: string)
    | ExecuteCommand(command: string)

  /** What `resolveDeviceScriptManager()` resolves to: a service and the
      device it belongs to (`service.device`). */
  datatype ScriptManager = ScriptManager(device: Device, service: Service)

  /** The answers the world gives during one resolution: the cancellation
      token sampled at its two checkpoints (false when there is no token),
      the default script manager, and the verdicts of the version check and
      of the build. Each is consulted at most once. */
  datatype Answers = Answers(
    cancelledAtEntry: bool,
    cancelledAfterDevice: bool,
    defaultManager: ScriptManager,
    versionOk: bool,
    buildOk: bool)

  /** The outcome of a resolution: the configuration object's final value,
      the calls made, and whether the object was returned (otherwise the
      result is `undefined`). */
  datatype Resolution = Resolution(config: Config, trace: seq<Event>, returned: bool)

  const NO_PROGRAM_MESSAGE := "Debug cancelled. Cannot find a program to debug."

  function DeviceNotFoundMessage(deviceId: string): string {
    "Debug cancelled. Could not find device " + deviceId + "."
  }

  // ---------------------------------------------------------------------
  // resolveDebugConfiguration
  // ---------------------------------------------------------------------

  /** Neither `type`, `request` nor `name` is set: launch.json is missing or empty. */
  predicate IsEmptyLaunch(c: Config) {
    Falsy(c.sessionType) && Falsy(c.request) && Falsy(c.name)
  }

  /** What `resolveDebugConfiguration` does to a configuration when the
      active editor's language is `activeLanguage` (None: no active editor). */
  function ResolveSpec(c: Config, activeLanguage: Option<string>): (o: Resolution)
    ensures o.returned <==> !Falsy(o.config.program)
    ensures o.trace == if o.returned then [] else [ShowInformationMessage(NO_PROGRAM_MESSAGE)]
    ensures IsEmptyLaunch(c) && activeLanguage == Some("typescript") ==>
              o.returned
              && o.config == c.(sessionType := Some("devicescript"), name := Some("Launch"),
                                request := Some("launch"), program := Some("${file}"),
                                stopOnEntry := Some(true))
    ensures !(IsEmptyLaunch(c) && activeLanguage == Some("typescript")) ==>
              o.config == c && (o.returned <==> !Falsy(c.program))
  {
    var c1 :=
      if IsEmptyLaunch(c) && activeLanguage == Some("typescript") then
        c.(sessionType := Some("devicescript"), name := Some("Launch"), request := Some("launch"),
           program := Some("${file}"), stopOnEntry := Some(true))
      else c;
    if Falsy(c1.program) then Resolution(c1, [ShowInformationMessage(NO_PROGRAM_MESSAGE)], false)
    else Resolution(c1, [], true)
  }

  // ---------------------------------------------------------------------
  // resolveDebugConfigurationWithSubstitutedVariables
  // ---------------------------------------------------------------------

  /** `/^[A-Z][A-Z][0-9][0-9]$/i`: two ASCII letters of either case, then two digits. */
  predicate IsShortIdPattern(s: string) {
    |s| == 4 && IsLetter(s[0]) && IsLetter(s[1]) && IsDigit(s[2]) && IsDigit(s[3])
  }

  predicate IsLetter(ch: char) {
    'A' <= ch <= 'Z' || 'a' <= ch <= 'z'
  }

  /** ASCII upper case of one character. */
  function UpperAscii(ch: char): char {
    if 'a' <= ch <= 'z' then (ch as int - 32) as char else ch
  }

  /** The `i` flag: whether an identifier has the short-id form does not
      depend on the case of its letters; and the form has exactly four
      characters. */
  lemma ShortIdPatternIgnoresCase(s: string)
    ensures var u := seq(|s|, i requires 0 <= i < |s| => UpperAscii(s[i]));
            IsShortIdPattern(s) <==> IsShortIdPattern(u)
    ensures IsShortIdPattern(s) ==> |s| == 4
  {
  }

  predicate IsDigit(ch: char) {
    '0' <= ch <= '9'
  }

  /** A device the short-id search accepts: it hosts a script manager and its
      short id is strictly equal to `id` (no case folding). */
  predicate ShortIdMatches(d: Device, id: string) {
    HasService(d, SRV_DEVICE_SCRIPT_MANAGER) && d.shortId == id
  }

  /** `k` is the position of the first device on the bus that the short-id
      search accepts. */
  predicate IsFirstShortIdMatch(bus: seq<Device>, id: string, k: int) {
    0 <= k < |bus| && ShortIdMatches(bus[k], id)
    && forall j :: 0 <= j < k ==> !ShortIdMatches(bus[j], id)
  }

  /** The identifier the configuration holds after short-id expansion: the
      long identifier of the script-manager device whose short id is `id`,
      when `id` looks like a short id and such a device exists (see
      ExpandShortIdSpec). */
  function ExpandShortId(bus: seq<Device>, id: string): (r: string)
    ensures !IsShortIdPattern(id) ==> r == id
    ensures r == id || exists d :: d in bus && ShortIdMatches(d, id) && r == d.deviceId
  {
    if IsShortIdPattern(id) then
      match Find(DevicesWithService(bus, SRV_DEVICE_SCRIPT_MANAGER), (d: Device) => d.shortId == id)
      case Some(d) => d.deviceId
      case None => id
    else id
  }

  /** Short-id expansion runs only on identifiers of the short-id form; it
      yields the long identifier of the first device in bus order that hosts a
      script manager and whose short id is exactly `id`, and leaves `id`
      unchanged when there is none. */
  lemma ExpandShortIdSpec(bus: seq<Device>, id: string)
    ensures !IsShortIdPattern(id) ==> ExpandShortId(bus, id) == id
    ensures IsShortIdPattern(id) ==>
              forall k :: IsFirstShortIdMatch(bus, id, k) ==> ExpandShortId(bus, id) == bus[k].deviceId
    ensures (forall k :: 0 <= k < |bus| ==> !ShortIdMatches(bus[k], id)) ==> ExpandShortId(bus, id) == id
  {
    var q := (d: Device) => ShortIdMatches(d, id);
    FindAfterFilter(bus, SRV_DEVICE_SCRIPT_MANAGER, (d: Device) => d.shortId == id, q);
    forall k | IsFirstShortIdMatch(bus, id, k)
      ensures Find(bus, q) == Some(bus[k])
    {
      FindFirst(bus, q, k);
    }
  }

  /** The script-manager service the lookup finds: the device with identifier
      `id`, then its script-manager service at position `serviceIndex || 0`. */
  function LookupService(bus: seq<Device>, id: string, serviceIndex: Option<int>): (r: Option<Service>)
    ensures DeviceById(bus, id).None? ==> r.None?
    ensures r.Some? ==>
              r.value.serviceClass == SRV_DEVICE_SCRIPT_MANAGER
              && DeviceById(bus, id).Some? && r.value in DeviceById(bus, id).value.services
  {
    match DeviceById(bus, id)
    case None => None
    case Some(d) =>
      var ss := ServicesOfClass(d.services, SRV_DEVICE_SCRIPT_MANAGER);
      var i := IndexOrZero(serviceIndex);
      if 0 <= i < |ss| then assert ss[i] in ss; Some(ss[i]) else None
  }

  /** What the default-device branch writes when `deviceId` is falsy: the
      default device's identifier, and in `serviceInstance` the position of
      the default service among its device's services of the same class, or
      -1 when it is not among them. Nothing else changes. */
  function FillDefaultDevice(c: Config, m: ScriptManager): (r: Config)
    ensures r == c.(deviceId := r.deviceId, serviceInstance := r.serviceInstance)
    ensures r.deviceId == Some(m.device.deviceId) && r.serviceInstance.Some?
    ensures var same := ServicesOfClass(m.device.services, m.service.serviceClass);
            var i := r.serviceInstance.value;
            (i == -1 <==> m.service !in m.device.services)
            && (0 <= i ==> i < |same| && same[i] == m.service && m.service !in same[..i])
  {
    var idx := IndexOf(ServicesOfClass(m.device.services, m.service.serviceClass), m.service);
    c.(deviceId := Some(m.device.deviceId), serviceInstance := Some(idx))
  }

  /** The configuration after the default-device branch. */
  function FilledConfig(c: Config, a: Answers): (r: Config)
    ensures r.deviceId.Some?
  {
    if Falsy(c.deviceId) then FillDefaultDevice(c, a.defaultManager) else c
  }

  /** The identifier the configuration holds after the default-device branch. */
  function FilledId(c: Config, a: Answers): string {
    FilledConfig(c, a).deviceId.value
  }

  /** The call made by the default-device branch. */
  function DefaultDeviceCalls(c: Config): seq<Event> {
    if Falsy(c.deviceId) then [ResolveDeviceScriptManager] else []
  }

  /** The calls made before the service lookup, when neither checkpoint fires. */
  function DevicePhase(c: Config, a: Answers): seq<Event> {
    DefaultDeviceCalls(c)
    + if IsShortIdPattern(FilledId(c, a)) then [FindShortIdDevice(FilledId(c, a))] else []
  }

  /** What `resolveDebugConfigurationWithSubstitutedVariables` does to a
      configuration, on a bus and with a runtime version, given the answers. */
  function ResolveSubstitutedSpec(bus: seq<Device>, runtimeVersion: string, c: Config, a: Answers): (o: Resolution)
    ensures o.config == c.(deviceId := o.config.deviceId, serviceInstance := o.config.serviceInstance)
    ensures o.returned ==>
              a.versionOk && a.buildOk && o.config.deviceId.Some? && |o.trace| > 0
              && o.trace[|o.trace| - 1] == Build(c.program, o.config.deviceId.value)
  {
    if a.cancelledAtEntry then Resolution(c, [], false)
    else if a.cancelledAfterDevice then Resolution(FilledConfig(c, a), DefaultDeviceCalls(c), false)
    else
      LookupAndBuild(bus, runtimeVersion,
                     FilledConfig(c, a).(deviceId := Some(ExpandShortId(bus, FilledId(c, a)))),
                     DevicePhase(c, a), a)
  }

  /** The steps after the second cancellation checkpoint: service lookup,
      version gate, build and deploy. They leave the configuration alone,
      keep the calls made before them and add the device lookup next; a
      returned configuration means the gate and the build passed, the build
      being the last call. */
  function LookupAndBuild(bus: seq<Device>, runtimeVersion: string, c: Config, trace: seq<Event>, a: Answers): (o: Resolution)
    requires c.deviceId.Some?
    ensures o.config == c
    ensures |o.trace| > |trace| && o.trace[..|trace|] == trace
            && o.trace[|trace|] == LookupDevice(c.deviceId.value)
    ensures o.returned ==>
              a.versionOk && a.buildOk && o.trace[|o.trace| - 1] == Build(c.program, c.deviceId.value)
  {
    var id := c.deviceId.value;
    var t := trace + [LookupDevice(id)];
    match LookupService(bus, id, c.serviceIndex)
    case None => Resolution(c, t + [ShowErrorMessage(DeviceNotFoundMessage(id))], false)
    case Some(s) =>
      var t1 := t + [CheckRuntimeVersion(runtimeVersion, s)];
      if !a.versionOk then Resolution(c, t1, false)
      else Resolution(c, t1 + [Build(c.program, id)], a.buildOk)
  }

  // ---------------------------------------------------------------------
  // The provider and the adapter descriptor factory
  // ---------------------------------------------------------------------

  /** The part of the extension state the provider reads: the runtime
      version it currently expects, which can change between sessions. */
  class ExtensionState {
    var runtimeVersion: string

    constructor (runtimeVersion: string)
      ensures this.runtimeVersion == runtimeVersion
    {
      this.runtimeVersion := runtimeVersion;
    }
  }

  /** `DeviceScriptConfigurationProvider`: it keeps the bus and the extension
      state it is built with, and reads the runtime version from the state on
      each resolution. */
  class ConfigurationProvider {
    const bus: seq<Device>
    const extensionState: ExtensionState

    constructor (bus: seq<Device>, extensionState: ExtensionState)
      ensures this.bus == bus && this.extensionState == extensionState
    {
      this.bus := bus;
      this.extensionState := extensionState;
    }

    /** Fills in a default launch configuration for a TypeScript editor when
        launch.json is missing or empty, and refuses a configuration without
        a program. */
    method ResolveDebugConfiguration(config: DebugConfiguration, activeLanguage: Option<string>)
      returns (r: Option<DebugConfiguration>, trace: seq<Event>)
      modifies config
      ensures var o := ResolveSpec(old(config.Value()), activeLanguage);
              config.Value() == o.config && trace == o.trace
              && r == if o.returned then Some(config) else None
    {
      trace := [];
      if Falsy(config.sessionType) && Falsy(config.request) && Falsy(config.name) {
        if activeLanguage == Some("typescript") {
          config.sessionType := Some("devicescript");
          config.name := Some("Launch");
          config.request := Some("launch");
          config.program := Some("${file}");
          config.stopOnEntry := Some(true);
        }
      }
      if Falsy(config.program) {
        trace := trace + [ShowInformationMessage(NO_PROGRAM_MESSAGE)];
        return None, trace;
      }
      return Some(config), trace;
    }

    /** Picks, expands and checks the target device, then builds and deploys
        the program onto it; `undefined` on cancellation or any failure. */
    method ResolveDebugConfigurationWithSubstitutedVariables(config: DebugConfiguration, a: Answers)
      returns (r: Option<DebugConfiguration>, trace: seq<Event>)
      modifies config
      ensures var o := ResolveSubstitutedSpec(bus, extensionState.runtimeVersion, old(config.Value()), a);
              config.Value() == o.config && trace == o.trace
              && r == if o.returned then Some(config) else None
    {
      ghost var c0 := config.Value();
      trace := [];
      if a.cancelledAtEntry {
        return None, trace;
      }

      // find device
      if Falsy(config.deviceId) {
        trace := trace + [ResolveDeviceScriptManager];
        var m := a.defaultManager;
        var idx := IndexOf(ServicesOfClass(m.device.services, m.service.serviceClass), m.service);
        config.deviceId := Some(m.device.deviceId);
        config.serviceInstance := Some(idx);
      }

      if a.cancelledAfterDevice {
        return None, trace;
      }

      ghost var c1, t1 := config.Value(), trace;
      assert c1 == FilledConfig(c0, a) && t1 == DefaultDeviceCalls(c0);

      // expand device short name
      var id := config.deviceId.value;
      if IsShortIdPattern(id) {
        trace := trace + [FindShortIdDevice(id)];
        var shortIdDevice := Find(DevicesWithService(bus, SRV_DEVICE_SCRIPT_MANAGER), (d: Device) => d.shortId == id);
        if shortIdDevice.Some? {
          config.deviceId := Some(shortIdDevice.value.deviceId);
        }
      }
      assert config.Value() == c1.(deviceId := Some(ExpandShortId(bus, c1.deviceId.value)));
      assert trace == t1 + if IsShortIdPattern(c1.deviceId.value) then [FindShortIdDevice(c1.deviceId.value)] else [];
      assert ResolveSubstitutedSpec(bus, extensionState.runtimeVersion, c0, a)
          == LookupAndBuild(bus, extensionState.runtimeVersion, config.Value(), trace, a);
      r, trace := LookupAndDeploy(config, trace, a);
    }

    /** The second half of `resolveDebugConfigurationWithSubstitutedVariables`:
        find the script-manager service of the configured device, check its
        runtime version, then build and deploy, after the calls in `before`.
        It reads the configuration and changes nothing in it. */
    method LookupAndDeploy(config: DebugConfiguration, before: seq<Event>, a: Answers)
      returns (r: Option<DebugConfiguration>, trace: seq<Event>)
      requires config.deviceId.Some?
      ensures var o := LookupAndBuild(bus, extensionState.runtimeVersion, config.Value(), before, a);
              trace == o.trace && r == if o.returned then Some(config) else None
    {
      trace := before;

      // find service
      var id := config.deviceId.value;
      trace := trace + [LookupDevice(id)];
      var service := LookupService(bus, id, config.serviceIndex);
      if service.None? {
        trace := trace + [ShowErrorMessage(DeviceNotFoundMessage(id))];
        return None, trace;
      }

      // check version
      trace := trace + [CheckRuntimeVersion(extensionState.runtimeVersion, service.value)];
      if !a.versionOk {
        return None, trace;
      }

      // build and deploy
      trace := trace + [Build(config.program, id)];
      if !a.buildOk {
        return None, trace;
      }
      return Some(config), trace;
    }
  }

  /** The endpoint of the debug adapter server. */
  datatype DebugAdapterServer = DebugAdapterServer(port: nat, host: string)

  const SHOW_SERVER_TERMINAL := "extension.devicescript.showServerTerminal"

  /** `DeviceScriptAdapterServerDescriptorFactory.createDebugAdapterDescriptor`,
      given the `devicescript.debugger.showTerminalOnStart` setting: the
      endpoint, and the command it runs first. */
  function CreateDebugAdapterDescriptor(showTerminalOnStart: bool): (r: (DebugAdapterServer, seq<Event>))
    ensures r.0.port == 8083 && r.0.host == "localhost"
    ensures r.1 == if showTerminalOnStart then [ExecuteCommand(SHOW_SERVER_TERMINAL)] else []
  {
    var trace := if showTerminalOnStart then [ExecuteCommand(SHOW_SERVER_TERMINAL)] else [];
    (DebugAdapterServer(8083, "localhost"), trace)
  }
}
