/** Properties of the two resolution steps of the debug configuration
    provider, stated over the value-level specifications in module Debugger:
    which exit is taken, what is written into the configuration, and which
    calls happen in which order. */
module DebuggerProperties {
  import opened Wrappers
  import opened Jacdac
  import opened Debugger

  /** The lookup-and-build phase leaves the configuration alone and appends
      one of three call sequences to the calls before it. */
  lemma LookupAndBuildTail(bus: seq<Device>, runtimeVersion: string, c: Config, t: seq<Event>, a: Answers)
    requires c.deviceId.Some?
    ensures var o := LookupAndBuild(bus, runtimeVersion, c, t, a);
            var id := c.deviceId.value;
            var found := LookupService(bus, id, c.serviceIndex);
            o.config == c
            && o.trace == t + [LookupDevice(id)]
                            + (if found.None? then [ShowErrorMessage(DeviceNotFoundMessage(id))]
                               else [CheckRuntimeVersion(runtimeVersion, found.value)]
                                    + if a.versionOk then [Build(c.program, id)] else [])
            && o.returned == (found.Some? && a.versionOk && a.buildOk)
  {
  }

  // ---------------------------------------------------------------------
  // Cancellation
  // ---------------------------------------------------------------------

  /** A token already cancelled on entry: `undefined`, nothing written and
      nothing called. */
  lemma CancelledAtEntry(bus: seq<Device>, runtimeVersion: string, c: Config, a: Answers)
    requires a.cancelledAtEntry
    ensures ResolveSubstitutedSpec(bus, runtimeVersion, c, a) == Resolution(c, [], false)
  {
  }

  /** A token cancelled by the second checkpoint: `undefined`, and the only
      call made is the default-device resolution, when `deviceId` was falsy;
      no bus query, version check or build. */
  lemma CancelledAfterDeviceResolution(bus: seq<Device>, runtimeVersion: string, c: Config, a: Answers)
    requires !a.cancelledAtEntry && a.cancelledAfterDevice
    ensures var o := ResolveSubstitutedSpec(bus, runtimeVersion, c, a);
            !o.returned
            && o.trace == (if Falsy(c.deviceId) then [ResolveDeviceScriptManager] else [])
            && forall e :: e in o.trace ==> !e.FindShortIdDevice? && !e.LookupDevice?
                                            && !e.CheckRuntimeVersion? && !e.Build?
  {
  }

  // ---------------------------------------------------------------------
  // Device resolution
  // ---------------------------------------------------------------------

  /** A falsy `deviceId` is filled from the default script manager: its
      device's identifier, and in `serviceInstance` (not `serviceIndex`) the
      position of the service among its device's services of the same class,
      or -1 when the service is not among them. A set `deviceId` leaves both
      attributes alone and the default resolver is not called. */
  lemma DeviceFill(bus: seq<Device>, runtimeVersion: string, c: Config, a: Answers)
    requires !a.cancelledAtEntry
    ensures var o := ResolveSubstitutedSpec(bus, runtimeVersion, c, a);
            var m := a.defaultManager;
            var same := ServicesOfClass(m.device.services, m.service.serviceClass);
            o.config.serviceIndex == c.serviceIndex
            && (Falsy(c.deviceId) ==>
                  |o.trace| > 0 && o.trace[0] == ResolveDeviceScriptManager
                  && o.config.serviceInstance.Some?
                  && var i := o.config.serviceInstance.value;
                     (i == -1 <==> m.service !in same)
                     && (0 <= i ==> i < |same| && same[i] == m.service && m.service !in same[..i]))
            && (Falsy(c.deviceId) && a.cancelledAfterDevice ==> o.config.deviceId == Some(m.device.deviceId))
            && (!Falsy(c.deviceId) ==>
                  o.config.serviceInstance == c.serviceInstance && ResolveDeviceScriptManager !in o.trace)
  {
    if !a.cancelledAfterDevice {
      var c2 := FilledConfig(c, a).(deviceId := Some(ExpandShortId(bus, FilledId(c, a))));
      var pre := DevicePhase(c, a);
      assert Falsy(c.deviceId) ==> pre[0] == ResolveDeviceScriptManager;
      assert !Falsy(c.deviceId) ==> ResolveDeviceScriptManager !in pre;
      LookupAndBuildTail(bus, runtimeVersion, c2, pre, a);
    }
  }

  /** Past the second checkpoint the configuration holds the expansion of the
      filled-in identifier, and the short-id search was made exactly when
      that identifier has the short-id form. */
  lemma ShortIdExpansionStep(bus: seq<Device>, runtimeVersion: string, c: Config, a: Answers)
    requires !a.cancelledAtEntry && !a.cancelledAfterDevice
    ensures var o := ResolveSubstitutedSpec(bus, runtimeVersion, c, a);
            var id0 := FilledId(c, a);
            o.config.deviceId == Some(ExpandShortId(bus, id0))
            && (FindShortIdDevice(id0) in o.trace <==> IsShortIdPattern(id0))
            && (!IsShortIdPattern(id0) ==> o.config.deviceId == Some(id0))
  {
    var id0 := FilledId(c, a);
    var c2 := FilledConfig(c, a).(deviceId := Some(ExpandShortId(bus, id0)));
    LookupAndBuildTail(bus, runtimeVersion, c2, DevicePhase(c, a), a);
    ExpandShortIdSpec(bus, id0);
  }

  /** An identifier of the short-id form that differs only in case from a
      device's short id is not expanded: the comparison is strict. With a
      lower-case `ab12` and a single script-manager device `AB12`, the lookup
      fails and the error names `ab12`. */
  lemma LowerCaseShortIdIsNotExpanded(runtimeVersion: string, c: Config, a: Answers)
    requires !a.cancelledAtEntry && !a.cancelledAfterDevice
    requires c.deviceId == Some("ab12")
    ensures var bus := [Device("2f6ab12c3d4e5f60", "AB12", [Service(1, SRV_DEVICE_SCRIPT_MANAGER)])];
            var o := ResolveSubstitutedSpec(bus, runtimeVersion, c, a);
            IsShortIdPattern("ab12")
            && o.config.deviceId == Some("ab12")
            && !o.returned
            && o.trace == [FindShortIdDevice("ab12"), LookupDevice("ab12"),
                           ShowErrorMessage(DeviceNotFoundMessage("ab12"))]
  {
    var d := Device("2f6ab12c3d4e5f60", "AB12", [Service(1, SRV_DEVICE_SCRIPT_MANAGER)]);
    ExpandShortIdSpec([d], "ab12");
    assert [d][1..] == [];
  }

  /** Expanding twice is expanding once, on a bus where no long identifier
      has the short-id form. */
  lemma ExpandShortIdIdempotent(bus: seq<Device>, id: string)
    requires forall k :: 0 <= k < |bus| ==> !IsShortIdPattern(bus[k].deviceId)
    ensures ExpandShortId(bus, ExpandShortId(bus, id)) == ExpandShortId(bus, id)
  {
    var r := ExpandShortId(bus, id);
    if r != id {
      var f := Find(DevicesWithService(bus, SRV_DEVICE_SCRIPT_MANAGER), (d: Device) => d.shortId == id);
      assert f.Some? && f.value in bus;
    }
  }

  // ---------------------------------------------------------------------
  // Service lookup
  // ---------------------------------------------------------------------

  /** In the lookup phase, after calls that include no error message, no
      version check and no build: the lookup is made with the configured
      identifier, a miss ends with the error message naming it and nothing
      after, and a hit shows no error. */
  lemma LookupPhaseErrors(bus: seq<Device>, runtimeVersion: string, c: Config, t: seq<Event>, a: Answers)
    requires c.deviceId.Some?
    requires forall e :: e in t ==> !e.ShowErrorMessage? && !e.CheckRuntimeVersion? && !e.Build?
    ensures var o := LookupAndBuild(bus, runtimeVersion, c, t, a);
            var id := c.deviceId.value;
            LookupDevice(id) in o.trace
            && (LookupService(bus, id, c.serviceIndex).None? ==>
                  !o.returned
                  && o.trace[|o.trace| - 1] == ShowErrorMessage(DeviceNotFoundMessage(id))
                  && forall e :: e in o.trace ==> !e.CheckRuntimeVersion? && !e.Build?)
            && (LookupService(bus, id, c.serviceIndex).Some? ==>
                  forall e :: e in o.trace ==> !e.ShowErrorMessage?)
  {
    LookupAndBuildTail(bus, runtimeVersion, c, t, a);
  }

  /** Past the second checkpoint the lookup is made with the final
      identifier. When it finds no service, the result is `undefined`, the
      last call is an error message naming that identifier, and neither the
      version check nor the build happens; when it finds one, no error
      message is shown. */
  lemma ServiceLookup(bus: seq<Device>, runtimeVersion: string, c: Config, a: Answers)
    requires !a.cancelledAtEntry && !a.cancelledAfterDevice
    ensures var o := ResolveSubstitutedSpec(bus, runtimeVersion, c, a);
            o.config.deviceId.Some?
            && var id := o.config.deviceId.value;
               LookupDevice(id) in o.trace
               && (LookupService(bus, id, c.serviceIndex).None? ==>
                     !o.returned
                     && o.trace[|o.trace| - 1] == ShowErrorMessage(DeviceNotFoundMessage(id))
                     && forall e :: e in o.trace ==> !e.CheckRuntimeVersion? && !e.Build?)
               && (LookupService(bus, id, c.serviceIndex).Some? ==>
                     forall e :: e in o.trace ==> !e.ShowErrorMessage?)
  {
    var c2 := FilledConfig(c, a).(deviceId := Some(ExpandShortId(bus, FilledId(c, a))));
    var pre := DevicePhase(c, a);
    assert forall e :: e in pre ==> e.ResolveDeviceScriptManager? || e.FindShortIdDevice?;
    LookupPhaseErrors(bus, runtimeVersion, c2, pre, a);
  }

  /** The service the lookup finds is the one at position `serviceIndex || 0`
      among the script-manager services of the first device on the bus with
      that identifier; there is none when no device has it or the position
      is out of range. */
  lemma LookupServiceSpec(bus: seq<Device>, id: string, serviceIndex: Option<int>, k: int)
    requires 0 <= k < |bus| && bus[k].deviceId == id
    requires forall j :: 0 <= j < k ==> bus[j].deviceId != id
    ensures var ss := ServicesOfClass(bus[k].services, SRV_DEVICE_SCRIPT_MANAGER);
            var i := if FalsyIndex(serviceIndex) then 0 else serviceIndex.value;
            LookupService(bus, id, serviceIndex) == if 0 <= i < |ss| then Some(ss[i]) else None
  {
    FindFirst(bus, (d: Device) => d.deviceId == id, k);
  }

  /** An absent `serviceIndex` and a `serviceIndex` of 0 resolve alike: same
      calls, same result, same final attributes apart from `serviceIndex`. */
  lemma ServiceIndexDefaultsToZero(bus: seq<Device>, runtimeVersion: string, c: Config, a: Answers)
    ensures var o0 := ResolveSubstitutedSpec(bus, runtimeVersion, c.(serviceIndex := None), a);
            var o1 := ResolveSubstitutedSpec(bus, runtimeVersion, c.(serviceIndex := Some(0)), a);
            o0.trace == o1.trace && o0.returned == o1.returned
            && o0.config == o1.config.(serviceIndex := None)
  {
    var c0, c1 := c.(serviceIndex := None), c.(serviceIndex := Some(0));
    assert FilledConfig(c0, a) == FilledConfig(c1, a).(serviceIndex := None);
    if !a.cancelledAtEntry && !a.cancelledAfterDevice {
      var id := ExpandShortId(bus, FilledId(c, a));
      var d0 := FilledConfig(c0, a).(deviceId := Some(id));
      var d1 := FilledConfig(c1, a).(deviceId := Some(id));
      assert LookupService(bus, id, d0.serviceIndex) == LookupService(bus, id, d1.serviceIndex);
      LookupAndBuildTail(bus, runtimeVersion, d0, DevicePhase(c, a), a);
      LookupAndBuildTail(bus, runtimeVersion, d1, DevicePhase(c, a), a);
    }
  }

  // ---------------------------------------------------------------------
  // Version gate and build
  // ---------------------------------------------------------------------

  /** In the lookup phase, after calls that include no version check and no
      build, the build can only be the last call, right after a version
      check that passed, and the version check is made on the service found. */
  lemma LookupAndBuildGate(bus: seq<Device>, runtimeVersion: string, c: Config, t: seq<Event>, a: Answers)
    requires c.deviceId.Some?
    requires forall e :: e in t ==> !e.Build? && !e.CheckRuntimeVersion?
    ensures var o := LookupAndBuild(bus, runtimeVersion, c, t, a);
            var found := LookupService(bus, c.deviceId.value, c.serviceIndex);
            (forall e :: e in o.trace && e.Build? ==>
               a.versionOk && |o.trace| >= 2 && o.trace[|o.trace| - 1] == e
               && o.trace[|o.trace| - 2].CheckRuntimeVersion?)
            && (forall e :: e in o.trace && e.CheckRuntimeVersion? ==>
                  found.Some? && e == CheckRuntimeVersion(runtimeVersion, found.value))
  {
    LookupAndBuildTail(bus, runtimeVersion, c, t, a);
  }

  /** The build is called only as the last call, right after a version
      check that passed; the version check is called only on the service the
      lookup found, with the extension's runtime version. */
  lemma VersionGateBeforeBuild(bus: seq<Device>, runtimeVersion: string, c: Config, a: Answers)
    ensures var o := ResolveSubstitutedSpec(bus, runtimeVersion, c, a);
            (forall e :: e in o.trace && e.Build? ==>
               a.versionOk && |o.trace| >= 2 && o.trace[|o.trace| - 1] == e
               && o.trace[|o.trace| - 2].CheckRuntimeVersion?)
            && (forall e :: e in o.trace && e.CheckRuntimeVersion? ==>
                  o.config.deviceId.Some?
                  && LookupService(bus, o.config.deviceId.value, c.serviceIndex).Some?
                  && e == CheckRuntimeVersion(runtimeVersion, LookupService(bus, o.config.deviceId.value, c.serviceIndex).value))
  {
    if !a.cancelledAtEntry && !a.cancelledAfterDevice {
      var c2 := FilledConfig(c, a).(deviceId := Some(ExpandShortId(bus, FilledId(c, a))));
      LookupAndBuildGate(bus, runtimeVersion, c2, DevicePhase(c, a), a);
    }
  }

  /** The stage of the resolution a call belongs to. */
  function Stage(e: Event): nat {
    match e
    case ResolveDeviceScriptManager => 0
    case FindShortIdDevice(_) => 1
    case LookupDevice(_) => 2
    case CheckRuntimeVersion(_, _) => 3
    case Build(_, _) => 4
    case ShowErrorMessage(_) => 5
    case ShowInformationMessage(_) => 6
    case ExecuteCommand(_) => 7
  }

  /** Every call belongs to a strictly later stage than the calls before it. */
  predicate InStageOrder(t: seq<Event>) {
    forall i, j :: 0 <= i < j < |t| ==> Stage(t[i]) < Stage(t[j])
  }

  lemma AppendInStageOrder(t: seq<Event>, e: Event)
    requires InStageOrder(t)
    requires t == [] || Stage(t[|t| - 1]) < Stage(e)
    ensures InStageOrder(t + [e])
  {
    forall i, j | 0 <= i < j < |t + [e]|
      ensures Stage((t + [e])[i]) < Stage((t + [e])[j])
    {
      if j == |t| && i < |t| - 1 {
        assert Stage(t[i]) < Stage(t[|t| - 1]);
      }
    }
  }

  /** The lookup-and-build phase keeps calls in stage order when the calls
      before it end before the lookup stage. */
  lemma LookupAndBuildInStageOrder(bus: seq<Device>, runtimeVersion: string, c: Config, t: seq<Event>, a: Answers)
    requires c.deviceId.Some?
    requires InStageOrder(t) && (t == [] || Stage(t[|t| - 1]) < 2)
    ensures InStageOrder(LookupAndBuild(bus, runtimeVersion, c, t, a).trace)
  {
    LookupAndBuildTail(bus, runtimeVersion, c, t, a);
    var id := c.deviceId.value;
    var t3 := t + [LookupDevice(id)];
    AppendInStageOrder(t, LookupDevice(id));
    match LookupService(bus, id, c.serviceIndex)
    case None =>
      AppendInStageOrder(t3, ShowErrorMessage(DeviceNotFoundMessage(id)));
    case Some(s) =>
      var t4 := t3 + [CheckRuntimeVersion(runtimeVersion, s)];
      AppendInStageOrder(t3, CheckRuntimeVersion(runtimeVersion, s));
      if a.versionOk {
        AppendInStageOrder(t4, Build(c.program, id));
        assert t4 + [Build(c.program, id)]
            == t3 + ([CheckRuntimeVersion(runtimeVersion, s)] + [Build(c.program, id)]);
      }
  }

  /** The calls follow the pipeline: default-device resolution, short-id
      search, device lookup, then either the error message or the version
      check and the build, each at most once. */
  lemma CallsInPipelineOrder(bus: seq<Device>, runtimeVersion: string, c: Config, a: Answers)
    ensures InStageOrder(ResolveSubstitutedSpec(bus, runtimeVersion, c, a).trace)
  {
    if !a.cancelledAtEntry && !a.cancelledAfterDevice {
      var id0 := FilledId(c, a);
      var t1: seq<Event> := if Falsy(c.deviceId) then [ResolveDeviceScriptManager] else [];
      if IsShortIdPattern(id0) {
        AppendInStageOrder(t1, FindShortIdDevice(id0));
      }
      var pre := DevicePhase(c, a);
      assert pre == [] || Stage(pre[|pre| - 1]) < 2;
      LookupAndBuildInStageOrder(bus, runtimeVersion,
        FilledConfig(c, a).(deviceId := Some(ExpandShortId(bus, id0))), pre, a);
    }
  }

  /** Each collaborator is called at most once per resolution. */
  lemma CalledAtMostOnce(bus: seq<Device>, runtimeVersion: string, c: Config, a: Answers)
    ensures var t := ResolveSubstitutedSpec(bus, runtimeVersion, c, a).trace;
            forall i, j :: 0 <= i < j < |t| ==>
              !(t[i].Build? && t[j].Build?)
              && !(t[i].CheckRuntimeVersion? && t[j].CheckRuntimeVersion?)
              && !(t[i].LookupDevice? && t[j].LookupDevice?)
              && !(t[i].FindShortIdDevice? && t[j].FindShortIdDevice?)
              && !(t[i].ResolveDeviceScriptManager? && t[j].ResolveDeviceScriptManager?)
  {
    CallsInPipelineOrder(bus, runtimeVersion, c, a);
  }

  /** Past the checkpoints and with a service found, the outcome is decided
      by the gate and the build alone: a failing gate or build gives
      `undefined`, both passing give the configuration. */
  lemma GateAndBuildDecide(bus: seq<Device>, runtimeVersion: string, c: Config, a: Answers)
    requires !a.cancelledAtEntry && !a.cancelledAfterDevice
    ensures var o := ResolveSubstitutedSpec(bus, runtimeVersion, c, a);
            LookupService(bus, o.config.deviceId.value, c.serviceIndex).Some? ==>
              (o.returned <==> a.versionOk && a.buildOk)
              && (Build(c.program, o.config.deviceId.value) in o.trace <==> a.versionOk)
  {
    var o := ResolveSubstitutedSpec(bus, runtimeVersion, c, a);
    if LookupService(bus, o.config.deviceId.value, c.serviceIndex).Some? && !a.versionOk {
      assert forall e :: e in o.trace ==> !e.Build?;
    }
  }

  // ---------------------------------------------------------------------
  // Whole runs
  // ---------------------------------------------------------------------

  /** A configuration naming a device by a long identifier that is on the bus
      (first with that identifier), with a script-manager service at its
      `serviceIndex || 0`: it comes back unchanged after exactly one lookup,
      one version check and, when that passes, one build. */
  lemma FullySpecifiedPassesThrough(bus: seq<Device>, runtimeVersion: string, c: Config, a: Answers, k: int)
    requires !a.cancelledAtEntry && !a.cancelledAfterDevice
    requires c.deviceId.Some? && c.deviceId.value != "" && !IsShortIdPattern(c.deviceId.value)
    requires 0 <= k < |bus| && bus[k].deviceId == c.deviceId.value
    requires forall j :: 0 <= j < k ==> bus[j].deviceId != c.deviceId.value
    requires 0 <= IndexOrZero(c.serviceIndex) < |ServicesOfClass(bus[k].services, SRV_DEVICE_SCRIPT_MANAGER)|
    ensures var o := ResolveSubstitutedSpec(bus, runtimeVersion, c, a);
            var id := c.deviceId.value;
            var s := ServicesOfClass(bus[k].services, SRV_DEVICE_SCRIPT_MANAGER)[IndexOrZero(c.serviceIndex)];
            o.config == c
            && o.returned == (a.versionOk && a.buildOk)
            && o.trace == [LookupDevice(id), CheckRuntimeVersion(runtimeVersion, s)]
                          + (if a.versionOk then [Build(c.program, id)] else [])
  {
    LookupServiceSpec(bus, c.deviceId.value, c.serviceIndex, k);
  }

  /** With no `deviceId` and no `serviceIndex`, the version check goes to
      the first script-manager service of the default device, not
      to the default service itself: its position lands in `serviceInstance`,
      which the lookup does not read. */
  lemma DefaultServicePositionIsNotUsed(bus: seq<Device>, runtimeVersion: string, c: Config, a: Answers, k: int)
    requires !a.cancelledAtEntry && !a.cancelledAfterDevice
    requires c.deviceId == None && c.serviceIndex == None
    requires var m := a.defaultManager;
             0 <= k < |bus| && bus[k] == m.device && !IsShortIdPattern(m.device.deviceId)
             && (forall j :: 0 <= j < k ==> bus[j].deviceId != m.device.deviceId)
             && ServicesOfClass(m.device.services, SRV_DEVICE_SCRIPT_MANAGER) != []
    ensures var m := a.defaultManager;
            var o := ResolveSubstitutedSpec(bus, runtimeVersion, c, a);
            o.config.serviceIndex == None
            && o.trace[2] == CheckRuntimeVersion(runtimeVersion, ServicesOfClass(m.device.services, SRV_DEVICE_SCRIPT_MANAGER)[0])
  {
    var m := a.defaultManager;
    LookupServiceSpec(bus, m.device.deviceId, None, k);
  }

  /** An instance: the default service is the second of two script managers
      on its device, yet the version check is made on the first. */
  lemma DefaultSecondServiceChecksFirst(runtimeVersion: string, c: Config, a: Answers)
    requires !a.cancelledAtEntry && !a.cancelledAfterDevice
    requires c.deviceId == None && c.serviceIndex == None
    requires a.defaultManager == ScriptManager(
               Device("93c2e1f0a4b5d6e7", "XK42", [Service(1, SRV_DEVICE_SCRIPT_MANAGER), Service(2, SRV_DEVICE_SCRIPT_MANAGER)]),
               Service(2, SRV_DEVICE_SCRIPT_MANAGER))
    ensures var o := ResolveSubstitutedSpec([a.defaultManager.device], runtimeVersion, c, a);
            o.config.serviceInstance == Some(1)
            && o.trace[2] == CheckRuntimeVersion(runtimeVersion, Service(1, SRV_DEVICE_SCRIPT_MANAGER))
            && o.trace[2] != CheckRuntimeVersion(runtimeVersion, a.defaultManager.service)
  {
    var d := a.defaultManager.device;
    var ss := ServicesOfClass(d.services, SRV_DEVICE_SCRIPT_MANAGER);
    assert d.services[1..][1..] == [];
    assert ServicesOfClass(d.services[1..], SRV_DEVICE_SCRIPT_MANAGER) == [d.services[1]];
    assert ss == d.services;
    assert ss[1..] == [Service(2, SRV_DEVICE_SCRIPT_MANAGER)];
    DefaultServicePositionIsNotUsed([d], runtimeVersion, c, a, 0);
  }

  // ---------------------------------------------------------------------
  // resolveDebugConfiguration, and the adapter descriptor
  // ---------------------------------------------------------------------

  /** An empty configuration with a TypeScript editor is always launchable,
      with the current file as program; with any other editor, or none, it
      is refused with the information message. */
  lemma EmptyLaunchDefaults(c: Config, activeLanguage: Option<string>)
    requires IsEmptyLaunch(c) && Falsy(c.program)
    ensures var o := ResolveSpec(c, activeLanguage);
            (o.returned <==> activeLanguage == Some("typescript"))
            && (o.returned ==> o.config.program == Some("${file}") && o.config.stopOnEntry == Some(true))
            && (!o.returned ==> o.trace == [ShowInformationMessage(NO_PROGRAM_MESSAGE)])
  {
  }

  // ---------------------------------------------------------------------
  // A session start, as the host drives it
  // ---------------------------------------------------------------------

  /** F5 with no launch.json in a TypeScript editor, on a bus with one
      script-manager device that is also the default: the first step fills
      in the launch defaults, the host substitutes `${file}`, and the second
      step picks the device, checks it and builds onto it. */
  method LaunchFromTypeScriptEditor(a: Answers)
    requires !a.cancelledAtEntry && !a.cancelledAfterDevice && a.versionOk && a.buildOk
    requires a.defaultManager == ScriptManager(
               Device("93c2e1f0a4b5d6e7", "XK42", [Service(1, SRV_DEVICE_SCRIPT_MANAGER)]),
               Service(1, SRV_DEVICE_SCRIPT_MANAGER))
  {
    var d := a.defaultManager.device;
    var state := new ExtensionState("2.4.1");
    var provider := new ConfigurationProvider([d], state);
    var config := new DebugConfiguration(Config(None, None, None, None, None, None, None, None));

    var r1, t1 := provider.ResolveDebugConfiguration(config, Some("typescript"));
    assert r1 == Some(config) && t1 == [];
    assert config.program == Some("${file}") && config.stopOnEntry == Some(true);

    config.program := Some("app.ts");

    var r2, t2 := provider.ResolveDebugConfigurationWithSubstitutedVariables(config, a);
    assert d.services[1..] == [];
    assert ServicesOfClass(d.services, SRV_DEVICE_SCRIPT_MANAGER) == d.services;
    LookupServiceSpec([d], d.deviceId, None, 0);
    assert r2 == Some(config);
    assert config.deviceId == Some("93c2e1f0a4b5d6e7") && config.serviceInstance == Some(0);
    assert t2 == [ResolveDeviceScriptManager, LookupDevice("93c2e1f0a4b5d6e7"),
                  CheckRuntimeVersion("2.4.1", Service(1, SRV_DEVICE_SCRIPT_MANAGER)),
                  Build(Some("app.ts"), "93c2e1f0a4b5d6e7")];
  }
}
