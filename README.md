# DeviceScript debug configuration resolution, in Dafny

This project models how the DeviceScript VS Code extension turns a launch
request into a debug session it can start (`vscode/src/debugger.ts`).

The class `DeviceScriptConfigurationProvider` has two entry points. Both
update the launch configuration object in place and return either that
object or `undefined`:

- `resolveDebugConfiguration` runs first. When launch.json is missing or
  empty and the active editor holds TypeScript, it fills in a default
  launch. It refuses a configuration without a `program`.
- `resolveDebugConfigurationWithSubstitutedVariables` runs after the host
  has substituted variables such as `${file}`. In order, it:
  1. checks the cancellation token;
  2. fills a missing `deviceId` from the default script-manager service;
  3. checks the token again;
  4. expands a short device id (two letters, two digits) to the long id;
  5. looks up the script-manager service on the bus;
  6. runs the runtime-version gate;
  7. builds and deploys the program.

`DeviceScriptAdapterServerDescriptorFactory` always points the host at the
adapter server on localhost:8083.

Files:

- `wrappers.dfy`: `Option`.
- `jacdac.dfy`: the bus as an immutable sequence of devices with services,
  and the queries the provider makes on it (`services({ serviceClass })`,
  `devices({ serviceClass })`, `device(id, true)`, `find`, `indexOf`), as
  functions with their own contracts.
- `debugger.dfy`: the configuration record (`Config`) and the mutable
  configuration object (`DebugConfiguration`). Also the calls the provider
  makes, recorded as a trace of `Event`s, and the answers its collaborators
  give (`Answers`).
  - Each entry point has a specification function on values (`ResolveSpec`,
    `ResolveSubstitutedSpec`).
  - The class `ConfigurationProvider` has one method per entry point. Each
    performs the steps in place with early returns, and is proved to leave
    the object and the trace exactly as its specification function says.
    The lookup, version check and build (lines 74-100) are a method of their
    own, `LookupAndDeploy`, which the second entry point ends with.
  - The runtime version is read from an `ExtensionState` object on each
    call, as the source reads `extensionState.runtimeVersion`.
- `properties.dfy`: lemmas about the specification functions. They cover
  which exit is taken, what is written, and which calls happen in which
  order. It also holds a client method that drives both entry points the
  way the host does.

The collaborators are inputs:

- The default-device resolver, the version check and the build are given
  by their answers for one call (`Answers`). The model records what each one
  is called with.
- The cancellation token is a value sampled at each of its two checkpoints.
  An absent token reads as not cancelled.
- The VS Code API calls (`showErrorMessage`, `showInformationMessage`,
  `executeCommand`) are events appended to the trace.
- The active editor's language is a parameter, `None` when there is no
  editor.
- The `showTerminalOnStart` setting is a parameter.

## Behaviour as written

The model follows the code. In four places the code does something other
than what the step list above suggests:

- **Short ids are compared case-sensitively.** The pattern test accepts
  letters of either case (line 67), but the device match uses strict
  equality (line 70). So `ab12` passes the test and is still not expanded
  to the device whose short id is `AB12`. The lookup then fails and names
  `ab12` (`LowerCaseShortIdIsNotExpanded`).
- **The default service's position goes to `serviceInstance`.** The
  default-device branch writes the position into `serviceInstance`
  (line 61), not `serviceIndex`. The service lookup reads
  `serviceIndex || 0` (line 77). So when the default service is not the
  first script manager on its device, the version check still targets that
  device's first script manager
  (`DefaultServicePositionIsNotUsed`, `DefaultSecondServiceChecksFirst`).
- **Cancellation is checked only twice**, at lines 50 and 64. A
  cancellation that arrives later does not stop the lookup, the version
  check or the build. The model therefore has exactly two token samples.
- **The second entry point does not check `program` itself.** The check is
  in `resolveDebugConfiguration` (lines 124-129). The build receives
  `config.program` whatever it holds (`Build(program: Option<string>, …)`).

## Model

| member | source | states |
|---|---|---|
| `Jacdac.ServicesOfClass` | vscode/src/debugger.ts:57-58 | The services of one class are exactly the device's services of that class, and never more than all of them. How often each occurs is stated by `ServicesOfClassCount`, their order by `ServicesOfClassPosition`; together they fix the result, its length included. |
| `Jacdac.ServicesOfClassCount` | vscode/src/debugger.ts:57-58 | A service of the class occurs in the result exactly as often as on the device; a service of another class does not occur. |
| `Jacdac.ServicesOfClassAppend` | vscode/src/debugger.ts:57-58 | Filtering a list of services made of two parts gives the filtered first part followed by the filtered second part. |
| `Jacdac.ServicesOfClassPosition` | vscode/src/debugger.ts:57-58 | The filter keeps the device's order: a service of the class at position j of the device is at position n of the result, n being the number of services of the class before j. This is the position `indexOf` reports and `serviceIndex` selects. |
| `Jacdac.DevicesWithService` | vscode/src/debugger.ts:68-69 | The devices hosting a class are exactly the bus devices that have at least one service of that class. |
| `Jacdac.Find` | vscode/src/debugger.ts:70 | `find` returns nothing exactly when no device satisfies the predicate; what it returns is on the list and satisfies the predicate. |
| `Jacdac.FindFirst` | vscode/src/debugger.ts:70 | `find` returns the first device in list order that satisfies the predicate. |
| `Jacdac.FindAfterFilter` | vscode/src/debugger.ts:68-70 | Searching the script-manager devices finds the same device as searching the whole bus for the first script-manager device that matches: the filter keeps bus order. |
| `Jacdac.IndexOf` | vscode/src/debugger.ts:57-59 | `indexOf` is -1 exactly when the service is absent. Otherwise it is the position of the first occurrence. |
| `Jacdac.DeviceById` | vscode/src/debugger.ts:75 | `device(id, true)` finds nothing exactly when no bus device has the id; what it finds is on the bus and has that id. |
| `Debugger.ResolveSpec` | vscode/src/debugger.ts:107-131 | The configuration is returned exactly when it ends with a truthy `program`. Otherwise the only call is the "Cannot find a program" information message. An empty configuration (falsy `type`, `request` and `name`) in a TypeScript editor gets `type` devicescript, `name` Launch, `request` launch, `program` `${file}` and `stopOnEntry` true, and is returned. Any other configuration is left unchanged. |
| `Debugger.IndexOrZero` | vscode/src/debugger.ts:77 | `serviceIndex || 0` is the given index when there is one (a given 0 stays 0) and 0 when it is absent. |
| `Debugger.ShortIdPatternIgnoresCase` | vscode/src/debugger.ts:67 | The short-id test (`IsShortIdPattern`) accepts exactly four characters, and it accepts an id exactly when it accepts the id with its letters upper-cased: the `i` flag. |
| `Debugger.ExpandShortId` | vscode/src/debugger.ts:66-72 | An id not of the short-id form is kept. The result is either the id itself or the long id of a bus device that hosts a script manager and whose short id is exactly the id. Which device is stated by `ExpandShortIdSpec`. |
| `Debugger.ExpandShortIdSpec` | vscode/src/debugger.ts:66-72 | An id not of the form two letters then two digits is left alone. An id of that form becomes the long id of the first bus device that hosts a script manager and has exactly that short id. With no such device the id stays. |
| `Debugger.LookupService` | vscode/src/debugger.ts:75-78 | When `device(id, true)` finds nothing, which by `DeviceById`'s contract is exactly when no bus device has the id, there is no service. A service found is a script-manager service of the device `device(id, true)` returns. Its position is stated by `LookupServiceSpec`. |
| `Debugger.FillDefaultDevice` | vscode/src/debugger.ts:54-62 | Only `deviceId` and `serviceInstance` are written. `deviceId` becomes the default device's id. `serviceInstance` is -1 exactly when the default service is not on its device, and otherwise the position of its first occurrence among the device's services of its class. |
| `Debugger.FilledConfig` | vscode/src/debugger.ts:54-62 | After the default-device branch the configuration always holds an id. |
| `Debugger.ResolveSubstitutedSpec` | vscode/src/debugger.ts:45-101 | Only `deviceId` and `serviceInstance` can change. A returned configuration means the gate and the build both passed. Its last call is the build, with the configuration's `program` and its final `deviceId`. |
| `Debugger.LookupAndBuild` | vscode/src/debugger.ts:74-100 | The lookup phase leaves the configuration alone. It keeps the calls made before it, and its first call is the device lookup with the current id. A returned configuration means the gate and the build passed, the build being the last call. |
| `Debugger.ConfigurationProvider.ResolveDebugConfiguration` | vscode/src/debugger.ts:107-131 | Updates the configuration object in place to `ResolveSpec`'s configuration. Returns that same object or nothing, as `ResolveSpec` decides, and makes its calls. |
| `Debugger.ConfigurationProvider.ResolveDebugConfigurationWithSubstitutedVariables` | vscode/src/debugger.ts:45-101 | Step by step with early returns, updates the configuration object in place to `ResolveSubstitutedSpec`'s configuration, with the runtime version the extension state holds when it runs. Returns that same object or nothing, and makes exactly its calls in its order. |
| `Debugger.ConfigurationProvider.LookupAndDeploy` | vscode/src/debugger.ts:74-100 | Reads the configuration object without changing it. Its calls, after the ones already made, are `LookupAndBuild`'s, with the runtime version the extension state holds. It returns the same object exactly when `LookupAndBuild` says the configuration is returned, and nothing otherwise. |
| `Debugger.ExtensionState.constructor` | vscode/src/debugger.ts:87 | The extension state holds the runtime version it is given. |
| `Debugger.ConfigurationProvider.constructor` | vscode/src/debugger.ts:43 | The provider keeps the bus and the extension state it is built with. Each resolution reads the runtime version from that state when it runs. |
| `Debugger.DebugConfiguration.constructor` | vscode/src/debugger.ts:28-38 | A configuration object holds the attribute values it is created with. |
| `Debugger.CreateDebugAdapterDescriptor` | vscode/src/debugger.ts:11-23 | The descriptor is always localhost:8083. The show-terminal command is run exactly when the setting is on. |
| `DebuggerProperties.LookupPhaseErrors` | vscode/src/debugger.ts:74-83 | After calls with no error, version check or build, the lookup phase looks up the configured id. A miss gives `undefined`, and its last call is the error naming the id, with no version check or build. A hit shows no error. |
| `DebuggerProperties.LookupAndBuildGate` | vscode/src/debugger.ts:85-98 | After calls with no version check or build, the lookup phase builds only as its last call, right after a version check that passed. It checks the version only of the service it found. |
| `DebuggerProperties.CancelledAtEntry` | vscode/src/debugger.ts:50 | A token cancelled on entry gives `undefined`, writes nothing and calls nothing. |
| `DebuggerProperties.CancelledAfterDeviceResolution` | vscode/src/debugger.ts:52-64 | A token cancelled at the second checkpoint gives `undefined`. The only possible call is the default-device resolution, made when `deviceId` was falsy. There is no bus query, version check or build. |
| `DebuggerProperties.DeviceFill` | vscode/src/debugger.ts:54-62 | A falsy `deviceId` makes the first call the default-device resolution. `serviceInstance` receives the default service's position among same-class services on its device, or -1. Until expansion, `deviceId` is that device's id. `serviceIndex` is never written. A set `deviceId` leaves `serviceInstance` alone and does not call the resolver. |
| `DebuggerProperties.ShortIdExpansionStep` | vscode/src/debugger.ts:66-72 | Past the checkpoints, the final `deviceId` is the expansion of the filled id. The short-id search is made exactly when that id has the short-id form. Otherwise the id reaches the lookup unchanged. |
| `DebuggerProperties.LowerCaseShortIdIsNotExpanded` | vscode/src/debugger.ts:67-71 | `ab12` has the short-id form but is not expanded to a device whose short id is `AB12`. The lookup fails with the error naming `ab12`. |
| `DebuggerProperties.ExpandShortIdIdempotent` | vscode/src/debugger.ts:66-72 | Expanding an expanded id changes nothing, on a bus where no long id has the short-id form. |
| `DebuggerProperties.ServiceLookup` | vscode/src/debugger.ts:74-83 | The lookup is always made with the final `deviceId`. If no service is found: `undefined`, the last call is the error message naming that id, and there is no version check or build. If one is found, no error is shown. |
| `DebuggerProperties.LookupServiceSpec` | vscode/src/debugger.ts:75-77 | The service found is the one at position `serviceIndex`, or 0 when that is falsy, among the script-manager services of the first device with that id. Out of range gives none. |
| `DebuggerProperties.ServiceIndexDefaultsToZero` | vscode/src/debugger.ts:77 | An absent `serviceIndex` and a `serviceIndex` of 0 give the same calls and the same result. |
| `DebuggerProperties.VersionGateBeforeBuild` | vscode/src/debugger.ts:85-98 | A build is only ever the last call, right after a version check that passed. A version check is only made on the service the lookup found, with the extension's runtime version. |
| `DebuggerProperties.AppendInStageOrder` | vscode/src/debugger.ts:45-101 | Appending a call of a later stage keeps a trace in stage order. |
| `DebuggerProperties.LookupAndBuildInStageOrder` | vscode/src/debugger.ts:74-100 | The lookup phase keeps the trace in stage order. |
| `DebuggerProperties.CallsInPipelineOrder` | vscode/src/debugger.ts:45-101 | Calls come in this stage order, each stage at most once: default-device resolution, short-id search, device lookup, version check, build; the error message comes after the lookup. |
| `DebuggerProperties.CalledAtMostOnce` | vscode/src/debugger.ts:45-101 | The resolver, the short-id search, the lookup, the version check and the build are each called at most once. |
| `DebuggerProperties.GateAndBuildDecide` | vscode/src/debugger.ts:85-100 | With a service found, the configuration is returned exactly when the gate and the build both pass. The build is called exactly when the gate passed. |
| `DebuggerProperties.FullySpecifiedPassesThrough` | vscode/src/debugger.ts:45-100 | A configuration with a long `deviceId` on the bus and a valid `serviceIndex`, or 0 when that is falsy, comes back unchanged. The calls are one lookup, one version check, and one build with (`program`, `deviceId`) when the gate passes. |
| `DebuggerProperties.DefaultServicePositionIsNotUsed` | vscode/src/debugger.ts:54-77 | With no `deviceId` and no `serviceIndex`, the version check targets the default device's first script manager, whichever service was the default. |
| `DebuggerProperties.DefaultSecondServiceChecksFirst` | vscode/src/debugger.ts:54-77 | When the default is the second of two script managers, `serviceInstance` is 1, yet the first one is version-checked. |
| `DebuggerProperties.EmptyLaunchDefaults` | vscode/src/debugger.ts:113-129 | An empty configuration without a program is returned exactly when the editor holds TypeScript, with program `${file}` and `stopOnEntry` true. Otherwise the only call is the information message. |

## Left out

- Exceptions are not modelled. The model assumes that the default-device
  resolver, the version check and the build return normally.
  - A rejected promise from any of them propagates to the host.
  - So does a `TypeError` when the resolver yields no service.
- Services are values, not objects. The model assumes that the services of
  one device have distinct Jacdac service indices, so equal values mean the
  same service for `indexOf`. Two services of one device with the same
  index would share the first one's position.
- The Jacdac bus internals are outside the model: `JDBus`, how devices are
  discovered, and the other filter options of `devices`. Two assumptions
  stand in for them:
  - `devices({ serviceClass })` is the bus devices hosting that class, in
    bus order.
  - `device(id, true)` is the first device with that id.
- `SRV_DEVICE_SCRIPT_MANAGER` is a constant from jacdac-ts and is not part
  of this model. Its value here is a stand-in, and no property depends on
  it.
- Launch attributes of another JavaScript type are not modelled, such as a
  numeric `deviceId`, or a `serviceIndex` that is NaN or fractional. The
  model treats `deviceId` as an optional string and `serviceIndex` as an
  optional integer. Attributes the provider neither reads nor writes are
  not represented.
- The host's variable substitution between the two entry points is not part
  of this model. The client method `LaunchFromTypeScriptEditor` performs it
  by hand.
- The `folder` parameter, `dispose()` and the async scheduling are not
  modelled. The pipeline is treated as sequential.
- The adapter server process and its TCP transport are outside the model.
- vscode/src/mainstatusbar.ts is status-bar UI and is not part of this
  model.
