# SImpl.Stack core, modelled in Dafny

This project models four small stateful components of the SImpl.Stack module
runtime. It proves what each one promises.

- **The diagnostics host decorator** (`DiagnosticsHost`). It wraps another host.
  - It brackets the wrapped host's start and stop with the lap times "Host starting"/"Host started" and "Host stopping"/"Host stopped".
  - After a start it writes the Flags, Modules and Timetable sections into the diagnostics collector, then lets every diagnostics module of the boot sequence add its own sections.
  - It renders a report. Each section appears as a headline padded with `-` to 60 columns, followed by the section's lines.
  - A stop renders only the Timetable section.
  - Rendering the timetable empties it, so every report's timetable covers only the laps since the previous one.
- **The per-module runtime record** (`ModuleRuntimeInfo`). It holds the module and its declared dependencies. Its enabled flag can only be switched off. Its lifecycle state is set without any transition check.
- **The in-memory OAuth client store** (`InMemoryOAuthClientStorage`). It is one static table keyed by client id, shared by every instance. It supports save (insert or replace), delete and fetch.
- **The dependency-injection module** (`DependencyInjectionModule`).
  - It appends the container service as a singleton to a service collection.
  - It then appends one registration per registered dependency whose lifestyle is scoped, singleton or transient, in list order.

Files:

- `wrappers.dfy`: `Option`.
- `collaborators.dfy`: the decorator's collaborators, reduced to the state the decorator reads and writes.
  - The diagnostics collector holds a timetable of laps, the reading of the last lap, and a keyed table of sections listed in first-write order.
  - The wrapped host's start and stop may register laps of their own in the same collector, then complete or fault.
  - The diagnostics modules of the boot sequence each contribute a list of keyed sections.
  - A ghost journal shared by these objects records every call they receive. It lets the call order be stated.
  - `CollectorState` is the collector's contents as a value. Each collector method is specified as a pure transition on it.
- `rendering.dfy`: the report text. A `StringBuilder` is modelled as the sequence of lines appended to it.
  - `PadRight` and the headline line.
  - The Flags, Modules and Timetable section contents.
  - The rendering of a list of sections, and the loops that build them.
- `diagnostics_host.dfy`: the decorator class, plus `Startup`/`Shutdown`, the pure collector transitions of a completed start and stop, and the lemmas about them.
- `module_runtime_info.dfy`: the runtime record as a class. It is also modelled as a value with a run of `Disable`/`SetState` operations.
- `oauth_client_storage.dfy`: the dictionary, the store class, and the pure `Saved`/`Deleted` maps with their lemmas.
- `dependency_injection_module.dfy`: the lifestyle switch as `Registration`, the loop as `ConfigureServices`, and the list-level function `Registrations`.

`ModuleRuntimeInfo.ModuleType` returns the type name carried by the module reference. The `Dependencies`, `Module`, `IsEnabled` and `State` properties are the class's fields. The `Name` property of the dependency-injection module is its `name` field.

## Model

| member | source | states |
|---|---|---|
| Collaborators.SectionTable.Get | src/SImpl.Runtime/Diagnostics/DiagnosticsHost.cs:75 | the section stored under a key, or none when the key was never written |
| Collaborators.SectionTable.Put | src/SImpl.Runtime/Diagnostics/DiagnosticsHost.cs:149 | writing a key keeps every earlier key in its place; an existing key keeps the order unchanged; the table stays well formed |
| Collaborators.SectionTable.PutGet | src/SImpl.Runtime/Diagnostics/DiagnosticsHost.cs:149 | after a write the key holds the new section and every other key what it held |
| Collaborators.SectionTable.InOrder | src/SImpl.Runtime/Diagnostics/DiagnosticsHost.cs:56 | the listed sections are one per key, in first-write order |
| Collaborators.AddAll | src/SImpl.Runtime/Diagnostics/DiagnosticsHost.cs:154-157 | writing a list of sections keeps the table well formed and only extends the key order |
| Collaborators.AddAllConcat | src/SImpl.Runtime/Diagnostics/DiagnosticsHost.cs:154-157 | writing a + b is writing a, then b |
| Collaborators.AddAllLastWins | src/SImpl.Runtime/Diagnostics/DiagnosticsHost.cs:154-157 | the last write under a key is what the key holds |
| Collaborators.AddAllUntouched | src/SImpl.Runtime/Diagnostics/DiagnosticsHost.cs:154-157 | writes under other keys leave a key's section as it was |
| Collaborators.InnerHost.StartAsync | src/SImpl.Runtime/Diagnostics/DiagnosticsHost.cs:42 | the wrapped start is logged, then registers some laps of its own (possibly none) in the shared collector, each logged and timed like any other lap, and completes or faults |
| Collaborators.InnerHost.StopAsync | src/SImpl.Runtime/Diagnostics/DiagnosticsHost.cs:64 | the wrapped stop is logged, then registers some laps of its own (possibly none) in the shared collector, and completes or faults |
| Collaborators.RegisterAll | src/SImpl.Runtime/Diagnostics/DiagnosticsHost.cs:42 | registering a list of laps one at a time appends each, timed against the one before, and logs one lap call each; sections untouched |
| Collaborators.LapEvents | src/SImpl.Runtime/Diagnostics/DiagnosticsHost.cs:42 | the logged lap calls of a list of laps, in order |
| Collaborators.MarkLap | src/SImpl.Runtime/Diagnostics/DiagnosticsHost.cs:144 | the k-th registered lap is timed against the lap before it, the first against the previous reading |
| Collaborators.CollectorState.WithMarks | src/SImpl.Runtime/Diagnostics/DiagnosticsHost.cs:42 | the collector state after registering a list of laps in order |
| Collaborators.CollectorState.WithMarksShape | src/SImpl.Runtime/Diagnostics/DiagnosticsHost.cs:42 | registering laps keeps every section and earlier lap, appends one lap per mark timed against the one before, and leaves the last mark's reading as the last lap time |
| Collaborators.InnerHost.Dispose | src/SImpl.Runtime/Diagnostics/DiagnosticsHost.cs:36 | the wrapped host is disposed, and the call is logged |
| Collaborators.DiagnosticsCollector.RegisterLapTime | src/SImpl.Runtime/Diagnostics/DiagnosticsHost.cs:41 | appends a lap timed against the previous lap, and logs it; sections are untouched |
| Collaborators.DiagnosticsCollector.ClearTimetable | src/SImpl.Runtime/Diagnostics/DiagnosticsHost.cs:147 | empties the timetable and nothing else, and logs it |
| Collaborators.DiagnosticsCollector.AddSection | src/SImpl.Runtime/Diagnostics/DiagnosticsHost.cs:101 | writes a section under a key, and logs it; the timetable is untouched |
| Collaborators.DiagnosticsCollector.Get | src/SImpl.Runtime/Diagnostics/DiagnosticsHost.cs:75 | looks up a section by key in the collector's table |
| Collaborators.DiagnosticsCollector.Sections | src/SImpl.Runtime/Diagnostics/DiagnosticsHost.cs:56 | the written sections, one per key, in first-write order |
| Collaborators.Names | src/SImpl.Runtime/Diagnostics/DiagnosticsHost.cs:127-130 | the boot sequence's module names, one per module, in order |
| Collaborators.Diagnose | src/SImpl.Runtime/Diagnostics/DiagnosticsHost.cs:156 | a diagnostics module writes its sections into the collector in order; the call and each write are logged |
| Collaborators.AddEntries | src/SImpl.Runtime/Diagnostics/DiagnosticsHost.cs:156 | section writes one at a time amount to writing the whole list, with one logged call each |
| Rendering.PadRight | src/SImpl.Runtime/Diagnostics/DiagnosticsHost.cs:86 | the result has length max(width, \|s\|), starts with s, and is the fill character after it |
| Rendering.HeadlineLine | src/SImpl.Runtime/Diagnostics/DiagnosticsHost.cs:86 | the headline and a space, padded with '-' to 60 columns |
| Rendering.HeadlineLineShape | src/SImpl.Runtime/Diagnostics/DiagnosticsHost.cs:86 | a headline line is the headline, a space, then '-' up to 60 columns, or headline plus space when that is longer |
| Rendering.BoolText | src/SImpl.Runtime/Diagnostics/DiagnosticsHost.cs:98-99 | a flag is written "True" or "False", as C# interpolates a bool |
| Rendering.DigitChar | src/SImpl.Runtime/Diagnostics/DiagnosticsHost.cs:144 | a decimal digit character |
| Rendering.NatText | src/SImpl.Runtime/Diagnostics/DiagnosticsHost.cs:144 | a nonempty string of decimal digits |
| Rendering.TickText | src/SImpl.Runtime/Diagnostics/DiagnosticsHost.cs:144 | a tick count renders as a nonempty string without spaces |
| Rendering.FlagsSection | src/SImpl.Runtime/Diagnostics/DiagnosticsHost.cs:93-99 | headline Flags and exactly two lines: the diagnostics flag, then the verbose flag |
| Rendering.NameLines | src/SImpl.Runtime/Diagnostics/DiagnosticsHost.cs:112-115 | one line "   - name" per name, in the list's order |
| Rendering.ModulesLines | src/SImpl.Runtime/Diagnostics/DiagnosticsHost.cs:111-130 | the Modules section's lines: each header followed by its names, the autorun list left empty |
| Rendering.ModulesSection | src/SImpl.Runtime/Diagnostics/DiagnosticsHost.cs:106-109 | the Modules section: headline Modules over the module lines |
| Rendering.ModulesLinesLayout | src/SImpl.Runtime/Diagnostics/DiagnosticsHost.cs:111-130 | enabled names under their header, then disabled names, then the autorun header, then boot-sequence names; each list in order at known positions |
| Rendering.TimetableLine | src/SImpl.Runtime/Diagnostics/DiagnosticsHost.cs:144 | a lap's reading, its elapsed time and its name, separated by spaces |
| Rendering.TimetableLineShape | src/SImpl.Runtime/Diagnostics/DiagnosticsHost.cs:144 | a timetable line starts with the lap's clock reading and ends with a space and the lap's name |
| Rendering.TimetableLines | src/SImpl.Runtime/Diagnostics/DiagnosticsHost.cs:142-145 | one line per lap, in timetable order |
| Rendering.TimetableSection | src/SImpl.Runtime/Diagnostics/DiagnosticsHost.cs:137-145 | the Timetable section: headline Timetable over one line per lap |
| Rendering.RenderedSection | src/SImpl.Runtime/Diagnostics/DiagnosticsHost.cs:86-87 | a section in a report: its headline line, then its own lines |
| Rendering.Rendered | src/SImpl.Runtime/Diagnostics/DiagnosticsHost.cs:84-88 | the sections rendered one after another, in order |
| Rendering.RenderedConcat | src/SImpl.Runtime/Diagnostics/DiagnosticsHost.cs:84-88 | rendering a + b is rendering a, then b |
| Rendering.RenderedSnoc | src/SImpl.Runtime/Diagnostics/DiagnosticsHost.cs:84-88 | rendering one more section appends that section's headline line and lines |
| Rendering.RenderedAt | src/SImpl.Runtime/Diagnostics/DiagnosticsHost.cs:84-88 | in a report every section, in order, is its padded headline line followed by its own lines |
| Rendering.StartupReport | src/SImpl.Runtime/Diagnostics/DiagnosticsHost.cs:50-56 | the startup report: an empty line, STARTUP DIAGNOSTICS, an empty line, then every section rendered |
| Rendering.ShutdownReport | src/SImpl.Runtime/Diagnostics/DiagnosticsHost.cs:69-75 | the shutdown report: an empty line, SHUTDOWN DIAGNOSTICS, an empty line, then the one section rendered |
| Rendering.ShutdownReportShape | src/SImpl.Runtime/Diagnostics/DiagnosticsHost.cs:69-75 | the shutdown report is the title lines, the Timetable headline line, then one line per lap |
| Rendering.AppendNameLines | src/SImpl.Runtime/Diagnostics/DiagnosticsHost.cs:112-115 | the loop appends exactly the bulleted name lines, in order |
| Rendering.NewModulesSection | src/SImpl.Runtime/Diagnostics/DiagnosticsHost.cs:104-131 | the built Modules section is the specified layout |
| Rendering.NewTimetableSection | src/SImpl.Runtime/Diagnostics/DiagnosticsHost.cs:137-145 | the built Timetable section has one line per lap, in order |
| Rendering.AppendDiagnosticsSections | src/SImpl.Runtime/Diagnostics/DiagnosticsHost.cs:82-89 | the loop appends exactly the rendering of the sections, in order |
| Diagnostics.WithTimetableSection | src/SImpl.Runtime/Diagnostics/DiagnosticsHost.cs:135-150 | the collector after the timetable is rendered into the Timetable section and emptied |
| Diagnostics.Startup | src/SImpl.Runtime/Diagnostics/DiagnosticsHost.cs:39-48 | the collector after a completed start: "Host starting", the wrapped host's laps, "Host started", Flags, Modules, Timetable, then the modules' sections |
| Diagnostics.Shutdown | src/SImpl.Runtime/Diagnostics/DiagnosticsHost.cs:61-67 | the collector after a completed stop: "Host stopping", the wrapped host's laps, "Host stopped", then the Timetable section |
| Diagnostics.StartupEvents | src/SImpl.Runtime/Diagnostics/DiagnosticsHost.cs:39-48 | the calls of a completed start, in order |
| Diagnostics.ShutdownEvents | src/SImpl.Runtime/Diagnostics/DiagnosticsHost.cs:61-67 | the calls of a completed stop, in order |
| Diagnostics.Bracketed | src/SImpl.Runtime/Diagnostics/DiagnosticsHost.cs:41-43 | the laps of a start or stop follow the earlier laps: the first bracketing lap timed against the previous lap, then the wrapped host's own laps each timed against the one before, then the second bracketing lap timed against the last of them |
| Diagnostics.StartupTimetable | src/SImpl.Runtime/Diagnostics/DiagnosticsHost.cs:135-150 | after a start the timetable is empty and the Timetable section has one line per lap since the last clear, "Host starting", the wrapped host\'s laps and "Host started" last, each line ending with the lap\'s name |
| Diagnostics.FixedKeys | src/SImpl.Runtime/Diagnostics/DiagnosticsHost.cs:45-47 | Flags, Modules and Timetable written into an empty table are listed in that order |
| Diagnostics.FixedOrder | src/SImpl.Runtime/Diagnostics/DiagnosticsHost.cs:45-48 | the first three keys stay first whatever the diagnostics modules write after them |
| Diagnostics.StartupOrder | src/SImpl.Runtime/Diagnostics/DiagnosticsHost.cs:45-48 | on a fresh collector a start lists Flags, Modules and Timetable first, in that order |
| Diagnostics.StartupSections | src/SImpl.Runtime/Diagnostics/DiagnosticsHost.cs:45-46 | after a start the Flags and Modules sections hold the flags and the module lists, unless a module overwrote them |
| Diagnostics.ShutdownTimetable | src/SImpl.Runtime/Diagnostics/DiagnosticsHost.cs:63-67 | after a stop the timetable is empty, the Timetable section holds the laps since the last clear, "Host stopping", the wrapped host\'s laps and "Host stopped" last, and every other section is unchanged |
| Diagnostics.DiagnosticsHost.constructor | src/SImpl.Runtime/Diagnostics/DiagnosticsHost.cs:24-32 | the decorator keeps the wrapped host, the collector and its settings |
| Diagnostics.DiagnosticsHost.Dispose | src/SImpl.Runtime/Diagnostics/DiagnosticsHost.cs:34-37 | disposing disposes the wrapped host and leaves the collector untouched |
| Diagnostics.DiagnosticsHost.Services | src/SImpl.Runtime/Diagnostics/DiagnosticsHost.cs:80 | the services are the wrapped host's |
| Diagnostics.DiagnosticsHost.StartAsync | src/SImpl.Runtime/Diagnostics/DiagnosticsHost.cs:39-59 | "Host starting" is logged before the wrapped start, whose own laps follow it; if that faults, nothing else happens; otherwise "Host started", the three sections, the module diagnostics and the full report follow, in that order |
| Diagnostics.DiagnosticsHost.StopAsync | src/SImpl.Runtime/Diagnostics/DiagnosticsHost.cs:61-78 | "Host stopping" before the wrapped stop and its own laps; on completion "Host stopped", then the Timetable section alone is rendered under SHUTDOWN DIAGNOSTICS and the timetable is emptied |
| Diagnostics.DiagnosticsHost.AddFlagsSection | src/SImpl.Runtime/Diagnostics/DiagnosticsHost.cs:91-102 | writes the two-line Flags section under "Flags" |
| Diagnostics.DiagnosticsHost.AddModulesSection | src/SImpl.Runtime/Diagnostics/DiagnosticsHost.cs:104-133 | writes the Modules section under "Modules" |
| Diagnostics.DiagnosticsHost.AddTimetableSection | src/SImpl.Runtime/Diagnostics/DiagnosticsHost.cs:135-150 | renders the timetable, then clears it, then writes the section under "Timetable" |
| Diagnostics.DiagnosticsHost.AddModuleDiagnostics | src/SImpl.Runtime/Diagnostics/DiagnosticsHost.cs:152-158 | each diagnostics module of the boot sequence writes its sections, in boot order; the other modules write nothing |
| ModuleRuntime.Initial | src/SImpl.DotNetStack/Core/ModuleRuntimeInfo.cs:15-22 | a fresh record is enabled, in state New, with the declared dependencies or none |
| ModuleRuntime.Apply | src/SImpl.DotNetStack/Core/ModuleRuntimeInfo.cs:32-42 | Disable clears the flag and keeps the state; SetState sets any state and keeps the flag; neither touches the module or its dependencies |
| ModuleRuntime.Run | src/SImpl.DotNetStack/Core/ModuleRuntimeInfo.cs:30-42 | a record after a sequence of Disable and SetState calls, in order |
| ModuleRuntime.RunAppend | src/SImpl.DotNetStack/Core/ModuleRuntimeInfo.cs:30-42 | running a + b is running a, then b |
| ModuleRuntime.RunKeepsIdentity | src/SImpl.DotNetStack/Core/ModuleRuntimeInfo.cs:24-26 | the module and its dependencies never change after construction |
| ModuleRuntime.EnabledAfterRun | src/SImpl.DotNetStack/Core/ModuleRuntimeInfo.cs:30-35 | enabled after a run iff enabled before and never disabled, so a disabled record stays disabled |
| ModuleRuntime.StateWithoutSetState | src/SImpl.DotNetStack/Core/ModuleRuntimeInfo.cs:32-37 | disabling never changes the state |
| ModuleRuntime.LastSetStateWins | src/SImpl.DotNetStack/Core/ModuleRuntimeInfo.cs:39-42 | the last state set is the state, whatever came before |
| ModuleRuntime.ModuleRuntimeInfo.constructor | src/SImpl.DotNetStack/Core/ModuleRuntimeInfo.cs:15-22 | the new record is the initial record |
| ModuleRuntime.ModuleRuntimeInfo.ModuleType | src/SImpl.DotNetStack/Core/ModuleRuntimeInfo.cs:28 | the runtime type of the attached module |
| ModuleRuntime.ModuleRuntimeInfo.Disable | src/SImpl.DotNetStack/Core/ModuleRuntimeInfo.cs:32-35 | the record is disabled with all else unchanged; disabling twice changes nothing |
| ModuleRuntime.ModuleRuntimeInfo.SetState | src/SImpl.DotNetStack/Core/ModuleRuntimeInfo.cs:39-42 | the state becomes the given one with all else unchanged |
| OAuthStorage.Saved | src/Simpl.Oauth.Web/Storage/InMemory/InMemoryOAuthClientStorage.cs:12-19 | the client is stored under its id, other ids are unchanged, and the key count grows only for a new id |
| OAuthStorage.Deleted | src/Simpl.Oauth.Web/Storage/InMemory/InMemoryOAuthClientStorage.cs:21-27 | the id is gone, other ids are unchanged, and an absent id leaves the table as it was |
| OAuthStorage.Replay | src/Simpl.Oauth.Web/Storage/InMemory/InMemoryOAuthClientStorage.cs:12-27 | the table after a sequence of saves and deletes, in order |
| OAuthStorage.ReplayKeyedById | src/Simpl.Oauth.Web/Storage/InMemory/InMemoryOAuthClientStorage.cs:12-27 | through any saves and deletes every client stays under its own id |
| OAuthStorage.LastSaveWins | src/Simpl.Oauth.Web/Storage/InMemory/InMemoryOAuthClientStorage.cs:12-19 | a saved client is fetched back until a later save or delete of its id |
| OAuthStorage.ReplayUntouched | src/Simpl.Oauth.Web/Storage/InMemory/InMemoryOAuthClientStorage.cs:12-27 | saves and deletes of other ids leave an id's entry, or its absence, as it was |
| OAuthStorage.ClientTable.constructor | src/Simpl.Oauth.Web/Storage/InMemory/InMemoryOAuthClientStorage.cs:10 | the table starts empty |
| OAuthStorage.ClientTable.Remove | src/Simpl.Oauth.Web/Storage/InMemory/InMemoryOAuthClientStorage.cs:16 | removes the key and reports whether it was there |
| OAuthStorage.ClientTable.Add | src/Simpl.Oauth.Web/Storage/InMemory/InMemoryOAuthClientStorage.cs:18 | adds a new key; adding a present key fails and changes nothing |
| OAuthStorage.InMemoryOAuthClientStorage.constructor | src/Simpl.Oauth.Web/Storage/InMemory/InMemoryOAuthClientStorage.cs:10 | an instance works on the given shared table |
| OAuthStorage.InMemoryOAuthClientStorage.Save | src/Simpl.Oauth.Web/Storage/InMemory/InMemoryOAuthClientStorage.cs:12-19 | insert or replace; the add after the conditional remove never hits the duplicate-key failure |
| OAuthStorage.InMemoryOAuthClientStorage.Delete | src/Simpl.Oauth.Web/Storage/InMemory/InMemoryOAuthClientStorage.cs:21-27 | the table after deleting the id |
| OAuthStorage.InMemoryOAuthClientStorage.Fetch | src/Simpl.Oauth.Web/Storage/InMemory/InMemoryOAuthClientStorage.cs:29-34 | the stored client, or none when the id is absent; reads only |
| OAuthStorage.SaveThenFetchElsewhere | src/Simpl.Oauth.Web/Storage/InMemory/InMemoryOAuthClientStorage.cs:10 | what one instance saves, another instance over the same table fetches |
| DependencyInjection.Registration | src/Simpl.DependencyInjection/Module/DependencyInjectionModule.cs:15-47 | scoped, singleton and transient map to the matching lifetime with the abstraction as service type, self-registration included; any other lifestyle yields nothing |
| DependencyInjection.Registrations | src/Simpl.DependencyInjection/Module/DependencyInjectionModule.cs:13-47 | never more registrations than dependencies |
| DependencyInjection.RegistrationsAppend | src/Simpl.DependencyInjection/Module/DependencyInjectionModule.cs:13-47 | registrations of a + b are those of a, then those of b |
| DependencyInjection.OneRegistrationEach | src/Simpl.DependencyInjection/Module/DependencyInjectionModule.cs:13-47 | with only handled lifestyles, exactly one registration per dependency, in the same order |
| DependencyInjection.UnnamedAddNothing | src/Simpl.DependencyInjection/Module/DependencyInjectionModule.cs:15-47 | a dependency with an unhandled lifestyle adds nothing |
| DependencyInjection.ServiceCollection.Add | src/Simpl.DependencyInjection/Module/DependencyInjectionModule.cs:20 | a registration is appended to the collection |
| DependencyInjection.DependencyInjectionModule.constructor | src/Simpl.DependencyInjection/Module/DependencyInjectionModule.cs:8 | the module's name is "DependencyInjectionModule" |
| DependencyInjection.DependencyInjectionModule.ConfigureServices | src/Simpl.DependencyInjection/Module/DependencyInjectionModule.cs:9-49 | the existing registrations stay in front, then the container-service singleton, then the dependencies' registrations in order |

## Left out

- Async and cancellation: `StartAsync`/`StopAsync` are sequential calls. The wrapped host's outcome is an arbitrary `Completed`/`Faulted`. A fault ends the call, as the exception does. The cancellation token is only passed through and is not modelled.
- Logging: the report is returned from `StartAsync`/`StopAsync` as its list of lines instead of being written to the debug log.
- Time: the clock is a pair of tick readings passed to each start and stop. The `:s` date format and the `TimeSpan` text of the timetable lines are replaced by a decimal rendering of integer ticks.
- The diagnostics collector, the module manager, the boot-sequence factory and the diagnostics modules are not part of this model. Their implementations are outside the modelled files, so:
  - the collector is assumed to time each lap against the previous lap (the first against its creation time);
  - clearing the timetable is assumed to keep that reading;
  - sections are assumed to be listed in first-write order, and a later write replaces a key's section;
  - the module lists and the boot sequence are fixed inputs;
  - a diagnostics module is the list of sections it writes;
  - the wrapped host touches the collector only by registering laps, and reports which laps it registered.
- `IDiagnosticsSection.Append` is modelled as appending the section's own lines.
- Services: the service provider is represented by an opaque number, whose identity is what is forwarded.
- Thread safety: the concurrent dictionary is a plain map. The race between the containment test and the add in `Save` under concurrent saves is not modelled.
- A null client passed to `Save` is not modelled. A null `Fetch` result is `None`.
- Reflection: the `DependsOn` attribute lookup becomes an optional declared dependency list passed to the constructor. Types are identified by name.
- The lifecycle state machine: states are set without any transition check, as `SetState` does. The ordered state machine described for the lifecycle controller is not enforced by this record, and the model follows the code.
- Framework registration semantics: `AddScoped`/`AddSingleton`/`AddTransient` each append one descriptor. The internals of the service collection are not modelled. The configuration object passed to the dependency-injection module's constructor is unused by the code and left out.
- The global dependency register becomes the dependency list passed to `ConfigureServices`.
- Collaborators.Diagnose: cannot fail. In the source an exception thrown by a diagnostics module, or by the collector, after the wrapped start (DiagnosticsHost.cs:48, 154-157) leaves `StartAsync` without a report; `Diagnostics.DiagnosticsHost.StartAsync` covers only runs in which these calls return.
- OAuthStorage.InMemoryOAuthClientStorage.Save: client ids are non-null strings here. A null id makes the dictionary's `ContainsKey` throw in `Save`, `Delete` and `Fetch` (InMemoryOAuthClientStorage.cs:14, 23, 31); that error path is not modelled.
- ModuleRuntime.ModuleRuntimeInfo.SetState: the `ModuleState` enumeration is outside the modelled files. Its eight values are assumed from the lifecycle the stack describes, and an integer cast to the enumeration outside those values cannot be represented.
- Rendering.PadRight: pads to 60 characters of the model's string. C# counts UTF-16 code units, so a headline with characters outside the basic plane pads differently.
- ModuleRuntime.RunKeepsIdentity: holds for the dependency list as an immutable sequence. The C# `Dependencies` property exposes a mutable `Type[]` that any caller can change in place; such writes are not modelled.
- OAuthStorage.InMemoryOAuthClientStorage.constructor: accepts any `ClientTable`. In the source the table is a static field, so every instance shares it by construction; here sharing holds only when every instance is given the same table, which `SaveThenFetchElsewhere` requires.
