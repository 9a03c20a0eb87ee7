# Equipment Control Center — a verified model of the control core

Equipment Control Center links equipment services (a 3D printer service and
a CNC service) to a desktop application over a message bus. This project
models, in Dafny, the parts of it that decide what happens to state.

Service side:

- **ServiceStateManager** is a service's key/value store. Setting a key that
  already holds an equal value does nothing. Any other set stores the value
  first and then publishes a `ServiceStateChanged` event. The event carries
  the old value, or the text `"null"` when the key was absent.
- **PrinterControlExecutor** and **CncControlExecutor** turn a
  `(controlId, value)` command into a short sequence of awaited state writes
  and a result text. An unknown id throws. A value of the wrong runtime type
  throws. A failed publish aborts the remaining writes.
- **ControlCommandConsumer** runs the printer executor. It answers every
  command with exactly one `ControlCommandResponse`. On success the response
  carries the result text. On failure it carries `EXECUTION_ERROR` and the
  exception message.
- **PrinterMonitoringService** seeds six printer state keys. It then
  publishes a heartbeat on every pass of its loop: a snapshot of the whole
  store and an incrementing message counter.
- **PrinterControlDefinitionProvider** and **CncControlDefinitionProvider**
  each declare seven controls, in display order.

Desktop side:

- **EquipmentServiceRegistry** keeps one mirrored `EquipmentService` record
  per registered service. Registered, heartbeat and state-changed events
  update it. Events for an id that never registered are dropped.
- **EquipmentService.IsOnline** holds for 30 seconds after the record's last
  heartbeat.
- **ControlViewModel** shows each control's state indicator. The text and
  colour depend on the control type, the current value and whether a command
  is running. Its command guard keeps one command in flight at a time.

### How the model is built

- **Code that changes state in place stays imperative.** The store, the bus,
  the executors, the consumer, the monitoring service, the registry and the
  view model are classes. Each method's `modifies` frame names the fields it
  changes. Its `ensures` ties the new state to a pure specification function
  of the old state:
  - `SetStep` and `RunWrites` for awaited sequences of `SetStateAsync` calls;
  - `Execute` of a `PrinterPlan` or `CncPlan` for an executor call;
  - `ConsumeSpec` for the consumer;
  - `HeartbeatLog` for the monitoring loop;
  - `ApplyRegistered`, `ApplyHeartbeat` and `ApplyStateChanged` for the registry.
- **The promised properties are lemmas about those functions.** Examples:
  setting a value twice emits at most one event; a redelivered command changes
  nothing and gets the same answer; replaying registry events keeps the
  dictionary and the list in step; heartbeat counters strictly increase.
- **Outside behaviour becomes parameters.** Clock readings are passed in as
  integer numbers of ticks (100 ns). Where one parameter stands for several
  readings of the source, "Left out" says so. The broker's condition is the bus's
  `fault` field: `None` means the publish goes through, `Some(message)` means
  `Publish` throws with that message.

### Where the code and its intended behaviour differ (the model follows the code)

- **Unknown control:** an unknown control is meant to yield a failure
  response with the code `UnknownControl`. The consumer actually gives every
  failure the code `EXECUTION_ERROR`, with the message
  `Unknown control: <id>` (`CommandConsumer.UnknownControlResponse`).
- **Seeding:** seeding is meant to set every declared control's default.
  `InitializeStateAsync` instead writes six fixed keys with its own values.
  `bed-temperature` gets 0, not the declared default 60. `printer-status`
  and `print-progress` are seeded but are not declared controls.
  (`PrinterMonitoring.SeedSetsExactlyTheseKeys`)
- **Setting twice:** setting a key twice in a row is meant to emit exactly
  one event. Per the code, it emits one only when the key did not already
  hold the value and the broker accepted the first publish. It emits none
  otherwise (`StateManager.SetTwiceEmitsOnce`).
- **Type checks:** each entry is meant to check the value's runtime type
  against the control's declared type. In the code only the value-carrying
  controls are checked: sliders must hold a `double`, text inputs a
  `string`, and the CNC toggle a `bool`. Buttons accept any value and ignore
  it. Declared slider ranges are never checked, a point the intended
  behaviour leaves open (`PrinterExecutor.PrinterNumericNoRangeCheck`,
  `CncExecutor.CncSpindleSpeedUnbounded`).
- **Error kinds:** the intended error kinds `InvalidArgument` and
  `UnknownControl` are `ArgumentException` and `InvalidOperationException`
  in the code. The consumer treats them alike.

## Model

| member | source | states |
|---|---|---|
| StateManager.SetStep | src/Services/EquipmentControlCenter.PrinterService/Services/ServiceStateManager.cs:28-51 | after one SetStateAsync the key holds the new value and every other key is untouched; a key already holding an equal value leaves store and bus unchanged and succeeds; otherwise at most one message goes out, and it is the change event for that key, and the call fails exactly when the publish throws |
| StateManager.SetEqualIsSilent | src/Services/EquipmentControlCenter.PrinterService/Services/ServiceStateManager.cs:30-33 | setting a key to the value it already holds changes nothing and publishes nothing, whatever the broker's condition |
| StateManager.SetTwiceEmitsOnce | src/Services/EquipmentControlCenter.PrinterService/Services/ServiceStateManager.cs:30-49 | two consecutive sets of the same key and value: the second is a no-op, and the pair emits one event when the first set changed the value and the broker was up, none otherwise |
| StateManager.SetAbsentKey | src/Services/EquipmentControlCenter.PrinterService/Services/ServiceStateManager.cs:35-47 | setting an absent key adds it and publishes one event whose OldValue is the string "null" and whose NewValue, reason, key and service identity are the call's |
| StateManager.StoredBeforePublish | src/Services/EquipmentControlCenter.PrinterService/Services/ServiceStateManager.cs:35-49 | when the publish throws, the new value is already stored, nothing is published and the exception's message propagates |
| StateManager.RunWrites | src/Services/EquipmentControlCenter.PrinterService/Services/ServiceStateManager.cs:28-51 | a run of awaited writes publishes at most one message per write, and it either completes or fails with the broker's publish exception |
| StateManager.RunWritesAppend | src/Services/EquipmentControlCenter.PrinterService/Services/PrinterControlExecutor.cs:22-34 | a sequence of awaited writes is its first part followed by its second part, and the second part never runs after a failure in the first |
| StateManager.RunWritesBusUp | src/Services/EquipmentControlCenter.PrinterService/Services/ServiceStateManager.cs:28-51 | with the broker up, any sequence of writes completes without an exception |
| StateManager.RunWritesFrame | src/Services/EquipmentControlCenter.PrinterService/Services/ServiceStateManager.cs:35 | a key that no write in the sequence names keeps its presence and value |
| StateManager.RunWritesStores | src/Services/EquipmentControlCenter.PrinterService/Services/ServiceStateManager.cs:35 | after a sequence of writes with distinct keys that completes, each written key holds its written value |
| StateManager.RunOfFreshWrites | src/Services/EquipmentControlCenter.PrinterService/Services/ServiceStateManager.cs:37-49 | writing distinct absent keys with the broker up publishes one event per write, in order, each with OldValue "null" |
| StateManager.RunOfHeldWritesIsSilent | src/Services/EquipmentControlCenter.PrinterService/Services/ServiceStateManager.cs:30-33 | writes whose keys already hold their values change nothing, publish nothing and succeed even with the broker down |
| StateManager.RerunIsSilent | src/Services/EquipmentControlCenter.PrinterService/Services/ServiceStateManager.cs:30-33 | repeating a completed sequence of distinct-key writes, at any time and with the broker in any condition, changes nothing and publishes nothing |
| StateManager.Execute | src/Services/EquipmentControlCenter.PrinterService/Services/PrinterControlExecutor.cs:16-67 | a rejected command touches neither store nor bus and returns its exception; an accepted one succeeds exactly when none of its writes' publishes throws, and then returns the arm's result text |
| StateManager.ReexecuteIsSilent | src/Services/EquipmentControlCenter.PrinterService/Services/PrinterControlExecutor.cs:16-67 | executing a command again after it succeeded changes nothing, publishes nothing and returns the same result |
| StateManager.ServiceStateManager.constructor | src/Services/EquipmentControlCenter.PrinterService/Services/ServiceStateManager.cs:16-26 | a new store is empty and carries the configured identity and bus |
| StateManager.ServiceStateManager.SetStateAsync | src/Services/EquipmentControlCenter.PrinterService/Services/ServiceStateManager.cs:28-51 | store, published messages and outcome are those of SetStep on the old store; an equal value changes nothing, any other value is stored |
| StateManager.ServiceStateManager.ApplyWrite | src/Services/EquipmentControlCenter.PrinterService/Services/PrinterControlExecutor.cs:27-29 | one awaited write: new store, appended messages and outcome are RunWrites of that write |
| StateManager.ServiceStateManager.ApplyWrites2 | src/Services/EquipmentControlCenter.PrinterService/Services/PrinterControlExecutor.cs:22-25 | two awaited writes, the second skipped when the first throws: the result is RunWrites of the pair |
| StateManager.ServiceStateManager.ApplyWrites3 | src/Services/EquipmentControlCenter.CncService/Services/CncControlExecutor.cs:27-31 | three awaited writes, stopping at the first that throws: the result is RunWrites of the triple |
| StateManager.ServiceStateManager.GetState | src/Services/EquipmentControlCenter.PrinterService/Services/ServiceStateManager.cs:53-58 | GetState<T> returns a value exactly when the key is present and holds a value of the requested runtime type, and then returns that stored value |
| StateManager.ServiceStateManager.GetAllState | src/Services/EquipmentControlCenter.PrinterService/Services/ServiceStateManager.cs:60-63 | the snapshot equals the whole store and nothing changes |
| PrinterExecutor.PrinterPlan | src/Services/EquipmentControlCenter.PrinterService/Services/PrinterControlExecutor.cs:20-66 | the call is refused as unknown exactly when the id has no switch arm; it is refused for its type exactly when a slider gets a non-number or filament-type a non-string; an accepted command makes one or two writes to distinct keys, and a parameter control writes its own key with the given value |
| PrinterExecutor.PrinterPlanClockFree | src/Services/EquipmentControlCenter.PrinterService/Services/PrinterControlExecutor.cs:20-66 | only start-print reads the clock: every other command plans the same writes at any time |
| PrinterExecutor.PrinterUnknownControl | src/Services/EquipmentControlCenter.PrinterService/Services/PrinterControlExecutor.cs:64-65 | an unknown id changes nothing, publishes nothing and fails with "Unknown control: <id>" |
| PrinterExecutor.PrinterWrongTypeRejected | src/Services/EquipmentControlCenter.PrinterService/Services/PrinterControlExecutor.cs:36-62 | a value of the wrong runtime type changes nothing, publishes nothing and fails with an argument error |
| PrinterExecutor.PrinterNumericNoRangeCheck | src/Services/EquipmentControlCenter.PrinterService/Services/PrinterControlExecutor.cs:36-55 | any number, in or out of the declared slider range, is stored under the slider's own key, and the command succeeds when the broker is up |
| PrinterExecutor.PrinterStopPrint | src/Services/EquipmentControlCenter.PrinterService/Services/PrinterControlExecutor.cs:31-34 | stop-print sets the status to Stopped and the progress to 0 and answers "Print stopped" |
| PrinterExecutor.PrinterPauseOnlyStatus | src/Services/EquipmentControlCenter.PrinterService/Services/PrinterControlExecutor.cs:27-29 | pause-print ignores its value and changes only printer-status, to Paused |
| PrinterExecutor.PrinterRedeliveryIsSilent | src/Services/EquipmentControlCenter.PrinterService/Services/PrinterControlExecutor.cs:20-66 | delivering a succeeded command again (start-print at the same instant) changes nothing, publishes nothing and answers the same |
| PrinterExecutor.PrinterControlExecutor.constructor | src/Services/EquipmentControlCenter.PrinterService/Services/PrinterControlExecutor.cs:8-14 | the executor works on the given state manager |
| PrinterExecutor.PrinterControlExecutor.ExecuteAsync | src/Services/EquipmentControlCenter.PrinterService/Services/PrinterControlExecutor.cs:16-67 | the new store, the appended bus messages and the returned result or exception are those of Execute(PrinterPlan) on the old store |
| CncExecutor.CncPlan | src/Services/EquipmentControlCenter.CncService/Services/CncControlExecutor.cs:25-74 | refused as unknown exactly when no arm matches; refused for its type exactly when a parameter control gets a value of another runtime type; buttons make up to three distinct-key writes ending with "COMPLETED" under their own id; a parameter control writes exactly its own key with the given value |
| CncExecutor.CncPlanClockFree | src/Services/EquipmentControlCenter.CncService/Services/CncControlExecutor.cs:25-74 | only start-machine reads the clock |
| CncExecutor.CncUnknownControl | src/Services/EquipmentControlCenter.CncService/Services/CncControlExecutor.cs:72-73 | an unknown id changes nothing, publishes nothing and fails with "Unknown control: <id>" |
| CncExecutor.CncWrongTypeRejected | src/Services/EquipmentControlCenter.CncService/Services/CncControlExecutor.cs:44-70 | a parameter value of the wrong runtime type changes nothing, publishes nothing and fails with an argument error |
| CncExecutor.CncParameterWritesOwnKey | src/Services/EquipmentControlCenter.CncService/Services/CncControlExecutor.cs:44-70 | a well-typed parameter value is stored under the control's own id and nothing else changes; the command succeeds when the broker is up |
| CncExecutor.CncSpindleSpeedUnbounded | src/Services/EquipmentControlCenter.CncService/Services/CncControlExecutor.cs:44-49 | any spindle speed, negative or above the declared 5000, is stored and answered with "Spindle speed set to <n> RPM", n printed as double.ToString() prints it |
| CncExecutor.CncButtonMarksCompleted | src/Services/EquipmentControlCenter.CncService/Services/CncControlExecutor.cs:27-42 | with the broker up, a button command succeeds, sets machine-status to "Running" (start-machine), "Stopped" (stop-machine) or "Emergency Stop" (emergency-stop), and leaves "COMPLETED" under the button's own id |
| CncExecutor.CncEmergencyStop | src/Services/EquipmentControlCenter.CncService/Services/CncControlExecutor.cs:38-42 | emergency-stop sets the status to "Emergency Stop", emergency-active to true and marks the button completed, answering "Emergency stop activated" |
| CncExecutor.CncCoolantIsAbsolute | src/Services/EquipmentControlCenter.CncService/Services/CncControlExecutor.cs:58-63 | coolant-toggle sets the state to the given boolean (it does not flip it) and answers enabled or disabled accordingly |
| CncExecutor.CncRedeliveryIsSilent | src/Services/EquipmentControlCenter.CncService/Services/CncControlExecutor.cs:25-74 | delivering a succeeded command again (start-machine at the same instant) changes nothing, publishes nothing and answers the same |
| CncExecutor.CncSpindleScenario | src/Services/EquipmentControlCenter.CncService/Services/CncControlExecutor.cs:44-49 | with spindle-speed at 1000, setting 1500 answers "Spindle speed set to 1500 RPM" and publishes exactly one event from 1000 to 1500 |
| CncExecutor.CncControlExecutor.constructor | src/Services/EquipmentControlCenter.CncService/Services/CncControlExecutor.cs:11-17 | the executor works on the given state manager |
| CncExecutor.CncControlExecutor.ExecuteAsync | src/Services/EquipmentControlCenter.CncService/Services/CncControlExecutor.cs:19-75 | the new store, the appended bus messages and the returned result or exception are those of Execute(CncPlan) on the old store |
| CommandConsumer.BuildResponse | src/Services/EquipmentControlCenter.PrinterService/Consumers/ControlCommandConsumer.cs:33-67 | the response echoes the command's ids; it reports success exactly when the executor returned; a success carries the result text and no error, a failure carries EXECUTION_ERROR and the exception's message and no result; the processing time is the elapsed time |
| CommandConsumer.ConsumeSpec | src/Services/EquipmentControlCenter.PrinterService/Consumers/ControlCommandConsumer.cs:23-68 | consuming a command has exactly the executor's effect on store and bus, and its response reports success exactly when the executor succeeded |
| CommandConsumer.RejectedCommandLeavesStore | src/Services/EquipmentControlCenter.PrinterService/Consumers/ControlCommandConsumer.cs:50-66 | an unknown or ill-typed command leaves the store and bus alone and is still answered, with a failure response for the same command id |
| CommandConsumer.UnknownControlResponse | src/Services/EquipmentControlCenter.PrinterService/Consumers/ControlCommandConsumer.cs:50-66 | the failure response to an unknown control says "Unknown control: <id>" |
| CommandConsumer.AcceptedCommandSucceeds | src/Services/EquipmentControlCenter.PrinterService/Consumers/ControlCommandConsumer.cs:35-46 | a known, well-typed command with the broker up is answered with success and the executor's result text |
| CommandConsumer.RedeliveredCommandSameAnswer | src/Services/EquipmentControlCenter.PrinterService/Consumers/ControlCommandConsumer.cs:23-68 | consuming a succeeded command again leaves the store alone, publishes nothing and gives the same response |
| CommandConsumer.CncCoolantNotBoolResponse | src/Services/EquipmentControlCenter.PrinterService/Consumers/ControlCommandConsumer.cs:50-66 | a non-boolean coolant command changes nothing and, answered under the consumer's rule, fails with EXECUTION_ERROR and "Coolant state must be boolean" |
| CommandConsumer.CncSpindleResponse | src/Services/EquipmentControlCenter.PrinterService/Consumers/ControlCommandConsumer.cs:35-46 | spindle-speed 1500 over a stored 1000 is answered with success, the same command id and "Spindle speed set to 1500 RPM", and publishes one event from 1000 to 1500 |
| CommandConsumer.ReplyChannel.RespondAsync | src/Services/EquipmentControlCenter.PrinterService/Consumers/ControlCommandConsumer.cs:48 | a reply is appended to the replies sent on the command's context |
| CommandConsumer.ControlCommandConsumer.constructor | src/Services/EquipmentControlCenter.PrinterService/Consumers/ControlCommandConsumer.cs:13-21 | the consumer runs the given executor |
| CommandConsumer.ControlCommandConsumer.Consume | src/Services/EquipmentControlCenter.PrinterService/Consumers/ControlCommandConsumer.cs:23-68 | store and bus change as ConsumeSpec says, and exactly one response (ConsumeSpec's) is appended to the context's replies, whether the executor returned or threw |
| PrinterMonitoring.HeartbeatLog | src/Services/EquipmentControlCenter.PrinterService/Services/PrinterMonitoringService.cs:34-46 | at most one message per beat; each is a Healthy heartbeat carrying the store snapshot, with a message count above the starting counter and at most the counter plus the number of beats |
| PrinterMonitoring.HeartbeatLogSnoc | src/Services/EquipmentControlCenter.PrinterService/Services/PrinterMonitoringService.cs:34-46 | one more beat appends exactly its heartbeat, numbered by how many beats came before it, or nothing when its publish throws |
| PrinterMonitoring.HeartbeatCountsIncrease | src/Services/EquipmentControlCenter.PrinterService/Services/PrinterMonitoringService.cs:72 | the message counts of the published heartbeats strictly increase |
| PrinterMonitoring.HeartbeatLogBusUp | src/Services/EquipmentControlCenter.PrinterService/Services/PrinterMonitoringService.cs:61-76 | with the broker up on every beat, beat k publishes the heartbeat numbered count + k + 1, built at that beat's own time |
| PrinterMonitoring.FailedBeatConsumesNumber | src/Services/EquipmentControlCenter.PrinterService/Services/PrinterMonitoringService.cs:36-45 | a beat whose publish throws is swallowed by the loop but still uses up its number: the next heartbeat is numbered 2 |
| PrinterMonitoring.SeedStopsEarly | src/Services/EquipmentControlCenter.PrinterService/Services/PrinterMonitoringService.cs:53-58 | if one of the first three seed writes throws, the last three never run |
| PrinterMonitoring.SeedRunsOn | src/Services/EquipmentControlCenter.PrinterService/Services/PrinterMonitoringService.cs:53-58 | if the first three seed writes complete, the last three run on the resulting store |
| PrinterMonitoring.SeedKeysDistinct | src/Services/EquipmentControlCenter.PrinterService/Services/PrinterMonitoringService.cs:53-58 | the six seed writes name six different keys |
| PrinterMonitoring.SeedWritesOnlySeedKeys | src/Services/EquipmentControlCenter.PrinterService/Services/PrinterMonitoringService.cs:53-58 | seeding writes no key outside the six |
| PrinterMonitoring.SeedSetsExactlyTheseKeys | src/Services/EquipmentControlCenter.PrinterService/Services/PrinterMonitoringService.cs:53-58 | with the broker up, seeding succeeds and the store becomes the old store overridden by the six seed values, nothing else changing |
| PrinterMonitoring.SeedEmptyStoreEmitsSix | src/Services/EquipmentControlCenter.PrinterService/Services/PrinterMonitoringService.cs:53-58 | seeding an empty store publishes six events, one per key in seed order, each from "null" to the seed value |
| PrinterMonitoring.ReseedIsSilent | src/Services/EquipmentControlCenter.PrinterService/Services/PrinterMonitoringService.cs:53-58 | seeding a second time changes nothing and publishes nothing |
| PrinterMonitoring.SeedWithBrokerDown | src/Services/EquipmentControlCenter.PrinterService/Services/PrinterMonitoringService.cs:51-59 | with the broker down, seeding an empty store stores only printer-status = Idle, publishes nothing and fails |
| PrinterMonitoring.HeartbeatOf | src/Services/EquipmentControlCenter.PrinterService/Services/PrinterMonitoringService.cs:61-77 | a heartbeat carries the service's identity, Healthy, the store snapshot and the counter value, and its uptime runs from the service's start time to the heartbeat's own timestamp |
| PrinterMonitoring.PrinterMonitoringService.constructor | src/Services/EquipmentControlCenter.PrinterService/Services/PrinterMonitoringService.cs:15-26 | the message counter starts at 0 and the start time is the construction time |
| PrinterMonitoring.PrinterMonitoringService.InitializeStateAsync | src/Services/EquipmentControlCenter.PrinterService/Services/PrinterMonitoringService.cs:51-59 | the store, bus and outcome are those of running the six seed writes in order |
| PrinterMonitoring.PrinterMonitoringService.PublishHeartbeatAsync | src/Services/EquipmentControlCenter.PrinterService/Services/PrinterMonitoringService.cs:61-77 | the counter goes up by one even when the publish throws; with the broker up exactly one Healthy heartbeat is published, carrying the store snapshot, the uptime since start and the new counter value |
| PrinterMonitoring.PrinterMonitoringService.ExecuteAsync | src/Services/EquipmentControlCenter.PrinterService/Services/PrinterMonitoringService.cs:28-49 | seeding runs first; if it throws the service ends with that exception and no heartbeat; otherwise every beat advances the counter and the bus receives the seed events followed by HeartbeatLog of the beats |
| PrinterDefinitions.PrinterControlDefinitions | src/Services/EquipmentControlCenter.PrinterService/Services/PrinterControlDefinitionProvider.cs:7-114 | seven controls, each one the executor handles |
| PrinterDefinitions.PrinterDisplayOrders | src/Services/EquipmentControlCenter.PrinterService/Services/PrinterControlDefinitionProvider.cs:9-113 | the display orders in list order are 1, 2, 3, 10, 11, 20, 21 |
| PrinterDefinitions.PrinterIdsDistinct | src/Services/EquipmentControlCenter.PrinterService/Services/PrinterControlDefinitionProvider.cs:9-113 | no two controls share an id |
| PrinterDefinitions.PrinterControlShapes | src/Services/EquipmentControlCenter.PrinterService/Services/PrinterControlDefinitionProvider.cs:45-112 | slider defaults lie within their bounds on the step grid, buttons carry no value or constraints, and the text default fits its length limit |
| PrinterDefinitions.PrinterOrdersIncrease | src/Services/EquipmentControlCenter.PrinterService/Services/PrinterControlDefinitionProvider.cs:9-113 | the list is sorted by strictly increasing display order |
| PrinterDefinitions.PrinterCatalogWellFormed | src/Services/EquipmentControlCenter.PrinterService/Services/PrinterControlDefinitionProvider.cs:9-113 | ids distinct, orders increasing, every control well shaped |
| PrinterDefinitions.PrinterHandledIdsDeclared | src/Services/EquipmentControlCenter.PrinterService/Services/PrinterControlDefinitionProvider.cs:9-113 | every id the executor handles is declared |
| PrinterDefinitions.PrinterCatalogMatchesExecutor | src/Services/EquipmentControlCenter.PrinterService/Services/PrinterControlDefinitionProvider.cs:9-113 | the declared ids are exactly the ids the executor handles |
| PrinterDefinitions.PrinterDefaultsAccepted | src/Services/EquipmentControlCenter.PrinterService/Services/PrinterControlDefinitionProvider.cs:45-112 | every declared default value passes the executor's type check, and no declared control is refused as unknown |
| PrinterDefinitions.PrinterStopPrintStyled | src/Services/EquipmentControlCenter.PrinterService/Services/PrinterControlDefinitionProvider.cs:31-44 | stop-print is the only control with metadata, style = warning |
| CncDefinitions.CncControlDefinitions | src/Services/EquipmentControlCenter.CncService/Services/CncControlDefinitionProvider.cs:10-112 | seven controls, each one the executor handles |
| CncDefinitions.CncDisplayOrders | src/Services/EquipmentControlCenter.CncService/Services/CncControlDefinitionProvider.cs:12-111 | the display orders in list order are 1, 2, 3, 10, 11, 12, 20 |
| CncDefinitions.CncOrdersIncrease | src/Services/EquipmentControlCenter.CncService/Services/CncControlDefinitionProvider.cs:12-111 | the list is sorted by strictly increasing display order |
| CncDefinitions.CncIdsDistinct | src/Services/EquipmentControlCenter.CncService/Services/CncControlDefinitionProvider.cs:12-111 | no two controls share an id |
| CncDefinitions.CncControlShapes | src/Services/EquipmentControlCenter.CncService/Services/CncControlDefinitionProvider.cs:49-110 | slider defaults lie within their bounds on the step grid, buttons carry no value or constraints, and the program-name default fits its length limit |
| CncDefinitions.CncCatalogWellFormed | src/Services/EquipmentControlCenter.CncService/Services/CncControlDefinitionProvider.cs:12-111 | ids distinct, orders increasing, every control well shaped |
| CncDefinitions.CncHandledIdsDeclared | src/Services/EquipmentControlCenter.CncService/Services/CncControlDefinitionProvider.cs:12-111 | every id the executor handles is declared |
| CncDefinitions.CncCatalogMatchesExecutor | src/Services/EquipmentControlCenter.CncService/Services/CncControlDefinitionProvider.cs:12-111 | the declared ids are exactly the ids the executor handles |
| CncDefinitions.CncDefaultsAccepted | src/Services/EquipmentControlCenter.CncService/Services/CncControlDefinitionProvider.cs:49-110 | every declared default value passes the CNC executor's type check |
| CncDefinitions.CncOnlyToggleIsCoolant | src/Services/EquipmentControlCenter.CncService/Services/CncControlDefinitionProvider.cs:83-93 | coolant-toggle is the one toggle, and it defaults to false |
| CncDefinitions.CncEmergencyStopConfirms | src/Services/EquipmentControlCenter.CncService/Services/CncControlDefinitionProvider.cs:34-48 | emergency-stop is third and carries style = danger and confirm = true |
| EquipmentServices.NewEquipmentService | src/EquipmentControlCenter.Desktop/EquipmentControlCenter.Desktop/Models/EquipmentService.cs:13-41 | a new record has empty texts, Unknown health, LastHeartbeat at DateTime.MinValue, zero uptime and empty state, controls and metadata |
| EquipmentServices.IsOnline | src/EquipmentControlCenter.Desktop/EquipmentControlCenter.Desktop/Models/EquipmentService.cs:43 | a record is online exactly while the time is before the deadline 30 seconds after its last heartbeat |
| EquipmentServices.OnlineRightAfterHeartbeat | src/EquipmentControlCenter.Desktop/EquipmentControlCenter.Desktop/Models/EquipmentService.cs:43 | a record is online at the instant of its last heartbeat |
| EquipmentServices.OnlineWindowBounds | src/EquipmentControlCenter.Desktop/EquipmentControlCenter.Desktop/Models/EquipmentService.cs:43 | a record is online exactly until 30 seconds after its last heartbeat |
| EquipmentServices.OfflineStaysOffline | src/EquipmentControlCenter.Desktop/EquipmentControlCenter.Desktop/Models/EquipmentService.cs:43 | without a new heartbeat, an offline record stays offline as time goes on |
| EquipmentServices.OnlineDependsOnlyOnHeartbeat | src/EquipmentControlCenter.Desktop/EquipmentControlCenter.Desktop/Models/EquipmentService.cs:43 | IsOnline is derived from LastHeartbeat alone |
| EquipmentServices.FreshRecordOffline | src/EquipmentControlCenter.Desktop/EquipmentControlCenter.Desktop/Models/EquipmentService.cs:32-43 | a record that never had a heartbeat is offline once 30 seconds past DateTime.MinValue |
| ServiceRegistry.Registered | src/EquipmentControlCenter.Desktop/EquipmentControlCenter.Desktop/Services/EquipmentServiceRegistry.cs:40-51 | a new record copies the message's identity, type, manufacturer and controls, starts Unknown with LastHeartbeat = RegisteredAt, zero uptime and empty state, and takes the message's metadata or an empty map |
| ServiceRegistry.ApplyKeepsInSync | src/EquipmentControlCenter.Desktop/EquipmentControlCenter.Desktop/Services/EquipmentServiceRegistry.cs:29-94 | every event keeps the dictionary and the Services list in step (same ids, listed once each, keyed by their own id); re-registration leaves the list alone |
| ServiceRegistry.ReplayInSync | src/EquipmentControlCenter.Desktop/EquipmentControlCenter.Desktop/Services/EquipmentServiceRegistry.cs:29-94 | after any sequence of events from an empty registry, dictionary and list are in step |
| ServiceRegistry.KnownIffRegistered | src/EquipmentControlCenter.Desktop/EquipmentControlCenter.Desktop/Services/EquipmentServiceRegistry.cs:109-112 | after any sequence of events, GetService finds an id exactly when a registration for it was among the events |
| ServiceRegistry.RegisterNewService | src/EquipmentControlCenter.Desktop/EquipmentControlCenter.Desktop/Services/EquipmentServiceRegistry.cs:40-54 | a first registration adds a fresh record at the end of the list and leaves every other record unchanged |
| ServiceRegistry.ReregistrationKeepsLiveness | src/EquipmentControlCenter.Desktop/EquipmentControlCenter.Desktop/Services/EquipmentServiceRegistry.cs:96-107 | a repeated registration overwrites name, machine, type, manufacturer and controls, replaces the metadata with the message's or an empty map, but keeps health, last heartbeat, uptime and state, the list and all other records |
| ServiceRegistry.RegistrationIdempotent | src/EquipmentControlCenter.Desktop/EquipmentControlCenter.Desktop/Services/EquipmentServiceRegistry.cs:29-60 | handling the same registration twice has the effect of handling it once |
| ServiceRegistry.UnknownServiceDropped | src/EquipmentControlCenter.Desktop/EquipmentControlCenter.Desktop/Services/EquipmentServiceRegistry.cs:62-94 | a heartbeat or state change for an unregistered id leaves the registry unchanged |
| ServiceRegistry.HeartbeatRefreshesRecord | src/EquipmentControlCenter.Desktop/EquipmentControlCenter.Desktop/Services/EquipmentServiceRegistry.cs:62-79 | a heartbeat sets last heartbeat, health and uptime and replaces the whole state with the snapshot; it keeps id, name, machine, type, manufacturer, controls and metadata, the list and every other record, and leaves the record online at that moment |
| ServiceRegistry.StateChangeSetsOneKey | src/EquipmentControlCenter.Desktop/EquipmentControlCenter.Desktop/Services/EquipmentServiceRegistry.cs:81-94 | a state change sets exactly its key to the new value; every other field of the record, the other keys, the list and every other record stay as they were |
| ServiceRegistry.HeartbeatThenStateChange | src/EquipmentControlCenter.Desktop/EquipmentControlCenter.Desktop/Services/EquipmentServiceRegistry.cs:72-91 | a heartbeat with {x: 1} followed by a change of x to 2 leaves the state {x: 2} |
| ServiceRegistry.ApplyRegistered | src/EquipmentControlCenter.Desktop/EquipmentControlCenter.Desktop/Services/EquipmentServiceRegistry.cs:29-60 | after a registration its id is registered, and every other id is registered exactly when it was before |
| ServiceRegistry.ApplyHeartbeat | src/EquipmentControlCenter.Desktop/EquipmentControlCenter.Desktop/Services/EquipmentServiceRegistry.cs:62-79 | a heartbeat never adds or removes a record and leaves the list alone |
| ServiceRegistry.ApplyStateChanged | src/EquipmentControlCenter.Desktop/EquipmentControlCenter.Desktop/Services/EquipmentServiceRegistry.cs:81-94 | a state change never adds or removes a record and leaves the list alone |
| ServiceRegistry.EquipmentServiceRegistry.constructor | src/EquipmentControlCenter.Desktop/EquipmentControlCenter.Desktop/Services/EquipmentServiceRegistry.cs:16-27 | a new registry is empty, and dictionary and list are in step |
| ServiceRegistry.EquipmentServiceRegistry.RegisterService | src/EquipmentControlCenter.Desktop/EquipmentControlCenter.Desktop/Services/EquipmentServiceRegistry.cs:29-60 | the registry becomes ApplyRegistered of its old contents, staying in step |
| ServiceRegistry.EquipmentServiceRegistry.UpdateExistingService | src/EquipmentControlCenter.Desktop/EquipmentControlCenter.Desktop/Services/EquipmentServiceRegistry.cs:96-107 | only the registered record changes, to its re-registered form |
| ServiceRegistry.EquipmentServiceRegistry.UpdateHeartbeat | src/EquipmentControlCenter.Desktop/EquipmentControlCenter.Desktop/Services/EquipmentServiceRegistry.cs:62-79 | the registry becomes ApplyHeartbeat of its old contents, staying in step |
| ServiceRegistry.EquipmentServiceRegistry.UpdateState | src/EquipmentControlCenter.Desktop/EquipmentControlCenter.Desktop/Services/EquipmentServiceRegistry.cs:81-94 | the registry becomes ApplyStateChanged of its old contents, staying in step |
| ServiceRegistry.EquipmentServiceRegistry.GetService | src/EquipmentControlCenter.Desktop/EquipmentControlCenter.Desktop/Services/EquipmentServiceRegistry.cs:109-112 | returns the record registered under the id, or nothing, and changes nothing |
| ControlViews.ExecutingOverridesAll | src/EquipmentControlCenter.Desktop/EquipmentControlCenter.Desktop/Models/ControlViewModel.cs:70-101 | while a command executes every control reads "EXECUTING" on orange, whatever its type and value |
| ControlViews.NullValueIndicators | src/EquipmentControlCenter.Desktop/EquipmentControlCenter.Desktop/Models/ControlViewModel.cs:78-104 | with no value, non-buttons are gray, a button reads "READY" on blue, and a text input with no or empty text reads "EMPTY" |
| ControlViews.ToggleTextMatchesColour | src/EquipmentControlCenter.Desktop/EquipmentControlCenter.Desktop/Models/ControlViewModel.cs:115-151 | a toggle reads "ON" exactly when it is green; dark gray only goes with "OFF", and "OFF" only with dark gray or gray |
| ControlViews.ToggleReadings | src/EquipmentControlCenter.Desktop/EquipmentControlCenter.Desktop/Models/ControlViewModel.cs:115-151 | a bool toggle reads its own value; a string among TRUE/ON/1 reads ON on green, among FALSE/OFF/0 reads OFF on dark gray, in any letter case; any other string reads as itself upper-cased on gray |
| ControlViews.ReadsThroughShout | src/EquipmentControlCenter.Desktop/EquipmentControlCenter.Desktop/Models/ControlViewModel.cs:115-167 | apart from bools, toggle text, toggle colour and button colour depend only on the upper-cased text of the value |
| ControlViews.CaseInsensitive | src/EquipmentControlCenter.Desktop/EquipmentControlCenter.Desktop/Models/ControlViewModel.cs:115-167 | a string and its upper-cased form read and colour the same on a toggle and on a button |
| ControlViews.ButtonColours | src/EquipmentControlCenter.Desktop/EquipmentControlCenter.Desktop/Models/ControlViewModel.cs:153-167 | a button is green exactly for COMPLETED/SUCCESS/DONE, orange exactly for RUNNING/ACTIVE, red exactly for ERROR/FAILED, and otherwise blue, null included |
| ControlViews.CompletedButtonShowsGreen | src/EquipmentControlCenter.Desktop/EquipmentControlCenter.Desktop/Models/ControlViewModel.cs:78-111 | the "COMPLETED" marker a CNC button leaves shows as "COMPLETED" on green |
| ControlViews.IndicatorText | src/EquipmentControlCenter.Desktop/EquipmentControlCenter.Desktop/Models/ControlViewModel.cs:70-90 | while executing the text is EXECUTING; otherwise a button shows its value upper-cased (READY with none), a slider, numeric input, dropdown or multi-button shows its value's text, a text input never shows blank, and with no value the text is one of OFF, READY, 0, N/A, EMPTY |
| ControlViews.IndicatorBackground | src/EquipmentControlCenter.Desktop/EquipmentControlCenter.Desktop/Models/ControlViewModel.cs:95-113 | the colour is one of the seven indicator colours; orange while executing; otherwise gray for a non-button with no value, and blue-gray for a valued control that is neither toggle nor button |
| ControlViews.ToggleStateText | src/EquipmentControlCenter.Desktop/EquipmentControlCenter.Desktop/Models/ControlViewModel.cs:115-132 | a toggle reads ON or OFF, or else a non-bool value's upper-cased text, which is then none of TRUE/ON/1/FALSE/OFF/0 |
| ControlViews.ToggleStateColor | src/EquipmentControlCenter.Desktop/EquipmentControlCenter.Desktop/Models/ControlViewModel.cs:134-151 | a toggle is green, dark gray or gray |
| ControlViews.ButtonStateColor | src/EquipmentControlCenter.Desktop/EquipmentControlCenter.Desktop/Models/ControlViewModel.cs:153-168 | a button is green, orange, red or blue |
| ControlViews.ControlViewModel.StateIndicatorText | src/EquipmentControlCenter.Desktop/EquipmentControlCenter.Desktop/Models/ControlViewModel.cs:70-90 | the view model's text is EXECUTING while a command runs, and one of OFF, READY, 0, N/A, EMPTY when it holds no value |
| ControlViews.ControlViewModel.StateIndicatorBackground | src/EquipmentControlCenter.Desktop/EquipmentControlCenter.Desktop/Models/ControlViewModel.cs:95-113 | the view model's background is orange while a command runs, and gray when a non-button holds no value |
| ControlViews.CommandCallback.Invoke | src/EquipmentControlCenter.Desktop/EquipmentControlCenter.Desktop/Models/ControlViewModel.cs:59 | the command callback sees the view model's IsExecuting flag and returns or throws as configured |
| ControlViews.ControlViewModel.constructor | src/EquipmentControlCenter.Desktop/EquipmentControlCenter.Desktop/Models/ControlViewModel.cs:32-38 | the view model starts with the definition's value and enabled flag, not executing |
| ControlViews.ControlViewModel.ExecuteAsync | src/EquipmentControlCenter.Desktop/EquipmentControlCenter.Desktop/Models/ControlViewModel.cs:51-65 | when disabled or already executing nothing happens; otherwise the callback runs exactly once while IsExecuting is true, IsExecuting is false afterwards even when the callback threw, and the callback's exception propagates |
| Values.NatTextRoundTrip | src/Services/EquipmentControlCenter.CncService/Services/CncControlExecutor.cs:49 | the decimal digits a result text quotes for a whole number read back as that number |
| Values.NumText | src/Services/EquipmentControlCenter.CncService/Services/CncControlExecutor.cs:49 | a whole number below 10^15 in magnitude is printed as its signed decimal digits; every text is non-empty and starts with a minus sign exactly for negative numbers |
| Values.ScientificDenotes | src/Services/EquipmentControlCenter.CncService/Services/CncControlExecutor.cs:49 | the scientific form loses nothing: its significant digits times ten to the stated exponent, less the digits after the point, give back the number |
| Values.ScientificExponent | src/Services/EquipmentControlCenter.CncService/Services/CncControlExecutor.cs:49 | the scientific form appears only with an exponent of 15 or more |
| Values.TenToFifteenText | src/Services/EquipmentControlCenter.CncService/Services/CncControlExecutor.cs:49 | 10^15 prints as 1E+15 and its negation as -1E+15 |
| Values.UpperIdempotent | src/EquipmentControlCenter.Desktop/EquipmentControlCenter.Desktop/Models/ControlViewModel.cs:125 | upper-casing text that is already upper case changes nothing |

## Left out

- The message bus library, logging and the hosting framework are not modelled. Publishing is a `Bus` whose `fault` field decides whether `Publish` throws. Replies go to a `ReplyChannel` that records them.
- `DateTime.UtcNow` readings are parameters in ticks, and some readings the source takes separately share one parameter:
  - `StateManager.RunWrites` stamps every event of one run with one `now`, though each `SetStateAsync` reads the clock for its event's Timestamp (ServiceStateManager.cs:42). All events of one executor call share a timestamp, and so do the six seed events.
  - The `print-started` and `last-started` values that start-print and start-machine store equal their own event's Timestamp. The source reads the clock once for the value (PrinterControlExecutor.cs:24, CncControlExecutor.cs:29) and again for the event.
  - `PrinterMonitoring.HeartbeatOf` uses one `now` for the Timestamp and for the end of the Uptime. The source reads the clock for each (PrinterMonitoringService.cs:68 and 71).
  - `ControlCommandConsumer.Consume` has three readings: start, the executor's own reading, and the end. The code reads the clock separately for `ProcessedAt` and for the processing time; the model uses one end reading for both.
- `Task.Delay`, the 5-second interval and cancellation are not modelled. The monitoring loop's passes are a list of `Beat`s, each with its time and the broker's condition, and the run ends where the list ends. Commands do not interleave with beats, so every heartbeat in a run carries the store as seeding left it.
- Concurrency is not modelled: `ConcurrentDictionary`, `Interlocked.Increment` and the UI dispatcher. Each operation runs to completion, one after another. The desktop registry's `Dispatcher.UIThread.Post` bodies are applied at once.
- Doubles are modelled as whole numbers (`Num`). Every constant in the source is whole. `Values.NumText` prints them as `double.ToString()` does under the invariant culture: plain digits below 10^15 in magnitude, and the form `d[.ddd]E+XX` from 10^15 on. Fractional values and culture-dependent formatting are not modelled. Nor is double precision: a `Num` above 2^53 in magnitude may stand for no double at all, and its text is that of the exact integer rather than of the nearest double.
- `ToUpperInvariant` is modelled on ASCII letters only.
- `ToString` of a `DateTime` value in the view model is modelled as its tick count.
- A service's identity is a configured `ServiceIdentity`. The fallback to a fresh GUID when no id is configured is not modelled.
- The CNC service's own `ServiceStateManager`, consumer and monitoring service are not part of this model. The CNC executor is modelled over the printer's store, whose code is identical in shape. `CommandConsumer.CncCoolantNotBoolResponse` and `CommandConsumer.CncSpindleResponse` apply the printer consumer's response rule to the CNC executor.
- Retry and timeout policies (command timeout, delivery retries, waiting for the bus at startup) are not modelled. They belong to the desktop's `ControlCommandService`, the registration publishers and the bus configuration, which are not part of this model. Registration publishing, Consul configuration and application wiring are not part of it either.
- The registry's `ServiceAdded` and `ServiceUpdated` events and all property-change notifications are not modelled.
- Registry records are values, not shared objects. In the source, a heartbeat's `CurrentState` dictionary becomes the record's own dictionary, and a later `UpdateState` writes into that same dictionary. The model shows the resulting record state (`ServiceRegistry.HeartbeatThenStateChange`), not the sharing.
- The `Services` observable collection is modelled as the list of registered ids in insertion order. It holds the same records as the dictionary.
- The regular-expression `Pattern` of text controls is stored but never evaluated. Neither executor evaluates it either.
- ControlViewModel: the callback's effects beyond observing `IsExecuting` are not modelled. Neither are the `ICommand` wrapper or the read-only projections of the definition (id, name, type, category).
- `GetState<T>` is modelled with a runtime-type tag (`ValueKind`) instead of a type parameter.
- Exceptions other than the executors' own and the bus's publish failure are not modelled, for example an exception thrown while sending the reply.
- PrinterMonitoring.PrinterMonitoringService.PublishHeartbeatAsync: the counter is an unbounded integer. The source's 64-bit `long` would wrap only after 2^63 heartbeats.
- PrinterMonitoring.HeartbeatLogBusUp: states each heartbeat through `HeartbeatOf`. Its uptime (`now - startTime`) follows from that definition, not from a separate clause.
