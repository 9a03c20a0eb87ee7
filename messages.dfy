/** The records the services and the desktop exchange over the bus, and the
    control definitions a service declares. Times and durations are ticks. */
module Messages {
  import opened Values

  datatype ControlType = Button | Toggle | Slider | TextInput | NumericInput | Dropdown | MultiButton

  /** Constraints a control declares. Slider bounds and steps are doubles in
      the source; every one the services declare is a whole number. */
  datatype ControlConstraints = ControlConstraints(
    minValue: Option<int>,
    maxValue: Option<int>,
    step: Option<int>,
    maxLength: Option<int>,
    pattern: Option<string>,
    allowedValues: Option<seq<string>>,
    isRequired: bool,
    validationMessage: Option<string>)

  datatype ControlDefinition = ControlDefinition(
    controlId: string,
    displayName: string,
    controlType: ControlType,
    category: string,
    description: Option<string>,
    currentValue: Option<Value>,
    constraints: Option<ControlConstraints>,
    displayOrder: int,
    isEnabled: bool,
    metadata: Option<map<string, string>>)

  datatype ServiceHealthStatus = Healthy | Degraded | Unhealthy | Unknown

  /** The configured identity every message a service publishes carries. */
  datatype ServiceIdentity = ServiceIdentity(serviceId: string, serviceName: string, machineName: string)

  datatype ServiceStateChanged = ServiceStateChanged(
    serviceId: string,
    serviceName: string,
    machineName: string,
    timestamp: int,
    stateKey: string,
    oldValue: Value,
    newValue: Value,
    reason: Option<string>)

  datatype ServiceHeartbeat = ServiceHeartbeat(
    serviceId: string,
    serviceName: string,
    machineName: string,
    timestamp: int,
    healthStatus: ServiceHealthStatus,
    currentState: map<string, Value>,
    uptime: int,
    messageCount: int)

  datatype ServiceRegistered = ServiceRegistered(
    serviceId: string,
    serviceName: string,
    machineName: string,
    equipmentType: string,
    manufacturer: string,
    version: string,
    registeredAt: int,
    availableControls: seq<ControlDefinition>,
    metadata: Option<map<string, string>>)

  datatype ControlCommand = ControlCommand(
    serviceId: string,
    controlId: string,
    commandId: string,
    value: Value,
    requestedAt: int,
    requestedBy: Option<string>)

  datatype ControlCommandResponse = ControlCommandResponse(
    commandId: string,
    serviceId: string,
    controlId: string,
    success: bool,
    processedAt: int,
    resultValue: Option<Value>,
    errorMessage: Option<string>,
    errorCode: Option<string>,
    processingTime: int)

  /** What a service publishes on the bus, in publication order. */
  datatype BusMessage =
    | StateChangedMessage(changed: ServiceStateChanged)
    | HeartbeatMessage(heartbeat: ServiceHeartbeat)

  // ---------------------------------------------------------------------
  // Properties a service's list of control definitions should have

  /** No two controls share a ControlId. */
  predicate DistinctIds(defs: seq<ControlDefinition>)
  {
    forall i, j :: 0 <= i < j < |defs| ==> defs[i].controlId != defs[j].controlId
  }

  /** DisplayOrder grows strictly along the list. */
  predicate OrderIncreasing(defs: seq<ControlDefinition>)
  {
    forall i, j :: 0 <= i < j < |defs| ==> defs[i].displayOrder < defs[j].displayOrder
  }

  function DisplayOrders(defs: seq<ControlDefinition>): (r: seq<int>)
    ensures |r| == |defs|
    ensures forall i :: 0 <= i < |defs| ==> r[i] == defs[i].displayOrder
  {
    if defs == [] then [] else [defs[0].displayOrder] + DisplayOrders(defs[1..])
  }

  function Ids(defs: seq<ControlDefinition>): set<string>
  {
    set d | d in defs :: d.controlId
  }

  /** `v` is `min` plus a whole number of `step`s. */
  predicate OnGrid(v: int, min: int, step: int)
  {
    step > 0 && v >= min && (v - min) % step == 0
  }

  /** A slider declares min, max and step, and its default lies in
      [min, max] on the step grid. */
  predicate SliderDefaultValid(d: ControlDefinition)
  {
    d.controlType == Slider ==>
      && d.constraints.Some?
      && d.constraints.value.minValue.Some?
      && d.constraints.value.maxValue.Some?
      && d.constraints.value.step.Some?
      && d.currentValue.Some?
      && d.currentValue.value.Num?
      && d.currentValue.value.n <= d.constraints.value.maxValue.value
      && OnGrid(d.currentValue.value.n, d.constraints.value.minValue.value, d.constraints.value.step.value)
  }

  /** A button carries neither a current value nor constraints. */
  predicate ButtonBare(d: ControlDefinition)
  {
    d.controlType == Button ==> d.currentValue.None? && d.constraints.None?
  }

  /** A text input's default is a string no longer than its MaxLength. */
  predicate TextDefaultFits(d: ControlDefinition)
  {
    d.controlType == TextInput ==>
      && d.currentValue.Some?
      && d.currentValue.value.Str?
      && d.constraints.Some?
      && d.constraints.value.maxLength.Some?
      && |d.currentValue.value.s| <= d.constraints.value.maxLength.value
  }

  /** The invariants both services' definition providers keep. */
  predicate WellFormedCatalog(defs: seq<ControlDefinition>)
  {
    && DistinctIds(defs)
    && OrderIncreasing(defs)
    && (forall d :: d in defs ==> SliderDefaultValid(d) && ButtonBare(d) && TextDefaultFits(d))
  }
}
