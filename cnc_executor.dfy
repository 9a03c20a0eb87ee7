/** CncControlExecutor: dispatch over the seven CNC controls. Buttons write the
    machine status (and, for start and emergency stop, one more key) and then
    mark their own control id "COMPLETED"; parameter controls check the runtime
    type of the value and write it under the key named by the control id.
    Range constraints are never checked. The CNC service's own state manager
    is not part of this model; the printer's ServiceStateManager stands in for it. */
module CncExecutor {
  import opened Values
  import opened Messages
  import opened StateManager

  const CncControlIds: set<string> :=
    {"start-machine", "stop-machine", "emergency-stop", "spindle-speed", "feed-rate", "coolant-toggle", "program-name"}

  const CncButtonIds: set<string> := {"start-machine", "stop-machine", "emergency-stop"}

  /** The marker a button leaves under its own control id. */
  const Completed: Value := Str("COMPLETED")

  /** The runtime type each parameter control demands of its value. */
  function ExpectedKind(controlId: string): Option<ValueKind>
  {
    if controlId == "spindle-speed" || controlId == "feed-rate" then Some(NumKind)
    else if controlId == "coolant-toggle" then Some(BoolKind)
    else if controlId == "program-name" then Some(StrKind)
    else None
  }

  /** The switch of ExecuteAsync as data: the writes an arm issues and the text it returns. */
  function CncPlan(controlId: string, value: Value, now: int): (r: Result<Plan, Error>)
    ensures r.Err? && r.error.UnknownControl? <==> controlId !in CncControlIds
    ensures r.Err? && r.error.InvalidArgument? <==>
              ExpectedKind(controlId).Some? && KindOf(value) != ExpectedKind(controlId).value
    ensures r.Err? ==> !r.error.PublishFailed?
    ensures r.Ok? ==> DistinctKeys(r.value.writes) && 1 <= |r.value.writes| <= 3
    ensures r.Ok? ==> r.value.writes[|r.value.writes| - 1].key == controlId || controlId !in CncButtonIds
    ensures r.Ok? && controlId in CncButtonIds ==> r.value.writes[|r.value.writes| - 1].value == Completed
    ensures r.Ok? && ExpectedKind(controlId).Some? ==>
              |r.value.writes| == 1 && r.value.writes[0].key == controlId && r.value.writes[0].value == value
  {
    if controlId == "start-machine" then
      Ok(Plan([Write("machine-status", Str("Running"), "User command"),
               Write("last-started", Time(now), "Start command"),
               Write(controlId, Completed, "Button executed")],
              "Machine started successfully"))
    else if controlId == "stop-machine" then
      Ok(Plan([Write("machine-status", Str("Stopped"), "User command"),
               Write(controlId, Completed, "Button executed")],
              "Machine stopped successfully"))
    else if controlId == "emergency-stop" then
      Ok(Plan([Write("machine-status", Str("Emergency Stop"), "Emergency button"),
               Write("emergency-active", Bool(true), "User triggered"),
               Write(controlId, Completed, "Button executed")],
              "Emergency stop activated"))
    else if controlId == "spindle-speed" then
      if !value.Num? then Err(InvalidArgument("Spindle speed must be a number"))
      else Ok(Plan([Write(controlId, value, "User adjustment")], "Spindle speed set to " + NumText(value.n) + " RPM"))
    else if controlId == "feed-rate" then
      if !value.Num? then Err(InvalidArgument("Feed rate must be a number"))
      else Ok(Plan([Write(controlId, value, "User adjustment")], "Feed rate set to " + NumText(value.n)))
    else if controlId == "coolant-toggle" then
      if !value.Bool? then Err(InvalidArgument("Coolant state must be boolean"))
      else Ok(Plan([Write(controlId, value, "User toggle")], if value.b then "Coolant enabled" else "Coolant disabled"))
    else if controlId == "program-name" then
      if !value.Str? then Err(InvalidArgument("Program name must be a string"))
      else Ok(Plan([Write(controlId, value, "User input")], "Program set to " + value.s))
    else
      Err(UnknownControl("Unknown control: " + controlId))
  }

  // ---------------------------------------------------------------------
  // Properties of the dispatch

  /** Only start-machine reads the clock. */
  lemma CncPlanClockFree(controlId: string, value: Value, now1: int, now2: int)
    requires controlId != "start-machine"
    ensures CncPlan(controlId, value, now1) == CncPlan(controlId, value, now2)
  {
  }

  /** An unrecognised control id fails with "Unknown control: <id>" and changes nothing. */
  lemma CncUnknownControl(controlId: string, value: Value, s: map<string, Value>, id: ServiceIdentity,
                          now: int, fault: Option<string>)
    requires controlId !in CncControlIds
    ensures Execute(CncPlan(controlId, value, now), s, id, now, fault)
              == Execution(s, [], Err(UnknownControl("Unknown control: " + controlId)))
  {
  }

  /** A value of the wrong runtime type is rejected before any write. */
  lemma CncWrongTypeRejected(controlId: string, value: Value, s: map<string, Value>, id: ServiceIdentity,
                             now: int, fault: Option<string>)
    requires ExpectedKind(controlId).Some? && KindOf(value) != ExpectedKind(controlId).value
    ensures var e := Execute(CncPlan(controlId, value, now), s, id, now, fault);
            e.state == s && e.sent == [] && e.result.Err? && e.result.error.InvalidArgument?
  {
  }

  /** A parameter control of the right type writes the key equal to its
      control id (even when the publish throws), with no range check. */
  lemma CncParameterWritesOwnKey(controlId: string, value: Value, s: map<string, Value>, id: ServiceIdentity,
                                 now: int, fault: Option<string>)
    requires ExpectedKind(controlId).Some? && KindOf(value) == ExpectedKind(controlId).value
    ensures var e := Execute(CncPlan(controlId, value, now), s, id, now, fault);
            && e.state == s[controlId := value]
            && (fault.None? ==> e.result.Ok?)
  {
    var plan := CncPlan(controlId, value, now).value;
    RunWritesSingle(s, id, now, fault, plan.writes[0]);
    assert plan.writes == [plan.writes[0]];
  }

  /** Any spindle speed is accepted, inside or outside its declared 0..5000 range. */
  lemma CncSpindleSpeedUnbounded(n: int, s: map<string, Value>, id: ServiceIdentity, now: int)
    ensures var e := Execute(CncPlan("spindle-speed", Num(n), now), s, id, now, None);
            e.state == s["spindle-speed" := Num(n)] && e.result == Ok("Spindle speed set to " + NumText(n) + " RPM")
  {
    RunWritesSingle(s, id, now, None, Write("spindle-speed", Num(n), "User adjustment"));
  }

  /** Each button ends by marking its own control id "COMPLETED" after its other writes. */
  lemma CncButtonMarksCompleted(controlId: string, value: Value, s: map<string, Value>, id: ServiceIdentity,
                                now: int)
    requires controlId in CncButtonIds
    ensures var e := Execute(CncPlan(controlId, value, now), s, id, now, None);
            && e.result.Ok?
            && controlId in e.state && e.state[controlId] == Completed
            && "machine-status" in e.state
            && e.state["machine-status"] == (if controlId == "start-machine" then Str("Running")
                                             else if controlId == "stop-machine" then Str("Stopped")
                                             else Str("Emergency Stop"))
  {
    var ws := CncPlan(controlId, value, now).value.writes;
    assert ws[0].key == "machine-status";
    RunWritesBusUp(s, id, now, ws);
    RunWritesStores(s, id, now, None, ws, 0);
    RunWritesStores(s, id, now, None, ws, |ws| - 1);
  }

  /** emergency-stop sets machine-status to "Emergency Stop", emergency-active
      to true and its own marker, and touches no other key. */
  lemma CncEmergencyStop(value: Value, s: map<string, Value>, id: ServiceIdentity, now: int)
    ensures var e := Execute(CncPlan("emergency-stop", value, now), s, id, now, None);
            && e.state == s["machine-status" := Str("Emergency Stop")]["emergency-active" := Bool(true)]
                           ["emergency-stop" := Completed]
            && e.result == Ok("Emergency stop activated")
  {
    var w1 := Write("machine-status", Str("Emergency Stop"), "Emergency button");
    var w2 := Write("emergency-active", Bool(true), "User triggered");
    var w3 := Write("emergency-stop", Completed, "Button executed");
    RunWritesTriple(s, id, now, None, w1, w2, w3);
    RunWritesPair(SetStep(s, id, now, None, w1.key, w1.value, Some(w1.reason)).state, id, now, None, w2, w3);
  }

  /** coolant-toggle assigns the given bool rather than flipping the stored
      one, and its text depends on that bool alone. */
  lemma CncCoolantIsAbsolute(b: bool, s: map<string, Value>, id: ServiceIdentity, now: int)
    ensures var e := Execute(CncPlan("coolant-toggle", Bool(b), now), s, id, now, None);
            && e.state == s["coolant-toggle" := Bool(b)]
            && e.result == Ok(if b then "Coolant enabled" else "Coolant disabled")
  {
    RunWritesSingle(s, id, now, None, Write("coolant-toggle", Bool(b), "User toggle"));
  }

  /** Redelivery: executing an accepted CNC command a second time (at the same
      instant, or at any instant for controls other than start-machine) leaves
      the store as after the first and publishes nothing. */
  lemma CncRedeliveryIsSilent(controlId: string, value: Value, s: map<string, Value>, id: ServiceIdentity,
                              now1: int, now2: int, fault1: Option<string>, fault2: Option<string>)
    requires controlId != "start-machine" || now1 == now2
    requires Execute(CncPlan(controlId, value, now1), s, id, now1, fault1).result.Ok?
    ensures var first := Execute(CncPlan(controlId, value, now1), s, id, now1, fault1);
            Execute(CncPlan(controlId, value, now2), first.state, id, now2, fault2)
              == Execution(first.state, [], first.result)
  {
    if controlId != "start-machine" {
      CncPlanClockFree(controlId, value, now1, now2);
    }
    ReexecuteIsSilent(CncPlan(controlId, value, now1), s, id, now1, now2, fault1, fault2);
  }

  /** Seeded spindle speed 1000, then a command for 1500: the reply text is
      "Spindle speed set to 1500 RPM" and the one event reports 1000 -> 1500. */
  lemma CncSpindleScenario(s: map<string, Value>, id: ServiceIdentity, now: int)
    requires "spindle-speed" in s && s["spindle-speed"] == Num(1000)
    ensures var e := Execute(CncPlan("spindle-speed", Num(1500), now), s, id, now, None);
            && e.result == Ok("Spindle speed set to 1500 RPM")
            && e.sent == [StateChangedMessage(ServiceStateChanged(id.serviceId, id.serviceName, id.machineName, now,
                                                                  "spindle-speed", Num(1000), Num(1500),
                                                                  Some("User adjustment")))]
  {
    RunWritesSingle(s, id, now, None, Write("spindle-speed", Num(1500), "User adjustment"));
    assert NatText(1) == "1" && DigitChar(5) == '5' && DigitChar(0) == '0';
    assert NatText(15) == NatText(1) + [DigitChar(5)] == "15";
    assert NatText(150) == NatText(15) + [DigitChar(0)] == "150";
    assert NatText(1500) == NatText(150) + [DigitChar(0)] == "1500";
    assert NumText(1500) == IntText(1500) == "1500";
    assert CncPlan("spindle-speed", Num(1500), now).value.result == "Spindle speed set to 1500 RPM";
  }

  class CncControlExecutor {
    const stateManager: ServiceStateManager

    constructor (stateManager: ServiceStateManager)
      ensures this.stateManager == stateManager
    {
      this.stateManager := stateManager;
    }

    /** ExecuteAsync: the store, the bus and the returned value are those of
        running the arm CncPlan selects; an exception is an Err. */
    method ExecuteAsync(controlId: string, value: Value, now: int) returns (r: Result<string, Error>)
      modifies stateManager`state, stateManager.bus`published
      ensures var e := Execute(CncPlan(controlId, value, now), old(stateManager.state),
                               stateManager.identity, now, stateManager.bus.fault);
              && stateManager.state == e.state
              && stateManager.bus.published == old(stateManager.bus.published) + e.sent
              && r == e.result
    {
      var sm := stateManager;
      var o: Outcome;
      if controlId == "start-machine" {
        o := sm.ApplyWrites3(Write("machine-status", Str("Running"), "User command"),
                             Write("last-started", Time(now), "Start command"),
                             Write(controlId, Completed, "Button executed"), now);
        r := if o.Fail? then Err(PublishFailed(o.message)) else Ok("Machine started successfully");
      } else if controlId == "stop-machine" {
        o := sm.ApplyWrites2(Write("machine-status", Str("Stopped"), "User command"),
                             Write(controlId, Completed, "Button executed"), now);
        r := if o.Fail? then Err(PublishFailed(o.message)) else Ok("Machine stopped successfully");
      } else if controlId == "emergency-stop" {
        o := sm.ApplyWrites3(Write("machine-status", Str("Emergency Stop"), "Emergency button"),
                             Write("emergency-active", Bool(true), "User triggered"),
                             Write(controlId, Completed, "Button executed"), now);
        r := if o.Fail? then Err(PublishFailed(o.message)) else Ok("Emergency stop activated");
      } else if controlId == "spindle-speed" {
        if !value.Num? { return Err(InvalidArgument("Spindle speed must be a number")); }
        o := sm.ApplyWrite(Write(controlId, value, "User adjustment"), now);
        r := if o.Fail? then Err(PublishFailed(o.message)) else Ok("Spindle speed set to " + NumText(value.n) + " RPM");
      } else if controlId == "feed-rate" {
        if !value.Num? { return Err(InvalidArgument("Feed rate must be a number")); }
        o := sm.ApplyWrite(Write(controlId, value, "User adjustment"), now);
        r := if o.Fail? then Err(PublishFailed(o.message)) else Ok("Feed rate set to " + NumText(value.n));
      } else if controlId == "coolant-toggle" {
        if !value.Bool? { return Err(InvalidArgument("Coolant state must be boolean")); }
        o := sm.ApplyWrite(Write(controlId, value, "User toggle"), now);
        r := if o.Fail? then Err(PublishFailed(o.message))
             else Ok(if value.b then "Coolant enabled" else "Coolant disabled");
      } else if controlId == "program-name" {
        if !value.Str? { return Err(InvalidArgument("Program name must be a string")); }
        o := sm.ApplyWrite(Write(controlId, value, "User input"), now);
        r := if o.Fail? then Err(PublishFailed(o.message)) else Ok("Program set to " + value.s);
      } else {
        r := Err(UnknownControl("Unknown control: " + controlId));
      }
    }
  }
}
