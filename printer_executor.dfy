/** PrinterControlExecutor: dispatch over the seven printer controls. Each arm
    checks the runtime type of the value, then issues its SetStateAsync
    writes; range constraints are never checked. */
module PrinterExecutor {
  import opened Values
  import opened Messages
  import opened StateManager

  /** The control ids the executor's switch has an arm for. */
  const PrinterControlIds: set<string> :=
    {"start-print", "pause-print", "stop-print", "bed-temperature", "nozzle-temperature", "print-speed", "filament-type"}

  /** The arms that require a double. */
  const PrinterNumericIds: set<string> := {"bed-temperature", "nozzle-temperature", "print-speed"}

  /** The switch of ExecuteAsync as data: the writes an arm issues and the text it returns. */
  function PrinterPlan(controlId: string, value: Value, now: int): (r: Result<Plan, Error>)
    ensures r.Err? && r.error.UnknownControl? <==> controlId !in PrinterControlIds
    ensures r.Err? && r.error.InvalidArgument? <==>
              (controlId in PrinterNumericIds && !value.Num?) || (controlId == "filament-type" && !value.Str?)
    ensures r.Err? ==> !r.error.PublishFailed?
    ensures r.Ok? ==> DistinctKeys(r.value.writes) && 1 <= |r.value.writes| <= 2
    ensures r.Ok? && controlId in PrinterNumericIds + {"filament-type"} ==>
              r.value.writes == [Write(controlId, value, if value.Str? then "User input" else "User adjustment")]
  {
    if controlId == "start-print" then
      Ok(Plan([Write("printer-status", Str("Printing"), "User command"),
               Write("print-started", Time(now), "Start command")],
              "Print started successfully"))
    else if controlId == "pause-print" then
      Ok(Plan([Write("printer-status", Str("Paused"), "User command")], "Print paused"))
    else if controlId == "stop-print" then
      Ok(Plan([Write("printer-status", Str("Stopped"), "User command"),
               Write("print-progress", Num(0), "Print stopped")],
              "Print stopped"))
    else if controlId == "bed-temperature" then
      if !value.Num? then Err(InvalidArgument("Bed temperature must be a number"))
      else Ok(Plan([Write("bed-temperature", value, "User adjustment")],
                   "Bed temperature set to " + NumText(value.n) + "°C"))
    else if controlId == "nozzle-temperature" then
      if !value.Num? then Err(InvalidArgument("Nozzle temperature must be a number"))
      else Ok(Plan([Write("nozzle-temperature", value, "User adjustment")],
                   "Nozzle temperature set to " + NumText(value.n) + "°C"))
    else if controlId == "print-speed" then
      if !value.Num? then Err(InvalidArgument("Print speed must be a number"))
      else Ok(Plan([Write("print-speed", value, "User adjustment")],
                   "Print speed set to " + NumText(value.n) + "%"))
    else if controlId == "filament-type" then
      if !value.Str? then Err(InvalidArgument("Filament type must be a string"))
      else Ok(Plan([Write("filament-type", value, "User input")], "Filament type set to " + value.s))
    else
      Err(UnknownControl("Unknown control: " + controlId))
  }

  /** Only start-print reads the clock. */
  lemma PrinterPlanClockFree(controlId: string, value: Value, now1: int, now2: int)
    requires controlId != "start-print"
    ensures PrinterPlan(controlId, value, now1) == PrinterPlan(controlId, value, now2)
  {
  }

  /** An unrecognised control id fails with "Unknown control: <id>" and leaves store and bus untouched. */
  lemma PrinterUnknownControl(controlId: string, value: Value, s: map<string, Value>, id: ServiceIdentity,
                              now: int, fault: Option<string>)
    requires controlId !in PrinterControlIds
    ensures Execute(PrinterPlan(controlId, value, now), s, id, now, fault)
              == Execution(s, [], Err(UnknownControl("Unknown control: " + controlId)))
  {
  }

  /** A temperature or speed that is not a double, or a filament type that is
      not a string, is rejected with an ArgumentException before any write. */
  lemma PrinterWrongTypeRejected(controlId: string, value: Value, s: map<string, Value>, id: ServiceIdentity,
                                 now: int, fault: Option<string>)
    requires (controlId in PrinterNumericIds && !value.Num?) || (controlId == "filament-type" && !value.Str?)
    ensures var e := Execute(PrinterPlan(controlId, value, now), s, id, now, fault);
            e.state == s && e.sent == [] && e.result.Err? && e.result.error.InvalidArgument?
  {
  }

  /** Any double is accepted for a numeric control, whatever its declared
      bounds: the key named by the control id ends holding it (even when the
      publish throws), and the result text quotes the number. */
  lemma PrinterNumericNoRangeCheck(controlId: string, n: int, s: map<string, Value>, id: ServiceIdentity,
                                   now: int, fault: Option<string>)
    requires controlId in PrinterNumericIds
    ensures var e := Execute(PrinterPlan(controlId, Num(n), now), s, id, now, fault);
            && e.state == s[controlId := Num(n)]
            && (fault.None? ==> e.result.Ok? && e.result.value == PrinterPlan(controlId, Num(n), now).value.result)
  {
    RunWritesSingle(s, id, now, fault, Write(controlId, Num(n), "User adjustment"));
  }

  /** stop-print sets printer-status to "Stopped" and print-progress to 0. */
  lemma PrinterStopPrint(value: Value, s: map<string, Value>, id: ServiceIdentity, now: int)
    ensures var e := Execute(PrinterPlan("stop-print", value, now), s, id, now, None);
            e.state == s["printer-status" := Str("Stopped")]["print-progress" := Num(0)] && e.result == Ok("Print stopped")
  {
    RunWritesPair(s, id, now, None, Write("printer-status", Str("Stopped"), "User command"),
                  Write("print-progress", Num(0), "Print stopped"));
  }

  /** pause-print ignores its value and changes only printer-status, to "Paused". */
  lemma PrinterPauseOnlyStatus(v1: Value, v2: Value, s: map<string, Value>, id: ServiceIdentity,
                               now: int, fault: Option<string>)
    ensures var e := Execute(PrinterPlan("pause-print", v1, now), s, id, now, fault);
            && e == Execute(PrinterPlan("pause-print", v2, now), s, id, now, fault)
            && e.state == s["printer-status" := Str("Paused")]
  {
    RunWritesSingle(s, id, now, fault, Write("printer-status", Str("Paused"), "User command"));
  }

  /** Redelivery: executing an accepted printer command a second time (at the
      same instant, or at any instant for controls other than start-print)
      leaves the store as after the first and publishes nothing. */
  lemma PrinterRedeliveryIsSilent(controlId: string, value: Value, s: map<string, Value>, id: ServiceIdentity,
                                  now1: int, now2: int, fault1: Option<string>, fault2: Option<string>)
    requires controlId != "start-print" || now1 == now2
    requires Execute(PrinterPlan(controlId, value, now1), s, id, now1, fault1).result.Ok?
    ensures var first := Execute(PrinterPlan(controlId, value, now1), s, id, now1, fault1);
            Execute(PrinterPlan(controlId, value, now2), first.state, id, now2, fault2)
              == Execution(first.state, [], first.result)
  {
    if controlId != "start-print" {
      PrinterPlanClockFree(controlId, value, now1, now2);
    }
    ReexecuteIsSilent(PrinterPlan(controlId, value, now1), s, id, now1, now2, fault1, fault2);
  }

  class PrinterControlExecutor {
    const stateManager: ServiceStateManager

    constructor (stateManager: ServiceStateManager)
      ensures this.stateManager == stateManager
    {
      this.stateManager := stateManager;
    }

    /** ExecuteAsync: the store, the bus and the returned value are those of
        running the arm PrinterPlan selects; an exception is an Err. */
    method ExecuteAsync(controlId: string, value: Value, now: int) returns (r: Result<string, Error>)
      modifies stateManager`state, stateManager.bus`published
      ensures var e := Execute(PrinterPlan(controlId, value, now), old(stateManager.state),
                               stateManager.identity, now, stateManager.bus.fault);
              && stateManager.state == e.state
              && stateManager.bus.published == old(stateManager.bus.published) + e.sent
              && r == e.result
    {
      var sm := stateManager;
      var o: Outcome;
      if controlId == "start-print" {
        o := sm.ApplyWrites2(Write("printer-status", Str("Printing"), "User command"),
                             Write("print-started", Time(now), "Start command"), now);
        r := if o.Fail? then Err(PublishFailed(o.message)) else Ok("Print started successfully");
      } else if controlId == "pause-print" {
        o := sm.ApplyWrite(Write("printer-status", Str("Paused"), "User command"), now);
        r := if o.Fail? then Err(PublishFailed(o.message)) else Ok("Print paused");
      } else if controlId == "stop-print" {
        o := sm.ApplyWrites2(Write("printer-status", Str("Stopped"), "User command"),
                             Write("print-progress", Num(0), "Print stopped"), now);
        r := if o.Fail? then Err(PublishFailed(o.message)) else Ok("Print stopped");
      } else if controlId == "bed-temperature" {
        if !value.Num? { return Err(InvalidArgument("Bed temperature must be a number")); }
        o := sm.ApplyWrite(Write("bed-temperature", value, "User adjustment"), now);
        r := if o.Fail? then Err(PublishFailed(o.message)) else Ok("Bed temperature set to " + NumText(value.n) + "°C");
      } else if controlId == "nozzle-temperature" {
        if !value.Num? { return Err(InvalidArgument("Nozzle temperature must be a number")); }
        o := sm.ApplyWrite(Write("nozzle-temperature", value, "User adjustment"), now);
        r := if o.Fail? then Err(PublishFailed(o.message)) else Ok("Nozzle temperature set to " + NumText(value.n) + "°C");
      } else if controlId == "print-speed" {
        if !value.Num? { return Err(InvalidArgument("Print speed must be a number")); }
        o := sm.ApplyWrite(Write("print-speed", value, "User adjustment"), now);
        r := if o.Fail? then Err(PublishFailed(o.message)) else Ok("Print speed set to " + NumText(value.n) + "%");
      } else if controlId == "filament-type" {
        if !value.Str? { return Err(InvalidArgument("Filament type must be a string")); }
        o := sm.ApplyWrite(Write("filament-type", value, "User input"), now);
        r := if o.Fail? then Err(PublishFailed(o.message)) else Ok("Filament type set to " + value.s);
      } else {
        r := Err(UnknownControl("Unknown control: " + controlId));
      }
    }
  }
}
