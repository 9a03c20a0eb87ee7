/** PrinterControlDefinitionProvider: the seven controls the printer service
    declares, in display order, and how they agree with its executor. */
module PrinterDefinitions {
  import opened Values
  import opened Messages
  import opened StateManager
  import opened PrinterExecutor

  /** Slider constraints: bounds and step, nothing else set. */
  function SliderConstraints(min: int, max: int, step: int): ControlConstraints
  {
    ControlConstraints(Some(min), Some(max), Some(step), None, None, None, false, None)
  }

  /** Text constraints: length limit, pattern and its message. */
  function TextConstraints(maxLength: int, pattern: string, message: string): ControlConstraints
  {
    ControlConstraints(None, None, None, Some(maxLength), Some(pattern), None, false, Some(message))
  }

  const StartPrint := ControlDefinition("start-print", "Start Print", Button, "Print Control",
                                        Some("Start the 3D print job"), None, None, 1, true, None)
  const PausePrint := ControlDefinition("pause-print", "Pause Print", Button, "Print Control",
                                        Some("Pause the current print"), None, None, 2, true, None)
  const StopPrint := ControlDefinition("stop-print", "Stop Print", Button, "Print Control",
                                       Some("Stop and cancel the print job"), None, None, 3, true,
                                       Some(map["style" := "warning"]))
  const BedTemperature := ControlDefinition("bed-temperature", "Bed Temperature", Slider, "Temperature Control",
                                            Some("Set heated bed temperature in °C"), Some(Num(60)),
                                            Some(SliderConstraints(0, 120, 5)), 10, true, None)
  const NozzleTemperature := ControlDefinition("nozzle-temperature", "Nozzle Temperature", Slider, "Temperature Control",
                                               Some("Set nozzle temperature in °C"), Some(Num(200)),
                                               Some(SliderConstraints(0, 300, 5)), 11, true, None)
  const PrintSpeed := ControlDefinition("print-speed", "Print Speed", Slider, "Print Settings",
                                        Some("Set print speed as percentage"), Some(Num(100)),
                                        Some(SliderConstraints(10, 200, 10)), 20, true, None)
  const FilamentType := ControlDefinition("filament-type", "Filament Type", TextInput, "Print Settings",
                                          Some("Current filament material type"), Some(Str("PLA")),
                                          Some(TextConstraints(20, "^[a-zA-Z0-9 ]+$",
                                                               "Only alphanumeric characters and spaces allowed")),
                                          21, true, None)

  /** GetControlDefinitions: the seven controls in display order. */
  function PrinterControlDefinitions(): (r: seq<ControlDefinition>)
    ensures |r| == 7
    ensures forall i :: 0 <= i < |r| ==> r[i].controlId in PrinterControlIds
  {
    [StartPrint, PausePrint, StopPrint, BedTemperature, NozzleTemperature, PrintSpeed, FilamentType]
  }

  /** The display orders, in list order, are 1, 2, 3, 10, 11, 20, 21. */
  lemma PrinterDisplayOrders()
    ensures DisplayOrders(PrinterControlDefinitions()) == [1, 2, 3, 10, 11, 20, 21]
  {
    var orders := DisplayOrders(PrinterControlDefinitions());
    assert orders[0] == 1 && orders[1] == 2 && orders[2] == 3 && orders[3] == 10;
    assert orders[4] == 11 && orders[5] == 20 && orders[6] == 21;
  }

  /** No two controls share an id. */
  lemma PrinterIdsDistinct()
    ensures DistinctIds(PrinterControlDefinitions())
  {
    var defs := PrinterControlDefinitions();
    // Ids differ in length, or else in their first or second character.
    assert |defs[0].controlId| == 11 && |defs[1].controlId| == 11 && |defs[2].controlId| == 10;
    assert |defs[3].controlId| == 15 && |defs[4].controlId| == 18 && |defs[5].controlId| == 11;
    assert |defs[6].controlId| == 13;
    assert defs[0].controlId[0] == 's' && defs[1].controlId[0] == 'p' && defs[5].controlId[0] == 'p';
    assert defs[1].controlId[1] == 'a' && defs[5].controlId[1] == 'r';
  }

  /** Slider defaults lie in their bounds on the step grid, buttons are bare,
      and the filament default "PLA" fits its 20 characters. */
  lemma PrinterControlShapes()
    ensures var defs := PrinterControlDefinitions();
            forall i :: 0 <= i < |defs| ==> SliderDefaultValid(defs[i]) && ButtonBare(defs[i]) && TextDefaultFits(defs[i])
  {
    assert SliderDefaultValid(BedTemperature) && SliderDefaultValid(NozzleTemperature) && SliderDefaultValid(PrintSpeed);
    assert TextDefaultFits(FilamentType);
  }

  /** Display orders grow strictly along the list. */
  lemma PrinterOrdersIncrease()
    ensures OrderIncreasing(PrinterControlDefinitions())
  {
    var defs := PrinterControlDefinitions();
    PrinterDisplayOrders();
    var orders := DisplayOrders(defs);
    forall i, j | 0 <= i < j < |defs| ensures defs[i].displayOrder < defs[j].displayOrder {
      assert orders[i] == defs[i].displayOrder && orders[j] == defs[j].displayOrder;
    }
  }

  /** Ids are distinct, display orders increase, and every control has a valid shape. */
  lemma PrinterCatalogWellFormed()
    ensures WellFormedCatalog(PrinterControlDefinitions())
  {
    var defs := PrinterControlDefinitions();
    PrinterIdsDistinct();
    PrinterOrdersIncrease();
    PrinterControlShapes();
    forall d | d in defs ensures SliderDefaultValid(d) && ButtonBare(d) && TextDefaultFits(d) {
      var i :| 0 <= i < |defs| && defs[i] == d;
    }
  }

  /** Every id the executor's switch handles is declared. */
  lemma PrinterHandledIdsDeclared()
    ensures PrinterControlIds <= Ids(PrinterControlDefinitions())
  {
    var defs := PrinterControlDefinitions();
    assert defs[0] in defs && defs[1] in defs && defs[2] in defs && defs[3] in defs;
    assert defs[4] in defs && defs[5] in defs && defs[6] in defs;
  }

  /** The declared ids are exactly the ids the executor's switch handles. */
  lemma PrinterCatalogMatchesExecutor()
    ensures Ids(PrinterControlDefinitions()) == PrinterControlIds
  {
    var defs := PrinterControlDefinitions();
    forall d | d in defs ensures d.controlId in PrinterControlIds {
      var i :| 0 <= i < |defs| && defs[i] == d;
    }
    PrinterHandledIdsDeclared();
  }

  /** No declared control is refused as unknown, and each declared default
      value passes the executor's type check. */
  lemma PrinterDefaultsAccepted(now: int)
    ensures var defs := PrinterControlDefinitions();
            forall i, v :: 0 <= i < |defs| && defs[i].currentValue == Some(v) ==> PrinterPlan(defs[i].controlId, v, now).Ok?
    ensures var defs := PrinterControlDefinitions();
            forall i, v :: 0 <= i < |defs| ==>
              !(PrinterPlan(defs[i].controlId, v, now).Err? && PrinterPlan(defs[i].controlId, v, now).error.UnknownControl?)
  {
  }

  /** stop-print is the one control with metadata: style = warning. */
  lemma PrinterStopPrintStyled()
    ensures var defs := PrinterControlDefinitions();
            && defs[2].controlId == "stop-print" && defs[2].metadata == Some(map["style" := "warning"])
            && forall i :: 0 <= i < |defs| && i != 2 ==> defs[i].metadata.None?
  {
  }
}
