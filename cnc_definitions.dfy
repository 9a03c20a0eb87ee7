/** CncControlDefinitionProvider: the seven controls the CNC service
    declares, in display order, and how they agree with its executor. */
module CncDefinitions {
  import opened Values
  import opened Messages
  import opened StateManager
  import opened CncExecutor
  import opened PrinterDefinitions

  const StartMachine := ControlDefinition("start-machine", "Start Machine", Button, "Machine Control",
                                          Some("Start the CNC machine"), None, None, 1, true, None)
  const StopMachine := ControlDefinition("stop-machine", "Stop Machine", Button, "Machine Control",
                                         Some("Stop the CNC machine"), None, None, 2, true, None)
  const EmergencyStop := ControlDefinition("emergency-stop", "Emergency Stop", Button, "Machine Control",
                                           Some("Emergency stop - immediately halt all operations"), None, None, 3, true,
                                           Some(map["style" := "danger", "confirm" := "true"]))
  const SpindleSpeed := ControlDefinition("spindle-speed", "Spindle Speed", Slider, "Machine Parameters",
                                          Some("Set spindle speed in RPM"), Some(Num(1000)),
                                          Some(SliderConstraints(0, 5000, 100)), 10, true, None)
  const FeedRate := ControlDefinition("feed-rate", "Feed Rate", Slider, "Machine Parameters",
                                      Some("Set feed rate"), Some(Num(50)),
                                      Some(SliderConstraints(0, 200, 5)), 11, true, None)
  const CoolantToggle := ControlDefinition("coolant-toggle", "Coolant", Toggle, "Machine Parameters",
                                           Some("Enable/disable coolant"), Some(Bool(false)), None, 12, true, None)
  const ProgramName := ControlDefinition("program-name", "Program Name", TextInput, "Program Control",
                                         Some("Current program name"), Some(Str("")),
                                         Some(TextConstraints(50, "^[a-zA-Z0-9_-]+$",
                                                              "Only alphanumeric characters, hyphens, and underscores allowed")),
                                         20, true, None)

  /** GetControlDefinitions: the seven controls in display order. */
  function CncControlDefinitions(): (r: seq<ControlDefinition>)
    ensures |r| == 7
    ensures forall i :: 0 <= i < |r| ==> r[i].controlId in CncControlIds
  {
    [StartMachine, StopMachine, EmergencyStop, SpindleSpeed, FeedRate, CoolantToggle, ProgramName]
  }

  /** The display orders, in list order, are 1, 2, 3, 10, 11, 12, 20. */
  lemma CncDisplayOrders()
    ensures DisplayOrders(CncControlDefinitions()) == [1, 2, 3, 10, 11, 12, 20]
  {
    var orders := DisplayOrders(CncControlDefinitions());
    assert orders[0] == 1 && orders[1] == 2 && orders[2] == 3 && orders[3] == 10;
    assert orders[4] == 11 && orders[5] == 12 && orders[6] == 20;
  }

  /** Display orders grow strictly along the list. */
  lemma CncOrdersIncrease()
    ensures OrderIncreasing(CncControlDefinitions())
  {
    var defs := CncControlDefinitions();
    CncDisplayOrders();
    var orders := DisplayOrders(defs);
    forall i, j | 0 <= i < j < |defs| ensures defs[i].displayOrder < defs[j].displayOrder {
      assert orders[i] == defs[i].displayOrder && orders[j] == defs[j].displayOrder;
    }
  }

  /** No two controls share an id. */
  lemma CncIdsDistinct()
    ensures DistinctIds(CncControlDefinitions())
  {
    var defs := CncControlDefinitions();
    // Ids differ in length, or else in their first or second character.
    assert |defs[0].controlId| == 13 && |defs[1].controlId| == 12 && |defs[2].controlId| == 14;
    assert |defs[3].controlId| == 13 && |defs[4].controlId| == 9 && |defs[5].controlId| == 14;
    assert |defs[6].controlId| == 12;
    assert defs[0].controlId[1] == 't' && defs[3].controlId[1] == 'p';
    assert defs[1].controlId[0] == 's' && defs[6].controlId[0] == 'p';
    assert defs[2].controlId[0] == 'e' && defs[5].controlId[0] == 'c';
  }

  /** The spindle default 1000 lies in 0..5000 on the step-100 grid, the feed
      default 50 in 0..200 on the step-5 grid, buttons are bare, and the empty
      program name fits its 50 characters. */
  lemma CncControlShapes()
    ensures var defs := CncControlDefinitions();
            forall i :: 0 <= i < |defs| ==> SliderDefaultValid(defs[i]) && ButtonBare(defs[i]) && TextDefaultFits(defs[i])
  {
    assert SliderDefaultValid(SpindleSpeed) && SliderDefaultValid(FeedRate);
    assert TextDefaultFits(ProgramName);
  }

  /** Ids are distinct, display orders increase, and every control has a valid shape. */
  lemma CncCatalogWellFormed()
    ensures WellFormedCatalog(CncControlDefinitions())
  {
    var defs := CncControlDefinitions();
    CncIdsDistinct();
    CncOrdersIncrease();
    CncControlShapes();
    forall d | d in defs ensures SliderDefaultValid(d) && ButtonBare(d) && TextDefaultFits(d) {
      var i :| 0 <= i < |defs| && defs[i] == d;
    }
  }

  /** Every id the executor's switch handles is declared. */
  lemma CncHandledIdsDeclared()
    ensures CncControlIds <= Ids(CncControlDefinitions())
  {
    var defs := CncControlDefinitions();
    assert defs[0] in defs && defs[1] in defs && defs[2] in defs && defs[3] in defs;
    assert defs[4] in defs && defs[5] in defs && defs[6] in defs;
  }

  /** The declared ids are exactly the ids the executor's switch handles. */
  lemma CncCatalogMatchesExecutor()
    ensures Ids(CncControlDefinitions()) == CncControlIds
  {
    var defs := CncControlDefinitions();
    forall d | d in defs ensures d.controlId in CncControlIds {
      var i :| 0 <= i < |defs| && defs[i] == d;
    }
    CncHandledIdsDeclared();
  }

  /** Each declared default value passes the CNC executor's type check. */
  lemma CncDefaultsAccepted(now: int)
    ensures var defs := CncControlDefinitions();
            forall i, v :: 0 <= i < |defs| && defs[i].currentValue == Some(v) ==> CncPlan(defs[i].controlId, v, now).Ok?
  {
  }

  /** coolant-toggle is the only Toggle, and its default is false. */
  lemma CncOnlyToggleIsCoolant()
    ensures var defs := CncControlDefinitions();
            forall i :: 0 <= i < |defs| ==>
              (defs[i].controlType == Toggle <==> defs[i].controlId == "coolant-toggle")
              && (defs[i].controlType == Toggle ==> defs[i].currentValue == Some(Bool(false)))
  {
    var defs := CncControlDefinitions();
    assert defs[5].controlId == "coolant-toggle";
    CncIdsDistinct();
  }

  /** emergency-stop carries style = danger and confirm = true. */
  lemma CncEmergencyStopConfirms()
    ensures var defs := CncControlDefinitions();
            && defs[2].controlId == "emergency-stop"
            && defs[2].metadata.Some?
            && "style" in defs[2].metadata.value && defs[2].metadata.value["style"] == "danger"
            && "confirm" in defs[2].metadata.value && defs[2].metadata.value["confirm"] == "true"
  {
  }
}
