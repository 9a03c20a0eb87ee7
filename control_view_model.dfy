/** ControlViewModel: the desktop's view of one control. The state indicator
    text and background colour are total functions of the control type, the
    current value (null is None) and whether a command is executing; running
    a command is guarded by IsEnabled and IsExecuting. */
module ControlViews {
  import opened Values
  import opened Messages

  const Orange := "#FF9800"
  const Gray := "#9E9E9E"
  const DarkGray := "#757575"
  const Green := "#4CAF50"
  const Red := "#F44336"
  const Blue := "#2196F3"
  const BlueGray := "#607D8B"

  /** The upper-cased texts a toggle reads as on, and as off. */
  const OnTexts: set<string> := {"TRUE", "ON", "1"}
  const OffTexts: set<string> := {"FALSE", "OFF", "0"}

  /** `CurrentValue.ToString().ToUpperInvariant()` */
  function Shout(v: Value): (r: string)
    ensures Upper(r) == r
  {
    UpperIdempotent(ValueText(v));
    Upper(ValueText(v))
  }

  /** How a toggle reads the upper-cased text of a value that is not a bool. */
  function ToggleTextOf(state: string): string
  {
    if state in OnTexts then "ON" else if state in OffTexts then "OFF" else state
  }

  function ToggleColorOf(state: string): string
  {
    if state in OnTexts then Green else if state in OffTexts then DarkGray else Gray
  }

  /** How a button colours the upper-cased text of its value. */
  function ButtonColorOf(state: string): string
  {
    if state in {"COMPLETED", "SUCCESS", "DONE"} then Green
    else if state in {"RUNNING", "ACTIVE"} then Orange
    else if state in {"ERROR", "FAILED"} then Red
    else Blue
  }

  /** GetToggleStateText */
  function ToggleStateText(value: Option<Value>): (r: string)
    ensures r == "ON" || r == "OFF" || (value.Some? && !value.value.Bool? && r == Shout(value.value) && r !in OnTexts + OffTexts)
  {
    match value
    case None => "OFF"
    case Some(Bool(b)) => if b then "ON" else "OFF"
    case Some(v) => ToggleTextOf(Shout(v))
  }

  /** GetToggleStateColor */
  function ToggleStateColor(value: Option<Value>): (r: string)
    ensures r in {Green, DarkGray, Gray}
  {
    match value
    case None => Gray
    case Some(Bool(b)) => if b then Green else DarkGray
    case Some(v) => ToggleColorOf(Shout(v))
  }

  /** GetButtonStateColor */
  function ButtonStateColor(value: Option<Value>): (r: string)
    ensures r in {Green, Orange, Red, Blue}
  {
    match value
    case None => Blue
    case Some(v) => ButtonColorOf(Shout(v))
  }

  /** StateIndicatorText */
  function IndicatorText(controlType: ControlType, value: Option<Value>, executing: bool): (r: string)
    ensures executing ==> r == "EXECUTING"
    ensures !executing && value.None? ==> r in {"OFF", "READY", "0", "N/A", "EMPTY"}
    ensures !executing && controlType == Button && value.Some? ==> r == Shout(value.value)
    ensures !executing && value.Some? && controlType in {Slider, NumericInput, Dropdown, MultiButton} ==>
              r == ValueText(value.value)
    ensures !executing && controlType == TextInput ==> r != ""
  {
    if executing then "EXECUTING"
    else match controlType
      case Toggle => ToggleStateText(value)
      case Button => if value.Some? then Shout(value.value) else "READY"
      case Slider => if value.Some? then ValueText(value.value) else "0"
      case NumericInput => if value.Some? then ValueText(value.value) else "0"
      case Dropdown => if value.Some? then ValueText(value.value) else "N/A"
      case TextInput => if value.None? || ValueText(value.value) == "" then "EMPTY" else ValueText(value.value)
      case MultiButton => if value.Some? then ValueText(value.value) else "N/A"
  }

  /** StateIndicatorBackground */
  function IndicatorBackground(controlType: ControlType, value: Option<Value>, executing: bool): (r: string)
    ensures r in {Orange, Gray, Green, DarkGray, Blue, Red, BlueGray}
    ensures executing ==> r == Orange
    ensures !executing && value.None? && controlType != Button ==> r == Gray
    ensures !executing && value.Some? && controlType != Toggle && controlType != Button ==> r == BlueGray
  {
    if executing then Orange
    else if value.None? && controlType != Button then Gray
    else match controlType
      case Toggle => ToggleStateColor(value)
      case Button => ButtonStateColor(value)
      case _ => BlueGray
  }

  // ---------------------------------------------------------------------
  // Properties

  /** While a command executes, every control reads "EXECUTING" on orange. */
  lemma ExecutingOverridesAll(controlType: ControlType, value: Option<Value>)
    ensures IndicatorText(controlType, value, true) == "EXECUTING"
    ensures IndicatorBackground(controlType, value, true) == Orange
  {
  }

  /** A null value on any control but a button shows gray; a null button
      reads "READY" on blue; a null or empty text input reads "EMPTY". */
  lemma NullValueIndicators(controlType: ControlType)
    ensures controlType != Button ==> IndicatorBackground(controlType, None, false) == Gray
    ensures IndicatorText(Button, None, false) == "READY" && IndicatorBackground(Button, None, false) == Blue
    ensures IndicatorText(TextInput, None, false) == "EMPTY" && IndicatorText(TextInput, Some(Str("")), false) == "EMPTY"
  {
  }

  /** A toggle's text and colour agree: "ON" exactly when green, and dark
      gray only with "OFF". */
  lemma ToggleTextMatchesColour(value: Option<Value>)
    ensures ToggleStateText(value) == "ON" <==> ToggleStateColor(value) == Green
    ensures ToggleStateColor(value) == DarkGray ==> ToggleStateText(value) == "OFF"
    ensures ToggleStateText(value) == "OFF" ==> ToggleStateColor(value) in {DarkGray, Gray}
  {
    if value.Some? && !value.value.Bool? {
      var u := Shout(value.value);
      if u !in OnTexts && u !in OffTexts {
        assert u != "ON" && u != "OFF";
      }
    }
  }

  /** A bool toggles by its own value; a string among TRUE/ON/1 reads "ON" on
      green and among FALSE/OFF/0 "OFF" on dark gray, in any letter case; any
      other string reads as itself upper-cased, on gray. */
  lemma ToggleReadings(b: bool, s: string)
    ensures ToggleStateText(Some(Bool(b))) == (if b then "ON" else "OFF")
    ensures Upper(s) in OnTexts ==> ToggleStateText(Some(Str(s))) == "ON" && ToggleStateColor(Some(Str(s))) == Green
    ensures Upper(s) in OffTexts ==> ToggleStateText(Some(Str(s))) == "OFF" && ToggleStateColor(Some(Str(s))) == DarkGray
    ensures Upper(s) !in OnTexts && Upper(s) !in OffTexts ==>
              ToggleStateText(Some(Str(s))) == Upper(s) && ToggleStateColor(Some(Str(s))) == Gray
  {
  }

  /** Apart from bools, a toggle and a button look only at the upper-cased text. */
  lemma ReadsThroughShout(v: Value, w: Value)
    requires !v.Bool? && !w.Bool? && Shout(v) == Shout(w)
    ensures ToggleStateText(Some(v)) == ToggleStateText(Some(w))
    ensures ToggleStateColor(Some(v)) == ToggleStateColor(Some(w))
    ensures ButtonStateColor(Some(v)) == ButtonStateColor(Some(w))
  {
  }

  /** Letter case does not matter to a toggle or a button: a string and its
      upper-cased form read and colour the same. */
  lemma CaseInsensitive(s: string)
    ensures ToggleStateText(Some(Str(s))) == ToggleStateText(Some(Str(Upper(s))))
    ensures ToggleStateColor(Some(Str(s))) == ToggleStateColor(Some(Str(Upper(s))))
    ensures ButtonStateColor(Some(Str(s))) == ButtonStateColor(Some(Str(Upper(s))))
  {
    UpperIdempotent(s);
    ReadsThroughShout(Str(s), Str(Upper(s)));
  }

  /** A button is green for COMPLETED/SUCCESS/DONE, orange for RUNNING/ACTIVE,
      red for ERROR/FAILED, and blue for anything else, null included. */
  lemma ButtonColours(v: Value)
    ensures Shout(v) in {"COMPLETED", "SUCCESS", "DONE"} <==> ButtonStateColor(Some(v)) == Green
    ensures Shout(v) in {"RUNNING", "ACTIVE"} <==> ButtonStateColor(Some(v)) == Orange
    ensures Shout(v) in {"ERROR", "FAILED"} <==> ButtonStateColor(Some(v)) == Red
    ensures ButtonStateColor(Some(v)) in {Green, Orange, Red, Blue}
    ensures ButtonStateColor(None) == Blue
  {
  }

  /** The marker a CNC button leaves in its own state key, "COMPLETED", shows
      as "COMPLETED" on green once execution ends. */
  lemma CompletedButtonShowsGreen()
    ensures IndicatorText(Button, Some(Str("COMPLETED")), false) == "COMPLETED"
    ensures IndicatorBackground(Button, Some(Str("COMPLETED")), false) == Green
  {
    UpperKeepsUpperCase("COMPLETED");
  }

  // ---------------------------------------------------------------------
  // The view model object

  /** The command callback the view model is given. `failure` says whether it
      throws (and with what message); `observed` records, per invocation,
      whether the view model showed IsExecuting while it ran. */
  class CommandCallback {
    var failure: Option<string>
    var observed: seq<bool>

    constructor (failure: Option<string>)
      ensures this.failure == failure && observed == []
    {
      this.failure := failure;
      observed := [];
    }

    method Invoke(control: ControlViewModel) returns (outcome: Outcome)
      modifies this`observed
      ensures observed == old(observed) + [control.isExecuting]
      ensures outcome == if failure.Some? then Fail(failure.value) else Pass
    {
      observed := observed + [control.isExecuting];
      outcome := if failure.Some? then Fail(failure.value) else Pass;
    }
  }

  class ControlViewModel {
    const definition: ControlDefinition
    var currentValue: Option<Value>
    var isEnabled: bool
    var isExecuting: bool

    constructor (definition: ControlDefinition)
      ensures this.definition == definition
      ensures currentValue == definition.currentValue && isEnabled == definition.isEnabled && !isExecuting
    {
      this.definition := definition;
      currentValue := definition.currentValue;
      isEnabled := definition.isEnabled;
      isExecuting := false;
    }

    function StateIndicatorText(): (r: string)
      reads this
      ensures isExecuting ==> r == "EXECUTING"
      ensures !isExecuting && currentValue.None? ==> r in {"OFF", "READY", "0", "N/A", "EMPTY"}
    {
      IndicatorText(definition.controlType, currentValue, isExecuting)
    }

    function StateIndicatorBackground(): (r: string)
      reads this
      ensures isExecuting ==> r == Orange
      ensures !isExecuting && currentValue.None? && definition.controlType != Button ==> r == Gray
    {
      IndicatorBackground(definition.controlType, currentValue, isExecuting)
    }

    /** ExecuteAsync: nothing happens while disabled or already executing;
        otherwise the callback runs once with IsExecuting set, and IsExecuting
        is cleared afterwards whether or not the callback threw, whose
        failure then propagates. */
    method ExecuteAsync(callback: CommandCallback) returns (outcome: Outcome)
      modifies this`isExecuting, callback`observed
      ensures old(!isEnabled || isExecuting) ==>
                && isExecuting == old(isExecuting)
                && callback.observed == old(callback.observed)
                && outcome == Pass
      ensures old(isEnabled && !isExecuting) ==>
                && !isExecuting
                && callback.observed == old(callback.observed) + [true]
                && outcome == (if callback.failure.Some? then Fail(callback.failure.value) else Pass)
    {
      if !isEnabled || isExecuting {
        return Pass;
      }
      isExecuting := true;
      outcome := callback.Invoke(this);
      isExecuting := false;
    }
  }
}
