/** ControlCommandConsumer: runs one control command through the printer's
    executor and answers it with exactly one ControlCommandResponse. An
    exception from the executor is caught and becomes a failure response;
    nothing escapes Consume. The three clock readings (when handling starts,
    when the executor runs, when the response is built) are parameters. */
module CommandConsumer {
  import opened Values
  import opened Messages
  import opened StateManager
  import opened PrinterExecutor
  import opened CncExecutor

  /** The code every failure response carries. */
  const ExecutionError: string := "EXECUTION_ERROR"

  /** The response built in the try block (executor returned) or in the catch block (it threw). */
  function BuildResponse(cmd: ControlCommand, outcome: Result<string, Error>, startedAt: int, finishedAt: int)
    : (r: ControlCommandResponse)
    ensures r.commandId == cmd.commandId && r.serviceId == cmd.serviceId && r.controlId == cmd.controlId
    ensures r.success <==> outcome.Ok?
    ensures r.success ==> r.resultValue == Some(Str(outcome.value)) && r.errorMessage.None? && r.errorCode.None?
    ensures !r.success ==> r.resultValue.None? && r.errorCode == Some(ExecutionError)
                           && r.errorMessage == Some(outcome.error.message)
    ensures r.processedAt == finishedAt && r.processingTime == finishedAt - startedAt
  {
    match outcome
    case Ok(text) =>
      ControlCommandResponse(cmd.commandId, cmd.serviceId, cmd.controlId, true, finishedAt, Some(Str(text)),
                             None, None, finishedAt - startedAt)
    case Err(error) =>
      ControlCommandResponse(cmd.commandId, cmd.serviceId, cmd.controlId, false, finishedAt, None,
                             Some(error.message), Some(ExecutionError), finishedAt - startedAt)
  }

  /** Store, bus output and response of consuming one command. */
  datatype Consumed = Consumed(state: map<string, Value>, sent: seq<BusMessage>, response: ControlCommandResponse)

  /** Consuming `cmd` against store `s`: the executor's effect plus the response built from its outcome. */
  function ConsumeSpec(cmd: ControlCommand, s: map<string, Value>, id: ServiceIdentity, fault: Option<string>,
                       startedAt: int, executedAt: int, finishedAt: int): (c: Consumed)
    ensures var e := Execute(PrinterPlan(cmd.controlId, cmd.value, executedAt), s, id, executedAt, fault);
            c.state == e.state && c.sent == e.sent && c.response.success == e.result.Ok?
  {
    var e := Execute(PrinterPlan(cmd.controlId, cmd.value, executedAt), s, id, executedAt, fault);
    Consumed(e.state, e.sent, BuildResponse(cmd, e.result, startedAt, finishedAt))
  }

  /** A command for a control the printer does not have, or with a value of
      the wrong type, is answered with a failure and leaves store and bus untouched. */
  lemma RejectedCommandLeavesStore(cmd: ControlCommand, s: map<string, Value>, id: ServiceIdentity,
                                   fault: Option<string>, startedAt: int, executedAt: int, finishedAt: int)
    requires || cmd.controlId !in PrinterControlIds
             || (cmd.controlId in PrinterNumericIds && !cmd.value.Num?)
             || (cmd.controlId == "filament-type" && !cmd.value.Str?)
    ensures var c := ConsumeSpec(cmd, s, id, fault, startedAt, executedAt, finishedAt);
            && c.state == s && c.sent == []
            && !c.response.success && c.response.errorCode == Some(ExecutionError)
            && c.response.commandId == cmd.commandId
  {
  }

  /** An unknown control id comes back with the executor's message "Unknown control: <id>". */
  lemma UnknownControlResponse(cmd: ControlCommand, s: map<string, Value>, id: ServiceIdentity,
                               fault: Option<string>, startedAt: int, executedAt: int, finishedAt: int)
    requires cmd.controlId !in PrinterControlIds
    ensures ConsumeSpec(cmd, s, id, fault, startedAt, executedAt, finishedAt).response.errorMessage
              == Some("Unknown control: " + cmd.controlId)
  {
  }

  /** With the broker up, a well-typed command for a known control succeeds,
      and its ResultValue is the executor's text. */
  lemma AcceptedCommandSucceeds(cmd: ControlCommand, s: map<string, Value>, id: ServiceIdentity,
                                startedAt: int, executedAt: int, finishedAt: int)
    requires cmd.controlId in PrinterControlIds
    requires cmd.controlId in PrinterNumericIds ==> cmd.value.Num?
    requires cmd.controlId == "filament-type" ==> cmd.value.Str?
    ensures var c := ConsumeSpec(cmd, s, id, None, startedAt, executedAt, finishedAt);
            && c.response.success
            && c.response.resultValue
               == Some(Str(PrinterPlan(cmd.controlId, cmd.value, executedAt).value.result))
  {
    var plan := PrinterPlan(cmd.controlId, cmd.value, executedAt).value;
    RunWritesBusUp(s, id, executedAt, plan.writes);
  }

  /** A redelivered command gets the same answer as the first delivery and
      emits no further event (for start-print, when it runs at the same instant). */
  lemma RedeliveredCommandSameAnswer(cmd: ControlCommand, s: map<string, Value>, id: ServiceIdentity,
                                     fault1: Option<string>, fault2: Option<string>,
                                     startedAt: int, executedAt1: int, executedAt2: int, finishedAt: int)
    requires cmd.controlId != "start-print" || executedAt1 == executedAt2
    requires ConsumeSpec(cmd, s, id, fault1, startedAt, executedAt1, finishedAt).response.success
    ensures var first := ConsumeSpec(cmd, s, id, fault1, startedAt, executedAt1, finishedAt);
            var second := ConsumeSpec(cmd, first.state, id, fault2, startedAt, executedAt2, finishedAt);
            second == Consumed(first.state, [], first.response)
  {
    PrinterRedeliveryIsSilent(cmd.controlId, cmd.value, s, id, executedAt1, executedAt2, fault1, fault2);
  }

  /** The CNC service answers with the same response rule: a coolant command
      whose value is not a bool is answered with EXECUTION_ERROR, and the store
      and the bus are left as they were. */
  lemma CncCoolantNotBoolResponse(cmd: ControlCommand, s: map<string, Value>, id: ServiceIdentity,
                                  fault: Option<string>, startedAt: int, executedAt: int, finishedAt: int)
    requires cmd.controlId == "coolant-toggle" && !cmd.value.Bool?
    ensures var e := Execute(CncPlan(cmd.controlId, cmd.value, executedAt), s, id, executedAt, fault);
            var response := BuildResponse(cmd, e.result, startedAt, finishedAt);
            && e.state == s && e.sent == []
            && !response.success && response.errorCode == Some(ExecutionError)
            && response.errorMessage == Some("Coolant state must be boolean")
  {
  }

  /** With spindle-speed seeded at 1000, a command for 1500 is answered with
      success and "Spindle speed set to 1500 RPM", after one event 1000 -> 1500. */
  lemma CncSpindleResponse(cmd: ControlCommand, s: map<string, Value>, id: ServiceIdentity,
                           startedAt: int, executedAt: int, finishedAt: int)
    requires cmd.controlId == "spindle-speed" && cmd.value == Num(1500)
    requires "spindle-speed" in s && s["spindle-speed"] == Num(1000)
    ensures var e := Execute(CncPlan(cmd.controlId, cmd.value, executedAt), s, id, executedAt, None);
            var response := BuildResponse(cmd, e.result, startedAt, finishedAt);
            && response.success && response.commandId == cmd.commandId
            && response.resultValue == Some(Str("Spindle speed set to 1500 RPM"))
            && |e.sent| == 1 && e.sent[0].changed.oldValue == Num(1000) && e.sent[0].changed.newValue == Num(1500)
  {
    CncSpindleScenario(s, id, executedAt);
  }

  /** The request's ConsumeContext as far as replies go: RespondAsync appends one response. */
  class ReplyChannel {
    var replies: seq<ControlCommandResponse>

    constructor ()
      ensures replies == []
    {
      replies := [];
    }

    method RespondAsync(response: ControlCommandResponse)
      modifies this`replies
      ensures replies == old(replies) + [response]
    {
      replies := replies + [response];
    }
  }

  class ControlCommandConsumer {
    const executor: PrinterControlExecutor

    constructor (executor: PrinterControlExecutor)
      ensures this.executor == executor
    {
      this.executor := executor;
    }

    /** Consume: one execution, then exactly one reply on `context`, on the
        success path and on the failure path alike. */
    method Consume(cmd: ControlCommand, context: ReplyChannel, startedAt: int, executedAt: int, finishedAt: int)
      modifies executor.stateManager`state, executor.stateManager.bus`published, context`replies
      ensures var c := ConsumeSpec(cmd, old(executor.stateManager.state), executor.stateManager.identity,
                                   executor.stateManager.bus.fault, startedAt, executedAt, finishedAt);
              && executor.stateManager.state == c.state
              && executor.stateManager.bus.published == old(executor.stateManager.bus.published) + c.sent
              && context.replies == old(context.replies) + [c.response]
    {
      var result := executor.ExecuteAsync(cmd.controlId, cmd.value, executedAt);
      var response := BuildResponse(cmd, result, startedAt, finishedAt);
      context.RespondAsync(response);
    }
  }
}
