/** Values of the harness library that acp-unreal exchanges with it: identifiers, session
    items, tool operations and model responses. Identifiers are numbers; 0 stands for Go's
    empty string, the value a missing map entry reads as. */
module Harness {

  datatype Option<+T> = None | Some(value: T)

  type InputId = nat
  type TurnId = nat
  type CallId = nat
  type OpId = nat
  type ResponseId = nat

  const NO_ID: nat := 0

  datatype OpStatus = Unset | Ready | Awaiting | Completed | Failed | Canceled {
    predicate Terminal() {
      Completed? || Failed? || Canceled?
    }
  }

  /** One snapshot of a tool operation. `listed` says whether the shell command matches the
      `--allow` list; `note` is the shell state's terminal error. */
  datatype Operation = Operation(id: OpId, shell: bool, listed: bool, status: OpStatus, note: string)

  datatype Output = Reasoning | Message(text: string) | ToolCall(id: CallId)

  datatype Stop = StopComplete | StopMaxOutputTokens | StopRefused

  datatype Response = Response(id: ResponseId, output: seq<Output>, stop: Stop)

  datatype ToolCallStatus = ToolCallStatus(
    callId: CallId, error: bool, waitingFor: seq<OpId>, operations: seq<Operation>)

  datatype InputKind = External | Heartbeat | OtherControl

  datatype Item =
    | Fork
    | Input(id: InputId, kind: InputKind)
    | Turn(turnId: TurnId)
    | ModelResponse(answers: TurnId, response: Response)
    | CallStatus(status: ToolCallStatus)

  /** The tool calls a response asks for. */
  function CallIds(output: seq<Output>): set<CallId> {
    set i | 0 <= i < |output| && output[i].ToolCall? :: output[i].id
  }

  function OpIds(operations: seq<Operation>): set<OpId> {
    set i | 0 <= i < |operations| :: operations[i].id
  }

  /** The status of the last snapshot of `id`, as a map filled in list order reports it. */
  function LastStatus(operations: seq<Operation>, id: OpId): OpStatus {
    if operations == [] then Unset
    else if operations[|operations| - 1].id == id then operations[|operations| - 1].status
    else LastStatus(operations[..|operations| - 1], id)
  }

  /** Every operation the status waits for has ended. */
  predicate Ended(status: ToolCallStatus) {
    forall i | 0 <= i < |status.waitingFor| :: LastStatus(status.operations, status.waitingFor[i]).Terminal()
  }
}
