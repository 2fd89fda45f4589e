/** The vocabulary shared by the frames, the approval adapter and the coordinator. */
module Protocol {

  type Handle = string       // opaque, the only call identity that leaves the worker
  type ProviderId = string   // the provider's call identity, never sent out
  type Tool = string

  /** What a peer may decide; on the wire `allow`, `deny` and `allow_all`. */
  datatype IpcApprovalDecision = AllowOnce | Refuse | AllowForSession

  /** What the core is told. */
  datatype ApprovalDecision = Allow | Deny | AllowAll

  function MapDecision(decision: IpcApprovalDecision): ApprovalDecision {
    match decision
    case AllowOnce => Allow
    case Refuse => Deny
    case AllowForSession => AllowAll
  }

  datatype WorkerEvent =
    | TextDelta(text: string)
    | AssistantMessage(text: string)
    | ToolStart(callId: Handle, name: string, argumentsJson: string)
    | ToolResult(callId: Handle, name: string, content: string, isError: bool)
    | NeedsApproval(callId: Handle, tool: Tool, argumentsJson: string)
    | TurnFinished
    | Done(finalMessageCount: nat)
    | Crash(message: string)

  datatype DaemonCommand =
    | Input(text: string)
    | Approve(callId: Handle, decision: IpcApprovalDecision)
    | Cancel
    | Stop
}
