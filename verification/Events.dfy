/** The events agent-core emits and the server forwards. A JSON field that may be absent or
    malformed is an `Option`; a field no modelled code reads is dropped. */
module Events {
  import opened Wrappers

  type RunId = string

  const U64_MAX: int := 0xFFFF_FFFF_FFFF_FFFF

  type U64 = n: int | 0 <= n <= 0xFFFF_FFFF_FFFF_FFFF

  datatype Role = User | Assistant | System | Tool

  datatype ContentBlock =
    | Text(text: string)
    | ToolRequest(id: string, name: string, arguments: string)
    | ToolResponse(id: string, content: string, isError: bool)
    | Thinking(text: string)

  datatype Message = Message(id: string, role: Role, content: seq<ContentBlock>)

  datatype SessionStatus = Running | Completed | Failed | Cancelled | OtherStatus

  /** The payload of a `sub_agent_session` event. */
  datatype SessionPayload = SessionPayload(
    subagentId: Option<string>,
    childRunId: Option<RunId>,
    parentRunId: Option<RunId>,
    status: Option<SessionStatus>,
    task: string,
    messages: seq<Message>)

  datatype Kind =
    | MessageSent(message: Option<Message>)
    | MessageDelta(messageId: Option<string>, delta: Option<string>)
    | SubAgentSession(payload: Option<SessionPayload>)
    | DiffReady
    | Finish(messages: seq<Message>)
    | Error
    | OtherKind(name: string)

  datatype Event = Event(runId: Option<RunId>, seqNo: Option<U64>, kind: Kind)

  predicate IsTerminal(e: Event) {
    e.kind.Finish? || e.kind.Error?
  }

  /** An event without a run id counts as belonging to the run whose stream it is on. */
  predicate BelongsToRun(e: Event, runId: RunId) {
    e.runId.None? || e.runId.value == runId
  }

  /** The statuses that end a sub-agent session. */
  predicate IsTerminalStatus(status: Option<SessionStatus>) {
    status.Some? && (status.value.Completed? || status.value.Failed? || status.value.Cancelled?)
  }
}
