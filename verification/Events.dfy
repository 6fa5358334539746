/** The runtime's event and status vocabulary (runtime/types.go).

    Identifiers made by newID are fixed-length hexadecimal strings, so their
    order is that of numbers; they are modelled as `nat`, and 0 stands for the
    empty string. Times are integers (microseconds). Payloads are typed values:
    JSON encoding is not modelled. */
module Events {
  import opened Wrappers

  type Id = nat
  type Time = int

  const NoId: Id := 0

  datatype RunStatus = Queued | Running | Completed | Failed | Stopped

  datatype ToolStatus = Requested | Succeeded | Faulted | Denied | Interrupted

  datatype TextPart = TextPart(kind: string, text: string)

  datatype Source = Source(kind: string, adapter: string, conversation: string, agent: string)

  datatype InputSubmission = InputSubmission(
    key: string, parts: seq<TextPart>, source: Source, causation: string,
    target: string, revision: string)

  /** A tool call's arguments after JSON decoding: an object, nothing (absent,
      blank or null), or something that is not an object. */
  datatype Arguments = Object(text: string) | Missing | NotAnObject

  datatype ToolResult = ToolResult(call: string, kind: string, ok: bool, output: string, error: string)

  datatype Part =
    | Text(text: string)
    | ToolCall(call: string, kind: string, arguments: Arguments)
    | ToolResultPart(call: string, kind: string, result: ToolResult)
    | Unsupported(name: string)

  datatype AssistantOutput = AssistantOutput(id: Id, parts: seq<Part>, final: bool)

  datatype ToolOutcome = ToolOutcome(id: Id, call: string, kind: string, status: ToolStatus, result: ToolResult)

  datatype Run = Run(
    id: Id, conv: Id, inbound: Id, revision: string,
    status: RunStatus, error: string, startedAt: Time, completedAt: Option<Time>)

  datatype Body =
    | InputAccepted(input: InputSubmission)
    | InputAdmitted
    | AssistantCommitted(output: AssistantOutput)
    | ToolOutcomeRecorded(outcome: ToolOutcome)
    | RunStarted(run: Run)
    | RunCompleted(run: Run)
    | RunFailed(run: Run)
    | RunStopped(run: Run)
    | EnvironmentProgress(step: string, message: string)
    | AgentFact(name: string)       // the private agent.* entries
    | Transient(name: string)       // delivered live, never persisted

  /** A durable log entry (cursor > 0) or a transient live event (cursor 0). */
  datatype Event = Event(
    cursor: nat, conv: Id, run: Id, inbound: Id, createdAt: Time, body: Body)

  /** Clients never receive agent.* entries. */
  predicate Public(e: Event) {
    !e.body.AgentFact?
  }

  /** The event types that rebuildIndexes selects. */
  predicate Indexed(e: Event) {
    !e.body.AgentFact? && !e.body.EnvironmentProgress? && !e.body.Transient?
  }

  /** The message_id column of an event row; NoId is the empty string. */
  function MessageId(e: Event): Id {
    match e.body
    case InputAccepted(_) => e.inbound
    case AssistantCommitted(output) => output.id
    case ToolOutcomeRecorded(outcome) => outcome.id
    case _ => NoId
  }

  predicate ObjectArguments(parts: seq<Part>) {
    forall p | p in parts && p.ToolCall? :: p.arguments.Object?
  }

  /** Content entries and starting runs carry an id, and tool calls the
      arguments they run with. */
  predicate Sound(e: Event) {
    match e.body
    case AssistantCommitted(output) => output.id != NoId && ObjectArguments(output.parts)
    case ToolOutcomeRecorded(outcome) => outcome.id != NoId
    case RunStarted(run) => run.id != NoId && run.error == ""
    case _ => true
  }

  predicate Blank(s: string) {
    forall c | c in s :: c in {' ', '\t', '\n', '\r'}
  }

  /** ValidateInputSubmission and validateParts. */
  predicate ValidInput(input: InputSubmission) {
    && !Blank(input.key)
    && input.parts != []
    && (forall p | p in input.parts :: p.kind == "text" && p.text != "")
    && !Blank(input.source.adapter)
    && (|| input.source.kind == "human"
        || input.source.kind == "system"
        || (&& input.source.kind == "agent"
            && input.source.conversation != ""
            && input.source.agent != ""
            && input.causation != ""))
  }
}
