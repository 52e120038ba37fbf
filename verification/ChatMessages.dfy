/** Messages of a chat as the language model library exchanges them. */
module ChatMessages {

  datatype Role = User | Assistant | Tool | System | Other(name: string)

  /** Who produced a message; an injection is a tool's instruction to the model. */
  datatype Origin = UnknownOrigin | Seed | Turn | Injection

  datatype ToolCall = ToolCall(id: string, name: string, arguments: string)

  datatype Message = Message(
    role: Role,
    text: string,
    toolCalls: seq<ToolCall>,
    toolCallId: string,
    isError: bool,
    reasoning: string,
    providerReasoning: string,
    origin: Origin)

  /** The library gives every injection the system role. */
  predicate InjectionsAreSystem(messages: seq<Message>) {
    forall i | 0 <= i < |messages| :: messages[i].origin.Injection? ==> messages[i].role.System?
  }

  predicate NoInjections(messages: seq<Message>) {
    forall i | 0 <= i < |messages| :: !messages[i].origin.Injection?
  }
}
