/** The model-visible messages of src/cli_message.c. */
module Messages {
  import opened Basics

  datatype ToolCall = ToolCall(id: bytes, name: bytes, arguments: bytes)

  /** A message; the role is the constructor, so no role carries another role's fields. */
  datatype Message =
    | User(content: bytes)
    | Assistant(content: bytes, calls: seq<ToolCall>)
    | ToolResult(toolCallId: bytes, content: bytes)

  predicate CallValid(call: ToolCall) {
    call.id != [] && call.name != [] && call.arguments != []
  }

  predicate MessageValid(m: Message) {
    match m
    case User(_) => true
    case Assistant(_, calls) => forall i :: 0 <= i < |calls| ==> CallValid(calls[i])
    case ToolResult(id, _) => id != []
  }
}
