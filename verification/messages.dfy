/**
 * The messages of a conversation (src/types.ts). Content is the message's text; a missing
 * `toolCallId` is the empty string, and a missing or empty `toolCalls` the empty sequence,
 * which is how the modelled functions treat them.
 */
module Messages {

  datatype Option<+T> = None | Some(value: T) {
    predicate IsFailure() {
      None?
    }

    function PropagateFailure<U>(): Option<U>
      requires None?
    {
      None
    }

    function Extract(): T
      requires Some?
    {
      value
    }
  }

  datatype Role = System | User | Assistant | Tool

  /** The arguments of a tool call, by key, in textual form. */
  type Args = map<string, string>

  datatype ToolCall = ToolCall(id: string, name: string, args: Args)

  datatype Message = Message(
    role: Role,
    content: string,
    toolCalls: seq<ToolCall>,
    toolCallId: string,
    name: Option<string>,
    checkpointId: Option<string>,
    checkpointReason: Option<string>)

  /** A message with no protocol fields. */
  function Plain(role: Role, content: string): Message {
    Message(role, content, [], "", None, None, None)
  }

  /** An assistant turn that opens a tool bundle. */
  predicate Calling(m: Message) {
    m.role == Assistant && m.toolCalls != []
  }
}
