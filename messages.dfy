/**
 * The chat messages the three scripts exchange with the language model and
 * the graph runtime, as a closed tagged union instead of runtime type tests.
 */
module Messages {

  /** A tool argument as the model supplies it: text or an integer. */
  datatype Value = Str(text: string) | Int(number: int)

  /** A tool invocation requested by the model: call id, tool name, named arguments. */
  datatype ToolCall = ToolCall(id: string, name: string, args: map<string, Value>)

  datatype Message =
    | Human(content: string)
    | AI(content: string, toolCalls: seq<ToolCall>)
    | Tool(content: string, toolCallId: string)
    | System(content: string)

  /** What a call of the language model returns: always an AI message. */
  datatype Reply = Reply(content: string, toolCalls: seq<ToolCall>) {
    function AsMessage(): Message {
      AI(content, toolCalls)
    }
  }

  /** The labels "continue" and "end" returned by the routing functions. */
  datatype Route = Continue | End
}
