/** The chat messages the agent exchanges with the model and the tools,
    and the tool calls a model response carries. */
module Messages {
  import opened Text

  /** A value in a tool call's dictionary, as far as `str()` needs it. */
  datatype Scalar = Str(s: string) | Int(i: int) | NoneValue

  /** Python's `str(v)`. */
  function ScalarText(v: Scalar): string
  {
    match v
    case Str(s) => s
    case Int(i) => IntToString(i)
    case NoneValue => "None"
  }

  /** One key of a tool-call dictionary beyond "name" and "args". */
  datatype Field = Field(key: string, value: Scalar)

  /** A tool-call dictionary: its keys are "name", "args" and then the keys
      of `extra`, in that order (a model-produced call has "id" and "type"). */
  datatype ToolCall = ToolCall(name: string, args: map<string, Scalar>, extra: seq<Field>)

  datatype Message =
    | SystemMessage(content: string)
    | HumanMessage(content: string)
    | AiMessage(content: string, toolCalls: seq<ToolCall>)
    | ToolMessage(content: string, toolCallId: string)
}
