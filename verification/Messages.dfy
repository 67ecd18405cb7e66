/** The values every part of the kernel exchanges: content blocks, provider
    messages, models, and the transcript-level union of messages.
    Timestamps are integers; JSON values (arguments, raw reasoning items) are
    represented by their serialised text. */
module Messages {

  datatype Option<+T> = None | Some(value: T)

  datatype Block =
    | Text(text: string, textSignature: string)
    | Thinking(thinking: string, signature: string, redacted: bool)
    | Image(data: string, mimeType: string)
    | ToolCall(id: string, name: string, arguments: string, thoughtSignature: string)
    | OtherBlock(tag: string)

  datatype Role = User | Assistant | ToolResult | OtherRole(name: string)

  datatype StopReason = Unset | Stop | Length | ToolUse | Error | Aborted

  datatype Message = Message(
    role: Role,
    content: seq<Block>,
    timestamp: int,
    api: string,
    provider: string,
    model: string,
    responseID: string,
    stopReason: StopReason,
    errorMessage: string,
    toolCallID: string,
    toolName: string,
    isError: bool,
    details: string)

  datatype Model = Model(id: string, api: string, provider: string, supportsImages: bool)

  /** A reply that ended in an error or was aborted. */
  predicate Failed(m: Message) {
    m.stopReason.Error? || m.stopReason.Aborted?
  }

  function ToolCalls(content: seq<Block>): (calls: seq<Block>)
    ensures forall c <- calls :: c.ToolCall? && c in content
  {
    if content == [] then []
    else (if content[0].ToolCall? then [content[0]] else []) + ToolCalls(content[1..])
  }

  function CallIDs(calls: seq<Block>): (ids: seq<string>)
    requires forall c <- calls :: c.ToolCall?
    ensures |ids| == |calls| && forall k | 0 <= k < |ids| :: ids[k] == calls[k].id
  {
    seq(|calls|, k requires 0 <= k < |calls| => calls[k].id)
  }

  /** The ids an assistant message calls, in order. */
  function Calls(m: Message): (ids: seq<string>) {
    CallIDs(ToolCalls(m.content))
  }

  function Elements<T>(s: seq<T>): (r: set<T>) {
    set x | x in s
  }

  ghost predicate NoDuplicates<T>(s: seq<T>) {
    forall i, j | 0 <= i < j < |s| :: s[i] != s[j]
  }
}
