/** The interface of the text-generation backend: the events of one
    generation stream and the tool-call requests they may carry. */
module Generation {
  import opened Wrappers

  /** Completion metrics; only the throughput is read. */
  datatype CompletionInfo = CompletionInfo(tokensPerSecond: real)

  /** A tool-call request parsed from the model's output. */
  datatype ToolCall = ToolCall(name: string, arguments: map<string, string>)

  /** One event of a stream: a text chunk, completion metrics and a tool-call
      request, each possibly absent. */
  datatype Event = Event(chunk: Option<string>, info: Option<CompletionInfo>, toolCall: Option<ToolCall>)

  /** Opening a stream either yields its events or fails with an error
      description. */
  datatype Stream = Opened(events: seq<Event>) | OpenFailed(error: string)
}
