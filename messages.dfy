/**
 * The values exchanged with the generation service: the content blocks of a
 * response, the blocks of a request message, and the messages themselves.
 */
module Messages {
  import opened Wrappers

  /**
   * The structured input of a tool use, seen through the two argument
   * schemas: `task` is the `task` string when the input deserialises as
   * `SetPrimaryTaskArgs`, and `sideQuests` is the `side_quests` list when it
   * deserialises as `SetSideQuestsArgs`. Unknown fields do not stop either
   * parse, so an input may parse as both, either or neither.
   */
  datatype ToolInput = ToolInput(task: Option<string>, sideQuests: Option<seq<string>>)

  /** A tool invocation requested by the model. */
  datatype ToolUseBlock = ToolUseBlock(id: string, name: string, input: ToolInput)

  /** One block of a response's content. */
  datatype ContentBlock =
    | Text(text: string)
    | ToolUse(toolUse: ToolUseBlock)
    | ServerToolUse(serverId: string, serverName: string)
    | Thinking(thinking: string, signature: string)
    | RedactedThinking(data: string)

  /** Why the model stopped; only `ToolUseRequested` keeps the conversation going. */
  datatype StopReason = EndTurn | MaxTokens | StopSequence | ToolUseRequested

  /** A response of the service. */
  datatype Response = Response(content: seq<ContentBlock>, stopReason: Option<StopReason>)

  /** One block of a message sent to the service. */
  datatype MessageContentBlock =
    | TextPart(text: string)
    | ToolUsePart(toolUse: ToolUseBlock)
    | ToolResultPart(toolUseId: string, content: Option<string>, isError: Option<bool>)

  datatype MessageParamContent = Plain(text: string) | Blocks(blocks: seq<MessageContentBlock>)

  datatype MessageRole = User | Assistant

  datatype MessageParam = MessageParam(content: MessageParamContent, role: MessageRole)
}
