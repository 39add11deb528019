/** Content blocks, roles and token usage, shared by every part of the model. */
module Content {

  datatype Option<+T> = None | Some(value: T)

  datatype Role = User | Assistant | System

  /** constants.go:4-13. */
  datatype BlockType =
    Text | ToolUse | ToolResult | Image | Document | Thinking | ServerToolUse | WebSearchResult

  /** A row of the content block table; fields that a type does not use are empty. */
  datatype ContentBlock = ContentBlock(
    kind: BlockType,
    text: string,
    toolUseId: string,
    toolName: string,
    toolInput: string,
    toolResultForUseId: string,
    toolContent: string,
    isError: bool,
    searchResults: string)

  function EmptyBlock(kind: BlockType): ContentBlock {
    ContentBlock(kind, "", "", "", "", "", "", false, "")
  }

  function TextBlock(text: string): ContentBlock {
    EmptyBlock(Text).(text := text)
  }

  function ToolUseBlock(id: string, name: string, input: string): ContentBlock {
    EmptyBlock(ToolUse).(toolUseId := id, toolName := name, toolInput := input)
  }

  function ToolResultBlock(forId: string, content: string, isError: bool): ContentBlock {
    EmptyBlock(ToolResult).(toolResultForUseId := forId, toolContent := content, isError := isError)
  }

  datatype Usage = Usage(input: int, output: int, cacheCreation: int, cacheRead: int) {
    function Plus(u: Usage): Usage {
      Usage(input + u.input, output + u.output, cacheCreation + u.cacheCreation, cacheRead + u.cacheRead)
    }
  }

  const NO_USAGE := Usage(0, 0, 0, 0)
}
