// Values shared by the core and by the framework adapters.
module Types {

  datatype Option<+T> = None | Some(value: T) {
    function GetOr(default: T): T {
      if Some? then value else default
    }
  }

  // The program's signed integers.
  newtype int64 = x: int | -0x8000_0000_0000_0000 <= x < 0x8000_0000_0000_0000

  // A point in time or a duration, in nanoseconds.
  type Time = int

  // A low-cardinality error classification. The empty string means "no error".
  type ErrorType = string

  const ERROR_NONE: ErrorType := ""
  const ERROR_UNKNOWN: ErrorType := "unknown"

  // Provider-reported token usage.
  datatype Usage = Usage(inputTokens: int, outputTokens: int, cacheReadTokens: int, cacheWriteTokens: int, reasoningTokens: int)

  const NO_USAGE := Usage(0, 0, 0, 0, 0)

  datatype ContentKind =
    | SystemInstructions
    | InputMessages
    | OutputMessages
    | ToolDefinitions
    | ToolCallArguments
    | ToolCallResult
    | OtherKind(name: string)

  // A validated projection, or the invalid zero value.
  datatype ProjectedContent = NoContent | Projected(kind: ContentKind, data: string)

}
