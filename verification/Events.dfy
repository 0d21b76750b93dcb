// The events a generation emits, as cursoragentv1/runner.go and
// usage_observation.go declare them.  A Dafny `char` is one Unicode scalar, so
// every text chunk of the model is made of whole code points.
module Events {

  datatype Option<+T> = None | Some(value: T)

  const MAX_INT64: int := 0x7fff_ffff_ffff_ffff
  const MIN_INT64: int := -0x8000_0000_0000_0000

  type Int64 = x: int | MIN_INT64 <= x <= MAX_INT64

  // Two's-complement wrap-around of a sum, as Go's int64 addition computes it.
  function Wrap64(x: int): Int64 {
    var r := x % 0x1_0000_0000_0000_0000;
    if r <= MAX_INT64 then r else r - 0x1_0000_0000_0000_0000
  }

  // Presence, validity and value of a counter are recorded separately.
  datatype ObservedCount = Count(present: bool, invalid: bool, value: Int64)

  const NO_COUNT := Count(false, false, 0)

  datatype UsageKind = UnknownUsage | TokenDeltaUsage | TurnEndedUsage

  datatype UsageObservation = Usage(
    carried: bool,
    kind: UsageKind,
    tokenDelta: ObservedCount,
    input: ObservedCount,
    output: ObservedCount,
    cacheRead: ObservedCount,
    cacheWrite: ObservedCount,
    reasoning: ObservedCount)

  datatype ToolCall = ToolCall(messageId: nat, execId: string, toolCallId: string, name: string, arguments: string)

  datatype MediaPart = MediaPart(kind: string, mimeType: string, data: string, filename: string)

  datatype ToolResult = ToolResult(toolCallId: string, content: string, isError: bool, media: Option<seq<MediaPart>>)

  datatype SearchReference = SearchReference(title: string, url: string, chunk: string)

  datatype HostedSearch = HostedSearch(
    callId: string,
    kind: string,
    query: string,
    url: string,
    argsJson: string,
    references: Option<seq<SearchReference>>,
    content: string,
    error: string)

  // NoType is the zero value of the source's EventType.
  datatype EventType =
    | NoType | Text | Thinking | UsageDelta | Checkpoint | ToolCallEvent | ToolResultAccepted
    | TurnEnded | HostedSearchCall | Done | HostedSearchStarted | HostedSearchCompleted
    | ThinkingCompleted | UsageObserved

  datatype Event = Event(
    kind: EventType,
    text: string,
    signature: string,
    progress: int,
    tokens: Int64,
    usage: Option<UsageObservation>,
    toolCall: Option<ToolCall>,
    toolResult: Option<ToolResult>,
    search: Option<HostedSearch>,
    checkpoint: string,
    blobs: map<string, string>)

  // Checkpoint bytes and blobs travel on an event but are never retained.
  predicate CarriesState(e: Event) {
    e.checkpoint != "" || |e.blobs| != 0
  }

  // cloneEvent: a retained event loses its checkpoint and blobs.
  function CloneEvent(e: Event): Event {
    e.(checkpoint := "", blobs := map[])
  }

  function Max(a: int, b: int): int {
    if a < b then b else a
  }
}
