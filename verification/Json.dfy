// The JSON a retained event is persisted as: encoding/json with HTML escaping,
// omitempty fields left out, sizes counted in UTF-8 bytes.
module Json {
  import opened Events

  // ---------------------------------------------------------------------
  // Sizes
  // ---------------------------------------------------------------------

  function Utf8Size(c: char): nat {
    if c as int < 0x80 then 1 else if c as int < 0x800 then 2 else if c as int < 0x10000 then 3 else 4
  }

  function Size(s: string): nat {
    if s == [] then 0 else Size(s[..|s| - 1]) + Utf8Size(s[|s| - 1])
  }

  lemma {:induction false} SizeOfConcatenation(a: string, b: string)
    ensures Size(a + b) == Size(a) + Size(b)
  {
    if b == [] {
      assert a + b == a;
    } else {
      assert (a + b)[..|a + b| - 1] == a + b[..|b| - 1];
      SizeOfConcatenation(a, b[..|b| - 1]);
    }
  }

  // ---------------------------------------------------------------------
  // Strings and numbers
  // ---------------------------------------------------------------------

  const HEX := "0123456789abcdef"

  function UnicodeEscape(n: nat): string
    requires n < 0x10000
  {
    "\\u" + [HEX[n / 0x1000], HEX[n / 0x100 % 0x10], HEX[n / 0x10 % 0x10], HEX[n % 0x10]]
  }

  function EscapeChar(c: char): (r: string)
    ensures r != ""
  {
    if c == '\"' then "\\\""
    else if c == '\\' then "\\\\"
    else if c as int == 8 then "\\b"
    else if c as int == 12 then "\\f"
    else if c == '\n' then "\\n"
    else if c == '\r' then "\\r"
    else if c == '\t' then "\\t"
    else if c as int < 0x20 || c == '<' || c == '>' || c == '&' || c as int == 0x2028 || c as int == 0x2029 then
      UnicodeEscape(c as int)
    else [c]
  }

  function Escape(s: string): string {
    if s == [] then [] else Escape(s[..|s| - 1]) + EscapeChar(s[|s| - 1])
  }

  lemma {:induction false} EscapeOfConcatenation(a: string, b: string)
    ensures Escape(a + b) == Escape(a) + Escape(b)
  {
    hide EscapeChar;
    if b == [] {
      assert a + b == a;
    } else {
      assert (a + b)[..|a + b| - 1] == a + b[..|b| - 1];
      EscapeOfConcatenation(a, b[..|b| - 1]);
    }
  }

  function Quote(s: string): string {
    "\"" + Escape(s) + "\""
  }

  function Digits(n: nat): string {
    (if n < 10 then [] else Digits(n / 10)) + [HEX[n % 10]]
  }

  function Itoa(n: int): string {
    if n < 0 then "-" + Digits(-n) else Digits(n)
  }

  function Bool(b: bool): string {
    if b then "true" else "false"
  }

  function List(items: seq<string>): string {
    if items == [] then ""
    else if |items| == 1 then items[0]
    else List(items[..|items| - 1]) + "," + items[|items| - 1]
  }

  // ---------------------------------------------------------------------
  // Payloads
  // ---------------------------------------------------------------------

  function CountJson(c: ObservedCount): string {
    "{\"Present\":" + Bool(c.present) + ",\"Invalid\":" + Bool(c.invalid) + ",\"Value\":" + Itoa(c.value) + "}"
  }

  function KindCode(k: UsageKind): nat {
    match k
    case UnknownUsage => 0
    case TokenDeltaUsage => 1
    case TurnEndedUsage => 2
  }

  function UsageJson(u: UsageObservation): string {
    "{\"Carried\":" + Bool(u.carried) + ",\"Kind\":" + Itoa(KindCode(u.kind)) +
    ",\"TokenDelta\":" + CountJson(u.tokenDelta) + ",\"Input\":" + CountJson(u.input) +
    ",\"Output\":" + CountJson(u.output) + ",\"CacheRead\":" + CountJson(u.cacheRead) +
    ",\"CacheWrite\":" + CountJson(u.cacheWrite) + ",\"Reasoning\":" + CountJson(u.reasoning) + "}"
  }

  function ToolCallJson(t: ToolCall): string {
    "{\"MessageID\":" + Itoa(t.messageId) + ",\"ExecID\":" + Quote(t.execId) + ",\"ToolCallID\":" + Quote(t.toolCallId) +
    ",\"Name\":" + Quote(t.name) + ",\"Arguments\":" + Quote(t.arguments) + "}"
  }

  function MediaJson(m: MediaPart): string {
    "{\"kind\":" + Quote(m.kind) + ",\"mime_type\":" + Quote(m.mimeType) + ",\"data\":" + Quote(m.data) +
    (if m.filename == "" then "" else ",\"filename\":" + Quote(m.filename)) + "}"
  }

  function ToolResultJson(t: ToolResult): string {
    "{\"ToolCallID\":" + Quote(t.toolCallId) + ",\"Content\":" + Quote(t.content) + ",\"IsError\":" + Bool(t.isError) +
    ",\"Media\":" + (match t.media
                     case None => "null"
                     case Some(parts) => "[" + List(seq(|parts|, i requires 0 <= i < |parts| => MediaJson(parts[i]))) + "]") + "}"
  }

  function ReferenceJson(r: SearchReference): string {
    "{\"Title\":" + Quote(r.title) + ",\"URL\":" + Quote(r.url) + ",\"Chunk\":" + Quote(r.chunk) + "}"
  }

  function SearchJson(s: HostedSearch): string {
    "{\"CallID\":" + Quote(s.callId) + ",\"Kind\":" + Quote(s.kind) + ",\"Query\":" + Quote(s.query) + ",\"URL\":" + Quote(s.url) +
    ",\"ArgsJSON\":" + Quote(s.argsJson) +
    ",\"References\":" + (match s.references
                          case None => "null"
                          case Some(refs) => "[" + List(seq(|refs|, i requires 0 <= i < |refs| => ReferenceJson(refs[i]))) + "]") +
    ",\"Content\":" + Quote(s.content) + ",\"Error\":" + Quote(s.error) + "}"
  }

  // ---------------------------------------------------------------------
  // Events
  // ---------------------------------------------------------------------

  function TypeCode(k: EventType): nat {
    match k
    case NoType => 0
    case Text => 1
    case Thinking => 2
    case UsageDelta => 3
    case Checkpoint => 4
    case ToolCallEvent => 5
    case ToolResultAccepted => 6
    case TurnEnded => 7
    case HostedSearchCall => 8
    case Done => 9
    case HostedSearchStarted => 10
    case HostedSearchCompleted => 11
    case ThinkingCompleted => 12
    case UsageObserved => 13
  }

  function StringField(key: string, s: string): string {
    if s == "" then "" else key + Quote(s)
  }

  function IntField(key: string, n: int): string {
    if n == 0 then "" else key + Itoa(n)
  }

  const PROGRESS_KEY := ",\"progress_events\":"

  // persistedEvent: the head up to the text, the text, and everything after it
  // except the progress counter that sits in between.
  function HeadJson(e: Event): string {
    "{\"type\":" + Itoa(TypeCode(e.kind))
  }

  function TailJson(e: Event): string {
    IntField(",\"tokens\":", e.tokens) +
    (if e.usage.None? then "" else ",\"usage\":" + UsageJson(e.usage.value)) +
    (if e.toolCall.None? then "" else ",\"tool_call\":" + ToolCallJson(e.toolCall.value)) +
    (if e.toolResult.None? then "" else ",\"tool_result\":" + ToolResultJson(e.toolResult.value)) +
    (if e.search.None? then "" else ",\"hosted_search\":" + SearchJson(e.search.value)) + "}"
  }

  function EventJson(e: Event): string {
    HeadJson(e) + StringField(",\"text\":", e.text) + StringField(",\"signature\":", e.signature) +
    IntField(PROGRESS_KEY, e.progress) + TailJson(e)
  }

  function EventSize(e: Event): nat {
    Size(EventJson(e))
  }

  function ItemsJson(events: seq<Event>): string {
    if events == [] then ""
    else if |events| == 1 then EventJson(events[0])
    else ItemsJson(events[..|events| - 1]) + "," + EventJson(events[|events| - 1])
  }

  function ArrayJson(events: seq<Event>): string {
    "[" + ItemsJson(events) + "]"
  }

  function ArraySize(events: seq<Event>): nat {
    Size(ArrayJson(events))
  }

  lemma SizeOf3(a: string, b: string, c: string)
    ensures Size(a + b + c) == Size(a) + Size(b) + Size(c)
  {
    SizeOfConcatenation(a + b, c);
    SizeOfConcatenation(a, b);
  }

  lemma PunctuationSizes()
    ensures Size("[") == Size("]") == Size(",") == Size("\"") == 1
  {
    assert ""  == "["[..0] == "]"[..0] == ","[..0] == "\""[..0];
  }

  // The size of an array from the size of what precedes its last item.
  lemma ArraySizeOfLast(events: seq<Event>, last: Event)
    ensures ArraySize(events + [last]) ==
            ArraySize(events) + EventSize(last) + if events == [] then 0 else 1
  {
    var all := events + [last];
    assert all[..|all| - 1] == events;
    SizeOf3("[", ItemsJson(events), "]");
    SizeOf3("[", ItemsJson(all), "]");
    if events != [] {
      SizeOf3(ItemsJson(events), ",", EventJson(last));
    } else {
      assert ItemsJson(events) == "" && Size("") == 0;
    }
    PunctuationSizes();
  }

  lemma EmptyArraySize()
    ensures ArraySize([]) == 2
  {
    SizeOf3("[", "", "]");
    PunctuationSizes();
  }

  // The size an event's text and progress counter contribute.
  function TextFieldSize(e: Event): nat {
    Size(StringField(",\"text\":", e.text))
  }

  lemma EventSizeParts(e: Event)
    ensures EventSize(e) == Size(HeadJson(e)) + TextFieldSize(e) + Size(StringField(",\"signature\":", e.signature))
                            + Size(IntField(PROGRESS_KEY, e.progress)) + Size(TailJson(e))
  {
    hide HeadJson, StringField, IntField, TailJson;
    var a, b, c, d := HeadJson(e), StringField(",\"text\":", e.text), StringField(",\"signature\":", e.signature),
        IntField(PROGRESS_KEY, e.progress);
    SizeOfConcatenation(a + b + c + d, TailJson(e));
    SizeOfConcatenation(a + b + c, d);
    SizeOf3(a, b, c);
  }

  // progressFieldSize: what the omitempty progress counter takes.
  function ProgressFieldSize(count: int): nat {
    if count == 0 then 0 else |PROGRESS_KEY| + |Itoa(count)|
  }

  lemma {:induction false} AsciiSize(s: string)
    requires forall i :: 0 <= i < |s| ==> s[i] as int < 0x80
    ensures Size(s) == |s|
  {
    if s != [] {
      AsciiSize(s[..|s| - 1]);
    }
  }

  lemma {:induction false} DigitsAreAscii(n: nat)
    ensures forall i :: 0 <= i < |Digits(n)| ==> Digits(n)[i] as int < 0x80
  {
    if n >= 10 {
      DigitsAreAscii(n / 10);
    }
  }

  lemma ProgressFieldSizeIsExact(count: int)
    ensures ProgressFieldSize(count) == Size(IntField(PROGRESS_KEY, count))
  {
    if count != 0 {
      DigitsAreAscii(if count < 0 then -count else count);
      AsciiSize(Itoa(count));
      AsciiSize(PROGRESS_KEY);
      SizeOfConcatenation(PROGRESS_KEY, Itoa(count));
    }
  }
}
