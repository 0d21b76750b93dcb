// runner.go: what the events of a run say, in terms of what arrived.
module AgentContents {
  import opened Events
  import opened Strings
  import opened AgentLoops

  // ---------------------------------------------------------------------
  // What the events say
  // ---------------------------------------------------------------------

  // Deltas, checkpoints and usage, the hosted tools, the announced calls and the
  // accepted results, each in order.
  datatype View = View(spoken: seq<Event>, hosted: seq<Event>, calls: seq<ToolCall>, results: seq<ToolResult>)

  const NOTHING := View([], [], [], [])

  predicate Speaks(e: Event) {
    || e.kind == Text || e.kind == Thinking || e.kind == ThinkingCompleted || e.kind == UsageDelta || e.kind == UsageObserved
    || e.kind == HostedSearchCall || e.kind == Checkpoint
  }

  function Plus(a: View, b: View): View {
    View(a.spoken + b.spoken, a.hosted + b.hosted, a.calls + b.calls, a.results + b.results)
  }

  function OneEvent(e: Event): View {
    if Speaks(e) then NOTHING.(spoken := [e])
    else if e.kind == HostedSearchStarted || e.kind == HostedSearchCompleted then NOTHING.(hosted := [e])
    else if e.kind == ToolCallEvent && e.toolCall.Some? then NOTHING.(calls := [e.toolCall.value])
    else if e.kind == ToolResultAccepted && e.toolResult.Some? then NOTHING.(results := [e.toolResult.value])
    else NOTHING
  }

  function ViewOf(trace: seq<Event>): View {
    if trace == [] then NOTHING else Plus(ViewOf(trace[..|trace| - 1]), OneEvent(trace[|trace| - 1]))
  }

  // ---------------------------------------------------------------------
  // What arrived
  // ---------------------------------------------------------------------

  const NO_USAGE := Usage(false, TurnEndedUsage, NO_COUNT, NO_COUNT, NO_COUNT, NO_COUNT, NO_COUNT, NO_COUNT)

  // A message of the upstream stream that says something itself: an empty delta does
  // not, a checkpoint comes with the blobs of the moment, a turn end without usage
  // reports an empty one, and an approved new hosted use counts once it is answered.
  function Spoken(m: ServerMessage, blobs: map<string, string>, writes: bool): seq<Event> {
    match m
    case TextDelta(text) => if text == "" then [] else [NO_EVENT.(kind := Text, text := text)]
    case ThinkingDelta(text) => if text == "" then [] else [NO_EVENT.(kind := Thinking, text := text)]
    case ThinkingEnd => [NO_EVENT.(kind := ThinkingCompleted)]
    case TokenDelta(tokens, usage) => [NO_EVENT.(kind := UsageDelta, tokens := tokens, usage := usage)]
    case CheckpointData(checkpoint) => [NO_EVENT.(kind := Checkpoint, checkpoint := checkpoint, blobs := blobs)]
    case TurnEnd(usage) => [NO_EVENT.(kind := UsageObserved, usage := if usage.Some? then usage else Some(NO_USAGE))]
    case Interaction(encodes, newUse) => if encodes && writes && newUse then [NO_EVENT.(kind := HostedSearchCall)] else []
    case _ => []
  }

  // A caller tool call that is neither nameless nor one too many.
  predicate Admits(c: Config, s: Loop, id: string) {
    && s.resultsOpen && id != ""
    && (id in s.pending || (|s.pending| < MAX_PENDING && (c.maxParallel > 0 ==> |s.pending| < c.maxParallel)))
  }

  function Called(c: Config, s: Loop, m: ServerMessage): seq<ToolCall> {
    if m.Mcp? && Admits(c, s, Trim(m.toolCallId)) && Trim(m.toolCallId) !in s.queued
    then [ToolCall(m.messageId, m.execId, Trim(m.toolCallId), m.name, m.arguments)] else []
  }

  function Given(result: ToolResult): ToolResult {
    result.(toolCallId := Trim(result.toolCallId))
  }

  // A result is accepted when its call is pending, or once its call comes, and only
  // if it can be written to the upstream.
  function Accepted(c: Config, s: Loop, input: Input, writes: bool): seq<ToolResult> {
    if !writes then []
    else match input
      case Result(result) =>
        if s.resultsOpen && Trim(result.toolCallId) != "" && Trim(result.toolCallId) in s.pending then [Given(result)] else []
      case Server(m) =>
        if m.Mcp? && Admits(c, s, Trim(m.toolCallId)) && Trim(m.toolCallId) in s.queued then [s.queued[Trim(m.toolCallId)]] else []
      case _ => []
  }

  // A hosted tool that the request allows, under its own id or that of the call.
  predicate Allows(c: Config, m: ServerMessage)
    requires m.HostedTool?
  {
    && m.search.Some? && HostedId(m) != ""
    && ((IsSearch(m.search.value) && c.allowSearch) || (IsFetch(m.search.value) && c.allowFetch))
  }

  function HostedId(m: ServerMessage): string
    requires m.HostedTool? && m.search.Some?
  {
    if Trim(m.search.value.callId) == "" then Trim(m.callId) else Trim(m.search.value.callId)
  }

  function HostedSaid(m: ServerMessage): HostedSearch
    requires m.HostedTool? && m.search.Some?
  {
    if Trim(m.search.value.callId) == "" then m.search.value.(callId := HostedId(m)) else m.search.value
  }

  datatype Field = KindField | QueryField | UrlField | ArgsField | ContentField | ErrorField

  function TextOf(s: HostedSearch, field: Field): string {
    match field
    case KindField => s.kind
    case QueryField => s.query
    case UrlField => s.url
    case ArgsField => s.argsJson
    case ContentField => s.content
    case ErrorField => s.error
  }

  // The last text that is not empty.
  function LastText(all: seq<HostedSearch>, field: Field): string {
    if all == [] then ""
    else if TextOf(all[|all| - 1], field) != "" then TextOf(all[|all| - 1], field)
    else LastText(all[..|all| - 1], field)
  }

  function LastReferences(all: seq<HostedSearch>): Option<seq<SearchReference>>
    requires all != []
  {
    var last := all[|all| - 1].references;
    if |all| == 1 || (last.Some? && last.value != []) then last else LastReferences(all[..|all| - 1])
  }

  // Several messages about one hosted tool: each says more, or corrects.
  function Together(all: seq<HostedSearch>): HostedSearch
    requires all != []
  {
    HostedSearch(all[0].callId, LastText(all, KindField), LastText(all, QueryField), LastText(all, UrlField), LastText(all, ArgsField),
                 LastReferences(all), LastText(all, ContentField), LastText(all, ErrorField))
  }

  // The messages about a hosted tool since it was last completed.
  function HostedSince(c: Config, s: Loop, inputs: seq<(Input, bool)>, id: string): seq<HostedSearch> {
    if inputs == [] then []
    else
      var (before, input) := (inputs[..|inputs| - 1], inputs[|inputs| - 1].0);
      if Run(c, s, before).status == Running && input.Server? && input.message.HostedTool? && Allows(c, input.message)
         && HostedId(input.message) == id
      then if input.message.completed then [] else HostedSince(c, s, before, id) + [HostedSaid(input.message)]
      else HostedSince(c, s, before, id)
  }

  // A hosted tool is announced once its arguments are known, and completed with all
  // that was said about it.
  function Hosted(c: Config, m: ServerMessage, known: seq<HostedSearch>): seq<Event> {
    if !m.HostedTool? || !Allows(c, m) then []
    else
      var all := known + [HostedSaid(m)];
      if m.completed then [NO_EVENT.(kind := HostedSearchCompleted, search := Some(Together(all)))]
      else if ArgsReady(Together(all)) && (known == [] || !ArgsReady(Together(known)))
      then [NO_EVENT.(kind := HostedSearchStarted, search := Some(Together(all)))]
      else []
  }

  function Known(c: Config, s: Loop, inputs: seq<(Input, bool)>, input: Input): seq<HostedSearch> {
    if input.Server? && input.message.HostedTool? && input.message.search.Some?
    then HostedSince(c, s, inputs, HostedId(input.message)) else []
  }

  // One input of a loop that is running.
  function Arrived(c: Config, s: Loop, input: Input, writes: bool, known: seq<HostedSearch>): View {
    if !input.Server? then NOTHING.(results := Accepted(c, s, input, writes))
    else
      View(Spoken(input.message, s.blobs, writes), Hosted(c, input.message, known), Called(c, s, input.message),
           Accepted(c, s, input, writes))
  }

  function Heard(c: Config, s: Loop, inputs: seq<(Input, bool)>): View {
    if inputs == [] then NOTHING
    else
      var (before, last) := (inputs[..|inputs| - 1], inputs[|inputs| - 1]);
      var t := Run(c, s, before);
      Plus(Heard(c, s, before), if t.status == Running then Arrived(c, t, last.0, last.1, Known(c, s, before, last.0)) else NOTHING)
  }

  // ---------------------------------------------------------------------
  // One event more
  // ---------------------------------------------------------------------

  lemma OneMore(trace: seq<Event>, e: Event)
    ensures ViewOf(trace + [e]) == Plus(ViewOf(trace), OneEvent(e))
  {
    assert (trace + [e])[..|trace|] == trace;
  }

  lemma NothingMore(v: View)
    ensures Plus(v, NOTHING) == v && Plus(NOTHING, v) == v
  {
    assert forall s: seq<Event> :: s + [] == s && [] + s == s;
    assert forall s: seq<ToolCall> :: s + [] == s && [] + s == s;
    assert forall s: seq<ToolResult> :: s + [] == s && [] + s == s;
  }

  lemma EmitShows(s: Loop, e: Event)
    ensures ViewOf(Emit(s, e).trace) == Plus(ViewOf(s.trace), OneEvent(e))
  {
    OneMore(s.trace, e);
  }

  lemma OneMoreText(all: seq<HostedSearch>, s: HostedSearch, field: Field)
    ensures LastText(all + [s], field) == Or(TextOf(s, field), LastText(all, field))
  {
    assert (all + [s])[..|all|] == all;
  }

  lemma OneMoreTogether(all: seq<HostedSearch>, s: HostedSearch)
    ensures Together(all + [s]) == if all == [] then s else MergeSearch(Together(all), s)
  {
    hide LastText;
    OneMoreText(all, s, KindField);
    OneMoreText(all, s, QueryField);
    OneMoreText(all, s, UrlField);
    OneMoreText(all, s, ArgsField);
    OneMoreText(all, s, ContentField);
    OneMoreText(all, s, ErrorField);
    assert (all + [s])[..|all|] == all;
    if all == [] {
      assert forall field :: LastText([], field) == "" by { NoText(); }
    }
  }

  lemma NoText()
    ensures forall field :: LastText([], field) == ""
  {}

  // ---------------------------------------------------------------------
  // One input
  // ---------------------------------------------------------------------

  // What a step adds to the events, and which tables it leaves alone.
  predicate Shows(s: Loop, t: Loop, v: View) {
    ViewOf(t.trace) == Plus(ViewOf(s.trace), v)
  }

  predicate Keeps(s: Loop, t: Loop) {
    t.hosted == s.hosted && t.blobs == s.blobs
  }

  predicate Dequeues(s: Loop, t: Loop) {
    forall id :: id in t.queued ==> id in s.queued && t.queued[id] == s.queued[id]
  }

  predicate QueuedAs(s: Loop, id: string, last: Option<ToolResult>) {
    id in s.queued ==> Some(s.queued[id]) == last
  }

  // The tools that are open are those with messages since they were completed.
  predicate HostedAs(s: Loop, id: string, known: seq<HostedSearch>) {
    (id in s.hosted <==> known != []) && (known != [] ==> s.hosted[id] == Together(known))
  }

  lemma SilentShows(s: Loop, t: Loop)
    requires t.trace == s.trace && t.hosted == s.hosted && t.blobs == s.blobs
    ensures Shows(s, t, NOTHING) && Keeps(s, t)
  {
    hide ViewOf;
    NothingMore(ViewOf(s.trace));
  }

  lemma FailShows(s: Loop)
    ensures Shows(s, s, NOTHING) && Keeps(s, s) && Dequeues(s, s)
    ensures Shows(s, Fail(s), NOTHING) && Keeps(s, Fail(s)) && Dequeues(s, Fail(s))
  {
    hide Shows, Keeps;
    SilentShows(s, s);
    SilentShows(s, Fail(s));
  }

  lemma EmitIsShown(s: Loop, e: Event)
    ensures Shows(s, Emit(s, e), OneEvent(e)) && Keeps(s, Emit(s, e)) && Dequeues(s, Emit(s, e))
  {
    hide ViewOf, Plus;
    EmitShows(s, e);
  }

  lemma SendShows(s: Loop, result: ToolResult, writes: bool)
    ensures var t := SendResult(s, result, writes);
            Shows(s, t, NOTHING.(results := if writes then [result] else [])) && Keeps(s, t) && t.queued == s.queued
  {
    hide ViewOf;
    if writes {
      EmitShows(s.(pending := s.pending - {result.toolCallId}), NO_EVENT.(kind := ToolResultAccepted, toolResult := Some(result)));
    } else {
      FailShows(s);
    }
  }

  lemma ResultShows(c: Config, s: Loop, given: ToolResult, writes: bool)
    ensures var t := TakeResult(s, given, writes);
            Shows(s, t, NOTHING.(results := Accepted(c, s, Result(given), writes))) && Keeps(s, t)
  {
    hide Shows, Keeps, Trim, SendResult, Fail, Admits;
    var result := Given(given);
    FailShows(s);
    if s.resultsOpen && result.toolCallId != "" {
      if result.toolCallId in s.pending {
        SendShows(s, result, writes);
      } else if |s.queued| < MAX_PENDING {
        SilentShows(s, s.(queued := s.queued[result.toolCallId := result]));
      }
    }
  }

  // A call that is admitted and whose result is not here yet.
  lemma AnnouncementShows(s: Loop, t: Loop, call: ToolCall)
    requires t == s.(streamed := t.streamed, pending := t.pending)
    ensures var u := Emit(t, NO_EVENT.(kind := ToolCallEvent, toolCall := Some(call)));
            && Shows(s, u, NOTHING.(calls := [call])) && Keeps(s, u) && Dequeues(s, u)
            && Shows(s, Finish(u), NOTHING.(calls := [call])) && Keeps(s, Finish(u)) && Dequeues(s, Finish(u))
            && var v := Emit(u.(parked := true), NO_EVENT.(kind := TurnEnded));
               Shows(s, v, NOTHING.(calls := [call])) && Keeps(s, v) && Dequeues(s, v)
  {
    hide ViewOf;
    var u := Emit(t, NO_EVENT.(kind := ToolCallEvent, toolCall := Some(call)));
    EmitShows(t, NO_EVENT.(kind := ToolCallEvent, toolCall := Some(call)));
    EmitShows(u, NO_EVENT.(kind := Done));
    EmitShows(u.(parked := true), NO_EVENT.(kind := TurnEnded));
    NothingMore(ViewOf(u.trace));
  }

  lemma LateResultShows(s: Loop, t: Loop, id: string, writes: bool)
    requires id in s.queued && t == s.(streamed := t.streamed, pending := t.pending, queued := s.queued - {id})
    ensures var u := SendResult(t, s.queued[id], writes);
            Shows(s, u, NOTHING.(results := if writes then [s.queued[id]] else [])) && Keeps(s, u) && Dequeues(s, u)
  {
    hide ViewOf, SendResult, Plus;
    SendShows(t, s.queued[id], writes);
  }

  lemma McpShows(c: Config, s: Loop, m: ServerMessage, writes: bool)
    requires m.Mcp?
    ensures var t := TakeMcp(c, s, m, writes);
            && Shows(s, t, View([], [], Called(c, s, m), Accepted(c, s, Server(m), writes)))
            && Keeps(s, t) && Dequeues(s, t)
  {
    hide Shows, Keeps, Dequeues, Trim, SendResult, Emit, Finish, Fail;
    FailShows(s);
    var id := Trim(m.toolCallId);
    var call := ToolCall(m.messageId, m.execId, id, m.name, m.arguments);
    var t := s.(streamed := s.streamed - {id}, pending := s.pending[id := call]);
    if Admits(c, s, id) {
      if id in s.queued {
        LateResultShows(s, t.(queued := t.queued - {id}), id, writes);
      } else {
        AnnouncementShows(s, t, call);
      }
    }
  }

  // The checks of a message about a hosted tool, and what it is merged with.
  lemma HostedApplies(c: Config, s: Loop, m: ServerMessage)
    requires m.HostedTool?
    ensures var t := ApplyHosted(c, s, m.completed, m.search, m.callId);
            if !Allows(c, m) then t == Fail(s)
            else
              var (id, search) := (HostedId(m), HostedSaid(m));
              var merged := if id in s.hosted then MergeSearch(s.hosted[id], search) else search;
              var open := s.(hosted := s.hosted[id := merged]);
              t == if m.completed then
                     Emit(s.(hosted := s.hosted - {id}), NO_EVENT.(kind := HostedSearchCompleted, search := Some(merged)))
                   else if !ArgsReady(merged) || (id in s.hosted && ArgsReady(s.hosted[id])) then open
                   else Emit(open, NO_EVENT.(kind := HostedSearchStarted, search := Some(merged)))
  {
    hide Trim, MergeSearch, ArgsReady, Emit, Fail;
  }

  // After a message that is allowed, its tool is open with all that was said, or
  // completed; the other tools stay as they are.
  predicate HostedNow(s: Loop, t: Loop, m: ServerMessage, all: HostedSearch)
    requires m.HostedTool? && m.search.Some?
  {
    t.blobs == s.blobs && t.queued == s.queued && t.hosted == if m.completed then s.hosted - {HostedId(m)} else s.hosted[HostedId(m) := all]
  }

  lemma HostedEmits(s: Loop, m: ServerMessage, all: HostedSearch)
    requires m.HostedTool? && m.search.Some?
    ensures m.completed ==>
              var t := Emit(s.(hosted := s.hosted - {HostedId(m)}), NO_EVENT.(kind := HostedSearchCompleted, search := Some(all)));
              && HostedNow(s, t, m, all)
              && Shows(s, t, NOTHING.(hosted := [NO_EVENT.(kind := HostedSearchCompleted, search := Some(all))]))
    ensures !m.completed ==>
              var open := s.(hosted := s.hosted[HostedId(m) := all]);
              var t := Emit(open, NO_EVENT.(kind := HostedSearchStarted, search := Some(all)));
              && HostedNow(s, open, m, all) && Shows(s, open, NOTHING)
              && HostedNow(s, t, m, all)
              && Shows(s, t, NOTHING.(hosted := [NO_EVENT.(kind := HostedSearchStarted, search := Some(all))]))
  {
    hide ViewOf, HostedId;
    NothingMore(ViewOf(s.trace));
    EmitShows(s.(hosted := s.hosted - {HostedId(m)}), NO_EVENT.(kind := HostedSearchCompleted, search := Some(all)));
    EmitShows(s.(hosted := s.hosted[HostedId(m) := all]), NO_EVENT.(kind := HostedSearchStarted, search := Some(all)));
  }

  lemma HostedShows(c: Config, s: Loop, m: ServerMessage, known: seq<HostedSearch>)
    requires m.HostedTool? && Allows(c, m) && HostedAs(s, HostedId(m), known)
    ensures var t := ApplyHosted(c, s, m.completed, m.search, m.callId);
            Shows(s, t, NOTHING.(hosted := Hosted(c, m, known))) && HostedNow(s, t, m, Together(known + [HostedSaid(m)]))
  {
    hide Shows, HostedNow, Trim, Together, MergeSearch, ArgsReady, ApplyHosted, Emit, IsSearch, IsFetch, HostedId, HostedSaid;
    HostedApplies(c, s, m);
    OneMoreTogether(known, HostedSaid(m));
    HostedEmits(s, m, Together(known + [HostedSaid(m)]));
  }

  lemma EndEventsShow(s: Loop, e: Event)
    ensures var t := Emit(s.(turnEnded := true), e); Shows(s, t, OneEvent(e)) && Keeps(s, t) && Dequeues(s, t)
    ensures var t := Emit(Emit(s.(turnEnded := true), e).(parked := true), NO_EVENT.(kind := TurnEnded));
            Shows(s, t, OneEvent(e)) && Keeps(s, t) && Dequeues(s, t)
  {
    hide ViewOf;
    EmitShows(s.(turnEnded := true), e);
    EmitShows(Emit(s.(turnEnded := true), e).(parked := true), NO_EVENT.(kind := TurnEnded));
    NothingMore(Plus(ViewOf(s.trace), OneEvent(e)));
  }

  lemma EndTurnShows(s: Loop, usage: Option<UsageObservation>, writes: bool)
    ensures var t := EndTurn(s, usage);
            Shows(s, t, NOTHING.(spoken := Spoken(TurnEnd(usage), s.blobs, writes))) && Keeps(s, t) && Dequeues(s, t)
  {
    hide Shows, Keeps, Dequeues, Emit;
    EndEventsShow(s, NO_EVENT.(kind := UsageObserved, usage := Some(if usage.Some? then usage.value else NO_USAGE)));
  }

  predicate Speech(m: ServerMessage) {
    m.TextDelta? || m.ThinkingDelta? || m.ThinkingEnd? || m.TokenDelta? || m.CheckpointData? || m.TurnEnd? || m.Interaction?
  }

  lemma SpeechShows(c: Config, s: Loop, m: ServerMessage, writes: bool)
    requires Speech(m)
    ensures var t := TakeMessage(c, s, m, writes);
            Shows(s, t, NOTHING.(spoken := Spoken(m, s.blobs, writes))) && Keeps(s, t) && Dequeues(s, t)
  {
    hide Shows, Keeps, Dequeues, EndTurn, TakeMcp, ApplyHosted, RecordStreamed, Emit, Fail;
    FailShows(s);
    if m.TurnEnd? {
      EndTurnShows(s, m.usage, writes);
    } else if Spoken(m, s.blobs, writes) != [] {
      EmitIsShown(s, Spoken(m, s.blobs, writes)[0]);
    }
  }

  // A stored blob.
  predicate Stores(s: Loop, t: Loop, m: ServerMessage)
    requires m.KvSet?
  {
    t.hosted == s.hosted && t.blobs == if m.fits then s.blobs[m.key := m.value] else s.blobs
  }

  lemma StoreShows(s: Loop, m: ServerMessage)
    requires m.KvSet?
    ensures !m.fits ==> Stores(s, Fail(s), m)
    ensures m.fits ==> var t := s.(blobs := s.blobs[m.key := m.value]);
                       && Shows(s, t, NOTHING) && Dequeues(s, t) && Stores(s, t, m)
                       && Shows(s, Fail(t), NOTHING) && Dequeues(s, Fail(t)) && Stores(s, Fail(t), m)
  {
    hide ViewOf;
    NothingMore(ViewOf(s.trace));
  }

  lemma StreamedShows(c: Config, s: Loop, m: ServerMessage)
    requires m.StreamMcp?
    ensures var t := RecordStreamed(c, s, m.toolName, m.toolCallId, m.callId); Shows(s, t, NOTHING) && Keeps(s, t) && Dequeues(s, t)
  {
    var id := if Trim(m.toolCallId) == "" then Trim(m.callId) else Trim(m.toolCallId);
    var t := s.(streamed := s.streamed + {id});
    assert Dequeues(s, t);
    hide Shows, Keeps, Dequeues, Trim;
    FailShows(s);
    SilentShows(s, t);
  }

  lemma OtherShows(c: Config, s: Loop, m: ServerMessage, writes: bool)
    requires !m.HostedTool? && !m.Mcp? && !Speech(m)
    ensures var t := TakeMessage(c, s, m, writes);
            Shows(s, t, NOTHING) && (!m.KvSet? ==> Keeps(s, t)) && Dequeues(s, t) && Spoken(m, s.blobs, writes) == []
  {
    hide Shows, Keeps, Dequeues, EndTurn, TakeMcp, ApplyHosted, RecordStreamed, Emit, Fail;
    FailShows(s);
    match m {
      case KvSet(_, _, _) => StoreShows(s, m);
      case StreamMcp(_, _, _) => StreamedShows(c, s, m);
      case _ =>
    }
  }

  lemma DispatchedMessage(c: Config, s: Loop, m: ServerMessage, writes: bool)
    ensures m.Mcp? ==> TakeMessage(c, s, m, writes) == TakeMcp(c, s, m, writes)
    ensures m.HostedTool? ==> TakeMessage(c, s, m, writes) == ApplyHosted(c, s, m.completed, m.search, m.callId)
  {
    hide TakeMcp, ApplyHosted, EndTurn, RecordStreamed, Emit, Fail;
  }

  lemma MessageShows(c: Config, s: Loop, m: ServerMessage, writes: bool, known: seq<HostedSearch>)
    requires m.HostedTool? && Allows(c, m) ==> HostedAs(s, HostedId(m), known)
    ensures Shows(s, TakeMessage(c, s, m, writes), Arrived(c, s, Server(m), writes, known))
  {
    hide Shows, HostedAs, TakeMessage, TakeMcp, ApplyHosted, Together, Admits, HostedNow, Trim, Keeps, Dequeues, Fail;
    DispatchedMessage(c, s, m, writes);
    if m.HostedTool? {
      if Allows(c, m) {
        HostedShows(c, s, m, known);
      } else {
        HostedApplies(c, s, m);
        FailShows(s);
      }
    } else if m.Mcp? {
      McpShows(c, s, m, writes);
    } else if Speech(m) {
      SpeechShows(c, s, m, writes);
      hide Spoken;
    } else {
      OtherShows(c, s, m, writes);
      hide Spoken;
    }
  }

  lemma InputShows(c: Config, s: Loop, input: Input, writes: bool, known: seq<HostedSearch>)
    requires s.status == Running
    requires input.Server? && input.message.HostedTool? && Allows(c, input.message) ==> HostedAs(s, HostedId(input.message), known)
    ensures Shows(s, Step(c, s, input, writes), Arrived(c, s, input, writes, known))
  {
    hide Shows, Keeps, Dequeues, TakeResult, TakeMessage, Trim, MayFinish, Emit, HostedAs, Allows, HostedId, Finish, Fail;
    FailShows(s);
    match input {
      case Result(given) =>
        ResultShows(c, s, given, writes);
        hide Accepted;
      case Server(m) =>
        MessageShows(c, s, m, writes, known);
        hide Arrived;
      case EndStream(_) => FinishShows(s);
      case ResultsClosed => SilentShows(s, s.(resultsOpen := false));
      case _ =>
    }
  }

  lemma FinishShows(s: Loop)
    ensures Shows(s, Finish(s), NOTHING) && Keeps(s, Finish(s)) && Dequeues(s, Finish(s))
  {
    hide ViewOf, Plus;
    EmitShows(s, NO_EVENT.(kind := Done));
  }

  // ---------------------------------------------------------------------
  // The tables
  // ---------------------------------------------------------------------

  lemma StepKeepsTables(c: Config, s: Loop, input: Input, writes: bool)
    requires !(input.Server? && (input.message.HostedTool? || input.message.KvSet?))
    ensures Keeps(s, Step(c, s, input, writes)) && (!input.Result? ==> Dequeues(s, Step(c, s, input, writes)))
  {
    hide Shows, Keeps, Dequeues, TakeResult, TakeMessage, MayFinish, Fail, Finish, Spoken, Accepted;
    FailShows(s);
    match input {
      case Result(given) => ResultShows(c, s, given, writes);
      case Server(m) =>
        DispatchedMessage(c, s, m, writes);
        if m.Mcp? {
          McpShows(c, s, m, writes);
        } else if Speech(m) {
          SpeechShows(c, s, m, writes);
        } else {
          OtherShows(c, s, m, writes);
        }
      case EndStream(_) => FinishShows(s);
      case ResultsClosed => ClosedKeeps(s);
      case _ =>
    }
  }

  lemma ClosedKeeps(s: Loop)
    ensures var t := s.(resultsOpen := false); Keeps(s, t) && Dequeues(s, t)
  {}

  predicate KeepsOthers(s: Loop, t: Loop) {
    t.blobs == s.blobs && t.queued == s.queued
  }

  lemma HostedChangesKeep(s: Loop, hosted: map<string, HostedSearch>, e: Event)
    ensures var t := s.(hosted := hosted); KeepsOthers(s, Fail(s)) && KeepsOthers(s, t) && KeepsOthers(s, Emit(t, e))
  {}

  lemma HostedKeeps(c: Config, s: Loop, m: ServerMessage)
    requires m.HostedTool?
    ensures KeepsOthers(s, ApplyHosted(c, s, m.completed, m.search, m.callId))
  {
    hide ApplyHosted, Trim, MergeSearch, ArgsReady, HostedId, HostedSaid, IsSearch, IsFetch, KeepsOthers, Emit, Fail;
    HostedApplies(c, s, m);
    HostedChangesKeep(s, s.hosted, NO_EVENT);
    if Allows(c, m) {
      var merged := if HostedId(m) in s.hosted then MergeSearch(s.hosted[HostedId(m)], HostedSaid(m)) else HostedSaid(m);
      HostedChangesKeep(s, s.hosted - {HostedId(m)}, NO_EVENT.(kind := HostedSearchCompleted, search := Some(merged)));
      HostedChangesKeep(s, s.hosted[HostedId(m) := merged], NO_EVENT.(kind := HostedSearchStarted, search := Some(merged)));
    }
  }

  lemma StepHosts(c: Config, s: Loop, m: ServerMessage, writes: bool, id: string, known: seq<HostedSearch>, own: seq<HostedSearch>)
    requires m.HostedTool? && HostedAs(s, id, known) && s.status == Running
    requires m.search.Some? ==> HostedAs(s, HostedId(m), own) && (HostedId(m) == id ==> own == known)
    ensures HostedAs(Step(c, s, Server(m), writes), id,
                     if Allows(c, m) && HostedId(m) == id then if m.completed then [] else known + [HostedSaid(m)] else known)
  {
    hide Trim, Together, TakeMessage, ApplyHosted, HostedId, HostedSaid, Shows, IsSearch, IsFetch;
    DispatchedMessage(c, s, m, writes);
    if Allows(c, m) {
      HostedShows(c, s, m, own);
    } else {
      HostedApplies(c, s, m);
    }
  }

  lemma {:induction false} HostedIsKnown(c: Config, blobs: map<string, string>, resultsOpen: bool, inputs: seq<(Input, bool)>, id: string)
    ensures var s := NewLoop(blobs, resultsOpen); HostedAs(Run(c, s, inputs), id, HostedSince(c, s, inputs, id))
  {
    hide HostedAs, Step, Trim, Keeps, Dequeues, Allows, HostedId;
    var s := NewLoop(blobs, resultsOpen);
    if inputs == [] {
      NothingHosted(blobs, resultsOpen);
    } else {
      var (before, last) := (inputs[..|inputs| - 1], inputs[|inputs| - 1]);
      HostedIsKnown(c, blobs, resultsOpen, before, id);
      var (t, known) := (Run(c, s, before), HostedSince(c, s, before, id));
      if t.status != Running {
        StoppedStays(c, t, last.0, last.1);
      } else if last.0.Server? && last.0.message.HostedTool? {
        var own := Known(c, s, before, last.0);
        if last.0.message.search.Some? {
          HostedIsKnown(c, blobs, resultsOpen, before, HostedId(last.0.message));
        }
        StepHosts(c, t, last.0.message, last.1, id, known, own);
        hide Allows, HostedId, HostedSaid;
      } else {
        if last.0.Server? && last.0.message.KvSet? {
          StepStores(c, t, last.0, last.1);
        } else {
          StepKeepsTables(c, t, last.0, last.1);
        }
        SameHosted(t, Step(c, t, last.0, last.1), id, known);
      }
    }
  }

  lemma StoppedStays(c: Config, s: Loop, input: Input, writes: bool)
    requires s.status != Running
    ensures Step(c, s, input, writes) == s
  {}

  lemma SameHosted(s: Loop, t: Loop, id: string, known: seq<HostedSearch>)
    requires HostedAs(s, id, known) && (Keeps(s, t) || t.hosted == s.hosted)
    ensures HostedAs(t, id, known)
  {}

  lemma NothingHosted(blobs: map<string, string>, resultsOpen: bool)
    ensures forall id :: HostedAs(NewLoop(blobs, resultsOpen), id, [])
  {}

  // The events of a run say exactly what arrived while it was running: every delta
  // with its text, every usage report, every hosted tool with all that was said about it, every call with
  // its ids, name and arguments, and every result that was accepted, each in order.
  lemma {:induction false} EventsSayWhatArrived(c: Config, blobs: map<string, string>, resultsOpen: bool, inputs: seq<(Input, bool)>)
    ensures var s := NewLoop(blobs, resultsOpen); ViewOf(Run(c, s, inputs).trace) == Heard(c, s, inputs)
  {
    hide Step, Arrived, HostedAs, ViewOf, Trim;
    var s := NewLoop(blobs, resultsOpen);
    if inputs == [] {
      NoEvents();
    } else {
      var (before, last) := (inputs[..|inputs| - 1], inputs[|inputs| - 1]);
      EventsSayWhatArrived(c, blobs, resultsOpen, before);
      var t := Run(c, s, before);
      if t.status == Running {
        if last.0.Server? && last.0.message.HostedTool? && last.0.message.search.Some? {
          HostedIsKnown(c, blobs, resultsOpen, before, HostedId(last.0.message));
        }
        InputShows(c, t, last.0, last.1, Known(c, s, before, last.0));
      } else {
        StoppedStays(c, t, last.0, last.1);
        NothingMore(ViewOf(t.trace));
      }
    }
  }

  lemma NoEvents()
    ensures ViewOf([]) == NOTHING
  {}

  // ---------------------------------------------------------------------
  // What is kept for later
  // ---------------------------------------------------------------------

  // The last result that was given for a call.
  function LastGiven(c: Config, s: Loop, inputs: seq<(Input, bool)>, id: string): Option<ToolResult> {
    if inputs == [] then None
    else
      var (before, input) := (inputs[..|inputs| - 1], inputs[|inputs| - 1].0);
      var t := Run(c, s, before);
      if t.status == Running && t.resultsOpen && input.Result? && Trim(input.result.toolCallId) == id then Some(Given(input.result))
      else LastGiven(c, s, before, id)
  }

  lemma ResultQueues(s: Loop, given: ToolResult, writes: bool, id: string, last: Option<ToolResult>)
    requires QueuedAs(s, id, last) && !(id in s.pending && id in s.queued)
    ensures var t := TakeResult(s, given, writes);
            || t.status != Running
            || QueuedAs(t, id, if s.resultsOpen && Trim(given.toolCallId) == id then Some(Given(given)) else last)
  {
    hide Trim, SendResult, Shows, Keeps;
    var result := Given(given);
    if s.resultsOpen && result.toolCallId != "" {
      if result.toolCallId in s.pending {
        SendShows(s, result, writes);
        var t := TakeResult(s, given, writes);
        assert t == SendResult(s, result, writes);
      } else if |s.queued| < MAX_PENDING {
      }
    }
  }

  lemma StepQueues(c: Config, s: Loop, input: Input, writes: bool, id: string, last: Option<ToolResult>)
    requires s.status == Running && !(id in s.pending && id in s.queued) && QueuedAs(s, id, last)
    ensures var t := Step(c, s, input, writes);
            var given := s.resultsOpen && input.Result? && Trim(input.result.toolCallId) == id;
            t.status != Running || QueuedAs(t, id, if given then Some(Given(input.result)) else last)
  {
    hide Trim, TakeMessage, MayFinish, TakeResult, Keeps, QueuedAs, Dequeues, Given;
    if input.Result? {
      ResultQueues(s, input.result, writes, id, last);
    } else {
      if input.Server? && input.message.HostedTool? {
        DispatchedMessage(c, s, input.message, writes);
        HostedKeeps(c, s, input.message);
      } else if input.Server? && input.message.KvSet? {
        OtherShows(c, s, input.message, writes);
      } else {
        StepKeepsTables(c, s, input, writes);
      }
      hide Step;
      StillQueued(s, Step(c, s, input, writes), id, last);
    }
  }

  lemma StillQueued(s: Loop, t: Loop, id: string, last: Option<ToolResult>)
    requires QueuedAs(s, id, last) && Dequeues(s, t)
    ensures QueuedAs(t, id, last)
  {}

  // A result that waits for its call is the last one that was given for it.
  lemma {:induction false} QueuedIsLastGiven(
      c: Config, blobs: map<string, string>, resultsOpen: bool, inputs: seq<(Input, bool)>, id: string)
    ensures var s := NewLoop(blobs, resultsOpen);
            Run(c, s, inputs).status == Running ==> QueuedAs(Run(c, s, inputs), id, LastGiven(c, s, inputs, id))
  {
    hide Step, Trim, QueuedAs;
    var s := NewLoop(blobs, resultsOpen);
    if inputs == [] {
      assert QueuedAs(s, id, None) by { NothingQueued(blobs, resultsOpen, id); }
    } else {
      var (before, last) := (inputs[..|inputs| - 1], inputs[|inputs| - 1]);
      var t := Run(c, s, before);
      QueuedIsLastGiven(c, blobs, resultsOpen, before, id);
      if t.status == Running {
        RunKeepsInv(c, blobs, resultsOpen, before);
        PendingIsNotQueued(c, t, id);
        StepQueues(c, t, last.0, last.1, id, LastGiven(c, s, before, id));
      } else {
        StoppedStays(c, t, last.0, last.1);
      }
    }
  }

  lemma NothingQueued(blobs: map<string, string>, resultsOpen: bool, id: string)
    ensures QueuedAs(NewLoop(blobs, resultsOpen), id, None)
  {}

  lemma PendingIsNotQueued(c: Config, s: Loop, id: string)
    requires Inv(c, s) && s.status == Running
    ensures !(id in s.pending && id in s.queued)
  {
    hide TraceInv;
  }

  // The blobs of a checkpoint are the given ones and those that were stored since.
  function Stored(c: Config, s: Loop, inputs: seq<(Input, bool)>): map<string, string> {
    if inputs == [] then s.blobs
    else
      var (before, input) := (inputs[..|inputs| - 1], inputs[|inputs| - 1].0);
      if Run(c, s, before).status == Running && input.Server? && input.message.KvSet? && input.message.fits
      then Stored(c, s, before)[input.message.key := input.message.value]
      else Stored(c, s, before)
  }

  lemma StoreKeeps(c: Config, s: Loop, m: ServerMessage, writes: bool)
    requires m.KvSet?
    ensures Stores(s, TakeMessage(c, s, m, writes), m)
  {
    hide TakeMcp, ApplyHosted, EndTurn, RecordStreamed, Emit, Fail, Stores, Shows, Dequeues;
    StoreShows(s, m);
  }

  lemma StepStores(c: Config, s: Loop, input: Input, writes: bool)
    requires s.status == Running
    ensures var t := Step(c, s, input, writes);
            && t.blobs == (if input.Server? && input.message.KvSet? && input.message.fits
                           then s.blobs[input.message.key := input.message.value] else s.blobs)
            && (input.Server? && input.message.KvSet? ==> t.hosted == s.hosted)
  {
    hide TakeMessage, ApplyHosted, Dequeues;
    if input.Server? && input.message.KvSet? {
      StoreKeeps(c, s, input.message, writes);
    } else if input.Server? && input.message.HostedTool? {
      DispatchedMessage(c, s, input.message, writes);
      HostedKeeps(c, s, input.message);
    } else {
      hide Step;
      StepKeepsTables(c, s, input, writes);
    }
  }

  lemma {:induction false} BlobsAreStored(c: Config, s: Loop, inputs: seq<(Input, bool)>)
    ensures Run(c, s, inputs).blobs == Stored(c, s, inputs)
  {
    hide Step;
    if inputs != [] {
      var (before, last) := (inputs[..|inputs| - 1], inputs[|inputs| - 1]);
      BlobsAreStored(c, s, before);
      if Run(c, s, before).status == Running {
        StepStores(c, Run(c, s, before), last.0, last.1);
      } else {
        StoppedStays(c, Run(c, s, before), last.0, last.1);
      }
    }
  }
}
